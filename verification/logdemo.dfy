/** `main` of the logging demo: pick a sink from the first argument, then log three messages. */
module LogDemo {
  import opened Wrappers
  import opened Streams
  import opened Sinks
  import opened Logging

  datatype Exit = Exit(code: int, lines: seq<Line>)

  const Complete: string := "Logging complete."
  const NoArgument: string := "No sink type specified. Using default: CONSOLE."
  const ValidOptions: string := "Valid options: console, file, none"
  const Message1: string := "Test message 1"
  const Message2: string := "Test message 2"
  const Message3: string := "Test message 3"

  /**
    The straight-line body of the `try` block once the kind is known: the first
    `Logger::instance()` constructs the logger, then come `set_sink` and three `log` calls.
  */
  function Session(before: seq<Line>, k: SinkType): Logger {
    var l := SetSink(Construct(before), k);
    Log(Log(Log(l, Message1), Message2), Message3)
  }

  /** All lines of a run once the kind `k` is known, closing line included. */
  function Transcript(before: seq<Line>, k: SinkType): seq<Line> {
    Session(before, k).out + [Line(StdOut, Complete)]
  }

  /** The two lines on standard error when the sink name is rejected. */
  function Rejection(input: string): (r: seq<Line>)
    ensures |r| == 2
    ensures forall i :: 0 <= i < |r| ==> r[i].stream == StdErr
  {
    [Line(StdErr, "Error: " + Message(UnknownSinkType(input))), Line(StdErr, ValidOptions)]
  }

  /**
    `argv` includes the program name. A bad sink name is rejected before the logger
    is first used, so the singleton is never built and nothing is logged.
  */
  function DemoMain(argv: seq<string>): (r: Exit)
    ensures r.code in {0, 1}
    ensures r.code == 1 <==> |argv| >= 2 && ParseSinkType(argv[1]).Err?
    ensures r.code == 1 ==> forall i :: 0 <= i < |r.lines| ==> r.lines[i].stream == StdErr
  {
    if |argv| >= 2 then
      match ParseSinkType(argv[1])
      case Err(_) => Exit(1, Rejection(argv[1]))
      case Ok(k) => Exit(0, Transcript([], k))
    else Exit(0, Transcript([Line(StdOut, NoArgument)], Console))
  }

  /** The three messages as the sink `k` tags them, on stream `s`. */
  function Tagged(k: SinkType, s: Stream): seq<string> {
    Texts(Write(k, Message1), s) + Texts(Write(k, Message2), s) + Texts(Write(k, Message3), s)
  }

  /** The three demo messages, each behind the sink's tag. */
  function Messages(tag: string): seq<string> {
    [tag + Message1] + [tag + Message2] + [tag + Message3]
  }

  /** The lines a session appends: two announcements, then whatever the sink writes. */
  lemma SessionLines(before: seq<Line>, k: SinkType)
    ensures Session(before, k).sink == k
    ensures Session(before, k).out
         == before + [Line(StdOut, Announcement(Console)), Line(StdOut, Announcement(k))]
            + (Write(k, Message1) + Write(k, Message2) + Write(k, Message3))
  {
  }

  /** A session seen on one stream. */
  lemma SessionTexts(before: seq<Line>, k: SinkType, s: Stream)
    ensures Texts(Session(before, k).out, s)
         == Texts(before, s)
            + (TextOn(Line(StdOut, Announcement(Console)), s) + TextOn(Line(StdOut, Announcement(k)), s))
            + Tagged(k, s)
  {
    SessionLines(before, k);
    var a := [Line(StdOut, Announcement(Console)), Line(StdOut, Announcement(k))];
    var w1, w2, w3 := Write(k, Message1), Write(k, Message2), Write(k, Message3);
    TextsAppend(before, a, s);
    TextsAppend(before + a, w1 + w2 + w3, s);
    TextsAppend(w1 + w2, w3, s);
    TextsAppend(w1, w2, s);
    assert a == [a[0]] + [a[1]];
    TextsAppend([a[0]], [a[1]], s);
    TextsSingle(a[0], s);
    TextsSingle(a[1], s);
  }

  /** What each sink makes of the three demo messages. */
  lemma TaggedBySink(k: SinkType)
    ensures Tagged(k, StdOut) == if k == Console then Messages("[Console] ") else []
    ensures Tagged(k, AppLog) == if k == File then Messages("[File] ") else []
    ensures Tagged(k, StdErr) == []
  {
    match k
    case Console => TaggedConsole();
    case File => TaggedFile();
    case Discard =>
  }

  lemma TaggedConsole()
    ensures Tagged(Console, StdOut) == Messages("[Console] ")
    ensures Tagged(Console, AppLog) == [] && Tagged(Console, StdErr) == []
  {
    WriteRouting(Console, Message1);
    WriteRouting(Console, Message2);
    WriteRouting(Console, Message3);
  }

  lemma TaggedFile()
    ensures Tagged(File, AppLog) == Messages("[File] ")
    ensures Tagged(File, StdOut) == [] && Tagged(File, StdErr) == []
  {
    WriteRouting(File, Message1);
    WriteRouting(File, Message2);
    WriteRouting(File, Message3);
  }

  /** A transcript seen on one stream: the session's lines, then the closing line on stdout. */
  lemma TranscriptTexts(before: seq<Line>, k: SinkType, s: Stream)
    ensures Texts(Transcript(before, k), s)
         == Texts(before, s)
            + (if s == StdOut then [Announcement(Console), Announcement(k)] else [])
            + Tagged(k, s)
            + (if s == StdOut then [Complete] else [])
  {
    var done := Line(StdOut, Complete);
    SessionTexts(before, k, s);
    TextsAppend(Session(before, k).out, [done], s);
    TextsSingle(done, s);
  }

  lemma SelectedStdOut(k: SinkType)
    ensures Texts(Transcript([], k), StdOut)
         == [Announcement(Console), Announcement(k)]
            + (if k == Console then Messages("[Console] ") else [])
            + [Complete]
  {
    TranscriptTexts([], k, StdOut);
    TaggedBySink(k);
  }

  lemma SelectedOther(k: SinkType)
    ensures Texts(Transcript([], k), AppLog)
         == if k == File then Messages("[File] ") else []
    ensures Texts(Transcript([], k), StdErr) == []
  {
    TranscriptTexts([], k, AppLog);
    TranscriptTexts([], k, StdErr);
    TaggedBySink(k);
  }

  /**
    With a recognised sink name: the constructor's CONSOLE announcement, the chosen
    kind's announcement, the three messages where that sink sends them, and the
    closing line. Console messages go to stdout, file messages only to `app.log`,
    and NONE drops them.
  */
  lemma DemoSelected(argv: seq<string>, k: SinkType)
    requires |argv| >= 2 && ParseSinkType(argv[1]) == Ok(k)
    ensures DemoMain(argv).code == 0
    ensures Texts(DemoMain(argv).lines, StdOut)
         == [Announcement(Console), Announcement(k)]
            + (if k == Console then Messages("[Console] ") else [])
            + [Complete]
    ensures Texts(DemoMain(argv).lines, AppLog)
         == if k == File then Messages("[File] ") else []
    ensures Texts(DemoMain(argv).lines, StdErr) == []
  {
    assert DemoMain(argv) == Exit(0, Transcript([], k));
    SelectedStdOut(k);
    SelectedOther(k);
  }

  /** Lines written before the logger is first used stay in front of everything the run adds. */
  lemma TranscriptLines(before: seq<Line>, k: SinkType)
    ensures Transcript(before, k) == before + Transcript([], k)
  {
    SessionLines(before, k);
    SessionLines([], k);
  }

  /** Seen on one stream, the lines written first come first, and the rest is as without them. */
  lemma TranscriptAfter(before: seq<Line>, k: SinkType, s: Stream)
    ensures Texts(Transcript(before, k), s) == Texts(before, s) + Texts(Transcript([], k), s)
  {
    TranscriptLines(before, k);
    TextsAppend(before, Transcript([], k), s);
  }

  /**
    Without an argument the demo says so on stdout and then behaves exactly as with
    "console": the same lines on stdout after the notice, nothing in `app.log` or on stderr.
  */
  lemma DemoDefault(argv: seq<string>)
    requires |argv| < 2
    ensures DemoMain(argv).code == 0
    ensures Texts(DemoMain(argv).lines, StdOut)
         == [NoArgument] + ([Announcement(Console), Announcement(Console)] + Messages("[Console] ") + [Complete])
    ensures Texts(DemoMain(argv).lines, AppLog) == [] && Texts(DemoMain(argv).lines, StdErr) == []
  {
    var before := [Line(StdOut, NoArgument)];
    assert DemoMain(argv) == Exit(0, Transcript(before, Console));
    TextsSingle(before[0], StdOut);
    TextsSingle(before[0], AppLog);
    TextsSingle(before[0], StdErr);
    TranscriptAfter(before, Console, StdOut);
    TranscriptAfter(before, Console, AppLog);
    TranscriptAfter(before, Console, StdErr);
    SelectedStdOut(Console);
    SelectedOther(Console);
  }

  /** The rejection, read on standard error: the message quoting the input, then the valid options. */
  lemma RejectionTexts(input: string)
    ensures Texts(Rejection(input), StdErr) == ["Error: " + Message(UnknownSinkType(input)), ValidOptions]
  {
    var r := Rejection(input);
    assert r == [r[0]] + [r[1]];
    TextsAppend([r[0]], [r[1]], StdErr);
    TextsSingle(r[0], StdErr);
    TextsSingle(r[1], StdErr);
  }

  /** An unrecognised sink name: exit code 1, the message quoting the input, then the valid options. */
  lemma DemoRejected(argv: seq<string>)
    requires |argv| >= 2 && ParseSinkType(argv[1]).Err?
    ensures DemoMain(argv).code == 1
    ensures Texts(DemoMain(argv).lines, StdErr) == ["Error: " + Message(UnknownSinkType(argv[1])), ValidOptions]
  {
    assert DemoMain(argv) == Exit(1, Rejection(argv[1]));
    RejectionTexts(argv[1]);
  }
}
