/**
  The `Logger` singleton as an explicit state: the kind of the installed sink, plus
  the append-only trace of every line written so far (standard output and `app.log`).
*/
module Logging {
  import opened Streams
  import opened Sinks

  datatype Logger = Logger(sink: SinkType, out: seq<Line>)

  /** The line `set_sink` prints for each kind. */
  function Announcement(k: SinkType): string {
    match k
    case Console => "Log sink set to CONSOLE."
    case File => "Log sink set to FILE."
    case Discard => "Log sink set to NONE (no output)."
  }

  /** `write` of `ConsoleSink`, `FileSink` and `NullSink`. */
  function Write(k: SinkType, msg: string): (r: seq<Line>)
    ensures |r| <= 1
    ensures k == Discard <==> r == []
    ensures forall i :: 0 <= i < |r| ==> r[i].stream != StdErr
  {
    match k
    case Console => [Line(StdOut, "[Console] " + msg)]
    case File => [Line(AppLog, "[File] " + msg)]
    case Discard => []
  }

  /** `set_sink`: install the new kind and announce it on standard output. */
  function SetSink(l: Logger, k: SinkType): (r: Logger)
    ensures r.sink == k
    ensures r.out == l.out + [Line(StdOut, Announcement(k))]
  {
    Logger(k, l.out + [Line(StdOut, Announcement(k))])
  }

  /**
    The private constructor, run on the first `Logger::instance()` call after the lines
    `before`: it is `set_sink(CONSOLE)`, whatever the sink slot held before.
  */
  function Construct(before: seq<Line>): (r: Logger)
    ensures r.sink == Console
    ensures r.out == before + [Line(StdOut, Announcement(Console))]
  {
    SetSink(Logger(Console, before), Console)
  }

  /** Construction is `set_sink(CONSOLE)` whatever the sink slot held before. */
  lemma ConstructIsSetSink(before: seq<Line>, k: SinkType)
    ensures Construct(before) == SetSink(Logger(k, before), Console)
  {
  }

  /** `log`: hand the message to the installed sink; the sink itself is left alone. */
  function Log(l: Logger, msg: string): (r: Logger)
    ensures r.sink == l.sink
    ensures r.out == l.out + Write(l.sink, msg)
    ensures l.sink == Discard ==> r == l
  {
    assert l.out + [] == l.out;
    Logger(l.sink, l.out + Write(l.sink, msg))
  }

  /**
    Where a message ends up: a console sink writes it, tagged, to standard output
    only; a file sink writes it, tagged, to `app.log` only; the null sink drops it.
  */
  lemma WriteRouting(k: SinkType, msg: string)
    ensures Texts(Write(k, msg), StdOut) == if k == Console then ["[Console] " + msg] else []
    ensures Texts(Write(k, msg), AppLog) == if k == File then ["[File] " + msg] else []
    ensures Texts(Write(k, msg), StdErr) == []
  {
    match k
    case Console => TextsSingle(Line(StdOut, "[Console] " + msg), StdOut);
      TextsSingle(Line(StdOut, "[Console] " + msg), AppLog);
      TextsSingle(Line(StdOut, "[Console] " + msg), StdErr);
    case File => TextsSingle(Line(AppLog, "[File] " + msg), StdOut);
      TextsSingle(Line(AppLog, "[File] " + msg), AppLog);
      TextsSingle(Line(AppLog, "[File] " + msg), StdErr);
    case Discard =>
  }

  /** Each kind is announced by its own line, so the announcement names the kind. */
  lemma AnnouncementInjective(a: SinkType, b: SinkType)
    requires Announcement(a) == Announcement(b)
    ensures a == b
  {
    assert Announcement(Console)[16] == 'C';
    assert Announcement(File)[16] == 'F';
    assert Announcement(Discard)[16] == 'N';
  }

  /** A call on the logger: `set_sink(kind)` or `log(text)`. */
  datatype Call = SetTo(kind: SinkType) | LogText(text: string)

  function Exec(l: Logger, calls: seq<Call>): Logger
    decreases |calls|
  {
    if calls == [] then l
    else
      var next := match calls[0]
        case SetTo(k) => SetSink(l, k)
        case LogText(m) => Log(l, m);
      Exec(next, calls[1..])
  }

  /** The kind chosen by the last `set_sink` among `calls`, or `initial` if there is none. */
  function LastSet(initial: SinkType, calls: seq<Call>): SinkType {
    if calls == [] then initial
    else match calls[|calls| - 1]
      case SetTo(k) => k
      case LogText(_) => LastSet(initial, calls[..|calls| - 1])
  }

  lemma {:induction false} LastSetCons(initial: SinkType, c: Call, rest: seq<Call>)
    ensures LastSet(initial, [c] + rest) == LastSet(if c.SetTo? then c.kind else initial, rest)
    decreases |rest|
  {
    if rest != [] {
      var all := [c] + rest;
      assert all[..|all| - 1] == [c] + rest[..|rest| - 1];
      assert all[|all| - 1] == rest[|rest| - 1];
      LastSetCons(initial, c, rest[..|rest| - 1]);
    } else {
      assert ([c] + rest)[..0] == [];
    }
  }

  /** Last set wins: after any calls, the sink is the one the last `set_sink` chose. */
  lemma {:induction false} ExecLastSetWins(l: Logger, calls: seq<Call>)
    ensures Exec(l, calls).sink == LastSet(l.sink, calls)
    decreases |calls|
  {
    if calls != [] {
      var c := calls[0];
      var next := match c
        case SetTo(k) => SetSink(l, k)
        case LogText(m) => Log(l, m);
      ExecLastSetWins(next, calls[1..]);
      assert calls == [c] + calls[1..];
      LastSetCons(l.sink, c, calls[1..]);
    }
  }

  /** The output only ever grows: what was written stays written. */
  lemma {:induction false} ExecAppendOnly(l: Logger, calls: seq<Call>)
    ensures |l.out| <= |Exec(l, calls).out|
    ensures Exec(l, calls).out[..|l.out|] == l.out
    decreases |calls|
  {
    if calls != [] {
      var next := match calls[0]
        case SetTo(k) => SetSink(l, k)
        case LogText(m) => Log(l, m);
      ExecAppendOnly(next, calls[1..]);
      var final := Exec(next, calls[1..]).out;
      assert final[..|l.out|] == final[..|next.out|][..|l.out|];
    }
  }
}
