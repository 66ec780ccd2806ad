/**
  `main` of the number pipeline: `number_pipeline <FILTER> <FILENAME>`. The file
  system is a parameter: `files` maps each readable file name to the integers that
  `FileNumberReader` extracts from it; a name outside the map cannot be opened.
*/
module Pipeline {
  import opened Wrappers
  import opened Streams
  import opened Decimal
  import opened Filters
  import opened Factory
  import opened Processor
  import opened Observers

  /** The exit code, the lines written, and the observer callbacks that were made. */
  datatype Exit = Exit(code: int, lines: seq<Line>, events: seq<Event>)

  /** What `FileNumberReader::read_numbers` returns, and its diagnostic on standard error. */
  datatype Read = Read(diagnostics: seq<Line>, numbers: seq<int>)

  const Usage: seq<string> := [
    "Usage: ./number_pipeline <FILTER> <FILENAME>",
    "Example: ./number_pipeline EVEN numbers.txt"
  ]

  /** An unopenable file is reported and read as no numbers at all; the run goes on. */
  function ReadNumbers(files: map<string, seq<int>>, name: string): (r: Read)
    ensures name in files ==> r == Read([], files[name])
    ensures name !in files ==> r.numbers == [] && Texts(r.diagnostics, StdOut) == []
  {
    if name in files then Read([], files[name])
    else Read([Line(StdErr, "Error: Cannot open file " + name)], [])
  }

  /** Lines on standard output with the given texts. */
  function ToStdOut(texts: seq<string>): (r: seq<Line>)
    ensures Texts(r, StdOut) == texts
    ensures Texts(r, StdErr) == []
  {
    if texts == [] then [] else [Line(StdOut, texts[0])] + ToStdOut(texts[1..])
  }

  function ToStdErr(texts: seq<string>): (r: seq<Line>)
    ensures Texts(r, StdErr) == texts
    ensures Texts(r, StdOut) == []
  {
    if texts == [] then [] else [Line(StdErr, texts[0])] + ToStdErr(texts[1..])
  }

  /**
    `argv` includes the program name, so `argc == |argv|`. The filter is built before
    the reader, the observers and the processor, so a bad token stops the program
    before any observer is called.
  */
  function PipelineMain(argv: seq<string>, files: map<string, seq<int>>): (r: Exit)
    ensures r.code in {0, 1, 2}
    ensures r.code == 1 <==> |argv| != 3
    ensures r.code == 2 <==> |argv| == 3 && CreateFilter(argv[1]).Err?
    ensures r.code != 0 ==> r.events == [] && Texts(r.lines, StdOut) == []
  {
    if |argv| != 3 then Exit(1, ToStdErr(Usage), [])
    else
      match CreateFilter(argv[1])
      case Err(e) => Exit(2, ToStdErr(["Error: " + Message(e)]), [])
      case Ok(f) =>
        var read := ReadNumbers(files, argv[2]);
        var events := RunTrace(f, 2, read.numbers);
        Exit(0, read.diagnostics + ToStdOut(Replay([Print, Count(0)], events).out), events)
  }

  /** The wrong number of arguments prints the usage text on standard error and nothing else. */
  lemma MainUsage(argv: seq<string>, files: map<string, seq<int>>)
    requires |argv| != 3
    ensures PipelineMain(argv, files).code == 1
    ensures Texts(PipelineMain(argv, files).lines, StdErr) == Usage
    ensures Texts(PipelineMain(argv, files).lines, StdOut) == []
  {
  }

  /** A bad filter token is reported as `Error: <what()>` with exit code 2 and no callbacks. */
  lemma MainBadFilter(argv: seq<string>, files: map<string, seq<int>>)
    requires |argv| == 3 && CreateFilter(argv[1]).Err?
    ensures PipelineMain(argv, files).code == 2
    ensures PipelineMain(argv, files).events == []
    ensures Texts(PipelineMain(argv, files).lines, StdErr) == ["Error: " + Message(CreateFilter(argv[1]).error)]
  {
  }

  /**
    A good filter token prints the kept values in input order and then the count of
    them; an unreadable file adds one diagnostic and counts as an empty input.
  */
  lemma MainOutput(argv: seq<string>, files: map<string, seq<int>>, f: Filter)
    requires |argv| == 3 && CreateFilter(argv[1]) == Ok(f)
    ensures var xs := if argv[2] in files then files[argv[2]] else [];
      && PipelineMain(argv, files).code == 0
      && PipelineMain(argv, files).events == RunTrace(f, 2, xs)
      && Texts(PipelineMain(argv, files).lines, StdOut) == Printed(Filtered(f, xs)) + [Summary(|Filtered(f, xs)|)]
      && Texts(PipelineMain(argv, files).lines, StdErr)
         == (if argv[2] in files then [] else ["Error: Cannot open file " + argv[2]])
  {
    var read := ReadNumbers(files, argv[2]);
    var out := Replay([Print, Count(0)], RunTrace(f, 2, read.numbers)).out;
    PrintCountRun(f, read.numbers);
    TextsAppend(read.diagnostics, ToStdOut(out), StdOut);
    TextsAppend(read.diagnostics, ToStdOut(out), StdErr);
    if argv[2] !in files {
      var d := read.diagnostics;
      assert d == [Line(StdErr, "Error: Cannot open file " + argv[2])];
      assert Texts(d, StdErr) == ["Error: Cannot open file " + argv[2]] by {
        assert d[1..] == [];
      }
    }
  }

  /** `number_pipeline EVEN numbers.txt` on a file holding 3 4 5 6 7 8. */
  lemma MainExample(files: map<string, seq<int>>)
    requires "numbers.txt" in files && files["numbers.txt"] == [3, 4, 5, 6, 7, 8]
    ensures Texts(PipelineMain(["number_pipeline", "EVEN", "numbers.txt"], files).lines, StdOut)
         == ["4", "6", "8", "Total numbers passed filter: 3"]
  {
    var argv := ["number_pipeline", "EVEN", "numbers.txt"];
    assert argv[1] == "EVEN" && argv[2] == "numbers.txt";
    MainOutput(argv, files, Even);
    ExampleLines();
  }

  lemma ExampleLines()
    ensures Printed(Filtered(Even, [3, 4, 5, 6, 7, 8])) + [Summary(|Filtered(Even, [3, 4, 5, 6, 7, 8])|)]
         == ["4", "6", "8", "Total numbers passed filter: 3"]
  {
    ExampleFiltered();
    assert Printed([4, 6, 8]) == ["4", "6", "8"] by {
      assert [4, 6, 8][1..] == [6, 8];
      assert [6, 8][1..] == [8];
      assert IntToString(4) == "4" && IntToString(6) == "6" && IntToString(8) == "8";
    }
    assert Summary(3) == "Total numbers passed filter: 3" by {
      assert IntToString(3) == "3";
    }
  }

  lemma ExampleFiltered()
    ensures Filtered(Even, [3, 4, 5, 6, 7, 8]) == [4, 6, 8]
  {
    var xs := [3, 4, 5, 6, 7, 8];
    assert xs[1..] == [4, 5, 6, 7, 8];
    assert xs[1..][1..] == [5, 6, 7, 8];
    assert xs[1..][1..][1..] == [6, 7, 8];
    assert xs[1..][1..][1..][1..] == [7, 8];
    assert xs[1..][1..][1..][1..][1..] == [8];
  }
}
