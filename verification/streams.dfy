/** The observable output of both programs, as an append-only trace of lines. */
module Streams {

  /** Where a line went: standard output, standard error, or the `app.log` file. */
  datatype Stream = StdOut | StdErr | AppLog

  /** One complete line (the trailing newline or `std::endl` is implicit). */
  datatype Line = Line(stream: Stream, text: string)

  /** The text of `line` if it went to stream `s`. */
  function TextOn(line: Line, s: Stream): seq<string> {
    if line.stream == s then [line.text] else []
  }

  /** The texts written to stream `s`, in the order they were written. */
  function Texts(lines: seq<Line>, s: Stream): seq<string> {
    if lines == [] then [] else TextOn(lines[0], s) + Texts(lines[1..], s)
  }

  /** Projecting a concatenation is concatenating the projections. */
  lemma {:induction false} TextsAppend(a: seq<Line>, b: seq<Line>, s: Stream)
    ensures Texts(a + b, s) == Texts(a, s) + Texts(b, s)
  {
    if a == [] {
      assert a + b == b;
    } else {
      var ab := a + b;
      assert ab[0] == a[0];
      assert ab[1..] == a[1..] + b;
      TextsAppend(a[1..], b, s);
      calc {
        Texts(ab, s);
        TextOn(a[0], s) + Texts(a[1..] + b, s);
        TextOn(a[0], s) + (Texts(a[1..], s) + Texts(b, s));
        (TextOn(a[0], s) + Texts(a[1..], s)) + Texts(b, s);
      }
    }
  }

  lemma TextsSingle(line: Line, s: Stream)
    ensures Texts([line], s) == TextOn(line, s)
  {
    assert [line][1..] == [];
  }
}
