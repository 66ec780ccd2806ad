/** Sink kinds of the logging demo and `parse_sink_type`, which reads one case-insensitively. */
module Sinks {
  import opened Wrappers

  /** `SinkType::CONSOLE`, `SinkType::FILE` and `SinkType::NONE`. */
  datatype SinkType = Console | File | Discard

  /** The `std::invalid_argument` thrown for an unrecognised name, with the input as given. */
  datatype SinkError = UnknownSinkType(input: string)

  function Message(e: SinkError): string {
    "Unknown sink type: " + e.input
  }

  predicate IsUpper(c: char) {
    'A' <= c <= 'Z'
  }

  predicate IsLower(c: char) {
    'a' <= c <= 'z'
  }

  /** `std::tolower` in the "C" locale: only the 26 ASCII capitals change. */
  function ToLower(c: char): char {
    if IsUpper(c) then (c as int + 32) as char else c
  }

  function ToUpper(c: char): char {
    if IsLower(c) then (c as int - 32) as char else c
  }

  /** The `std::transform` of `parse_sink_type`. */
  function Lower(s: string): seq<char> {
    seq(|s|, i requires 0 <= i < |s| => ToLower(s[i]))
  }

  /** `s` spells the lower-case `word` with any of its letters written in capitals. */
  predicate CaseVariant(s: string, word: string) {
    |s| == |word| && forall i :: 0 <= i < |s| ==> s[i] == word[i] || s[i] == ToUpper(word[i])
  }

  predicate AllLower(word: string) {
    forall i :: 0 <= i < |word| ==> IsLower(word[i])
  }

  /** Lower-casing `s` yields a lower-case word exactly when `s` is a case variant of it. */
  lemma LowerMatches(s: string, word: string)
    requires AllLower(word)
    ensures Lower(s) == word <==> CaseVariant(s, word)
  {
    if |s| == |word| {
      if Lower(s) == word {
        forall i | 0 <= i < |s|
          ensures s[i] == word[i] || s[i] == ToUpper(word[i])
        {
          assert ToLower(s[i]) == word[i];
        }
      }
      if CaseVariant(s, word) {
        forall i | 0 <= i < |s|
          ensures Lower(s)[i] == word[i]
        {
          assert IsLower(word[i]);
        }
      }
    }
  }

  /**
    `parse_sink_type`: "console", "file" and "none" in any mix of letter cases; any
    other input is an error that quotes the input as it was given, not lower-cased.
  */
  function ParseSinkType(input: string): (r: Result<SinkType, SinkError>)
    ensures r == Ok(Console) <==> CaseVariant(input, "console")
    ensures r == Ok(File) <==> CaseVariant(input, "file")
    ensures r == Ok(Discard) <==> CaseVariant(input, "none")
    ensures r.Err? ==> r.error == UnknownSinkType(input)
  {
    LowerMatches(input, "console");
    LowerMatches(input, "file");
    LowerMatches(input, "none");
    var s := Lower(input);
    if s == "console" then Ok(Console)
    else if s == "file" then Ok(File)
    else if s == "none" then Ok(Discard)
    else Err(UnknownSinkType(input))
  }

  /** Sample inputs: capitals are accepted, a misspelling is rejected verbatim. */
  lemma ParseExamples()
    ensures ParseSinkType("FILE") == Ok(File)
    ensures ParseSinkType("CoNsOlE") == Ok(Console)
    ensures ParseSinkType("none") == Ok(Discard)
    ensures ParseSinkType("Disk") == Err(UnknownSinkType("Disk"))
  {
    assert CaseVariant("FILE", "file");
    assert CaseVariant("CoNsOlE", "console");
    assert CaseVariant("none", "none");
    assert !CaseVariant("Disk", "file") by {
      assert "Disk"[0] != 'f' && "Disk"[0] != ToUpper('f');
    }
    assert !CaseVariant("Disk", "none") by {
      assert "Disk"[0] != 'n' && "Disk"[0] != ToUpper('n');
    }
  }
}
