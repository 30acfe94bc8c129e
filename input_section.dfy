/**
 * The input form: a single draft text overwritten by its handlers (edit, load
 * sample, clear, file loaded), and the gates derived from it (submit button,
 * clear button, error box).
 */
module InputSection {
  import opened Wrappers
  import opened JsText

  /** Joins lines with a newline between consecutive ones, as a multi-line literal does. */
  function JoinLines(lines: seq<string>): string
    requires |lines| > 0
  {
    if |lines| == 1 then lines[0] else lines[0] + "\n" + JoinLines(lines[1..])
  }

  /** `s.split("\n")`: the newline-separated lines of `s`; always at least one. */
  function SplitLines(s: string): (lines: seq<string>)
    ensures |lines| > 0
  {
    if s == [] then [""]
    else
      var rest := SplitLines(s[1..]);
      if s[0] == '\n' then [""] + rest else [[s[0]] + rest[0]] + rest[1..]
  }

  /** A line without a newline splits into itself, and a newline after it starts a new line. */
  lemma {:induction false} SplitLinesAfterLine(line: string, tail: string)
    requires '\n' !in line
    ensures SplitLines(line) == [line]
    ensures SplitLines(line + "\n" + tail) == [line] + SplitLines(tail)
  {
    if line == [] {
      assert line + "\n" + tail == "\n" + tail;
      assert ("\n" + tail)[1..] == tail;
    } else {
      assert line[1..] + "\n" + tail == (line + "\n" + tail)[1..];
      assert '\n' !in line[1..] by {
        forall i | 0 <= i < |line[1..]| ensures line[1..][i] != '\n' {
          assert line[1..][i] == line[i + 1];
        }
      }
      SplitLinesAfterLine(line[1..], tail);
      assert [line[0]] + line[1..] == line;
    }
  }

  /** Splitting joined newline-free lines gives the lines back. */
  lemma {:induction false} SplitJoinRoundTrip(lines: seq<string>)
    requires |lines| > 0
    requires forall i :: 0 <= i < |lines| ==> '\n' !in lines[i]
    ensures SplitLines(JoinLines(lines)) == lines
  {
    SplitLinesAfterLine(lines[0], "");
    if |lines| > 1 {
      SplitLinesAfterLine(lines[0], JoinLines(lines[1..]));
      SplitJoinRoundTrip(lines[1..]);
      assert [lines[0]] + lines[1..] == lines;
    }
  }

  /**
   * The canned reviews of the sample loader, one per line (each written as two
   * literal pieces only to keep the verifier's work on the literals small).
   */
  const SAMPLE_LINES: seq<string> := [
    "The product quality is amazing, " + "I love the sleek design!",
    "Shipping was terrible, it arrived " + "3 days late and the box was crushed.",
    "Customer support was helpful " + "but the wait time was too long.",
    "Best purchase I've made this year, " + "highly recommended.",
    "The battery life is not as " + "advertised, very disappointing.",
    "Easy to set up and use " + "right out of the box.",
    "The price is a bit high " + "for what you get.",
    "I'm neutral about this, " + "it does the job but nothing special."
  ]

  /** The sample text: the eight sample reviews on eight lines. */
  const SAMPLE_DATA: string := JoinLines(SAMPLE_LINES)

  // No sample review contains a newline; one lemma per review keeps each
  // proof about a string literal small.
  lemma SampleLine0() ensures '\n' !in SAMPLE_LINES[0] {}
  lemma SampleLine1() ensures '\n' !in SAMPLE_LINES[1] {}
  lemma SampleLine2() ensures '\n' !in SAMPLE_LINES[2] {}
  lemma SampleLine3() ensures '\n' !in SAMPLE_LINES[3] {}
  lemma SampleLine4() ensures '\n' !in SAMPLE_LINES[4] {}
  lemma SampleLine5() ensures '\n' !in SAMPLE_LINES[5] {}
  lemma SampleLine6() ensures '\n' !in SAMPLE_LINES[6] {}
  lemma SampleLine7() ensures '\n' !in SAMPLE_LINES[7] {}

  /** The sample text has exactly eight lines, the sample reviews, and passes the blank-input check. */
  lemma SampleData()
    ensures SplitLines(SAMPLE_DATA) == SAMPLE_LINES && |SplitLines(SAMPLE_DATA)| == 8
    ensures !IsBlank(SAMPLE_DATA) && Trim(SAMPLE_DATA) != []
  {
    SampleLine0(); SampleLine1(); SampleLine2(); SampleLine3();
    SampleLine4(); SampleLine5(); SampleLine6(); SampleLine7();
    SplitJoinRoundTrip(SAMPLE_LINES);
    assert SAMPLE_DATA == SAMPLE_LINES[0] + "\n" + JoinLines(SAMPLE_LINES[1..]);
    assert SAMPLE_DATA[0] == SAMPLE_LINES[0][0] == 'T';
    TrimEmptyIffBlank(SAMPLE_DATA);
  }

  /** The submit button is enabled (`!text.trim()` is false) exactly when the draft has a non-whitespace character. */
  function SubmitEnabled(text: string): (enabled: bool)
    ensures enabled <==> exists i :: 0 <= i < |text| && !IsWhitespace(text[i])
  {
    TrimEmptyIffBlank(text);
    Trim(text) != []
  }

  /** The clear button is shown when the draft text is truthy, i.e. non-empty. */
  function ClearShown(text: string): (shown: bool)
    ensures shown <==> |text| > 0
  {
    text != ""
  }

  /** The error box is shown when the supplied error is present and non-empty. */
  function ErrorShown(error: Option<string>): (shown: bool)
    ensures shown <==> error.Some? && |error.value| > 0
  {
    match error
    case Some(e) => e != ""
    case None => false
  }

  class DraftInput {
    var text: string

    constructor()
      ensures text == ""
    {
      text := "";
    }

    /** Typing or pasting: the draft becomes the text area's value. */
    method Edit(value: string)
      modifies this
      ensures text == value
    {
      text := value;
    }

    /** Loads the sample reviews into the draft. */
    method LoadSample()
      modifies this
      ensures text == SAMPLE_DATA
      ensures SubmitEnabled(text)
    {
      text := SAMPLE_DATA;
      SampleData();
    }

    /** Empties the draft. */
    method Clear()
      modifies this
      ensures text == ""
      ensures !SubmitEnabled(text) && !ClearShown(text)
    {
      text := "";
    }

    /**
     * The file reader's load callback: a truthy result (present and non-empty)
     * replaces the draft; otherwise the draft stays as it was.
     */
    method FileLoaded(content: Option<string>)
      modifies this
      ensures content.Some? && content.value != "" ==> text == content.value
      ensures !(content.Some? && content.value != "") ==> text == old(text)
    {
      if content.Some? && content.value != "" {
        text := content.value;
      }
    }

    /**
     * The submit button: when enabled, a click hands the draft verbatim (not
     * trimmed) to the analyse handler; when disabled, nothing is handed on.
     */
    method Submit() returns (handed: Option<string>)
      ensures handed.Some? <==> SubmitEnabled(text)
      ensures handed.Some? ==> handed.value == text
    {
      if SubmitEnabled(text) {
        handed := Some(text);
      } else {
        handed := None;
      }
    }
  }
}
