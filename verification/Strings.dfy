/** The few Python string methods the shop relies on, for ASCII text. */
module Strings {

  function Upper(c: char): char {
    if 'a' <= c <= 'z' then c - 'a' + 'A' else c
  }

  function Lower(c: char): char {
    if 'A' <= c <= 'Z' then c - 'A' + 'a' else c
  }

  function UpperText(text: string): string {
    seq(|text|, i requires 0 <= i < |text| => Upper(text[i]))
  }

  function LowerText(text: string): string {
    seq(|text|, i requires 0 <= i < |text| => Lower(text[i]))
  }

  predicate IsSpace(c: char) {
    c == ' ' || '\t' <= c <= '\r' || '\U{1C}' <= c <= '\U{1F}'
  }

  function Strip(text: string): string {
    if text != "" && IsSpace(text[0]) then Strip(text[1..])
    else if text != "" && IsSpace(text[|text| - 1]) then Strip(text[..|text| - 1])
    else text
  }

  /** `text.split(".")[-1]` */
  function AfterLastDot(text: string): string {
    if text == "" || text[|text| - 1] == '.' then ""
    else AfterLastDot(text[..|text| - 1]) + [text[|text| - 1]]
  }

  predicate StandsAt(text: string, part: string, i: nat) {
    i + |part| <= |text| && text[i..i + |part|] == part
  }

  /** `part in text` */
  predicate Contains(text: string, part: string) {
    exists i :: 0 <= i <= |text| && StandsAt(text, part, i)
  }

  ghost predicate IsBlankText(text: string) {
    forall c :: c in text ==> IsSpace(c)
  }

  predicate Bare(text: string) {
    text != "" ==> !IsSpace(text[0]) && !IsSpace(text[|text| - 1])
  }

  /** Stripping takes away white space on both sides, and all of it. */
  lemma {:induction false} StripTrims(text: string) returns (before: string, after: string)
    ensures text == before + Strip(text) + after && IsBlankText(before) && IsBlankText(after) && Bare(Strip(text))
  {
    hide IsSpace;
    if text != "" && IsSpace(text[0]) {
      before, after := StripTrims(text[1..]);
      assert text == [text[0]] + text[1..];
      before := [text[0]] + before;
    } else if text != "" && IsSpace(text[|text| - 1]) {
      before, after := StripTrims(text[..|text| - 1]);
      assert text == text[..|text| - 1] + [text[|text| - 1]];
      after := after + [text[|text| - 1]];
    } else {
      before, after := "", "";
    }
  }

  /** What follows the last dot, or the whole text where there is none. */
  lemma {:induction false} LastDotSplits(text: string)
    ensures '.' !in AfterLastDot(text)
    ensures exists before :: text == before + AfterLastDot(text) && (before == "" || before[|before| - 1] == '.')
  {
    if text == "" {
      assert text == "" + AfterLastDot(text);
    } else if text[|text| - 1] == '.' {
      assert text == text + AfterLastDot(text);
    } else {
      var init := text[..|text| - 1];
      LastDotSplits(init);
      var before :| init == before + AfterLastDot(init) && (before == "" || before[|before| - 1] == '.');
      assert text == before + AfterLastDot(text);
    }
  }
}
