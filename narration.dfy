/** The narration rules of `generate_audio_edge_tts` and the text preview of
    a page record: Python's `str.strip()`, the fixed-length silent fallback
    for blank text, and the 100-character truncation. */
module Narration {

  import opened Wrappers

  /** The length of the silent clip made for a blank page, in seconds. */
  const SilenceSeconds: real := 2.0

  /** The number of characters a preview keeps before the ellipsis. */
  const PreviewLimit: nat := 100

  const Ellipsis: string := "..."

  /** Python's `str.isspace()` for one character: the characters whose
      bidirectional class is WS, B or S, or whose category is Zs. */
  predicate IsSpace(c: char)
  {
    var u := c as int;
    (0x09 <= u <= 0x0D) || (0x1C <= u <= 0x20) || u == 0x85 || u == 0xA0
    || u == 0x1680 || (0x2000 <= u <= 0x200A) || u == 0x2028 || u == 0x2029
    || u == 0x202F || u == 0x205F || u == 0x3000
  }

  /** Every character is whitespace (true of the empty text). */
  predicate IsBlank(text: string)
  {
    forall k :: 0 <= k < |text| ==> IsSpace(text[k])
  }

  /** `s.lstrip()` */
  function LStrip(s: string): string
  {
    if s != [] && IsSpace(s[0]) then LStrip(s[1..]) else s
  }

  /** `s.rstrip()` */
  function RStrip(s: string): string
  {
    if s != [] && IsSpace(s[|s| - 1]) then RStrip(s[..|s| - 1]) else s
  }

  /** `s.strip()` */
  function Strip(s: string): string
  {
    RStrip(LStrip(s))
  }

  /** The duration `generate_audio_edge_tts` returns for a text: the fixed
      fallback when `text.strip()` is empty, otherwise what the speech
      backend followed by the duration probe produced (None when either
      raised). So a blank text gets exactly 2.0 s whatever the backend would
      have produced: the backend is not consulted. */
  function NarrationDuration(text: string, spoken: Option<real>): (d: Option<real>)
    ensures IsBlank(text) ==> d == Some(2.0)
    ensures !IsBlank(text) ==> d == spoken
  {
    StripEmptyIffBlank(text);
    if Strip(text) == [] then Some(SilenceSeconds) else spoken
  }

  /** The `text_preview` of a page record: the first 100 characters followed
      by "..." when the text is longer than 100, otherwise the text. */
  function Preview(text: string): string
  {
    if |text| > PreviewLimit then text[..PreviewLimit] + Ellipsis else text
  }

  lemma {:induction false} LStripEmpty(s: string)
    ensures LStrip(s) == [] <==> IsBlank(s)
    ensures LStrip(s) != [] ==> !IsSpace(LStrip(s)[0])
  {
    if s != [] && IsSpace(s[0]) {
      LStripEmpty(s[1..]);
      assert IsBlank(s) <==> IsBlank(s[1..]) by {
        forall k | 0 <= k < |s[1..]| ensures s[1..][k] == s[k + 1] { }
      }
    }
  }

  lemma {:induction false} RStripEmpty(s: string)
    ensures RStrip(s) == [] <==> IsBlank(s)
  {
    if s != [] && IsSpace(s[|s| - 1]) {
      RStripEmpty(s[..|s| - 1]);
      assert IsBlank(s) <==> IsBlank(s[..|s| - 1]) by {
        forall k | 0 <= k < |s| - 1 ensures s[..|s| - 1][k] == s[k] { }
      }
    }
  }

  /** `not text.strip()` holds exactly for the empty and whitespace-only
      texts. */
  lemma StripEmptyIffBlank(s: string)
    ensures Strip(s) == [] <==> IsBlank(s)
  {
    LStripEmpty(s);
    RStripEmpty(LStrip(s));
  }

  /** A preview keeps the text when it has at most 100 characters; otherwise
      it is the 100-character prefix followed by "...", 103 characters long. */
  lemma PreviewShape(text: string)
    ensures |text| <= 100 ==> Preview(text) == text
    ensures |text| > 100 ==>
              |Preview(text)| == 103 && Preview(text)[..100] == text[..100] && Preview(text)[100..] == "..."
    ensures |Preview(text)| <= 103
  {
  }

  /** A preview is never longer than the text plus the ellipsis, and always
      begins with the text's first min(100, |text|) characters. */
  lemma PreviewKeepsPrefix(text: string)
    ensures var n := if |text| < 100 then |text| else 100;
      |Preview(text)| >= n && Preview(text)[..n] == text[..n]
    ensures |Preview(text)| > 100 <==> |text| > 100
  {
  }
}
