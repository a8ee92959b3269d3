/** Language detection over generated text, the printed sample of that text
    and the list of languages that did not show up, as done by
    multilingual_poem_test.py and vllm_multilingual_test.py. */
module Languages {
  import opened Wrappers
  import opened Text

  // ---------------------------------------------------------------------------
  // Code-point ranges
  // ---------------------------------------------------------------------------

  /** CJK Unified Ideographs, U+4E00..U+9FFF. */
  predicate IsChinese(c: char) {
    0x4E00 <= c as int <= 0x9FFF
  }

  /** Hangul Syllables, U+AC00..U+D7AF. */
  predicate IsKorean(c: char) {
    0xAC00 <= c as int <= 0xD7AF
  }

  /** `c.lower()` restricted to ASCII: A..Z become a..z, anything else is kept. */
  function AsciiLower(c: char): (l: char)
    ensures 'A' <= c <= 'Z' ==> 'a' <= l <= 'z' && l as int - 'a' as int == c as int - 'A' as int
    ensures !('A' <= c <= 'Z') ==> l == c
  {
    if 'A' <= c <= 'Z' then (c as int - 'A' as int + 'a' as int) as char else c
  }

  /** `'a' <= c.lower() <= 'z'` */
  predicate IsEnglish(c: char) {
    'a' <= AsciiLower(c) <= 'z'
  }

  predicate IsAsciiLetter(c: char) {
    ('a' <= c <= 'z') || ('A' <= c <= 'Z')
  }

  /** `any(p(ch) for ch in text)` */
  function Any(text: string, p: char -> bool): (r: bool)
    ensures r <==> exists i :: 0 <= i < |text| && p(text[i])
  {
    if text == [] then false
    else if p(text[0]) then true
    else
      var rest := Any(text[1..], p);
      assert rest ==> exists i :: 0 <= i < |text| && p(text[i]) by {
        if rest {
          var j :| 0 <= j < |text[1..]| && p(text[1..][j]);
          assert p(text[j + 1]);
        }
      }
      rest
  }

  datatype LanguageFlags = LanguageFlags(chinese: bool, korean: bool, english: bool)

  /** The three `has_*` flags of a generated text. */
  function Detect(text: string): (f: LanguageFlags)
    ensures f.chinese <==> exists i :: 0 <= i < |text| && IsChinese(text[i])
    ensures f.korean <==> exists i :: 0 <= i < |text| && IsKorean(text[i])
    ensures f.english <==> exists i :: 0 <= i < |text| && IsEnglish(text[i])
    ensures text == [] ==> f == LanguageFlags(false, false, false)
  {
    LanguageFlags(Any(text, IsChinese), Any(text, IsKorean), Any(text, IsEnglish))
  }

  /** English is detected exactly when the text holds an ASCII letter of
      either case. */
  lemma EnglishIsAsciiLetter(text: string)
    ensures Detect(text).english <==> exists i :: 0 <= i < |text| && IsAsciiLetter(text[i])
  {
    if Detect(text).english {
      var i :| 0 <= i < |text| && IsEnglish(text[i]);
      LowerIsLetter(text[i]);
    }
    if exists i :: 0 <= i < |text| && IsAsciiLetter(text[i]) {
      var i :| 0 <= i < |text| && IsAsciiLetter(text[i]);
      LowerIsLetter(text[i]);
    }
  }

  lemma LowerIsLetter(c: char)
    ensures IsEnglish(c) <==> IsAsciiLetter(c)
  {
  }

  /** A single character is never detected as two of Chinese, Korean and English. */
  lemma RangesAreDisjoint(c: char)
    ensures !(IsChinese(c) && IsKorean(c))
    ensures IsEnglish(c) ==> !IsChinese(c) && !IsKorean(c)
  {
  }

  // ---------------------------------------------------------------------------
  // The printed sample
  // ---------------------------------------------------------------------------

  function Min(a: nat, b: nat): nat {
    if a <= b then a else b
  }

  function LengthNote(caption: string, length: nat): string {
    "\n[" + caption + IntToDecimal(length) + " characters]"
  }

  /** The lines printed between the two dashed rules: the first `limit`
      characters, then, only for a longer text, an ellipsis and a note of
      the full length. */
  function SampleLines(text: string, limit: nat, caption: string): (lines: seq<string>)
    ensures |lines| >= 1 && lines[0] == text[..Min(|text|, limit)]
    ensures |lines| == 1 <==> |text| <= limit
    ensures |lines| == 1 ==> lines[0] == text
    ensures |lines| > 1 ==> |lines| == 3 && lines[1] == "..." && lines[2] == LengthNote(caption, |text|)
  {
    var shown := text[..Min(|text|, limit)];
    if |text| > limit then [shown, "...", LengthNote(caption, |text|)] else [shown]
  }

  /** The number in the length note reads back as the text's length. */
  lemma {:induction false} LengthNoteReadsBack(caption: string, length: nat)
    ensures var note := LengthNote(caption, length);
      var digits := note[2 + |caption|..|note| - |" characters]"|];
      ParseInt(digits) == Some(length)
  {
    var note := LengthNote(caption, length);
    assert note == "\n[" + caption + IntToDecimal(length) + " characters]";
    assert note[2 + |caption|..|note| - |" characters]"|] == IntToDecimal(length);
    ParseIntRoundTrip(length);
  }

  // ---------------------------------------------------------------------------
  // Which languages are missing
  // ---------------------------------------------------------------------------

  predicate AllPresent(f: LanguageFlags) {
    f.chinese && f.korean && f.english
  }

  const LanguageNames: seq<string> := ["Chinese", "Korean", "English"]

  /** The position of a language in the order the checks are made. */
  function Rank(name: string): int {
    if name == "Chinese" then 0 else if name == "Korean" then 1 else if name == "English" then 2 else 3
  }

  /** The languages whose flag is false, in the order Chinese, Korean, English. */
  function Missing(f: LanguageFlags): (names: seq<string>)
    ensures "Chinese" in names <==> !f.chinese
    ensures "Korean" in names <==> !f.korean
    ensures "English" in names <==> !f.english
    ensures forall k :: 0 <= k < |names| ==> names[k] in LanguageNames
    ensures forall j, k :: 0 <= j < k < |names| ==> Rank(names[j]) < Rank(names[k])
    ensures names == [] <==> AllPresent(f)
  {
    (if f.chinese then [] else ["Chinese"])
    + (if f.korean then [] else ["Korean"])
    + (if f.english then [] else ["English"])
  }
}
