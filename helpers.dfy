/**
 * The text helpers: the two Arabic-script tests, which are regular
 * expression searches over the code points of a string, and the splitter
 * that breaks a text into lines by the width the input box's font gives
 * each growing line. The font metrics are a function handed in.
 */
module Helpers {
  import opened Wrappers

  // ---------------------------------------------------------------------
  // is_it_all_arabic / contains_arabic
  // ---------------------------------------------------------------------

  /** The class `[؀-ۿ -@[-`{-~]`. */
  predicate InAllowedClass(c: char)
  {
    ('\U{0600}' <= c <= '\U{06FF}') || (' ' <= c <= '@') || ('[' <= c <= '`') || ('{' <= c <= '~')
  }

  /** The class `[؀-ۿݐ-ݿ]`: the Arabic block and its supplement. */
  predicate IsArabicLetter(c: char)
  {
    ('\U{0600}' <= c <= '\U{06FF}') || ('\U{0750}' <= c <= '\U{077F}')
  }

  /** `s or ""`: None and the empty string both search the empty text. */
  function OrEmpty(s: Option<string>): (t: string)
    ensures s.None? ==> t == ""
    ensures s.Some? ==> t == s.value
  {
    match s
    case None => ""
    case Some(x) => x
  }

  /**
   * `re.search(r"[^...]", t)` for the allowed class, from position `from`:
   * the first index at or after `from` whose character is outside it.
   */
  function FindOutsideAllowed(t: string, from: nat): (r: Option<nat>)
    requires from <= |t|
    ensures r.Some? ==> (from <= r.value < |t| && !InAllowedClass(t[r.value])
      && forall i :: from <= i < r.value ==> InAllowedClass(t[i]))
    ensures r.None? ==> forall i :: from <= i < |t| ==> InAllowedClass(t[i])
    decreases |t| - from
  {
    if from == |t| then None
    else if !InAllowedClass(t[from]) then Some(from)
    else FindOutsideAllowed(t, from + 1)
  }

  /** `re.search(r"[؀-ۿݐ-ݿ]", t)` from position `from`. */
  function FindArabic(t: string, from: nat): (r: Option<nat>)
    requires from <= |t|
    ensures r.Some? ==> (from <= r.value < |t| && IsArabicLetter(t[r.value])
      && forall i :: from <= i < r.value ==> !IsArabicLetter(t[i]))
    ensures r.None? ==> forall i :: from <= i < |t| ==> !IsArabicLetter(t[i])
    decreases |t| - from
  {
    if from == |t| then None
    else if IsArabicLetter(t[from]) then Some(from)
    else FindArabic(t, from + 1)
  }

  /** `is_it_all_arabic(s)`: no character outside the allowed class. */
  function IsItAllArabic(s: Option<string>): (b: bool)
    ensures b <==> forall i :: 0 <= i < |OrEmpty(s)| ==> InAllowedClass(OrEmpty(s)[i])
  {
    FindOutsideAllowed(OrEmpty(s), 0).None?
  }

  /** `contains_arabic(text)`: some character in the Arabic blocks. */
  function ContainsArabic(s: Option<string>): (b: bool)
    ensures b <==> exists i :: 0 <= i < |OrEmpty(s)| && IsArabicLetter(OrEmpty(s)[i])
  {
    FindArabic(OrEmpty(s), 0).Some?
  }

  /** None and the empty string count as all Arabic, and contain no Arabic. */
  lemma EmptyTexts()
    ensures IsItAllArabic(None) && IsItAllArabic(Some(""))
    ensures !ContainsArabic(None) && !ContainsArabic(Some(""))
  {
  }

  /** An all-Arabic text mixes Arabic only with spaces, digits and ASCII punctuation: it has no Latin letter. */
  lemma AllArabicHasNoLatin(s: string)
    requires IsItAllArabic(Some(s))
    ensures forall i :: 0 <= i < |s| ==> !('a' <= s[i] <= 'z') && !('A' <= s[i] <= 'Z')
  {
    forall i | 0 <= i < |s|
      ensures !('a' <= s[i] <= 'z') && !('A' <= s[i] <= 'Z')
    {
      assert InAllowedClass(OrEmpty(Some(s))[i]);
    }
  }

  /** The test holds of a concatenation exactly when it holds of both parts. */
  lemma AllArabicConcat(s: string, t: string)
    ensures IsItAllArabic(Some(s + t)) <==> IsItAllArabic(Some(s)) && IsItAllArabic(Some(t))
  {
    if IsItAllArabic(Some(s)) && IsItAllArabic(Some(t)) {
      forall i | 0 <= i < |s + t|
        ensures InAllowedClass((s + t)[i])
      {
        if i < |s| {
          assert InAllowedClass(OrEmpty(Some(s))[i]);
        } else {
          assert InAllowedClass(OrEmpty(Some(t))[i - |s|]);
        }
      }
    }
    if IsItAllArabic(Some(s + t)) {
      forall i | 0 <= i < |s|
        ensures InAllowedClass(s[i])
      {
        assert InAllowedClass(OrEmpty(Some(s + t))[i]);
      }
      forall i | 0 <= i < |t|
        ensures InAllowedClass(t[i])
      {
        assert InAllowedClass(OrEmpty(Some(s + t))[|s| + i]);
      }
    }
  }

  // ---------------------------------------------------------------------
  // split_text_by_width
  // ---------------------------------------------------------------------

  /**
   * A piece of the split: the characters of one line, and whether the
   * splitter closed it with the `"\n"` it inserts.
   */
  datatype Segment = Segment(body: string, closed: bool)

  /** A segment as it appears in the output. */
  function SegmentText(s: Segment): (t: string)
    ensures |t| == |s.body| + (if s.closed then 1 else 0)
  {
    if s.closed then s.body + "\n" else s.body
  }

  function Render(segs: seq<Segment>): (t: string)
  {
    if segs == [] then "" else SegmentText(segs[0]) + Render(segs[1..])
  }

  function Bodies(segs: seq<Segment>): string
  {
    if segs == [] then "" else segs[0].body + Bodies(segs[1..])
  }

  /**
   * How the loop cuts `text` when the line being built already holds
   * `current`: each character is appended, and the line is closed as soon
   * as `width` of it reaches `maxWidth`; a non-empty rest is the last line.
   */
  function Segments(text: string, maxWidth: int, width: string -> int, current: string): (segs: seq<Segment>)
    decreases |text|
  {
    if text == [] then
      if current != [] then [Segment(current, false)] else []
    else
      var line := current + [text[0]];
      if width(line) >= maxWidth then [Segment(line, true)] + Segments(text[1..], maxWidth, width, "")
      else Segments(text[1..], maxWidth, width, line)
  }

  /**
   * `split_text_by_width(text, max_width, inputBox)` with
   * `inputBox.fontMetrics().width` as `width`.
   */
  method SplitTextByWidth(text: string, maxWidth: int, width: string -> int) returns (r: string)
    ensures r == Render(Segments(text, maxWidth, width, ""))
  {
    var lines: seq<string> := [];
    var currentLine := "";
    var i := 0;
    while i < |text|
      invariant 0 <= i <= |text|
      invariant JoinLines(lines) + Render(Segments(text[i..], maxWidth, width, currentLine))
             == Render(Segments(text, maxWidth, width, ""))
    {
      currentLine := currentLine + [text[i]];
      assert text[i..][0] == text[i] && text[i..][1..] == text[i + 1..];
      if width(currentLine) >= maxWidth {
        currentLine := currentLine + "\n";
        JoinLinesSnoc(lines, currentLine);
        lines := lines + [currentLine];
        currentLine := "";
      }
      i := i + 1;
    }
    if currentLine != [] {
      JoinLinesSnoc(lines, currentLine);
      lines := lines + [currentLine];
    }
    r := JoinLines(lines);
  }

  /** `"".join(lines)`. */
  function JoinLines(lines: seq<string>): string
  {
    if lines == [] then "" else JoinLines(lines[..|lines| - 1]) + lines[|lines| - 1]
  }

  lemma JoinLinesSnoc(lines: seq<string>, line: string)
    ensures JoinLines(lines + [line]) == JoinLines(lines) + line
  {
    assert (lines + [line])[..|lines|] == lines;
  }

  /** Removing the inserted line breaks gives back the text: nothing is lost, reordered or added. */
  lemma {:induction false} SegmentsKeepText(text: string, maxWidth: int, width: string -> int, current: string)
    ensures Bodies(Segments(text, maxWidth, width, current)) == current + text
    decreases |text|
  {
    if text == [] {
    } else {
      var line := current + [text[0]];
      assert line + text[1..] == current + text;
      if width(line) >= maxWidth {
        SegmentsKeepText(text[1..], maxWidth, width, "");
        assert Segments(text, maxWidth, width, current)[1..] == Segments(text[1..], maxWidth, width, "");
      } else {
        SegmentsKeepText(text[1..], maxWidth, width, line);
      }
    }
  }

  /**
   * The cut points: every line but the last is closed; a closed line's
   * width reaches `maxWidth` and none of its shorter prefixes that extend
   * `current` (for the first line) or are non-empty (for the others) does;
   * an open last line never reaches it. Lines are never empty.
   */
  predicate FirstReach(body: string, start: nat, maxWidth: int, width: string -> int)
  {
    forall k :: start < k < |body| ==> width(body[..k]) < maxWidth
  }

  predicate WellCut(segs: seq<Segment>, start: nat, maxWidth: int, width: string -> int)
  {
    && (forall i :: 0 <= i < |segs| ==> segs[i].body != [])
    && (forall i :: 0 <= i < |segs| - 1 ==> segs[i].closed)
    && (forall i :: 0 <= i < |segs| ==> segs[i].closed ==> width(segs[i].body) >= maxWidth)
    && (forall i :: 0 <= i < |segs| && !segs[i].closed ==> width(segs[i].body) < maxWidth || (i == 0 && |segs[i].body| == start))
    && (forall i :: 0 <= i < |segs| ==> FirstReach(segs[i].body, if i == 0 then start else 0, maxWidth, width))
  }

  lemma {:induction false} SegmentsWellCut(text: string, maxWidth: int, width: string -> int, current: string)
    ensures WellCut(Segments(text, maxWidth, width, current), |current|, maxWidth, width)
    ensures text != [] ==> Segments(text, maxWidth, width, current) != []
    ensures Segments(text, maxWidth, width, current) != [] ==> |current| <= |Segments(text, maxWidth, width, current)[0].body|
    ensures Segments(text, maxWidth, width, current) != [] ==> Segments(text, maxWidth, width, current)[0].body[..|current|] == current
    decreases |text|
  {
    var segs := Segments(text, maxWidth, width, current);
    if text == [] {
    } else {
      var line := current + [text[0]];
      if width(line) >= maxWidth {
        var rest := Segments(text[1..], maxWidth, width, "");
        SegmentsWellCut(text[1..], maxWidth, width, "");
        assert segs == [Segment(line, true)] + rest;
        assert FirstReach(line, |current|, maxWidth, width);
      } else {
        var rest := Segments(text[1..], maxWidth, width, line);
        SegmentsWellCut(text[1..], maxWidth, width, line);
        assert segs == rest;
        if text[1..] == [] {
          assert segs == [Segment(line, false)];
        }
        var b := segs[0].body;
        assert b[..|line|] == line;
        if |b| == |line| {
          assert b == line;
        }
        forall k | |current| < k < |b|
          ensures width(b[..k]) < maxWidth
        {
          if k == |line| {
            assert b[..k] == line;
          }
        }
      }
    }
  }
}
