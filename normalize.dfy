/** Line normalisation: the first steps every input line goes through
    (qtplasmac_gcode.py:581-621). */
module Normalize {
  import opened PyStr
  import opened PyNum

  /** The characters the line-number loop skips. */
  predicate NumberLead(c: char) {
    IsDigit(c) || c == '.'
  }

  /** What is left after an `N` once its line number is skipped: each digit
      or '.' is dropped together with the whitespace after it. */
  function SkipLineNumber(t: string): (r: string)
    ensures |r| <= |t| && r == t[|t| - |r|..]
    ensures r == [] || !NumberLead(r[0])
    decreases |t|
  {
    if t != [] && NumberLead(t[0]) then
      var u := LStrip(t[1..]);
      LStripSuffix(t[1..]);
      var r := SkipLineNumber(u);
      assert u == t[|t| - |u|..];
      assert r == t[|t| - |r|..];
      r
    else t
  }

  /** A stripped line with its `N` word removed; a line that is only `N`
      raises IndexError (the loop test reads `line[0]` of an empty string). */
  function LineNumberDropped(line: string): Result<string> {
    if line != [] && LowerChar(line[0]) == 'n' then
      if |line| == 1 then Raise(IndexError) else Ok(SkipLineNumber(line[1..]))
    else Ok(line)
  }

  /** The line-number strip as the source runs it, character by character. */
  method DropLineNumber(line: string) returns (r: Result<string>)
    ensures r == LineNumberDropped(line)
    ensures r.Ok? ==> EndsWith(line, r.value)
    ensures r.Ok? && r.value != line ==> r.value == [] || !NumberLead(r.value[0])
    ensures r.Raise? <==> line == "n" || line == "N"
  {
    if line == [] || LowerChar(line[0]) != 'n' {
      return Ok(line);
    }
    var rest := line[1..];
    if rest == [] {
      return Raise(IndexError);
    }
    while NumberLead(rest[0])
      invariant rest != [] && SkipLineNumber(rest) == SkipLineNumber(line[1..])
      decreases |rest|
    {
      rest := LStrip(rest[1..]);
      if rest == [] {
        break;
      }
    }
    return Ok(rest);
  }

  /** A full-comment line passes through untouched (:599-601). */
  predicate IsFullComment(line: string) {
    StartsWith(line, ";") || StartsWith(line, "(")
  }

  /** `a.strip().lower().replace(' ', '')`: the code part of a line. */
  function Compact(a: string): string {
    Remove(Lower(Strip(a)), ' ')
  }

  /** :602-612: a trailing `;` comment becomes a `(...)` comment, a trailing
      `(` comment is kept as it is, and the code before it is lower-cased
      with its spaces removed. */
  function NormalizeCode(line: string): string {
    if Contains(line, ";") then Compact(Before(line, ';')) + " (" + After(line, ';') + ")"
    else if Contains(line, "(") then Compact(Before(line, '(')) + " (" + After(line, '(')
    else Remove(Lower(line), ' ')
  }

  /** The leading-zero loop of :617-621, as a recursion. */
  function DropZeros(s: string): (r: string)
    requires |s| >= 2
    ensures 2 <= |r| <= |s| && r[0] == s[0]
    ensures !(|r| > 2 && r[1] == '0' && IsDigit(r[2]))
    ensures r == s || (r == s[..1] + s[|s| - |r| + 1..] && IsDigit(r[1])
                       && forall j :: 1 <= j <= |s| - |r| ==> s[j] == '0')
    decreases |s|
  {
    if |s| > 2 && s[1] == '0' && IsDigit(s[2]) then
      var r := DropZeros(s[..1] + s[2..]);
      assert r[1..] == s[|s| - |r| + 1..] by {
        assert s[..1] + s[2..] == [s[0]] + s[2..];
      }
      r
    else s
  }

  predicate GOrM(c: char) {
    c == 'g' || c == 'G' || c == 'm' || c == 'M'
  }

  /** :614-621: zeros right after a leading G or M letter are removed while
      another digit follows them (`g01` becomes `g1`, `g0` stays). */
  function ZeroStripped(s: string): string {
    if |s| > 2 && GOrM(s[0]) then DropZeros(s) else s
  }

  /** The leading-zero strip as the source runs it. It keeps the first
      letter, never lengthens the line, deletes only '0's sitting right after
      that letter, each followed by a digit, and leaves nothing more to
      strip. */
  method StripLeadingZeros(line: string) returns (r: string)
    ensures r == ZeroStripped(line)
    ensures |r| <= |line| && (line != [] ==> r != [] && r[0] == line[0])
    ensures r == line || (|line| > 2 && GOrM(line[0]) && IsDigit(r[1])
                          && r == line[..1] + line[|line| - |r| + 1..]
                          && forall j :: 1 <= j <= |line| - |r| ==> line[j] == '0')
    ensures |line| > 2 && GOrM(line[0]) ==> !(|r| > 2 && r[1] == '0' && IsDigit(r[2]))
  {
    r := line;
    if |r| > 2 && (LowerChar(r[0]) == 'g' || LowerChar(r[0]) == 'm') {
      while r[1] == '0' && |r| > 2
        invariant 2 <= |r| && DropZeros(r) == DropZeros(line)
        decreases |r|
      {
        if IsDigit(r[2]) {
          r := r[..1] + r[2..];
        } else {
          break;
        }
      }
    }
  }

  /** Stripping leading zeros twice is stripping them once. */
  lemma ZeroStrippedIdempotent(s: string)
    ensures ZeroStripped(ZeroStripped(s)) == ZeroStripped(s)
  {
  }

  /** The whole normalisation of a line that is not a full comment. */
  function NormalizeLine(line: string): string {
    ZeroStripped(NormalizeCode(line))
  }

  /** A character that may appear in normalised code. */
  predicate PlainChar(x: char) {
    x != ' ' && x != '(' && x != ';' && !('A' <= x <= 'Z')
  }

  /** Code text in normal form: no spaces, no comment delimiters and
      nothing upper-case. */
  predicate PlainCode(c: string) {
    forall i :: 0 <= i < |c| ==> PlainChar(c[i])
  }

  /** Plain code that also has no whitespace at either end, as produced by
      `Compact`. */
  predicate TrimmedCode(c: string) {
    PlainCode(c) && (c == [] || (!IsSpace(c[0]) && !IsSpace(c[|c| - 1])))
  }

  /** Lower-casing and removing spaces from text without comment
      delimiters gives plain code. */
  lemma {:induction false} LowerRemovePlain(t: string)
    requires '(' !in t && ';' !in t
    ensures PlainCode(Remove(Lower(t), ' '))
  {
    if t != [] {
      LowerRemovePlain(t[1..]);
      assert Lower(t) == [LowerChar(t[0])] + Lower(t[1..]);
      assert Remove(Lower(t), ' ') == (if LowerChar(t[0]) == ' ' then [] else [LowerChar(t[0])]) + Remove(Lower(t[1..]), ' ');
    }
  }

  /** Removing spaces from text without leading or trailing whitespace
      keeps its two ends. */
  lemma {:induction false} RemoveSpacesEnds(s: string)
    requires s != [] && !IsSpace(s[0]) && !IsSpace(s[|s| - 1])
    ensures var r := Remove(s, ' '); r != [] && r[0] == s[0] && r[|r| - 1] == s[|s| - 1]
  {
    assert s == s[..|s| - 1] + [s[|s| - 1]];
    RemoveAppend(s[..|s| - 1], [s[|s| - 1]], ' ');
    if |s| > 1 {
      assert s[..|s| - 1] == [s[0]] + s[1..|s| - 1];
      RemoveAppend([s[0]], s[1..|s| - 1], ' ');
    }
  }

  /** `Compact` of text without comment delimiters is trimmed code. */
  lemma {:induction false} CompactShape(a: string)
    requires '(' !in a && ';' !in a
    ensures TrimmedCode(Compact(a))
  {
    var t := Strip(a);
    StripShape(a);
    LowerRemovePlain(t);
    if t != [] {
      RemoveSpacesEnds(Lower(t));
    }
  }

  /** A normalised line with a comment normalises to itself. */
  lemma {:induction false} CommentFormFixed(c: string, b: string)
    requires TrimmedCode(c) && ';' !in b
    ensures NormalizeCode(c + " (" + b) == c + " (" + b
  {
    var s := c + " (" + b;
    var a := c + " ";
    assert s == a + ['('] + b;
    assert '(' !in a && ';' !in a by {
      assert forall i :: 0 <= i < |c| ==> PlainChar(a[i]);
    }
    assert ';' !in s;
    ContainsChar(s, ';');
    BeforeAfterOf(a, '(', b);
    assert RStrip(a) == RStrip(c) by {
      assert a[..|a| - 1] == c;
    }
    StripTrimmed(c);
    LowerUnchanged(c);
    RemoveKeeps(c, ' ');
  }

  /** A normalised line without a comment normalises to itself. */
  lemma {:induction false} CodeFormFixed(c: string)
    requires PlainCode(c)
    ensures NormalizeCode(c) == c
  {
    ContainsChar(c, ';');
    ContainsChar(c, '(');
    LowerUnchanged(c);
    RemoveKeeps(c, ' ');
  }

  /** A line with a `;` comment normalises to trimmed code, a space, a
      `(` and the comment, closed by `)`. */
  lemma {:induction false} SemicolonShape(line: string) returns (c: string, b: string)
    requires Contains(line, ";") && '(' !in Before(line, ';') && ';' !in After(line, ';')
    ensures TrimmedCode(c) && ';' !in b && NormalizeCode(line) == c + " (" + b
  {
    ContainsChar(line, ';');
    BeforeAfter(line, ';');
    CompactShape(Before(line, ';'));
    c, b := Compact(Before(line, ';')), After(line, ';') + ")";
    assert c + " (" + After(line, ';') + ")" == c + " (" + b;
    assert ';' !in b by {
      assert forall i :: 0 <= i < |b| - 1 ==> b[i] == After(line, ';')[i];
    }
  }

  /** A line with a `(` comment and no `;` normalises to trimmed code, a
      space and the comment as it was. */
  lemma {:induction false} ParenShape(line: string) returns (c: string, b: string)
    requires !Contains(line, ";") && Contains(line, "(")
    ensures TrimmedCode(c) && ';' !in b && NormalizeCode(line) == c + " (" + b
  {
    ContainsChar(line, ';');
    BeforeAfter(line, '(');
    var a := Before(line, '(');
    assert line == a + ['('] + After(line, '(');
    assert ';' !in a && ';' !in After(line, '(');
    CompactShape(a);
    c, b := Compact(a), After(line, '(');
  }

  /** A line without a comment normalises to plain code. */
  lemma {:induction false} PlainShape(line: string)
    requires !Contains(line, ";") && !Contains(line, "(")
    ensures PlainCode(NormalizeCode(line))
  {
    ContainsChar(line, ';');
    ContainsChar(line, '(');
    LowerRemovePlain(line);
  }

  /** Zero stripping never reaches past the code part of a line. */
  lemma {:induction false} DropZerosPrefix(c: string, t: string)
    requires |c| >= 2 && t != [] && t[0] == ' '
    ensures DropZeros(c + t) == DropZeros(c) + t
    decreases |c|
  {
    var s := c + t;
    if |s| > 2 && s[1] == '0' && IsDigit(s[2]) {
      assert |c| >= 3;
      assert s[..1] + s[2..] == (c[..1] + c[2..]) + t;
      DropZerosPrefix(c[..1] + c[2..], t);
    }
  }

  lemma {:induction false} ZeroStrippedPrefix(c: string, t: string)
    requires t != [] && t[0] == ' '
    ensures ZeroStripped(c + t) == ZeroStripped(c) + t
  {
    if |c| >= 2 {
      DropZerosPrefix(c, t);
    }
  }

  /** Zero stripping keeps code text in normal form. */
  lemma {:induction false} ZeroStrippedCode(c: string)
    ensures PlainCode(c) ==> PlainCode(ZeroStripped(c))
    ensures TrimmedCode(c) ==> TrimmedCode(ZeroStripped(c))
  {
    var r := ZeroStripped(c);
    if r != c {
      assert r == c[..1] + c[|c| - |r| + 1..];
      assert forall i :: 1 <= i < |r| ==> r[i] == c[|c| - |r| + i];
    }
  }

  /** A line already in normal form with a comment is a fixed point of the
      normalisation after zero stripping. */
  lemma {:induction false} CommentedFixed(c: string, b: string)
    requires TrimmedCode(c) && ';' !in b
    ensures NormalizeLine(ZeroStripped(c + " (" + b)) == ZeroStripped(c + " (" + b)
  {
    var z := ZeroStripped(c);
    var t := " (" + b;
    ZeroStrippedCode(c);
    assert c + " (" + b == c + t && z + " (" + b == z + t;
    ZeroStrippedPrefix(c, t);
    CommentFormFixed(z, b);
    ZeroStrippedIdempotent(c);
    ZeroStrippedPrefix(z, t);
  }

  /** Code without a comment is a fixed point of the normalisation after
      zero stripping. */
  lemma {:induction false} PlainFixed(c: string)
    requires PlainCode(c)
    ensures NormalizeLine(ZeroStripped(c)) == ZeroStripped(c)
  {
    ZeroStrippedCode(c);
    CodeFormFixed(ZeroStripped(c));
    ZeroStrippedIdempotent(c);
  }

  /** Normalising an already normalised line gives the same line, provided a
      `;` comment, if any, is the only `;` and comes before any `(`. */
  lemma {:induction false} NormalizeLineIdempotent(line: string)
    requires Contains(line, ";") ==> '(' !in Before(line, ';') && ';' !in After(line, ';')
    ensures NormalizeLine(NormalizeLine(line)) == NormalizeLine(line)
  {
    if Contains(line, ";") {
      var c, b := SemicolonShape(line);
      CommentedFixed(c, b);
    } else if Contains(line, "(") {
      var c, b := ParenShape(line);
      CommentedFixed(c, b);
    } else {
      PlainShape(line);
      PlainFixed(NormalizeCode(line));
    }
  }
}
