/** The handful of Python `str` operations the G-code filter relies on,
    written over `string` (a sequence of chars). Character classes and case
    mapping are restricted to ASCII: Python's own are Unicode-aware and
    agree with these on ASCII text only. */
module PyStr {

  datatype Option<T> = None | Some(value: T)

  /** `c.isdigit()` on ASCII: Python also accepts other Unicode digits. */
  predicate IsDigit(c: char) { '0' <= c <= '9' }

  /** `c.isalpha()` on ASCII: Python also accepts other Unicode letters. */
  predicate IsAlpha(c: char) { 'a' <= c <= 'z' || 'A' <= c <= 'Z' }

  /** The ASCII characters `str.strip()` removes: space, tab, line feed,
      vertical tab, form feed, carriage return and the four separators
      28..31. Python also removes Unicode whitespace such as U+0085 and
      U+00A0. */
  predicate IsSpace(c: char) {
    c == ' ' || 9 <= c as int <= 13 || 28 <= c as int <= 31
  }

  /** `c.lower()` on ASCII: Python also lowers other Unicode letters. */
  function LowerChar(c: char): char {
    if 'A' <= c <= 'Z' then (c as int + 32) as char else c
  }

  /** `s.lower()`, with ASCII case mapping. */
  function Lower(s: string): (r: string)
    ensures |r| == |s|
    ensures forall i :: 0 <= i < |s| ==> r[i] == LowerChar(s[i])
  {
    if s == [] then [] else [LowerChar(s[0])] + Lower(s[1..])
  }

  /** `s.lstrip()` */
  function LStrip(s: string): (r: string)
    ensures |r| <= |s|
    ensures r == [] || !IsSpace(r[0])
  {
    if s != [] && IsSpace(s[0]) then LStrip(s[1..]) else s
  }

  /** What `lstrip()` leaves is a suffix of its input. */
  lemma {:induction false} LStripSuffix(s: string)
    ensures LStrip(s) == s[|s| - |LStrip(s)|..]
  {
    if s != [] && IsSpace(s[0]) {
      LStripSuffix(s[1..]);
    }
  }

  /** `s.rstrip()` */
  function RStrip(s: string): (r: string)
    ensures |r| <= |s| && r == s[..|r|]
    ensures r == [] || !IsSpace(r[|r| - 1])
  {
    if s != [] && IsSpace(s[|s| - 1]) then RStrip(s[..|s| - 1]) else s
  }

  /** `s.strip()` */
  function Strip(s: string): string {
    LStrip(RStrip(s))
  }

  /** `s.replace(c, '')` */
  function Remove(s: string, c: char): (r: string)
    ensures c !in r
    ensures |r| <= |s|
  {
    if s == [] then [] else (if s[0] == c then [] else [s[0]]) + Remove(s[1..], c)
  }

  /** `s.strip(c)` for a single character `c` */
  function StripChar(s: string, c: char): string {
    DropTrailing(DropLeading(s, c), c)
  }

  function DropLeading(s: string, c: char): (r: string)
    ensures r == [] || r[0] != c
  {
    if s != [] && s[0] == c then DropLeading(s[1..], c) else s
  }

  function DropTrailing(s: string, c: char): (r: string)
    ensures r == [] || r[|r| - 1] != c
  {
    if s != [] && s[|s| - 1] == c then DropTrailing(s[..|s| - 1], c) else s
  }

  /** `s.startswith(p)` */
  predicate StartsWith(s: string, p: string) {
    |p| <= |s| && s[..|p|] == p
  }

  /** `s.endswith(p)` */
  predicate EndsWith(s: string, p: string) {
    |p| <= |s| && s[|s| - |p|..] == p
  }

  /** The index of the first occurrence of `p` in `s` (`s.find(p)`). */
  function Find(s: string, p: string): (r: Option<nat>)
    ensures r.Some? ==> r.value + |p| <= |s| && s[r.value..r.value + |p|] == p
  {
    if StartsWith(s, p) then Some(0)
    else if s == [] then None
    else match Find(s[1..], p)
      case None => None
      case Some(i) => Some(i + 1)
  }

  /** Searching for one character finds its first occurrence. */
  lemma {:induction false} FindChar(s: string, c: char)
    ensures Find(s, [c]).Some? ==> s[Find(s, [c]).value] == c && c !in s[..Find(s, [c]).value]
    ensures Find(s, [c]).None? <==> c !in s
  {
    if s != [] && !StartsWith(s, [c]) {
      FindChar(s[1..], c);
      assert s == [s[0]] + s[1..];
    }
  }

  /** `p in s` */
  predicate Contains(s: string, p: string) {
    Find(s, p).Some?
  }

  lemma ContainsChar(s: string, c: char)
    ensures Contains(s, [c]) <==> c in s
  {
    FindChar(s, c);
  }

  /** The text before the first `c` and the text after it make up `s`. */
  lemma {:induction false} BeforeAfter(s: string, c: char)
    requires c in s
    ensures Contains(s, [c])
    ensures s == Before(s, c) + [c] + After(s, c)
    ensures c !in Before(s, c)
  {
    FindChar(s, c);
    var i := Find(s, [c]).value;
    assert s == s[..i] + [c] + s[i + 1..];
  }

  /** Without a `c`, the text before the first `c` is all of `s`. */
  lemma BeforeNone(s: string, c: char)
    requires c !in s
    ensures Before(s, c) == s
  {
    FindChar(s, c);
  }

  /** Splitting at the first `c` when the text before it has none. */
  lemma {:induction false} BeforeAfterOf(x: string, c: char, y: string)
    requires c !in x
    ensures Contains(x + [c] + y, [c])
    ensures Before(x + [c] + y, c) == x && After(x + [c] + y, c) == y
  {
    var s := x + [c] + y;
    FindChar(s, c);
    assert s[..|x|] == x && s[|x|] == c;
  }

  /** What `strip()` leaves is part of the input and has no whitespace at
      either end. */
  lemma StripShape(s: string)
    ensures forall x :: x in Strip(s) ==> x in s
    ensures Strip(s) == [] || (!IsSpace(Strip(s)[0]) && !IsSpace(Strip(s)[|Strip(s)| - 1]))
  {
    var u := RStrip(s);
    var t := Strip(s);
    LStripSuffix(u);
    assert forall x :: x in t ==> x in u;
    if t != [] {
      assert t[|t| - 1] == u[|u| - 1];
    }
  }

  /** `strip()` leaves text without whitespace at its ends unchanged. */
  lemma StripTrimmed(s: string)
    requires s == [] || (!IsSpace(s[0]) && !IsSpace(s[|s| - 1]))
    ensures Strip(s) == s
  {
  }

  /** `lower()` leaves text without upper-case letters unchanged. */
  lemma LowerUnchanged(s: string)
    requires forall i :: 0 <= i < |s| ==> !('A' <= s[i] <= 'Z')
    ensures Lower(s) == s
  {
  }

  lemma {:induction false} RemoveAppend(s: string, t: string, c: char)
    ensures Remove(s + t, c) == Remove(s, c) + Remove(t, c)
  {
    if s != [] {
      RemoveAppend(s[1..], t, c);
      assert (s + t)[1..] == s[1..] + t;
    } else {
      assert s + t == t;
    }
  }

  lemma {:induction false} RemoveKeeps(s: string, c: char)
    ensures forall x :: x in Remove(s, c) ==> x in s
    ensures c !in s ==> Remove(s, c) == s
  {
    if s != [] {
      RemoveKeeps(s[1..], c);
    }
  }

  /** `s.split(sep)`: the pieces between the non-overlapping occurrences of
      `sep`, leftmost first. */
  function Split(s: string, sep: string): (r: seq<string>)
    requires sep != []
    ensures |r| >= 1
    decreases |s|
  {
    match Find(s, sep)
    case None => [s]
    case Some(i) => [s[..i]] + Split(s[i + |sep|..], sep)
  }

  /** `s.split(sep)[k]`, or None where Python raises IndexError. */
  function Piece(s: string, sep: string, k: nat): Option<string>
    requires sep != []
  {
    var parts := Split(s, sep);
    if k < |parts| then Some(parts[k]) else None
  }

  /** The text before the first `c` (`s.split(c, 1)[0]`). */
  function Before(s: string, c: char): (r: string)
    ensures StartsWith(s, r)
  {
    match Find(s, [c])
    case None => s
    case Some(i) => s[..i]
  }

  /** The text after the first `c` (`s.split(c, 1)[1]`). */
  function After(s: string, c: char): string
    requires Contains(s, [c])
  {
    s[Find(s, [c]).value + 1..]
  }

  /** The text after the last `c` (`s.rsplit(c, 1)[1]`). */
  function AfterLast(s: string, c: char): string
  {
    if s == [] then []
    else if s[|s| - 1] == c then []
    else AfterLast(s[..|s| - 1], c) + [s[|s| - 1]]
  }

  lemma {:induction false} SplitOnce(s: string, c: char)
    requires Contains(s, [c])
    ensures Piece(s, [c], 0) == Some(Before(s, c))
    ensures Piece(s, [c], 1) == Some(Before(After(s, c), c))
  {
    var i := Find(s, [c]).value;
    var rest := s[i + 1..];
    assert Split(s, [c]) == [s[..i]] + Split(rest, [c]);
    match Find(rest, [c])
    case None =>
    case Some(j) =>
  }

  lemma {:induction false} PieceOneIffContains(s: string, c: char)
    ensures Piece(s, [c], 1).Some? <==> Contains(s, [c])
  {
    if Contains(s, [c]) {
      SplitOnce(s, c);
    }
  }

  function DigitChar(d: nat): char
    requires d < 10
  {
    ['0', '1', '2', '3', '4', '5', '6', '7', '8', '9'][d]
  }

  /** `str(n)` for a natural number. */
  function NatToString(n: nat): (r: string)
    ensures r != [] && forall i :: 0 <= i < |r| ==> IsDigit(r[i])
    decreases n
  {
    if n < 10 then [DigitChar(n)] else NatToString(n / 10) + [DigitChar(n % 10)]
  }

  /** `str(n)` for an integer. */
  function IntToString(n: int): (r: string)
    ensures r != []
  {
    if n < 0 then "-" + NatToString(-n) else NatToString(n)
  }
}
