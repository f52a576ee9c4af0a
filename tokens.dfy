/** The word readers of the filter: the number after an axis letter
    (qtplasmac_gcode.py:223-237), the X/Y cursor update (:240-248), the
    expression test (:285-293), the Z-word mover (:251-282) and the feed-word
    reader (:550-552). */
module Tokens {
  import opened PyStr
  import opened PyNum

  /** A character `get_position` accepts as part of a number. */
  predicate NumberChar(c: char) {
    IsDigit(c) || c == '.' || c == '-'
  }

  predicate AllNumberChars(s: string) {
    forall i :: 0 <= i < |s| ==> NumberChar(s[i])
  }

  /** The longest prefix of `t` made only of number characters. */
  function NumberRun(t: string): (p: string)
    ensures StartsWith(t, p) && AllNumberChars(p)
    ensures |p| == |t| || !NumberChar(t[|p|])
  {
    if t != [] && NumberChar(t[0]) then
      var p := [t[0]] + NumberRun(t[1..]);
      assert t == [t[0]] + t[1..];
      p
    else []
  }

  /** A prefix of number characters that stops at the end or at a non-number
      character is the longest such prefix. */
  lemma {:induction false} NumberRunUnique(t: string, n: nat)
    requires n <= |t| && AllNumberChars(t[..n])
    requires n == |t| || !NumberChar(t[n])
    ensures NumberRun(t) == t[..n]
    decreases n
  {
    if n > 0 {
      assert t[..n][0] == t[0];
      assert t[1..][..n - 1] == t[1..n];
      NumberRunUnique(t[1..], n - 1);
      assert t[..n] == [t[0]] + t[1..n];
    }
  }

  /** `line.split(axis)[1]`: the text between the first and the second
      occurrence of the axis letter. */
  function AxisWord(line: string, axis: char): string
    requires axis in line
  {
    ContainsChar(line, axis);
    Before(After(line, axis), axis)
  }

  /** `line.split(axis)[1].replace(' ', '')`: the same without spaces. */
  function AxisText(line: string, axis: char): string
    requires axis in line
  {
    Remove(AxisWord(line, axis), ' ')
  }

  /** Whether a line names an axis other than Z (`'xybcuvw'` at :793). */
  predicate OtherAxis(line: string) {
    'x' in line || 'y' in line || 'b' in line || 'c' in line || 'u' in line || 'v' in line || 'w' in line
  }

  /** `get_position(axis)`: None when the axis text starts with something
      other than a digit, '.' or '-'; otherwise `float()` of its longest
      run of those characters. An empty axis text raises IndexError and a
      run `float()` rejects (`1-2`, `-`, `1.2.3`) raises ValueError. */
  function PositionOf(line: string, axis: char): (r: Result<Option<real>>)
    requires axis in line
    ensures r == Raise(IndexError) <==> AxisText(line, axis) == []
    ensures r == Ok(None) <==> AxisText(line, axis) != [] && !NumberChar(AxisText(line, axis)[0])
    ensures r.Ok? && r.value.Some? ==> ParseFloat(NumberRun(AxisText(line, axis))) == r.value
    ensures r.Raise? ==> r.error == IndexError || r.error == ValueError
  {
    var t := AxisText(line, axis);
    if t == [] then Raise(IndexError)
    else if !NumberChar(t[0]) then Ok(None)
    else match ParseFloat(NumberRun(t))
      case None => Raise(ValueError)
      case Some(v) => Ok(Some(v))
  }

  /** `get_position` as the source runs it: the number is collected one
      character at a time. */
  method GetPosition(line: string, axis: char) returns (r: Result<Option<real>>)
    requires axis in line
    ensures r == PositionOf(line, axis)
  {
    ContainsChar(line, axis);
    var tmp1 := Remove(Before(After(line, axis), axis), ' ');
    if tmp1 == [] {
      return Raise(IndexError);
    }
    if !NumberChar(tmp1[0]) {
      return Ok(None);
    }
    var n := 0;
    var tmp2 := "";
    while n < |tmp1| && NumberChar(tmp1[n])
      invariant 0 <= n <= |tmp1| && tmp2 == tmp1[..n] && AllNumberChars(tmp2)
    {
      tmp2 := tmp2 + [tmp1[n]];
      n := n + 1;
    }
    NumberRunUnique(tmp1, n);
    var v := ParseFloat(tmp2);
    if v.None? {
      return Raise(ValueError);
    }
    return Ok(Some(v.value));
  }

  /** `float(str(n)) == n` for an integer. */
  lemma ParseFloatOfInt(n: int)
    ensures ParseFloat(IntToString(n)) == Some(n as real)
  {
    var m: nat := if n < 0 then -n else n;
    DigitsOfNat(m);
    var d := NatToString(m);
    assert LeadingDigits(d) == |d|;
    StripDigits(IntToString(n));
    if n < 0 {
      assert IntToString(n)[1..] == d;
    }
  }

  /** The characters of `str(n)`. */
  lemma IntStringChars(n: int)
    ensures AllNumberChars(IntToString(n)) && ' ' !in IntToString(n)
  {
    DigitsOfNat(if n < 0 then -n else n);
  }

  /** The axis text of a line with a single occurrence of the axis letter is
      everything after it, without spaces. */
  lemma AxisTextOf(pre: string, axis: char, rest: string)
    requires axis !in pre && axis !in rest
    ensures axis in pre + [axis] + rest
    ensures AxisText(pre + [axis] + rest, axis) == Remove(rest, ' ')
  {
    BeforeAfterOf(pre, axis, rest);
    ContainsChar(pre + [axis] + rest, axis);
    ContainsChar(rest, axis);
  }

  /** An integer written after an axis letter is read back by
      `get_position`, whatever non-number text follows it. */
  lemma {:induction false} PositionOfInteger(pre: string, axis: char, n: int, post: string)
    requires axis !in pre && axis !in post && !NumberChar(axis)
    requires post != [] && post[0] != ' ' && !NumberChar(post[0])
    ensures axis in pre + [axis] + IntToString(n) + post
    ensures PositionOf(pre + [axis] + IntToString(n) + post, axis) == Ok(Some(n as real))
  {
    var w := IntToString(n);
    IntStringChars(n);
    assert axis !in w;
    assert pre + [axis] + w + post == pre + [axis] + (w + post);
    AxisTextOf(pre, axis, w + post);
    RemoveAppend(w, post, ' ');
    RemoveKeeps(w, ' ');
    assert post == [post[0]] + post[1..];
    RemoveAppend([post[0]], post[1..], ' ');
    var t := Remove(w + post, ' ');
    assert t == w + ([post[0]] + Remove(post[1..], ' '));
    assert t[..|w|] == w && t[|w|] == post[0];
    NumberRunUnique(t, |w|);
    ParseFloatOfInt(n);
  }

  /** `set_last_position`: on a line starting with `g`, `x` or `y`, each of
      X and Y is replaced by the value after its letter when that value is
      a number; otherwise the cursor is kept. */
  function LastPosition(line: string, x: Option<real>, y: Option<real>): (r: Result<(Option<real>, Option<real>)>)
    requires line != []
    ensures line[0] !in "gxy" ==> r == Ok((x, y))
    ensures r.Ok? && r.value.0 != x ==> 'x' in line && PositionOf(line, 'x') == Ok(r.value.0) && r.value.0.Some?
    ensures r.Ok? && r.value.1 != y ==> 'y' in line && PositionOf(line, 'y') == Ok(r.value.1) && r.value.1.Some?
    ensures r.Raise? ==> ('x' in line && PositionOf(line, 'x') == Raise(r.error))
                         || ('y' in line && PositionOf(line, 'y') == Raise(r.error))
    ensures line[0] in "gxy" && 'x' in line && PositionOf(line, 'x').Raise? ==>
              r == Raise(PositionOf(line, 'x').error)
    ensures line[0] in "gxy" && 'y' in line && PositionOf(line, 'y').Raise?
            && !('x' in line && PositionOf(line, 'x').Raise?) ==>
              r == Raise(PositionOf(line, 'y').error)
    ensures r.Ok? && line[0] in "gxy" && 'x' in line && PositionOf(line, 'x').Ok? && PositionOf(line, 'x').value.Some? ==>
              r.value.0 == PositionOf(line, 'x').value
    ensures r.Ok? && line[0] in "gxy" && 'y' in line && PositionOf(line, 'y').Ok? && PositionOf(line, 'y').value.Some? ==>
              r.value.1 == PositionOf(line, 'y').value
  {
    if line[0] in "gxy" then
      var rx := if 'x' in line then PositionOf(line, 'x') else Ok(None);
      if rx.Raise? then Raise(rx.error)
      else
        var ry := if 'y' in line then PositionOf(line, 'y') else Ok(None);
        if ry.Raise? then Raise(ry.error)
        else Ok((if rx.value.Some? then rx.value else x, if ry.value.Some? then ry.value else y))
    else Ok((x, y))
  }

  /** `check_math(axis)`: the text after the axis letter is a `[...]`
      expression or a `#` parameter rather than an explicit value. */
  predicate UsesExpression(line: string, axis: char)
    requires axis in line
  {
    ContainsChar(line, axis);
    var t := Before(After(line, axis), axis);
    StartsWith(t, "[") || StartsWith(t, "#")
  }

  // ---------------------------------------------------------------------
  // Moving Z words into a trailing comment (comment_out_z_commands)
  // ---------------------------------------------------------------------

  /** A character that continues a Z word. */
  predicate ZWordChar(c: char) {
    IsDigit(c) || c == '.' || c == '-' || c == ' '
  }

  datatype ZMode = Code | InComment | Removing

  /** The scanner's state: its mode, the rebuilt command and the collected
      Z words. */
  datatype ZState = ZState(mode: ZMode, newline: string, newz: string)

  /** One character of the scan. A character that ends a Z word goes to the
      command text whatever it is, so a `(` there does not open a comment and
      a `z` there does not start another Z word. */
  function ZStep(st: ZState, c: char): ZState {
    match st.mode
    case InComment =>
      ZState(if c == ')' then Code else InComment, st.newline + [c], st.newz)
    case Removing =>
      if ZWordChar(c) then st.(newz := st.newz + [c])
      else ZState(Code, st.newline + [c], if st.newz != [] then RStrip(st.newz) else st.newz)
    case Code =>
      if c == '(' then ZState(InComment, st.newline + [c], st.newz)
      else if c == 'z' then st.(mode := Removing, newz := st.newz + "(z")
      else st.(newline := st.newline + [c])
  }

  function ZRun(s: string, st: ZState): ZState
    decreases |s|
  {
    if s == [] then st else ZRun(s[1..], ZStep(st, s[0]))
  }

  /** The line `comment_out_z_commands` returns. */
  function ZMoved(line: string): string {
    var st := ZRun(line, ZState(Code, "", ""));
    st.newline + " " + st.newz + ")"
  }

  /** The scan as the source runs it, with its two flags. */
  method MoveZWords(line: string) returns (r: string)
    ensures r == ZMoved(line)
  {
    var newline := "";
    var newz := "";
    var removing := false;
    var comment := false;
    var i := 0;
    while i < |line|
      invariant 0 <= i <= |line| && !(comment && removing)
      invariant ZRun(line[i..], ZState(if comment then InComment else if removing then Removing else Code, newline, newz))
                == ZRun(line, ZState(Code, "", ""))
    {
      var bit := line[i];
      assert line[i..] == [bit] + line[i + 1..];
      if comment {
        if bit == ')' {
          comment := false;
        }
        newline := newline + [bit];
      } else if removing {
        if ZWordChar(bit) {
          newz := newz + [bit];
        } else {
          removing := false;
          if newz != [] {
            newz := RStrip(newz);
          }
          newline := newline + [bit];
        }
      } else if bit == '(' {
        comment := true;
        newline := newline + [bit];
      } else if bit == 'z' {
        removing := true;
        newz := newz + "(z";
      } else {
        newline := newline + [bit];
      }
      i := i + 1;
    }
    return newline + " " + newz + ")";
  }

  /** Inside a comment every character is copied unchanged and in order up
      to the closing `)`. */
  lemma {:induction false} ZRunCopiesComment(c: string, st: ZState)
    requires st.mode == InComment && ')' !in c
    ensures ZRun(c, st) == st.(newline := st.newline + c)
    decreases |c|
  {
    if c != [] {
      ZRunCopiesComment(c[1..], ZStep(st, c[0]));
      assert st.newline + [c[0]] + c[1..] == st.newline + c;
    }
  }

  /** Command text without `z` or `(` is copied unchanged. */
  lemma {:induction false} ZRunKeepsCode(s: string, st: ZState)
    requires st.mode == Code && 'z' !in s && '(' !in s
    ensures ZRun(s, st) == st.(newline := st.newline + s)
    decreases |s|
  {
    if s != [] {
      ZRunKeepsCode(s[1..], ZStep(st, s[0]));
      assert st.newline + [s[0]] + s[1..] == st.newline + s;
    }
  }

  /** While a Z word is read its characters go to the Z text. */
  lemma {:induction false} ZRunCollects(w: string, rest: string, st: ZState)
    requires st.mode == Removing && forall i :: 0 <= i < |w| ==> ZWordChar(w[i])
    ensures ZRun(w + rest, st) == ZRun(rest, st.(newz := st.newz + w))
    decreases |w|
  {
    if w != [] {
      assert (w + rest)[1..] == w[1..] + rest;
      ZRunCollects(w[1..], rest, ZStep(st, w[0]));
      assert st.newz + [w[0]] + w[1..] == st.newz + w;
    } else {
      assert w + rest == rest && st.newz + w == st.newz;
    }
  }

  /** A `z` in command text and the number after it leave the command; the
      character ending the word stays in the command, and the word, opened
      with `(`, is added to the Z text without trailing spaces. */
  lemma {:induction false} ZRunMovesWord(w: string, d: char, rest: string, st: ZState)
    requires st.mode == Code && forall i :: 0 <= i < |w| ==> ZWordChar(w[i])
    requires !ZWordChar(d)
    ensures ZRun(['z'] + w + [d] + rest, st)
            == ZRun(rest, ZState(Code, st.newline + [d], RStrip(st.newz + "(z" + w)))
  {
    var s := ['z'] + w + [d] + rest;
    assert s[1..] == w + ([d] + rest);
    var st1 := ZStep(st, 'z');
    ZRunCollects(w, [d] + rest, st1);
    assert ([d] + rest)[1..] == rest;
  }

  /** The whole transformation on a line of the usual shape: command text,
      one Z word, more command text, then a comment. */
  lemma {:induction false} ZMovedLine(a: string, w: string, b: string, c: string)
    requires 'z' !in a && '(' !in a
    requires forall i :: 0 <= i < |w| ==> ZWordChar(w[i])
    requires b != [] && !ZWordChar(b[0]) && 'z' !in b && '(' !in b
    requires ')' !in c
    ensures ZMoved(a + "z" + w + b + "(" + c) == a + b + "(" + c + " " + RStrip("(z" + w) + ")"
  {
    var init := ZState(Code, "", "");
    var r := b[1..] + (['('] + c);
    var x := ['z'] + w + [b[0]] + r;
    var s := a + "z" + w + b + "(" + c;
    assert s == a + x;
    ZRunAppend(a, x, init);
    ZRunKeepsCode(a, init);
    assert "" + a == a;
    var st1 := ZState(Code, a, "");
    assert ZRun(s, init) == ZRun(x, st1);
    ZRunMovesWord(w, b[0], r, st1);
    assert "" + "(z" + w == "(z" + w;
    var st2 := ZState(Code, a + [b[0]], RStrip("(z" + w));
    assert ZRun(s, init) == ZRun(r, st2);
    ZRunAppend(b[1..], ['('] + c, st2);
    ZRunKeepsCode(b[1..], st2);
    var st3 := ZState(Code, a + [b[0]] + b[1..], RStrip("(z" + w));
    assert ZRun(s, init) == ZRun(['('] + c, st3);
    assert (['('] + c)[1..] == c;
    var st4 := ZState(InComment, st3.newline + ['('], st3.newz);
    assert ZRun(['('] + c, st3) == ZRun(c, st4);
    ZRunCopiesComment(c, st4);
    assert ZRun(s, init) == st4.(newline := st4.newline + c);
    assert a + [b[0]] + b[1..] + ['('] + c == a + b + "(" + c;
  }

  /** The scan of a concatenation continues from the state after the
      first part. */
  lemma {:induction false} ZRunAppend(s: string, t: string, st: ZState)
    ensures ZRun(s + t, st) == ZRun(t, ZRun(s, st))
    decreases |s|
  {
    if s != [] {
      assert (s + t)[1..] == s[1..] + t;
      ZRunAppend(s[1..], t, ZStep(st, s[0]));
    } else {
      assert s + t == t;
    }
  }

  /** `a` occurs in `b` as a subsequence (matched greedily from the
      front). */
  predicate IsSubseq(a: string, b: string)
    decreases |b|
  {
    if a == [] then true
    else if b == [] then false
    else if a[0] == b[0] then IsSubseq(a[1..], b[1..])
    else IsSubseq(a, b[1..])
  }

  /** Dropping the first character of a subsequence keeps it a
      subsequence. */
  lemma {:induction false} SubseqDropHead(a: string, c: string)
    requires a != [] && IsSubseq(a, c)
    ensures IsSubseq(a[1..], c)
    decreases |c|, 1
  {
    if a[0] == c[0] {
      SubseqSkip(a[1..], c);
    } else {
      SubseqDropHead(a, c[1..]);
      SubseqSkip(a[1..], c);
    }
  }

  /** A subsequence of the tail of `b` is a subsequence of `b`. */
  lemma {:induction false} SubseqSkip(a: string, b: string)
    requires b != [] && IsSubseq(a, b[1..])
    ensures IsSubseq(a, b)
    decreases |b|, 0
  {
    if a != [] && a[0] == b[0] {
      SubseqDropHead(a, b[1..]);
    }
  }

  /** The command text the scan produces is what it had before followed by
      a subsequence of the scanned characters: nothing is reordered, and
      the Z text only gains `(`, `z` and Z-word characters. */
  lemma {:induction false} ZRunOrder(s: string, st: ZState)
    ensures var r := ZRun(s, st);
            StartsWith(r.newline, st.newline) && IsSubseq(r.newline[|st.newline|..], s)
    ensures forall c :: c in ZRun(s, st).newz ==> c in st.newz || c == '(' || c == 'z' || ZWordChar(c)
    decreases |s|
  {
    if s != [] {
      var st1 := ZStep(st, s[0]);
      ZRunOrder(s[1..], st1);
      var r := ZRun(s, st);
      var k := r.newline[|st1.newline|..];
      if |st1.newline| == |st.newline| + 1 {
        assert r.newline[|st.newline|..] == [s[0]] + k;
      } else {
        SubseqSkip(k, s);
      }
      forall c | c in st1.newz
        ensures c in st.newz || c == '(' || c == 'z' || ZWordChar(c)
      {
        if st.mode == Removing && !ZWordChar(s[0]) && st.newz != [] {
          assert st1.newz == st.newz[..|st1.newz|];
        }
      }
    }
  }

  // ---------------------------------------------------------------------
  // Reading an F word (check_f_word)
  // ---------------------------------------------------------------------

  predicate FeedChar(c: char) {
    IsDigit(c) || c == '.'
  }

  /** The feed number `check_f_word` collects: leading digits and dots, each
      taken with the whitespace after it dropped. */
  function FeedToken(t: string): string
    decreases |t|
  {
    if t != [] && FeedChar(t[0]) then [t[0]] + FeedToken(LStrip(t[1..])) else []
  }

  lemma FeedTokenStep(t: string)
    requires t != [] && FeedChar(t[0])
    ensures FeedToken(t) == [t[0]] + FeedToken(LStrip(t[1..]))
  {
  }

  lemma AppendOne(a: string, c: char, b: string)
    ensures a + ([c] + b) == (a + [c]) + b
  {
  }

  /** The feed text holds only digits and dots. */
  lemma {:induction false} FeedTokenChars(t: string)
    ensures forall i :: 0 <= i < |FeedToken(t)| ==> FeedChar(FeedToken(t)[i])
    decreases |t|
  {
    if t != [] && FeedChar(t[0]) {
      FeedTokenStep(t);
      FeedTokenChars(LStrip(t[1..]));
    }
  }

  /** The collecting loop as the source runs it. */
  method ReadFeed(inFeed: string) returns (rawFeed: string)
    ensures rawFeed == FeedToken(inFeed)
  {
    rawFeed := "";
    var t := inFeed;
    while |t| > 0 && FeedChar(t[0])
      invariant rawFeed + FeedToken(t) == FeedToken(inFeed)
      decreases |t|
    {
      var rest := LStrip(t[1..]);
      FeedTokenStep(t);
      AppendOne(rawFeed, t[0], FeedToken(rest));
      rawFeed := rawFeed + [t[0]];
      t := rest;
    }
    assert FeedToken(t) == [];
    assert rawFeed + [] == rawFeed;
  }

  /** A feed written as digits and followed by something that is not part
      of a number is read back exactly. */
  lemma {:induction false} FeedTokenOfNat(n: nat, rest: string)
    requires rest == [] || (!FeedChar(rest[0]) && !IsSpace(rest[0]))
    ensures FeedToken(NatToString(n) + rest) == NatToString(n)
  {
    FeedTokenDigits(NatToString(n), rest);
  }

  lemma {:induction false} FeedTokenDigits(d: string, rest: string)
    requires forall i :: 0 <= i < |d| ==> IsDigit(d[i])
    requires rest == [] || (!FeedChar(rest[0]) && !IsSpace(rest[0]))
    ensures FeedToken(d + rest) == d
    decreases |d|
  {
    if d != [] {
      var t := d + rest;
      var u := d[1..] + rest;
      assert t[1..] == u;
      assert u == [] || !IsSpace(u[0]);
      assert LStrip(u) == u;
      FeedTokenStep(t);
      FeedTokenDigits(d[1..], rest);
      assert d == [d[0]] + d[1..];
    } else {
      assert d + rest == rest;
    }
  }
}
