/** What the filter's pass (qtplasmac_gcode.py:577-894) builds on: the
    machine units, the dialogs the script would show (Qt dialogs become
    `Dialog` records), the history of the velocity latch, the fixed lines
    the pass writes, the material number of a material change, and what the
    script prints at the end. */
module Filter {
  import opened PyStr
  import opened PyNum
  import opened Normalize
  import opened Tokens
  import opened Geometry
  import opened Materials

  /** The machine's linear units: millimetres, with four decimals in
      generated arcs, or inches, with six (:47-49). */
  datatype Units = Mm | Inch

  function Precision(u: Units): nat {
    if u == Mm then 4 else 6
  }

  /** `unitsPerMm` (:50-56). */
  function UnitsPerMm(u: Units): real {
    if u == Mm then 1.0 else 0.03937
  }

  // ---------------------------------------------------------------------
  // Dialogs
  // ---------------------------------------------------------------------

  datatype Severity = Warning | Error

  /** Why a dialog was raised. */
  datatype Reason =
    | CompensationVelocity     // velocity reduction under G41
    | ClockwiseHole            // a hole cut with G2
    | CompensationTorch        // torch switching under G41
    | ExplicitValues           // an axis value given as an expression
    | MissingMaterial          // an unknown material number
    | TemporaryReference       // a reference to a temporary material
    | MaterialInUse            // a new material whose number exists
    | FeedMismatch             // an F word differing from the material
    | ScribeInPierceOnly       // a scribe start in pierce-only mode
    | PierceOnlyWhileScribing  // pierce-only mode asked for while scribing
    | DeprecatedDiameter       // #<m_diameter> or #<i_diameter>
    | CompensationMaterial     // a material change under G41
    | DistanceMode             // G91
    | ArcDistanceMode          // G90.1

  /** A modal dialog the script would show, with the line number it names. */
  datatype Dialog = Dialog(severity: Severity, reason: Reason, lineNum: int)

  /** The dialogs that come with `codeError`: every error except the one for
      a material number already in use, which sets nothing. */
  predicate IsBlocking(d: Dialog) {
    d.severity == Error && d.reason != MaterialInUse
  }

  /** Whether some dialog so far is blocking. */
  function Blocks(ds: seq<Dialog>): bool
    decreases |ds|
  {
    ds != [] && (IsBlocking(ds[|ds| - 1]) || Blocks(ds[..|ds| - 1]))
  }

  lemma BlocksAppend(ds: seq<Dialog>, d: Dialog)
    ensures Blocks(ds + [d]) == (Blocks(ds) || IsBlocking(d))
  {
    assert (ds + [d])[..|ds|] == ds;
  }

  /** `Blocks` holds exactly when one of the dialogs is blocking. */
  lemma {:induction false} BlocksMeans(ds: seq<Dialog>)
    ensures Blocks(ds) <==> exists k :: 0 <= k < |ds| && IsBlocking(ds[k])
    decreases |ds|
  {
    if ds != [] {
      var init := ds[..|ds| - 1];
      BlocksMeans(init);
      if Blocks(init) {
        var k :| 0 <= k < |init| && IsBlocking(init[k]);
        assert ds[k] == init[k];
      }
      if exists k :: 0 <= k < |ds| && IsBlocking(ds[k]) {
        var k :| 0 <= k < |ds| && IsBlocking(ds[k]);
        if k < |init| {
          assert init[k] == ds[k];
        }
      }
    }
  }

  /** The number of dialogs raised for a reason. */
  function CountReason(ds: seq<Dialog>, r: Reason): nat
    decreases |ds|
  {
    if ds == [] then 0 else CountReason(ds[..|ds| - 1], r) + (if ds[|ds| - 1].reason == r then 1 else 0)
  }

  lemma CountAppend(ds: seq<Dialog>, d: Dialog, r: Reason)
    ensures CountReason(ds + [d], r) == CountReason(ds, r) + (if d.reason == r then 1 else 0)
  {
    assert (ds + [d])[..|ds|] == ds;
  }

  /** `ds` is `d0` followed only by warnings other than the feed warning. */
  predicate QuietlyExtends(ds: seq<Dialog>, d0: seq<Dialog>)
    decreases |ds|
  {
    if |ds| <= |d0| then ds == d0
    else
      && ds[|ds| - 1].severity == Warning && ds[|ds| - 1].reason != FeedMismatch
      && QuietlyExtends(ds[..|ds| - 1], d0)
  }

  /** Such warnings block nothing and leave the feed-warning count alone. */
  lemma {:induction false} QuietKeeps(ds: seq<Dialog>, d0: seq<Dialog>)
    requires QuietlyExtends(ds, d0)
    ensures Blocks(ds) == Blocks(d0) && CountReason(ds, FeedMismatch) == CountReason(d0, FeedMismatch)
    decreases |ds|
  {
    if |d0| < |ds| {
      var init := ds[..|ds| - 1];
      QuietKeeps(init, d0);
      assert ds == init + [ds[|ds| - 1]];
      BlocksAppend(init, ds[|ds| - 1]);
      CountAppend(init, ds[|ds| - 1], FeedMismatch);
    }
  }

  lemma {:induction false} QuietTrans(d2: seq<Dialog>, d1: seq<Dialog>, d0: seq<Dialog>)
    requires QuietlyExtends(d1, d0) && QuietlyExtends(d2, d1)
    ensures QuietlyExtends(d2, d0)
    decreases |d2|
  {
    if |d1| < |d2| {
      QuietTrans(d2[..|d2| - 1], d1, d0);
      QuietLonger(d2, d1, d0);
    }
  }

  /** A quiet extension is at least as long as what it extends. */
  lemma {:induction false} QuietLonger(ds: seq<Dialog>, d1: seq<Dialog>, d0: seq<Dialog>)
    requires QuietlyExtends(d1, d0) && |d1| < |ds|
    ensures |d0| < |ds|
    decreases |d1|
  {
    if |d0| < |d1| {
      QuietLonger(ds, d1[..|d1| - 1], d0);
    }
  }

  // ---------------------------------------------------------------------
  // The velocity latch
  // ---------------------------------------------------------------------

  /** The line that restores full velocity after a reduced arc. */
  const RestoreLine: string := "m67 e3 q0 (arc complete, velocity 100%)"

  /** The restore written at a spindle stop or a program end, with `m68`. */
  const EndRestoreLine: string := "m68 e3 q0 (arc complete, velocity 100%)"

  /** The line that reduces velocity for an arc of the given radius. */
  function ReductionLine(host: Host, velocity: Num, radius: real): string {
    "m67 e3 q" + Str(velocity, host) + " (diameter:" + host.fixed(radius * 2.0, 3)
    + ", velocity:" + Str(velocity, host) + "%)"
  }

  /** A latch event: a reduction with the velocity and radius it was
      written for, or a restore with the line it wrote. */
  datatype LatchEvent = Reduce(velocity: Num, radius: real) | Restore(line: string)

  /** The latch's history: events alternate, starting with a reduction;
      every restore writes one of the two restore lines; and the latch is
      set exactly after a reduction, that is when the number of events is
      odd. */
  predicate LatchTrace(log: seq<LatchEvent>, active: bool) {
    (forall k :: 0 <= k < |log| ==>
       (log[k].Reduce? <==> k % 2 == 0)
       && (log[k].Restore? ==> log[k].line == RestoreLine || log[k].line == EndRestoreLine))
    && active == (|log| % 2 == 1)
  }

  /** A reduction may be written only while the latch is clear, and sets it. */
  lemma LatchReduce(log: seq<LatchEvent>, velocity: Num, radius: real)
    requires LatchTrace(log, false)
    ensures LatchTrace(log + [Reduce(velocity, radius)], true)
  {
  }

  /** A restore may be written only while the latch is set, and clears it. */
  lemma LatchRestore(log: seq<LatchEvent>, line: string)
    requires LatchTrace(log, true)
    requires line == RestoreLine || line == EndRestoreLine
    ensures LatchTrace(log + [Restore(line)], false)
  {
  }

  /** Between any two velocity reductions there is a restore: the event
      right after the earlier one. */
  lemma LatchSeparated(log: seq<LatchEvent>, active: bool, a: nat, b: nat)
    requires LatchTrace(log, active)
    requires a < b < |log| && log[a].Reduce? && log[b].Reduce?
    ensures a + 1 < b && log[a + 1].Restore?
    ensures log[a + 1].line == RestoreLine || log[a + 1].line == EndRestoreLine
  {
    assert a % 2 == 0 && b % 2 == 0;
  }

  // ---------------------------------------------------------------------
  // Fixed lines and small parsers of the pass
  // ---------------------------------------------------------------------

  /** The text marking a Z move that goes to the top of travel. */
  const MaxLimit: string := "[#<_ini[axis_z]max_limit>"

  /** The move added before the first motion: to just below the top of Z. */
  function TopZLine(host: Host, unitMultiplier: Num, offset: real): string {
    "g53 g0 z" + MaxLimit + " * " + Str(unitMultiplier, host) + " - " + host.fixed(offset, 3)
    + "] (Z just below max height)"
  }

  /** The continuation arc of an overcut. */
  function OverburnLine(host: Host, clockwise: bool, x: real, y: real, i: real, j: real, precision: nat): string {
    "g" + (if clockwise then "2" else "3") + " x" + host.fixed(x, precision) + " y" + host.fixed(y, precision)
    + " i" + host.fixed(i, precision) + " j" + host.fixed(j, precision)
  }

  /** The six lines that replace a pierce in pierce-only mode. */
  function PierceBlock(count: int, rapidLine: string): seq<string> {
    ["\n(Pierce #" + IntToString(count) + ")", rapidLine, "M3 $0 S1", "G91", "G1 X.000001", "G90\nM5 $0"]
  }

  /** The hole profile a `#<holes>` value selects: hole sensing, overcut,
      arcs. */
  function HoleProfile(t: char): (bool, bool, bool) {
    if t == '1' then (true, false, false)
    else if t == '2' then (true, true, false)
    else if t == '3' then (true, false, true)
    else if t == '4' then (true, true, true)
    else (false, false, false)
  }

  /** The comments a hole profile writes. */
  function HoleProfileLines(t: char): seq<string> {
    if t == '1' then ["(velocity reduction for small holes)"]
    else if t == '2' then ["(velocity reduction for small holes)", "(overcut for small holes)"]
    else if t == '3' then ["(velocity reduction for small holes and arcs)"]
    else if t == '4' then ["(velocity reduction for small holes and arcs)", "(overcut for small holes)"]
    else ["(disable small hole sensing)"]
  }

  /** The five profiles: overcut and arc treatment come only with hole
      sensing, and the overcut comment is written exactly when overcut is
      on, after the one comment every profile writes. */
  lemma HoleProfiles(t: char)
    ensures var (enable, overcut, arcs) := HoleProfile(t);
            ((overcut || arcs) ==> enable)
            && |HoleProfileLines(t)| == (if overcut then 2 else 1)
            && (overcut <==> HoleProfileLines(t)[|HoleProfileLines(t)| - 1] == "(overcut for small holes)")
            && (!enable <==> HoleProfileLines(t) == ["(disable small hole sensing)"])
  {
  }

  /** The digits of a text, in order (the material-number loop of
      `do_material_change`). */
  function DigitsOf(s: string): (r: string)
    decreases |s|
  {
    if s == [] then [] else DigitsOf(s[..|s| - 1]) + (if IsDigit(s[|s| - 1]) then [s[|s| - 1]] else [])
  }

  lemma {:induction false} DigitsOfShape(s: string)
    ensures AllDigits(DigitsOf(s)) && |DigitsOf(s)| <= |s|
    ensures AllDigits(s) ==> DigitsOf(s) == s
    decreases |s|
  {
    if s != [] {
      DigitsOfShape(s[..|s| - 1]);
      if AllDigits(s) {
        assert AllDigits(s[..|s| - 1]);
        assert s == s[..|s| - 1] + [s[|s| - 1]];
      }
    }
  }

  /** The code part of a material change: the text before a `(` comment,
      else before a `;`, else the whole line. */
  function CodePart(line: string): string {
    if Contains(line, "(") then Before(line, '(')
    else if Contains(line, ";") then Before(line, ';')
    else line
  }

  /** The material number `do_material_change` binds: every digit after the
      first `p` of the code part. Without a `p` the two-name unpacking
      raises ValueError, and so does `int('')` when there is no digit. */
  function MaterialNumber(line: string): (r: Result<int>)
    ensures r.Ok? ==> r.value >= 0
    ensures r.Raise? ==> r.error == ValueError
  {
    var c := CodePart(line);
    if !Contains(c, "p") then Raise(ValueError)
    else
      var m := DigitsOf(Strip(After(c, 'p')));
      DigitsOfShape(Strip(After(c, 'p')));
      if m == [] then Raise(ValueError) else Ok(DigitsValue(m))
  }

  /** A material change whose code part has one `p`, followed by the
      decimal digits of n, binds material n (`m190 p<n>` among them). */
  lemma MaterialNumberOf(pre: string, n: nat)
    requires '(' !in pre && ';' !in pre && 'p' !in pre
    ensures MaterialNumber(pre + "p" + NatToString(n)) == Ok(n)
  {
    NumberDigits(n);
    MaterialLine(pre, NatToString(n));
  }

  /** The decimal digits of a number read back as that number, untouched by
      stripping and digit collection. */
  lemma NumberDigits(n: nat)
    ensures var d := NatToString(n);
            d != [] && AllDigits(d) && Strip(d) == d && DigitsOf(d) == d && DigitsValue(d) == n
  {
    var d := NatToString(n);
    DigitsOfNat(n);
    DigitsOfShape(d);
    StripDigits(d);
  }

  lemma MaterialLine(pre: string, d: string)
    requires '(' !in pre && ';' !in pre && 'p' !in pre
    requires d != [] && AllDigits(d) && Strip(d) == d && DigitsOf(d) == d
    ensures MaterialNumber(pre + "p" + d) == Ok(DigitsValue(d))
  {
    var line := pre + "p" + d;
    assert forall x :: x in d ==> IsDigit(x);
    assert '(' !in line && ';' !in line;
    ContainsChar(line, '(');
    ContainsChar(line, ';');
    assert 'p' !in pre;
    BeforeAfterOf(pre, 'p', d);
  }

  /** A Z move with no other axis becomes a comment: the text before a `(`
      and the text up to the next `(`, else the same around a `;`, else the
      whole line in parentheses (:791-800). */
  function ZOnlyComment(line: string): (r: string)
    ensures r != [] && r[0] == '('
  {
    if '(' in line then
      ContainsChar(line, '(');
      "(" + Before(line, '(') + " " + Before(After(line, '('), '(')
    else if ';' in line then
      ContainsChar(line, ';');
      "(" + Before(line, ';') + " " + Before(After(line, ';'), ';')
    else "(" + line + ")"
  }

  /** A Z-only line with one comment keeps its code part and its comment
      part, joined by a space, inside the new comment; a line without a
      comment is wrapped whole. */
  lemma ZOnlyCommentKeeps(code: string, mark: char, comment: string)
    requires mark == '(' || mark == ';'
    requires '(' !in code && ';' !in code && '(' !in comment && mark !in comment
    ensures ZOnlyComment(code + [mark] + comment) == "(" + code + " " + comment
    ensures ZOnlyComment(code) == "(" + code + ")"
  {
    var line := code + [mark] + comment;
    BeforeAfterOf(code, mark, comment);
    BeforeNone(comment, mark);
    if mark == ';' {
      assert '(' !in line;
    }
  }

  /** The lines a program end writes before the end line itself: the
      velocity restore, the torch enable and the end of hole sensing, each
      only when needed (:843-857). */
  function EndLines(holeActive: bool, torchEnable: bool, holeEnable: bool): seq<string> {
    (if holeActive then [EndRestoreLine] else [])
    + (if !torchEnable then [TorchEnableLine] else [])
    + (if holeEnable then ["(disable hole sensing)"] else [])
  }

  const TorchEnableLine: string := "m65 p3 (enable torch)"
  const TorchDisableLine: string := "m62 p3 (disable torch)"

  /** What the script prints when an error was found, whatever it had
      gathered (:886-891). */
  const ErrorProgram: seq<string> :=
    ["(The original G-Code file)", "(has one or more errors)", "\n(All errors require fixing)",
     "(before reloading the file)", "\nM2"]

  /** What the script prints at the end of the pass. */
  function Printout(codeError: bool, gcodeList: seq<string>): (r: seq<string>)
    ensures codeError ==> r == ErrorProgram
    ensures !codeError ==> r == gcodeList
  {
    if codeError then ErrorProgram else gcodeList
  }
}
