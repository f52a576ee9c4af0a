/** The material side of the filter: the in-file material directive
    (`check_material_edit`, qtplasmac_gcode.py:334-406), the record written
    for a material (`add_edit_material`, :492-508), the material file
    rewrite (`rewrite_material_file`, :448-475) and the reader that maps
    material numbers to feed rate and kerf width (`get_materials`,
    :512-542). Files are sequences of lines without their line ends. */
module Materials {
  import opened PyStr
  import opened PyNum

  /** One material as the directive gives it and the record stores it. */
  datatype Material = Material(
    number: int,
    name: string,
    kerfWidth: real,
    thc: int,
    pierceHeight: real,
    pierceDelay: real,
    puddleJumpHeight: real,
    puddleJumpDelay: real,
    cutHeight: real,
    cutSpeed: real,
    cutAmps: Num,
    cutVolts: Num,
    pauseAtEnd: real,
    gasPressure: real,
    cutMode: real)

  // ---------------------------------------------------------------------
  // The material directive: (o=0|1|2, nu=.., na=.., ph=.., ...)
  // ---------------------------------------------------------------------

  /** The directive's fields while its items are read; the mandatory ones
      are None until an item sets them (a Python local never assigned). */
  datatype Fields = Fields(
    nu: Option<int>, na: Option<string>,
    ph: Option<real>, pd: Option<real>, ch: Option<real>, fr: Option<real>,
    kw: real, th: int, jh: real, jd: real, ca: Num, cv: Num, pe: real, gp: real, cm: real)

  /** The values before any item is read: the optional ones have their
      defaults, cut amps 15 and cut volts 100 as integers, the rest 0. */
  function StartFields(temporary: bool, tmpMatNum: int): (f: Fields)
    ensures temporary ==> f.nu == Some(tmpMatNum) && f.na == Some("Temporary " + IntToString(tmpMatNum))
    ensures !temporary ==> f.nu.None? && f.na.None?
    ensures f.ph.None? && f.pd.None? && f.ch.None? && f.fr.None?
    ensures OptionalDefaults(f)
  {
    Fields(if temporary then Some(tmpMatNum) else None,
           if temporary then Some("Temporary " + IntToString(tmpMatNum)) else None,
           None, None, None, None,
           0.0, 0, 0.0, 0.0, Int(15), Int(100), 0.0, 0.0, 0.0)
  }

  /** The optional fields hold their defaults. */
  predicate OptionalDefaults(f: Fields) {
    f.kw == 0.0 && f.th == 0 && f.jh == 0.0 && f.jd == 0.0 && f.ca == Int(15) && f.cv == Int(100)
    && f.pe == 0.0 && f.gp == 0.0 && f.cm == 0.0
  }

  /** `float(item.split('=')[1])` */
  function FloatItem(item: string): Result<real> {
    match Piece(item, "=", 1)
    case None => Raise(IndexError)
    case Some(v) => match ParseFloat(v) case None => Raise(ValueError) case Some(x) => Ok(x)
  }

  /** `int(item.split('=')[1])` */
  function IntItem(item: string): Result<int> {
    match Piece(item, "=", 1)
    case None => Raise(IndexError)
    case Some(v) => match ParseInt(v) case None => Raise(ValueError) case Some(x) => Ok(x)
  }

  /** Whether an item names one of the optional values. */
  predicate NamesOptional(item: string) {
    Contains(item, "kw=") || Contains(item, "th=") || Contains(item, "jh=") || Contains(item, "jd=")
    || Contains(item, "ca=") || Contains(item, "cv=") || Contains(item, "pe=") || Contains(item, "gp=")
    || Contains(item, "cm=")
  }

  /** Reading one item: the first key, in the source's order, that occurs
      in it decides which field it sets; `nu=` is ignored for a temporary
      material. */
  function ApplyItem(f: Fields, item: string, temporary: bool): (r: Result<Fields>)
    ensures r.Ok? && !NamesOptional(item) && OptionalDefaults(f) ==> OptionalDefaults(r.value)
    ensures r.Ok? && temporary ==> r.value.nu == f.nu
    ensures r.Ok? ==> (f.nu.Some? ==> r.value.nu.Some?) && (f.na.Some? ==> r.value.na.Some?)
  {
    if Contains(item, "nu=") && !temporary then
      match IntItem(item) case Raise(e) => Raise(e) case Ok(v) => Ok(f.(nu := Some(v)))
    else if Contains(item, "na=") then
      match Piece(item, "=", 1) case None => Raise(IndexError) case Some(v) => Ok(f.(na := Some(Strip(v))))
    else if Contains(item, "ph=") then
      match FloatItem(item) case Raise(e) => Raise(e) case Ok(v) => Ok(f.(ph := Some(v)))
    else if Contains(item, "pd=") then
      match FloatItem(item) case Raise(e) => Raise(e) case Ok(v) => Ok(f.(pd := Some(v)))
    else if Contains(item, "ch=") then
      match FloatItem(item) case Raise(e) => Raise(e) case Ok(v) => Ok(f.(ch := Some(v)))
    else if Contains(item, "fr=") then
      match FloatItem(item) case Raise(e) => Raise(e) case Ok(v) => Ok(f.(fr := Some(v)))
    else if Contains(item, "kw=") then
      match FloatItem(item) case Raise(e) => Raise(e) case Ok(v) => Ok(f.(kw := v))
    else if Contains(item, "th=") then
      match IntItem(item) case Raise(e) => Raise(e) case Ok(v) => Ok(f.(th := v))
    else if Contains(item, "jh=") then
      match FloatItem(item) case Raise(e) => Raise(e) case Ok(v) => Ok(f.(jh := v))
    else if Contains(item, "jd=") then
      match FloatItem(item) case Raise(e) => Raise(e) case Ok(v) => Ok(f.(jd := v))
    else if Contains(item, "ca=") then
      match FloatItem(item) case Raise(e) => Raise(e) case Ok(v) => Ok(f.(ca := Float(v)))
    else if Contains(item, "cv=") then
      match FloatItem(item) case Raise(e) => Raise(e) case Ok(v) => Ok(f.(cv := Float(v)))
    else if Contains(item, "pe=") then
      match FloatItem(item) case Raise(e) => Raise(e) case Ok(v) => Ok(f.(pe := v))
    else if Contains(item, "gp=") then
      match FloatItem(item) case Raise(e) => Raise(e) case Ok(v) => Ok(f.(gp := v))
    else if Contains(item, "cm=") then
      match FloatItem(item) case Raise(e) => Raise(e) case Ok(v) => Ok(f.(cm := v))
    else Ok(f)
  }

  /** Reading the items in order; the first failing conversion raises. A
      temporary material keeps the number it started with. */
  function ApplyItems(f: Fields, items: seq<string>, temporary: bool): (r: Result<Fields>)
    ensures r.Ok? && temporary ==> r.value.nu == f.nu
    decreases |items|
  {
    if items == [] then Ok(f)
    else match ApplyItem(f, items[0], temporary)
      case Raise(e) => Raise(e)
      case Ok(g) => ApplyItems(g, items[1..], temporary)
  }

  /** An optional value keeps its default unless some item names it. */
  lemma {:induction false} ApplyItemsDefaults(f: Fields, items: seq<string>, temporary: bool)
    requires OptionalDefaults(f)
    requires forall n :: 0 <= n < |items| ==> !NamesOptional(items[n])
    ensures ApplyItems(f, items, temporary).Ok? ==> OptionalDefaults(ApplyItems(f, items, temporary).value)
    decreases |items|
  {
    if items != [] {
      var r := ApplyItem(f, items[0], temporary);
      if r.Ok? {
        ApplyItemsDefaults(r.value, items[1..], temporary);
      }
    }
  }

  /** What a directive line asks for. */
  datatype Directive =
    | NoDirective                     // a mandatory key is missing: nothing happens
    | Directive(kind: nat, mat: Material)

  /** The items of a directive: the text between its first and second `(`,
      cut at the first `)`, split at commas. */
  function DirectiveItems(line: string): seq<string>
    requires '(' in line
  {
    ContainsChar(line, '(');
    Split(Before(Before(After(line, '('), '('), ')'), ",")
  }

  /** Which kind of directive a line holds: 0 for `(o=0`, 1 or 2 for `(o=1`
      or `(o=2` together with `nu=` and `na=`, None otherwise. */
  function DirectiveKind(line: string): (k: Option<nat>)
    ensures k.Some? ==> k.value <= 2
    ensures k == Some(0) <==> Contains(line, "(o=0")
    ensures k.Some? && k.value != 0 ==> Contains(line, "nu=") && Contains(line, "na=")
    ensures k.None? <==> (!Contains(line, "(o=0")
              && !((Contains(line, "(o=1") || Contains(line, "(o=2")) && Contains(line, "nu=") && Contains(line, "na=")))
  {
    if Contains(line, "(o=0") then Some(0)
    else if Contains(line, "(o=1") && Contains(line, "nu=") && Contains(line, "na=") then Some(1)
    else if Contains(line, "(o=2") && Contains(line, "nu=") && Contains(line, "na=") then Some(2)
    else None
  }

  /** The material once all items are read; a mandatory value that no item
      set is an unassigned local and raises UnboundLocalError. */
  function ToMaterial(f: Fields): (r: Result<Material>)
    ensures r.Ok? <==> f.nu.Some? && f.na.Some? && f.ph.Some? && f.pd.Some? && f.ch.Some? && f.fr.Some?
    ensures r.Ok? ==> r.value.number == f.nu.value && r.value.name == f.na.value
    ensures r.Raise? ==> r.error == UnboundLocalError
  {
    if f.nu.None? || f.na.None? || f.ph.None? || f.pd.None? || f.ch.None? || f.fr.None? then
      Raise(UnboundLocalError)
    else
      Ok(Material(f.nu.value, f.na.value, f.kw, f.th, f.ph.value, f.pd.value,
                  f.jh, f.jd, f.ch.value, f.fr.value, f.ca, f.cv, f.pe, f.gp, f.cm))
  }

  /** `check_material_edit` up to the point where it acts. Without all of
      `ph=`, `pd=`, `ch=` and `fr=` there is no directive. `(o=0` makes a
      temporary material numbered `tmpMatNum`; `(o=1` and `(o=2` also need
      `nu=` and `na=`; with none of the three the source indexes an empty
      list and raises IndexError. */
  function ParseDirective(line: string, tmpMatNum: int): (r: Result<Directive>)
    requires '(' in line
    ensures r == Ok(NoDirective) <==>
              !(Contains(line, "ph=") && Contains(line, "pd=") && Contains(line, "ch=") && Contains(line, "fr="))
    ensures r.Ok? && r.value.Directive? ==>
              Some(r.value.kind) == DirectiveKind(line)
              && (r.value.kind == 0 ==> r.value.mat.number == tmpMatNum)
    ensures (Contains(line, "ph=") && Contains(line, "pd=") && Contains(line, "ch=") && Contains(line, "fr=")
             && DirectiveKind(line).None?) ==> r == Raise(IndexError)
  {
    if !(Contains(line, "ph=") && Contains(line, "pd=") && Contains(line, "ch=") && Contains(line, "fr=")) then
      Ok(NoDirective)
    else
      match DirectiveKind(line)
      case None => Raise(IndexError)
      case Some(kind) =>
        var temporary := kind == 0;
        match ApplyItems(StartFields(temporary, tmpMatNum), DirectiveItems(line), temporary)
        case Raise(e) => Raise(e)
        case Ok(f) =>
          match ToMaterial(f)
          case Raise(e) => Raise(e)
          case Ok(m) => Ok(Directive(kind, m))
  }

  /** A directive whose items name no optional value gives the optional
      values their defaults: kerf width, puddle-jump values, pause, gas
      pressure and cut mode 0, THC 0, cut amps 15 and cut volts 100. */
  lemma DirectiveDefaults(line: string, tmpMatNum: int)
    requires '(' in line
    requires forall n :: 0 <= n < |DirectiveItems(line)| ==> !NamesOptional(DirectiveItems(line)[n])
    ensures var r := ParseDirective(line, tmpMatNum);
            r.Ok? && r.value.Directive? ==>
              var m := r.value.mat;
              m.kerfWidth == 0.0 && m.thc == 0 && m.puddleJumpHeight == 0.0 && m.puddleJumpDelay == 0.0
              && m.cutAmps == Int(15) && m.cutVolts == Int(100)
              && m.pauseAtEnd == 0.0 && m.gasPressure == 0.0 && m.cutMode == 0.0
  {
    ApplyItemsDefaults(StartFields(true, tmpMatNum), DirectiveItems(line), true);
    ApplyItemsDefaults(StartFields(false, tmpMatNum), DirectiveItems(line), false);
  }

  // ---------------------------------------------------------------------
  // The material record (add_edit_material)
  // ---------------------------------------------------------------------

  const HeaderPrefix: string := "[MATERIAL_NUMBER_"

  /** The header line of a material's section. */
  function HeaderLine(number: int): string {
    HeaderPrefix + IntToString(number) + "]"
  }

  /** `n` spaces. */
  function Spaces(n: nat): (r: string)
    ensures |r| == n && forall i :: 0 <= i < n ==> r[i] == ' '
  {
    if n == 0 then [] else Spaces(n - 1) + " "
  }

  /** A `KEY = value` line of a record: the key padded with spaces to
      nineteen columns, then `= ` and the value. */
  function Line(key: string, value: string): string
    requires |key| <= 19
  {
    key + Spaces(19 - |key|) + "= " + value
  }

  /** The lines written for a material: its header, fourteen `KEY = value`
      lines and a blank line. */
  function RecordLines(m: Material, host: Host): (r: seq<string>)
    ensures |r| == 16 && r[0] == HeaderLine(m.number) && r[15] == ""
  {
    [ HeaderLine(m.number),
      Line("NAME", m.name),
      Line("KERF_WIDTH", host.repr(m.kerfWidth)),
      Line("THC", IntToString(m.thc)),
      Line("PIERCE_HEIGHT", host.repr(m.pierceHeight)),
      Line("PIERCE_DELAY", host.repr(m.pierceDelay)),
      Line("PUDDLE_JUMP_HEIGHT", host.repr(m.puddleJumpHeight)),
      Line("PUDDLE_JUMP_DELAY", host.repr(m.puddleJumpDelay)),
      Line("CUT_HEIGHT", host.repr(m.cutHeight)),
      Line("CUT_SPEED", host.repr(m.cutSpeed)),
      Line("CUT_AMPS", Str(m.cutAmps, host)),
      Line("CUT_VOLTS", Str(m.cutVolts, host)),
      Line("PAUSE_AT_END", host.repr(m.pauseAtEnd)),
      Line("GAS_PRESSURE", host.repr(m.gasPressure)),
      Line("CUT_MODE", host.repr(m.cutMode)),
      "" ]
  }

  // ---------------------------------------------------------------------
  // Section headers, as the rewrite and the reader see them
  // ---------------------------------------------------------------------

  /** The rewrite's test for a section header: the stripped line starts
      with `[MATERIAL_NUMBER_`. */
  predicate IsSectionStart(l: string) {
    StartsWith(Strip(l), HeaderPrefix)
  }

  /** The section number the rewrite reads from a header:
      `int(line.split('NUMBER_')[1].replace(']', ''))`. */
  function SectionNumber(l: string): Result<int> {
    match Piece(l, "NUMBER_", 1)
    case None => Raise(IndexError)
    case Some(t) => match ParseInt(Remove(t, ']')) case None => Raise(ValueError) case Some(n) => Ok(n)
  }

  /** The reader's test for a header: the line itself starts with
      `[MATERIAL_NUMBER_` and the stripped line ends with `]`. */
  predicate IsMaterialHeader(l: string) {
    StartsWith(l, HeaderPrefix) && EndsWith(Strip(l), "]")
  }

  /** The number the reader takes from a header:
      `int(line.rsplit('_', 1)[1].strip().strip(']'))`. */
  function HeaderNumber(l: string): Result<int> {
    match ParseInt(StripChar(Strip(AfterLast(l, '_')), ']'))
    case None => Raise(ValueError)
    case Some(n) => Ok(n)
  }

  /** A search that cannot match within `x` skips it. */
  lemma {:induction false} FindSkip(x: string, s: string, p: string)
    requires p != [] && p[0] !in x
    ensures Find(x + s, p) == Shifted(Find(s, p), |x|)
    decreases |x|
  {
    if x == [] {
      assert x + s == s;
      ShiftedAdd(Find(s, p), 0, 0);
    } else {
      var y := x[1..];
      var t := y + s;
      assert x == [x[0]] + y;
      assert x + s == [x[0]] + t;
      FindSkip(y, s, p);
      FindSkipOne(x[0], t, p);
      ShiftedAdd(Find(s, p), |y|, 1);
    }
  }

  /** An optional index moved on by `d`. */
  function Shifted(r: Option<nat>, d: nat): Option<nat> {
    match r
    case None => None
    case Some(i) => Some(i + d)
  }

  lemma ShiftedAdd(r: Option<nat>, a: nat, b: nat)
    ensures Shifted(Shifted(r, a), b) == Shifted(r, a + b)
    ensures Shifted(r, 0) == r
  {
  }

  /** A first character that is not the pattern's is skipped. */
  lemma FindSkipOne(c: char, s: string, p: string)
    requires p != [] && c != p[0]
    ensures Find([c] + s, p) == Shifted(Find(s, p), 1)
  {
    var u := [c] + s;
    assert u[0] == c;
    assert u[1..] == s;
    if |p| <= |u| {
      assert u[..|p|][0] != p[0];
    }
  }

  /** The text after the last `c` of `x + [c] + y`, where `y` has none. */
  lemma {:induction false} AfterLastOf(x: string, c: char, y: string)
    requires c !in y
    ensures AfterLast(x + [c] + y, c) == y
    decreases |y|
  {
    var s := x + [c] + y;
    if y != [] {
      assert s[..|s| - 1] == x + [c] + y[..|y| - 1];
      AfterLastOf(x, c, y[..|y| - 1]);
      assert y == y[..|y| - 1] + [y[|y| - 1]];
    }
  }

  /** The text of a number: digits after an optional minus sign. */
  lemma IntTextChars(n: int)
    ensures forall k :: 0 <= k < |IntToString(n)| ==> IsDigit(IntToString(n)[k]) || IntToString(n)[k] == '-'
    ensures IsDigit(IntToString(n)[|IntToString(n)| - 1])
  {
  }

  /** The header prefix cut where the rewrite and the reader cut it. */
  lemma PrefixParts()
    ensures HeaderPrefix == "[MATERIAL_" + "NUMBER_"
    ensures HeaderPrefix == "[MATERIAL_NUMBER" + ['_']
  {
  }

  /** Both header tests accept a written header. */
  lemma HeaderRecognised(n: int)
    ensures IsSectionStart(HeaderLine(n)) && IsMaterialHeader(HeaderLine(n))
  {
    var l := HeaderLine(n);
    StripTrimmed(l);
    assert l[..|HeaderPrefix|] == HeaderPrefix;
    assert l[|l| - 1..] == "]";
  }

  /** In a written header, `NUMBER_` is found right after `[MATERIAL_`. */
  lemma NumberAt(t: string)
    requires 'N' !in t
    ensures Find("[MATERIAL_" + ("NUMBER_" + t), "NUMBER_") == Some(10)
  {
    FindSkip("[MATERIAL_", "NUMBER_" + t, "NUMBER_");
    assert StartsWith("NUMBER_" + t, "NUMBER_");
  }

  /** Text without an `N` holds no `NUMBER_`. */
  lemma NoNumber(t: string)
    requires 'N' !in t
    ensures Find(t, "NUMBER_") == None
  {
    FindSkip(t, [], "NUMBER_");
    assert t + [] == t;
  }

  /** A split at the only occurrence of `sep` gives two pieces. */
  lemma SplitTwo(s: string, sep: string, i: nat)
    requires sep != [] && Find(s, sep) == Some(i) && Find(s[i + |sep|..], sep) == None
    ensures Split(s, sep) == [s[..i], s[i + |sep|..]]
  {
  }

  /** The rewrite's split at `NUMBER_` of a line that starts like a header
      and has no `N` after that. */
  lemma PrefixPiece(t: string)
    requires 'N' !in t
    ensures Piece(HeaderPrefix + t, "NUMBER_", 1) == Some(t)
  {
    var l := HeaderPrefix + t;
    PrefixParts();
    assert l == "[MATERIAL_" + ("NUMBER_" + t);
    NumberAt(t);
    assert l[17..] == t;
    NoNumber(t);
    SplitTwo(l, "NUMBER_", 10);
  }

  /** The rewrite's split of a written header at `NUMBER_`. */
  lemma HeaderPiece(n: int)
    ensures Piece(HeaderLine(n), "NUMBER_", 1) == Some(IntToString(n) + "]")
  {
    var t := IntToString(n) + "]";
    IntTextChars(n);
    assert 'N' !in t;
    assert HeaderLine(n) == HeaderPrefix + t;
    PrefixPiece(t);
  }

  /** The rewrite reads back the number of a written header. */
  lemma SectionNumberOf(n: int)
    ensures SectionNumber(HeaderLine(n)) == Ok(n)
  {
    var d := IntToString(n);
    HeaderPiece(n);
    IntTextChars(n);
    RemoveAppend(d, "]", ']');
    RemoveKeeps(d, ']');
    assert Remove(d + "]", ']') == d;
    ParseIntOfString(n);
  }

  /** The text after the last `_` of a written header. */
  lemma HeaderTail(n: int)
    ensures AfterLast(HeaderLine(n), '_') == IntToString(n) + "]"
  {
    var t := IntToString(n) + "]";
    IntTextChars(n);
    PrefixParts();
    assert '_' !in t;
    assert HeaderLine(n) == "[MATERIAL_NUMBER" + ['_'] + t;
    AfterLastOf("[MATERIAL_NUMBER", '_', t);
  }

  /** The reader reads back the number of a written header. */
  lemma HeaderNumberOf(n: int)
    ensures HeaderNumber(HeaderLine(n)) == Ok(n)
  {
    var d := IntToString(n);
    var t := d + "]";
    HeaderTail(n);
    IntTextChars(n);
    StripTrimmed(t);
    assert DropLeading(t, ']') == t;
    assert t[..|t| - 1] == d;
    assert DropTrailing(t, ']') == d;
    ParseIntOfString(n);
  }

  /** The header written for a material is recognised by both the rewrite
      and the reader, and both read back the material's number. */
  lemma HeaderRoundTrip(n: int)
    ensures IsSectionStart(HeaderLine(n)) && SectionNumber(HeaderLine(n)) == Ok(n)
    ensures IsMaterialHeader(HeaderLine(n)) && HeaderNumber(HeaderLine(n)) == Ok(n)
  {
    HeaderRecognised(n);
    SectionNumberOf(n);
    HeaderNumberOf(n);
  }

  // ---------------------------------------------------------------------
  // Rewriting the material file (rewrite_material_file)
  // ---------------------------------------------------------------------

  /** Lines put in front of a result, unless it is an exception. */
  function Prepend(h: seq<string>, r: Result<seq<string>>): Result<seq<string>> {
    match r
    case Raise(e) => Raise(e)
    case Ok(x) => Ok(h + x)
  }

  lemma PrependPrepend(a: seq<string>, b: seq<string>, r: Result<seq<string>>)
    ensures Prepend(a, Prepend(b, r)) == Prepend(a + b, r)
  {
    if r.Ok? {
      assert a + (b + r.value) == (a + b) + r.value;
    }
  }

  /** The number of lines before the first section header. */
  function PrefixLength(lines: seq<string>): (n: nat)
    ensures n <= |lines|
    ensures forall k :: 0 <= k < n ==> !IsSectionStart(lines[k])
    ensures n < |lines| ==> IsSectionStart(lines[n])
  {
    if lines == [] || IsSectionStart(lines[0]) then 0 else 1 + PrefixLength(lines[1..])
  }

  /** The second loop of the rewrite from a header on: every header sets the
      current number and emits the record when it is the target's; every
      line outside the target's section is copied. */
  function CopySections(lines: seq<string>, current: int, target: int, record: seq<string>): Result<seq<string>>
    decreases |lines|
  {
    if lines == [] then Ok([])
    else
      var l := lines[0];
      var cur := if IsSectionStart(l) then SectionNumber(l) else Ok(current);
      match cur
      case Raise(e) => Raise(e)
      case Ok(n) =>
        var head := if IsSectionStart(l) && n == target then record else if n != target then [l] else [];
        Prepend(head, CopySections(lines[1..], n, target, record))
  }

  /** `rewrite_material_file`: the lines before the first header are copied;
      with no header the record is appended; from the first header on the
      target's sections are replaced by the record; and when the target
      number is not among the `known` materials the record is appended at
      the end as well (so a file without sections gets it twice). */
  function Rewrite(lines: seq<string>, m: Material, known: set<int>, host: Host): Result<seq<string>> {
    var record := RecordLines(m, host);
    var p := PrefixLength(lines);
    var body :=
      if p == |lines| then Ok(record)
      else CopySections(lines[p..], 0, m.number, record);
    match body
    case Raise(e) => Raise(e)
    case Ok(b) => Ok(lines[..p] + b + (if m.number !in known then record else []))
  }

  /** What the rewrite's second loop has written when it stops: all of its
      output, or, when a header's number cannot be read, the output for the
      lines before that header. */
  function CopyWritten(lines: seq<string>, current: int, target: int, record: seq<string>): (w: seq<string>)
    ensures CopySections(lines, current, target, record).Ok? ==> w == CopySections(lines, current, target, record).value
    decreases |lines|
  {
    if lines == [] then []
    else
      var l := lines[0];
      var cur := if IsSectionStart(l) then SectionNumber(l) else Ok(current);
      match cur
      case Raise(_) => []
      case Ok(n) =>
        var head := if IsSectionStart(l) && n == target then record else if n != target then [l] else [];
        head + CopyWritten(lines[1..], n, target, record)
  }

  /** The material file once `rewrite_material_file` stops, as written: the
      file is opened for writing, which empties it, before any header is
      read (:452), so a header whose number cannot be read (:466) leaves the
      file holding only what was written before that header. A rewrite
      that succeeds gives its result. */
  function RewriteAsWritten(lines: seq<string>, m: Material, known: set<int>, host: Host): (r: seq<string>)
    ensures Rewrite(lines, m, known, host).Ok? ==> r == Rewrite(lines, m, known, host).value
    ensures PrefixLength(lines) <= |r| && r[..PrefixLength(lines)] == lines[..PrefixLength(lines)]
  {
    var p := PrefixLength(lines);
    match Rewrite(lines, m, known, host)
    case Ok(f) => f
    case Raise(_) =>
      assert p < |lines|;
      var w := lines[..p] + CopyWritten(lines[p..], 0, m.number, RecordLines(m, host));
      assert w[..p] == lines[..p];
      w
  }

  /** A header line with text after its `]`: the reader does not take it
      for a header, but the rewrite does and cannot read its number. */
  const TrailedHeader: string := "[MATERIAL_NUMBER_5] old"

  /** The reader and the rewrite disagree on `TrailedHeader`. */
  lemma TrailedHeaderTests()
    ensures IsSectionStart(TrailedHeader) && SectionNumber(TrailedHeader) == Raise(ValueError)
    ensures !IsMaterialHeader(TrailedHeader)
  {
    var l := TrailedHeader;
    StripTrimmed(l);
    assert l[..|HeaderPrefix|] == HeaderPrefix;
    assert l[|l| - 1] == 'd';
    TrailedPiece();
    TrailedNumber();
  }

  /** The rewrite's split of `TrailedHeader` at `NUMBER_`. */
  lemma TrailedPiece()
    ensures Piece(TrailedHeader, "NUMBER_", 1) == Some("5] old")
  {
    var t := "5] old";
    assert TrailedHeader == HeaderPrefix + t;
    PrefixPiece(t);
  }

  /** What is left of that piece is not an integer. */
  lemma TrailedNumber()
    ensures ParseInt(Remove("5] old", ']')) == None
  {
    TrailedRemove();
    TrailedText();
  }

  lemma TrailedRemove()
    ensures Remove("5] old", ']') == "5 old"
  {
    RemoveOne('5', " old", ']');
    assert "5] old" == ['5', ']'] + " old";
    assert "5 old" == ['5'] + " old";
  }

  /** A character, the removed one, then text without it: only the removed
      one goes. */
  lemma RemoveOne(x: char, rest: string, c: char)
    requires x != c && c !in rest
    ensures Remove([x, c] + rest, c) == [x] + rest
  {
    var s := [x, c] + rest;
    RemoveKeeps(rest, c);
    assert s[0] == x && s[1..][0] == c && s[1..][1..] == rest;
    assert Remove(s[1..], c) == [] + Remove(rest, c) == rest;
    assert Remove(s, c) == [x] + Remove(s[1..], c);
  }

  lemma TrailedText()
    ensures ParseInt("5 old") == None
  {
    var u := "5 old";
    StripTrimmed(u);
    assert !AllDigits(u) by { assert !IsDigit(u[1]); }
  }

  /** A material file that reads without error loses all of its lines
      when a material is written into it: the reader skips the header with
      text after its `]`, the rewrite raises ValueError on it, and the file,
      already emptied, stays empty. */
  lemma RewriteEmptiesFile(prefs: seq<string>, m: Material, known: set<int>, host: Host, fk: (real, real))
    requires Preferences(prefs, 0.0, 0.0) == Ok(fk)
    ensures GetMaterials(prefs, [TrailedHeader]) == Ok(map[0 := fk])
    ensures Rewrite([TrailedHeader], m, known, host) == Raise(ValueError)
    ensures RewriteAsWritten([TrailedHeader], m, known, host) == []
  {
    TrailedHeaderTests();
    SkippedLineReads(prefs, TrailedHeader, fk);
    BadHeaderEmpties(TrailedHeader, m, known, host);
  }

  /** A file of one line that is no header to the reader reads as the
      preferences' values under number 0. */
  lemma SkippedLineReads(prefs: seq<string>, l: string, fk: (real, real))
    requires Preferences(prefs, 0.0, 0.0) == Ok(fk) && !IsMaterialHeader(l)
    ensures GetMaterials(prefs, [l]) == Ok(map[0 := fk])
  {
    var lines := [l];
    assert LeadLength(lines[1..]) == 0;
    assert LeadLength(lines) == 1;
    assert map[0 := fk][0 := fk] == map[0 := fk];
  }

  /** A file of one section header whose number the rewrite cannot read:
      the rewrite raises ValueError and the file as written is empty. */
  lemma BadHeaderEmpties(l: string, m: Material, known: set<int>, host: Host)
    requires IsSectionStart(l) && SectionNumber(l) == Raise(ValueError)
    ensures Rewrite([l], m, known, host) == Raise(ValueError)
    ensures RewriteAsWritten([l], m, known, host) == []
  {
    var lines := [l];
    assert PrefixLength(lines) == 0;
    assert lines[0..] == lines;
  }

  /** A section of the file: its number, its header and the lines up to the
      next header. */
  datatype Section = Section(number: int, header: string, body: seq<string>)

  /** The file from its first header on, cut into sections. */
  function Sections(lines: seq<string>): Result<seq<Section>>
    requires lines == [] || IsSectionStart(lines[0])
    decreases |lines|
  {
    if lines == [] then Ok([])
    else
      var n := PrefixLength(lines[1..]);
      match SectionNumber(lines[0])
      case Raise(e) => Raise(e)
      case Ok(num) =>
        match Sections(lines[1 + n..])
        case Raise(e) => Raise(e)
        case Ok(rest) => Ok([Section(num, lines[0], lines[1..1 + n])] + rest)
  }

  /** The lines of the sections, in order. */
  function Flatten(sections: seq<Section>): seq<string>
    decreases |sections|
  {
    if sections == [] then [] else [sections[0].header] + sections[0].body + Flatten(sections[1..])
  }

  /** Each section as it comes out of the rewrite: the record in place of
      the target's section, every other section unchanged. */
  function Replaced(sections: seq<Section>, target: int, record: seq<string>): seq<string>
    decreases |sections|
  {
    if sections == [] then []
    else
      var s := sections[0];
      (if s.number == target then record else [s.header] + s.body)
      + Replaced(sections[1..], target, record)
  }

  /** Lines that are not headers are copied when the current section is not
      the target's and dropped when it is. */
  lemma {:induction false} CopyBody(body: seq<string>, rest: seq<string>, current: int, target: int, record: seq<string>)
    requires forall k :: 0 <= k < |body| ==> !IsSectionStart(body[k])
    ensures CopySections(body + rest, current, target, record)
            == Prepend(if current != target then body else [], CopySections(rest, current, target, record))
    decreases |body|
  {
    if body == [] {
      assert body + rest == rest;
      match CopySections(rest, current, target, record)
      case Raise(e) =>
      case Ok(r) => assert [] + r == r;
    } else {
      var h := if current != target then [body[0]] else [];
      var t := if current != target then body[1..] else [];
      assert (body + rest)[0] == body[0];
      assert (body + rest)[1..] == body[1..] + rest;
      assert CopySections(body + rest, current, target, record)
             == Prepend(h, CopySections(body[1..] + rest, current, target, record));
      CopyBody(body[1..], rest, current, target, record);
      PrependPrepend(h, t, CopySections(rest, current, target, record));
      assert h + t == (if current != target then body else []);
    }
  }

  /** The rewrite of the file from its first header on is the section-wise
      replacement. */
  lemma {:induction false} CopyIsReplace(lines: seq<string>, current: int, target: int, record: seq<string>)
    requires lines == [] || IsSectionStart(lines[0])
    ensures Sections(lines).Ok? ==> CopySections(lines, current, target, record) == Ok(Replaced(Sections(lines).value, target, record))
    ensures Sections(lines).Raise? ==> CopySections(lines, current, target, record).Raise?
    decreases |lines|
  {
    if lines != [] {
      var n := PrefixLength(lines[1..]);
      var body := lines[1..1 + n];
      var rest := lines[1 + n..];
      assert lines[1..] == body + rest;
      match SectionNumber(lines[0])
      case Raise(e) =>
      case Ok(num) =>
        var h := if num == target then record else [lines[0]];
        assert CopySections(lines, current, target, record)
               == Prepend(h, CopySections(body + rest, num, target, record));
        CopyBody(body, rest, num, target, record);
        var b := if num != target then body else [];
        PrependPrepend(h, b, CopySections(rest, num, target, record));
        CopyIsReplace(rest, num, target, record);
        if Sections(rest).Ok? {
          var secs := Sections(rest).value;
          assert Sections(lines).value == [Section(num, lines[0], body)] + secs;
          assert Sections(lines).value[1..] == secs;
          assert h + b == (if num == target then record else [lines[0]] + body);
        }
    }
  }

  /** The rewrite, section by section: the lines before the first header
      unchanged, then every section unchanged except the target's, which
      the record replaces in place, then the record once more when the
      target is not a known material. */
  lemma RewriteSections(lines: seq<string>, m: Material, known: set<int>, host: Host)
    requires PrefixLength(lines) < |lines|
    ensures var p := PrefixLength(lines);
            var r := Rewrite(lines, m, known, host);
            var record := RecordLines(m, host);
            (Sections(lines[p..]).Ok? ==>
               r == Ok(lines[..p] + Replaced(Sections(lines[p..]).value, m.number, record)
                       + (if m.number !in known then record else [])))
            && (Sections(lines[p..]).Raise? ==> r.Raise?)
  {
    var p := PrefixLength(lines);
    CopyIsReplace(lines[p..], 0, m.number, RecordLines(m, host));
  }

  /** A file without any header keeps all its lines and gains the record at
      its end, twice when the number is not a known material. */
  lemma RewriteNoSections(lines: seq<string>, m: Material, known: set<int>, host: Host)
    requires forall k :: 0 <= k < |lines| ==> !IsSectionStart(lines[k])
    ensures Rewrite(lines, m, known, host)
            == Ok(lines + RecordLines(m, host) + (if m.number !in known then RecordLines(m, host) else []))
  {
    assert PrefixLength(lines) == |lines|;
    assert lines[..|lines|] == lines;
  }

  /** Without the target among the sections, the replacement changes
      nothing. */
  lemma {:induction false} ReplacedKeepsOthers(sections: seq<Section>, target: int, record: seq<string>)
    requires forall k :: 0 <= k < |sections| ==> sections[k].number != target
    ensures Replaced(sections, target, record) == Flatten(sections)
    decreases |sections|
  {
    if sections != [] {
      ReplacedKeepsOthers(sections[1..], target, record);
      assert [sections[0].header] + sections[0].body + Flatten(sections[1..])
             == ([sections[0].header] + sections[0].body) + Flatten(sections[1..]);
    }
  }

  /** Cutting the file into sections loses nothing. */
  lemma {:induction false} SectionsFlatten(lines: seq<string>)
    requires lines == [] || IsSectionStart(lines[0])
    ensures Sections(lines).Ok? ==> Flatten(Sections(lines).value) == lines
    decreases |lines|
  {
    if lines != [] && Sections(lines).Ok? {
      var n := SectionsStep(lines);
      var rest := lines[1 + n..];
      SectionsFlatten(rest);
      var first := Section(SectionNumber(lines[0]).value, lines[0], lines[1..1 + n]);
      FlattenCons(first, Sections(rest).value);
      CutThree(lines, n);
    }
  }

  /** The first section of a file that cuts into sections, and the rest. */
  lemma SectionsStep(lines: seq<string>) returns (n: nat)
    requires lines != [] && IsSectionStart(lines[0]) && Sections(lines).Ok?
    ensures n == PrefixLength(lines[1..]) && 1 + n <= |lines|
    ensures lines[1 + n..] == [] || IsSectionStart(lines[1 + n..][0])
    ensures Sections(lines[1 + n..]).Ok? && SectionNumber(lines[0]).Ok?
    ensures Sections(lines).value
            == [Section(SectionNumber(lines[0]).value, lines[0], lines[1..1 + n])] + Sections(lines[1 + n..]).value
  {
    n := PrefixLength(lines[1..]);
  }

  lemma FlattenCons(s: Section, rest: seq<Section>)
    ensures Flatten([s] + rest) == [s.header] + s.body + Flatten(rest)
  {
    assert ([s] + rest)[1..] == rest;
  }

  // ---------------------------------------------------------------------
  // Reading the material map (get_materials)
  // ---------------------------------------------------------------------

  /** `float(line.split('=')[1].strip())` */
  function SettingValue(l: string): Result<real> {
    match Piece(l, "=", 1)
    case None => Raise(IndexError)
    case Some(v) => match ParseFloat(Strip(v)) case None => Raise(ValueError) case Some(x) => Ok(x)
  }

  /** The default cut feed rate and kerf width from the preferences file:
      the last `Cut feed rate` and `Kerf width` lines win, 0 when absent. */
  function Preferences(prefs: seq<string>, feed: real, kerf: real): Result<(real, real)>
    decreases |prefs|
  {
    if prefs == [] then Ok((feed, kerf))
    else
      var l := prefs[0];
      var f := if StartsWith(l, "Cut feed rate") then SettingValue(l) else Ok(feed);
      match f
      case Raise(e) => Raise(e)
      case Ok(feed') =>
        var k := if StartsWith(l, "Kerf width") then SettingValue(l) else Ok(kerf);
        match k
        case Raise(e) => Raise(e)
        case Ok(kerf') => Preferences(prefs[1..], feed', kerf')
  }

  /** The number of lines before the reader's first header. */
  function LeadLength(lines: seq<string>): (n: nat)
    ensures n <= |lines|
    ensures forall k :: 0 <= k < n ==> !IsMaterialHeader(lines[k])
    ensures n < |lines| ==> IsMaterialHeader(lines[n])
  {
    if lines == [] || IsMaterialHeader(lines[0]) then 0 else 1 + LeadLength(lines[1..])
  }

  /** The reader's second loop: at each header and at the end of the file
      the current number is bound to the current feed rate and kerf width,
      which `CUT_SPEED` and `KERF_WIDTH` lines update and no header
      resets. */
  function ReadSections(lines: seq<string>, number: int, feed: real, kerf: real,
                        dict: map<int, (real, real)>): (r: Result<map<int, (real, real)>>)
    ensures r.Ok? ==> number in r.value && dict.Keys <= r.value.Keys
    decreases |lines|
  {
    if lines == [] then Ok(dict[number := (feed, kerf)])
    else
      match ReadStep(lines[0], number, feed, kerf, dict)
      case Raise(e) => Raise(e)
      case Ok(st) => ReadSections(lines[1..], st.number, st.feed, st.kerf, st.dict)
  }

  /** What the reader carries from line to line. */
  datatype ReadState = ReadState(number: int, feed: real, kerf: real, dict: map<int, (real, real)>)

  /** A line the reader passes over: no header, no `CUT_SPEED` and no
      `KERF_WIDTH`. */
  predicate Inert(l: string) {
    !IsMaterialHeader(l) && !StartsWith(l, "CUT_SPEED") && !StartsWith(l, "KERF_WIDTH")
  }

  /** One line of the reader's second loop: a header binds the current
      number to the current feed rate and kerf width and makes its own
      number current; a `CUT_SPEED` or `KERF_WIDTH` line replaces the feed
      rate or the kerf width; any other line changes nothing. */
  function ReadStep(l: string, number: int, feed: real, kerf: real,
                    dict: map<int, (real, real)>): (r: Result<ReadState>)
    ensures r.Ok? ==> dict.Keys <= r.value.dict.Keys
    ensures r.Ok? && !IsMaterialHeader(l) ==> r.value.number == number && r.value.dict == dict
    ensures r.Ok? && IsMaterialHeader(l) ==> number in r.value.dict
    ensures IsMaterialHeader(l) ==>
              (r.Ok? <==> HeaderNumber(l).Ok?)
              && (r.Ok? ==> r.value == ReadState(HeaderNumber(l).value, feed, kerf, dict[number := (feed, kerf)]))
    ensures !IsMaterialHeader(l) && StartsWith(l, "CUT_SPEED") ==>
              (r.Ok? <==> SettingValue(l).Ok?)
              && (r.Ok? ==> r.value == ReadState(number, SettingValue(l).value, kerf, dict))
    ensures !IsMaterialHeader(l) && !StartsWith(l, "CUT_SPEED") && StartsWith(l, "KERF_WIDTH") ==>
              (r.Ok? <==> SettingValue(l).Ok?)
              && (r.Ok? ==> r.value == ReadState(number, feed, SettingValue(l).value, dict))
    ensures Inert(l) ==> r == Ok(ReadState(number, feed, kerf, dict))
  {
    if IsMaterialHeader(l) then
      match HeaderNumber(l)
      case Raise(e) => Raise(e)
      case Ok(n) => Ok(ReadState(n, feed, kerf, dict[number := (feed, kerf)]))
    else if StartsWith(l, "CUT_SPEED") then
      match SettingValue(l)
      case Raise(e) => Raise(e)
      case Ok(f) => Ok(ReadState(number, f, kerf, dict))
    else if StartsWith(l, "KERF_WIDTH") then
      match SettingValue(l)
      case Raise(e) => Raise(e)
      case Ok(k) => Ok(ReadState(number, feed, k, dict))
    else Ok(ReadState(number, feed, kerf, dict))
  }

  /** `get_materials`: material number to (cut feed rate, kerf width), with
      number 0 bound to the preference defaults. */
  function GetMaterials(prefs: seq<string>, lines: seq<string>): (r: Result<map<int, (real, real)>>)
    ensures r.Ok? ==> 0 in r.value
  {
    match Preferences(prefs, 0.0, 0.0)
    case Raise(e) => Raise(e)
    case Ok(fk) =>
      var dict := map[0 := fk];
      var p := LeadLength(lines);
      if p == |lines| then ReadSections([], 0, fk.0, fk.1, dict)
      else
        match HeaderNumber(lines[p])
        case Raise(e) => Raise(e)
        case Ok(n) => ReadSections(lines[p + 1..], n, fk.0, fk.1, dict)
  }

  /** Every header the reader meets becomes a key of the map. */
  lemma {:induction false} ReadSectionsKeys(lines: seq<string>, number: int, feed: real, kerf: real,
                                            dict: map<int, (real, real)>, k: nat)
    requires k < |lines| && IsMaterialHeader(lines[k]) && HeaderNumber(lines[k]).Ok?
    ensures ReadSections(lines, number, feed, kerf, dict).Ok? ==>
              HeaderNumber(lines[k]).value in ReadSections(lines, number, feed, kerf, dict).value
    decreases k
  {
    var st := ReadStep(lines[0], number, feed, kerf, dict);
    if st.Ok? {
      var v := st.value;
      if k > 0 {
        assert lines[1..][k - 1] == lines[k];
        ReadSectionsKeys(lines[1..], v.number, v.feed, v.kerf, v.dict, k - 1);
      } else {
        assert v.number == HeaderNumber(lines[0]).value;
      }
    }
  }

  /** Lines that are neither headers nor settings change nothing. */
  lemma {:induction false} PlainLines(body: seq<string>, rest: seq<string>, number: int, feed: real, kerf: real,
                                      dict: map<int, (real, real)>)
    requires forall k :: 0 <= k < |body| ==> !IsMaterialHeader(body[k]) && !StartsWith(body[k], "CUT_SPEED")
                                               && !StartsWith(body[k], "KERF_WIDTH")
    ensures ReadSections(body + rest, number, feed, kerf, dict) == ReadSections(rest, number, feed, kerf, dict)
    decreases |body|
  {
    if body != [] {
      assert (body + rest)[0] == body[0];
      assert (body + rest)[1..] == body[1..] + rest;
      PlainLines(body[1..], rest, number, feed, kerf, dict);
    } else {
      assert body + rest == rest;
    }
  }

  /** Leading lines without a header do not move the first header. */
  lemma {:induction false} LeadUnchanged(pre: seq<string>, rest: seq<string>)
    requires forall k :: 0 <= k < |pre| ==> !IsMaterialHeader(pre[k])
    requires rest != [] && IsMaterialHeader(rest[0])
    ensures LeadLength(pre + rest) == |pre|
    decreases |pre|
  {
    if pre != [] {
      assert (pre + rest)[0] == pre[0];
      assert (pre + rest)[1..] == pre[1..] + rest;
      LeadUnchanged(pre[1..], rest);
    } else {
      assert pre + rest == rest;
    }
  }

  /** From the first header on: two headers, each followed by lines that
      are neither headers nor settings, bind both numbers to the values
      read so far. */
  lemma {:induction false} TwoPlainSections(a: int, b: int, body: seq<string>, rest: seq<string>, fk: (real, real),
                                            d0: map<int, (real, real)>)
    requires forall k :: 0 <= k < |body| ==> !IsMaterialHeader(body[k]) && !StartsWith(body[k], "CUT_SPEED")
                                               && !StartsWith(body[k], "KERF_WIDTH")
    requires forall k :: 0 <= k < |rest| ==> !IsMaterialHeader(rest[k]) && !StartsWith(rest[k], "CUT_SPEED")
                                               && !StartsWith(rest[k], "KERF_WIDTH")
    ensures ReadSections(body + ([HeaderLine(b)] + rest), a, fk.0, fk.1, d0) == Ok(d0[a := fk][b := fk])
  {
    HeaderRecognised(b);
    HeaderNumberOf(b);
    var tailB := [HeaderLine(b)] + rest;
    PlainLines(body, tailB, a, fk.0, fk.1, d0);
    assert tailB[0] == HeaderLine(b) && tailB[1..] == rest;
    assert ReadSections(tailB, a, fk.0, fk.1, d0) == ReadSections(rest, b, fk.0, fk.1, d0[a := fk]);
    PlainLines(rest, [], b, fk.0, fk.1, d0[a := fk]);
    assert rest + [] == rest;
  }

  /** Lines before the first header only delay it: reading starts at the
      header with the preference defaults. */
  lemma FirstHeader(prefs: seq<string>, pre: seq<string>, a: int, after: seq<string>, fk: (real, real))
    requires forall k :: 0 <= k < |pre| ==> !IsMaterialHeader(pre[k])
    requires Preferences(prefs, 0.0, 0.0) == Ok(fk)
    ensures GetMaterials(prefs, pre + ([HeaderLine(a)] + after)) == ReadSections(after, a, fk.0, fk.1, map[0 := fk])
  {
    HeaderRecognised(a);
    HeaderNumberOf(a);
    var tail := [HeaderLine(a)] + after;
    var lines := pre + tail;
    LeadUnchanged(pre, tail);
    assert lines[|pre|] == tail[0] == HeaderLine(a);
    assert lines[|pre| + 1..] == tail[1..] == after;
  }

  /** A section without `CUT_SPEED` or `KERF_WIDTH` lines does not fall
      back to the defaults: it inherits the feed rate and kerf width read
      before it. Here two such sections follow lines without a header, and
      both get the preference defaults. */
  lemma CarryOver(prefs: seq<string>, pre: seq<string>, a: int, b: int, body: seq<string>, rest: seq<string>,
                  fk: (real, real))
    requires forall k :: 0 <= k < |pre| ==> !IsMaterialHeader(pre[k])
    requires Preferences(prefs, 0.0, 0.0) == Ok(fk)
    requires forall k :: 0 <= k < |body| ==> !IsMaterialHeader(body[k]) && !StartsWith(body[k], "CUT_SPEED")
                                               && !StartsWith(body[k], "KERF_WIDTH")
    requires forall k :: 0 <= k < |rest| ==> !IsMaterialHeader(rest[k]) && !StartsWith(rest[k], "CUT_SPEED")
                                               && !StartsWith(rest[k], "KERF_WIDTH")
    ensures GetMaterials(prefs, pre + [HeaderLine(a)] + body + [HeaderLine(b)] + rest)
            == Ok(map[0 := fk][a := fk][b := fk])
  {
    var after := body + ([HeaderLine(b)] + rest);
    assert pre + [HeaderLine(a)] + body + [HeaderLine(b)] + rest == pre + ([HeaderLine(a)] + after);
    FirstHeader(prefs, pre, a, after, fk);
    TwoPlainSections(a, b, body, rest, fk, map[0 := fk]);
  }

  // ---------------------------------------------------------------------
  // Reading back what the rewrite wrote
  // ---------------------------------------------------------------------

  /** A float whose `str()` text reads back to it under `float()` and has
      no `=` and no surrounding whitespace, as Python's float text has. */
  predicate ReprReads(host: Host, x: real) {
    var t := host.repr(x);
    t != [] && !IsSpace(t[0]) && !IsSpace(t[|t| - 1]) && '=' !in t && ParseFloat(t) == Some(x)
  }

  /** A `KEY = value` line of a record reads back its value. */
  lemma SettingOf(key: string, x: real, host: Host)
    requires '=' !in key && ReprReads(host, x)
    ensures SettingValue(key + "= " + host.repr(x)) == Ok(x)
  {
    var t := host.repr(x);
    SettingPiece(key, t);
    SpacedStrip(t);
  }

  /** The text after the `=` of a `KEY = value` line. */
  lemma SettingPiece(key: string, t: string)
    requires '=' !in key && '=' !in t
    ensures Piece(key + "= " + t, "=", 1) == Some(" " + t)
  {
    var v := " " + t;
    var l := key + "= " + t;
    assert l == key + ("=" + v);
    FindSkip(key, "=" + v, "=");
    assert StartsWith("=" + v, "=");
    assert l[|key| + 1..] == v;
    FindSkip(v, [], "=");
    assert v + [] == v;
    SplitTwo(l, "=", |key|);
  }

  /** One space before text without surrounding whitespace is stripped. */
  lemma SpacedStrip(t: string)
    requires t != [] && !IsSpace(t[0]) && !IsSpace(t[|t| - 1])
    ensures Strip(" " + t) == t
  {
    var v := " " + t;
    assert RStrip(v) == v;
    assert v[1..] == t;
    assert LStrip(v) == LStrip(t) == t;
  }

  /** A line whose first characters rule out a header, `CUT_SPEED` and
      `KERF_WIDTH`. */
  lemma InertByChars(l: string)
    requires l == [] || (l[0] != '[' && l[0] != 'K' && (l[0] == 'C' ==> |l| > 4 && l[4] != 'S'))
    ensures Inert(l)
  {
    if |l| >= |HeaderPrefix| {
      assert l[..|HeaderPrefix|][0] == l[0];
    }
    if |l| >= 9 {
      assert l[..9][0] == l[0];
      if l[0] == 'C' {
        assert l[..9][4] == l[4];
      }
    }
    if |l| >= 10 {
      assert l[..10][0] == l[0];
    }
  }

  /** A key whose first characters rule them out, followed by any text. */
  lemma InertKey(key: string, t: string)
    requires |key| > 4 && key[0] != '[' && key[0] != 'K' && (key[0] == 'C' ==> key[4] != 'S')
    ensures Inert(key + t)
  {
    assert (key + t)[0] == key[0] && (key + t)[4] == key[4];
    InertByChars(key + t);
  }

  /** A record line whose key's first characters rule it out. */
  lemma InertLine(key: string, value: string)
    requires 0 < |key| <= 19 && key[0] != '[' && key[0] != 'K' && (key[0] == 'C' ==> |key| > 4 && key[4] != 'S')
    ensures Inert(Line(key, value))
  {
    var k := key + Spaces(19 - |key|);
    assert Line(key, value) == k + ("= " + value);
    assert k[0] == key[0];
    if key[0] == 'C' {
      assert k[4] == key[4];
    }
    InertKey(k, "= " + value);
  }

  /** The six record lines between `KERF_WIDTH` and `CUT_SPEED`. */
  function FrontSix(m: Material, host: Host): seq<string> {
    [ Line("THC", IntToString(m.thc)),
      Line("PIERCE_HEIGHT", host.repr(m.pierceHeight)),
      Line("PIERCE_DELAY", host.repr(m.pierceDelay)),
      Line("PUDDLE_JUMP_HEIGHT", host.repr(m.puddleJumpHeight)),
      Line("PUDDLE_JUMP_DELAY", host.repr(m.puddleJumpDelay)),
      Line("CUT_HEIGHT", host.repr(m.cutHeight)) ]
  }

  /** The six record lines after `CUT_SPEED`. */
  function BackSix(m: Material, host: Host): seq<string> {
    [ Line("CUT_AMPS", Str(m.cutAmps, host)),
      Line("CUT_VOLTS", Str(m.cutVolts, host)),
      Line("PAUSE_AT_END", host.repr(m.pauseAtEnd)),
      Line("GAS_PRESSURE", host.repr(m.gasPressure)),
      Line("CUT_MODE", host.repr(m.cutMode)),
      "" ]
  }

  /** A record cut where the reader acts: the header, the name, the kerf
      width, six lines, the cut speed and six more lines. */
  lemma RecordParts(m: Material, host: Host)
    ensures RecordLines(m, host)
            == [HeaderLine(m.number), Line("NAME", m.name), Line("KERF_WIDTH", host.repr(m.kerfWidth))]
               + FrontSix(m, host) + [Line("CUT_SPEED", host.repr(m.cutSpeed))] + BackSix(m, host)
  {
  }

  /** Six lines the reader passes over change nothing. */
  lemma SixInert(six: seq<string>, rest: seq<string>, number: int, feed: real, kerf: real,
                 dict: map<int, (real, real)>)
    requires |six| == 6
    requires Inert(six[0]) && Inert(six[1]) && Inert(six[2]) && Inert(six[3]) && Inert(six[4]) && Inert(six[5])
    ensures ReadSections(six + rest, number, feed, kerf, dict) == ReadSections(rest, number, feed, kerf, dict)
  {
    forall k | 0 <= k < 6
      ensures Inert(six[k])
    {
      if k == 0 {} else if k == 1 {} else if k == 2 {} else if k == 3 {} else if k == 4 {} else {}
    }
    PlainLines(six, rest, number, feed, kerf, dict);
  }

  /** The reader passes over the six lines after `KERF_WIDTH`. */
  lemma FrontInert(m: Material, host: Host, rest: seq<string>, number: int, feed: real, kerf: real,
                   dict: map<int, (real, real)>)
    ensures ReadSections(FrontSix(m, host) + rest, number, feed, kerf, dict) == ReadSections(rest, number, feed, kerf, dict)
  {
    var f := FrontSix(m, host);
    InertLine("THC", IntToString(m.thc));
    InertLine("PIERCE_HEIGHT", host.repr(m.pierceHeight));
    InertLine("PIERCE_DELAY", host.repr(m.pierceDelay));
    InertLine("PUDDLE_JUMP_HEIGHT", host.repr(m.puddleJumpHeight));
    InertLine("PUDDLE_JUMP_DELAY", host.repr(m.puddleJumpDelay));
    InertLine("CUT_HEIGHT", host.repr(m.cutHeight));
    SixInert(f, rest, number, feed, kerf, dict);
  }

  /** The reader passes over the six lines after `CUT_SPEED`. */
  lemma BackInert(m: Material, host: Host, rest: seq<string>, number: int, feed: real, kerf: real,
                  dict: map<int, (real, real)>)
    ensures ReadSections(BackSix(m, host) + rest, number, feed, kerf, dict) == ReadSections(rest, number, feed, kerf, dict)
  {
    var b := BackSix(m, host);
    InertLine("CUT_AMPS", Str(m.cutAmps, host));
    InertLine("CUT_VOLTS", Str(m.cutVolts, host));
    InertLine("PAUSE_AT_END", host.repr(m.pauseAtEnd));
    InertLine("GAS_PRESSURE", host.repr(m.gasPressure));
    InertLine("CUT_MODE", host.repr(m.cutMode));
    InertByChars("");
    SixInert(b, rest, number, feed, kerf, dict);
  }

  /** A record's `KERF_WIDTH` and `CUT_SPEED` lines read back its kerf
      width and cut speed. */
  lemma SettingLine(key: string, x: real, host: Host)
    requires |key| <= 19 && '=' !in key && ReprReads(host, x)
    ensures SettingValue(Line(key, host.repr(x))) == Ok(x)
  {
    var k := key + Spaces(19 - |key|);
    assert '=' !in k;
    assert Line(key, host.repr(x)) == k + "= " + host.repr(x);
    SettingOf(k, x, host);
  }

  /** The `KERF_WIDTH` line is neither a header nor a `CUT_SPEED` line. */
  lemma KerfLine(v: string)
    ensures var l := Line("KERF_WIDTH", v);
            !IsMaterialHeader(l) && !StartsWith(l, "CUT_SPEED") && StartsWith(l, "KERF_WIDTH")
  {
    var l := Line("KERF_WIDTH", v);
    assert l == "KERF_WIDTH" + (Spaces(9) + "= " + v);
    assert l[0] == 'K';
    assert l[..|HeaderPrefix|][0] == 'K' && l[..9][0] == 'K' && l[..10] == "KERF_WIDTH";
  }

  /** The `CUT_SPEED` line is not a header. */
  lemma SpeedLine(v: string)
    ensures var l := Line("CUT_SPEED", v);
            !IsMaterialHeader(l) && StartsWith(l, "CUT_SPEED")
  {
    var l := Line("CUT_SPEED", v);
    assert l == "CUT_SPEED" + (Spaces(10) + "= " + v);
    assert l[0] == 'C';
    assert l[..|HeaderPrefix|][0] == 'C' && l[..9] == "CUT_SPEED";
  }

  /** One line read from the front. */
  lemma ReadOne(l: string, rest: seq<string>, number: int, feed: real, kerf: real, dict: map<int, (real, real)>)
    ensures var st := ReadStep(l, number, feed, kerf, dict);
            ReadSections([l] + rest, number, feed, kerf, dict)
            == if st.Raise? then Raise(st.error)
               else ReadSections(rest, st.value.number, st.value.feed, st.value.kerf, st.value.dict)
  {
    assert ([l] + rest)[0] == l && ([l] + rest)[1..] == rest;
  }

  /** Reading a record after its header: its `KERF_WIDTH` and `CUT_SPEED`
      lines set the kerf width and the feed rate, and nothing else
      changes. */
  lemma RecordTail(m: Material, host: Host, rest: seq<string>, number: int, feed: real, kerf: real,
                   dict: map<int, (real, real)>)
    requires ReprReads(host, m.kerfWidth) && ReprReads(host, m.cutSpeed)
    ensures ReadSections(RecordLines(m, host)[1..] + rest, number, feed, kerf, dict)
            == ReadSections(rest, number, m.cutSpeed, m.kerfWidth, dict)
  {
    var name := Line("NAME", m.name);
    var kerfLine := Line("KERF_WIDTH", host.repr(m.kerfWidth));
    var t8 := [Line("CUT_SPEED", host.repr(m.cutSpeed))] + BackSix(m, host) + rest;
    RecordParts(m, host);
    InertLine("NAME", m.name);
    KerfLine(host.repr(m.kerfWidth));
    SettingLine("KERF_WIDTH", m.kerfWidth, host);
    SpeedTail(m, host, rest, number, feed, m.kerfWidth, dict);
    FrontInert(m, host, t8, number, feed, m.kerfWidth, dict);
    var t3 := FrontSix(m, host) + t8;
    ReadOne(kerfLine, t3, number, feed, kerf, dict);
    var t2 := [kerfLine] + t3;
    ReadOne(name, t2, number, feed, kerf, dict);
    Regroup(HeaderLine(m.number), name, kerfLine, FrontSix(m, host), Line("CUT_SPEED", host.repr(m.cutSpeed)),
            BackSix(m, host), rest);
  }

  /** The record after its header, followed by more lines, regrouped from
      the front. */
  lemma Regroup<T>(h: T, a: T, b: T, f: seq<T>, c: T, g: seq<T>, rest: seq<T>)
    ensures ([h, a, b] + f + [c] + g)[1..] + rest == [a] + ([b] + (f + ([c] + g + rest)))
  {
  }

  /** A sequence followed by more, split after its first element. */
  lemma FrontSplit<T>(r: seq<T>, rest: seq<T>)
    requires r != []
    ensures r + rest == [r[0]] + (r[1..] + rest)
  {
  }

  /** What is left of two sequences after dropping part of the first. */
  lemma DropAppend<T>(a: seq<T>, b: seq<T>, i: nat)
    requires i <= |a|
    ensures (a + b)[i..] == a[i..] + b
    ensures i < |a| ==> (a + b)[i] == a[i]
    ensures i == |a| && b != [] ==> (a + b)[i] == b[0]
  {
  }

  /** What is left of two sequences after dropping the first and part of
      the second. */
  lemma DropPast<T>(a: seq<T>, b: seq<T>, i: nat)
    requires i <= |b|
    ensures (a + b)[|a| + i..] == b[i..]
  {
  }

  /** A non-empty sequence is its first element, the next `n` and the rest. */
  lemma CutThree<T>(s: seq<T>, n: nat)
    requires 1 + n <= |s|
    ensures s == [s[0]] + s[1..1 + n] + s[1 + n..]
  {
  }

  /** An element of a sequence seen after dropping its first `p`. */
  lemma DropIndex<T>(s: seq<T>, p: nat, k: nat)
    requires p <= k < |s|
    ensures s[p..][k - p] == s[k]
  {
  }

  /** The elements of both parts of a sequence cut at `p` belong to it. */
  lemma CutMembers<T>(s: seq<T>, p: nat)
    requires p <= |s|
    ensures forall x :: x in s[..p] ==> x in s
    ensures forall j :: 0 <= j < |s[p..]| ==> s[p..][j] in s
  {
    forall j | 0 <= j < |s[p..]|
      ensures s[p..][j] in s
    {
      assert s[p..][j] == s[p + j];
    }
  }

  lemma AppendNil<T>(r: seq<T>)
    ensures r + [] == r
  {
  }

  /** A record from its `CUT_SPEED` line on: the feed rate becomes the
      record's cut speed. */
  lemma SpeedTail(m: Material, host: Host, rest: seq<string>, number: int, feed: real, kerf: real,
                  dict: map<int, (real, real)>)
    requires ReprReads(host, m.cutSpeed)
    ensures ReadSections([Line("CUT_SPEED", host.repr(m.cutSpeed))] + BackSix(m, host) + rest, number, feed, kerf, dict)
            == ReadSections(rest, number, m.cutSpeed, kerf, dict)
  {
    var speedLine := Line("CUT_SPEED", host.repr(m.cutSpeed));
    SpeedLine(host.repr(m.cutSpeed));
    SettingLine("CUT_SPEED", m.cutSpeed, host);
    var t9 := BackSix(m, host) + rest;
    BackInert(m, host, rest, number, m.cutSpeed, kerf, dict);
    ReadOne(speedLine, t9, number, feed, kerf, dict);
    assert [speedLine] + BackSix(m, host) + rest == [speedLine] + t9;
  }

  /** A whole record: its header binds the number read so far and makes the
      record's number current, with the record's cut speed and kerf width. */
  lemma RecordStep(m: Material, host: Host, rest: seq<string>, number: int, feed: real, kerf: real,
                   dict: map<int, (real, real)>)
    requires ReprReads(host, m.kerfWidth) && ReprReads(host, m.cutSpeed)
    ensures ReadSections(RecordLines(m, host) + rest, number, feed, kerf, dict)
            == ReadSections(rest, m.number, m.cutSpeed, m.kerfWidth, dict[number := (feed, kerf)])
  {
    var r := RecordLines(m, host);
    HeaderRoundTrip(m.number);
    FrontSplit(r, rest);
    ReadOne(r[0], r[1..] + rest, number, feed, kerf, dict);
    RecordTail(m, host, rest, m.number, feed, kerf, dict[number := (feed, kerf)]);
  }

  /** A record followed by the end of the file or by a header: the record's
      number is bound to its cut speed and kerf width. */
  lemma RecordBinds(m: Material, host: Host, rest: seq<string>, number: int, feed: real, kerf: real,
                    dict: map<int, (real, real)>)
    requires ReprReads(host, m.kerfWidth) && ReprReads(host, m.cutSpeed)
    requires rest == [] || IsMaterialHeader(rest[0])
    ensures var d := dict[number := (feed, kerf)][m.number := (m.cutSpeed, m.kerfWidth)];
            var r := ReadSections(RecordLines(m, host) + rest, number, feed, kerf, dict);
            && (rest == [] ==> r == Ok(d))
            && (rest != [] ==>
                  var n := HeaderNumber(rest[0]);
                  r == if n.Raise? then Raise(n.error) else ReadSections(rest[1..], n.value, m.cutSpeed, m.kerfWidth, d))
  {
    RecordStep(m, host, rest, number, feed, kerf, dict);
    if rest != [] {
      assert rest == [rest[0]] + rest[1..];
      ReadOne(rest[0], rest[1..], m.number, m.cutSpeed, m.kerfWidth, dict[number := (feed, kerf)]);
    }
  }

  /** The reader's state after some lines: reading on from it gives what
      reading those lines and what follows gives. Lines without a header
      keep the current number and the map. */
  lemma {:induction false} ReadAcross(a: seq<string>, rest: seq<string>, number: int, feed: real, kerf: real,
                                      dict: map<int, (real, real)>) returns (st: ReadState)
    ensures ReadSections(a + rest, number, feed, kerf, dict).Ok? ==>
              ReadSections(a + rest, number, feed, kerf, dict) == ReadSections(rest, st.number, st.feed, st.kerf, st.dict)
    decreases |a|
  {
    st := ReadState(number, feed, kerf, dict);
    if a == [] {
      assert a + rest == rest;
    } else {
      assert a + rest == [a[0]] + (a[1..] + rest);
      ReadOne(a[0], a[1..] + rest, number, feed, kerf, dict);
      match ReadStep(a[0], number, feed, kerf, dict)
      case Raise(_) =>
      case Ok(s) =>
        st := ReadAcross(a[1..], rest, s.number, s.feed, s.kerf, s.dict);
    }
  }

  /** Lines whose headers all carry numbers other than `key`, read from a
      number other than `key`, leave `key`'s binding alone. */
  lemma {:induction false} KeepsBinding(lines: seq<string>, number: int, feed: real, kerf: real,
                                        dict: map<int, (real, real)>, key: int)
    requires number != key && key in dict
    requires forall l :: l in lines && IsMaterialHeader(l) ==> HeaderNumber(l) != Ok(key)
    ensures ReadSections(lines, number, feed, kerf, dict).Ok? ==>
              key in ReadSections(lines, number, feed, kerf, dict).value
              && ReadSections(lines, number, feed, kerf, dict).value[key] == dict[key]
    decreases |lines|
  {
    if lines != [] {
      match ReadStep(lines[0], number, feed, kerf, dict)
      case Raise(_) =>
      case Ok(s) =>
        assert lines[0] in lines;
        forall l | l in lines[1..]
          ensures l in lines
        {
        }
        KeepsBinding(lines[1..], s.number, s.feed, s.kerf, s.dict, key);
    }
  }

  /** The rewrite and the reader agree on a line: it is a header for both
      or for neither, and then both read the same number. */
  predicate Agrees(l: string) {
    (IsSectionStart(l) <==> IsMaterialHeader(l))
    && (IsSectionStart(l) ==> HeaderNumber(l) == SectionNumber(l))
  }

  /** Sections as the reader sees them: each header is a header to it,
      with the section's number, and no body line is. */
  predicate WellRead(sections: seq<Section>) {
    forall i :: 0 <= i < |sections| ==> ReadAsSection(sections[i])
  }

  /** A section as the reader sees it: its header is a header to it, with
      the section's number, and no body line is. */
  predicate ReadAsSection(s: Section) {
    && IsMaterialHeader(s.header) && HeaderNumber(s.header) == Ok(s.number)
    && (forall l :: l in s.body ==> !IsMaterialHeader(l))
  }

  /** The numbers of the sections. */
  function Numbers(sections: seq<Section>): (r: set<int>)
    ensures forall i :: 0 <= i < |sections| ==> sections[i].number in r
    decreases |sections|
  {
    if sections == [] then {}
    else
      var r := {sections[0].number} + Numbers(sections[1..]);
      assert forall i :: 1 <= i < |sections| ==> sections[i] == sections[1..][i - 1];
      r
  }

  /** A section the reader sees as the rewrite does, ahead of sections it
      sees so. */
  lemma WellReadCons(s: Section, rest: seq<Section>)
    requires ReadAsSection(s) && WellRead(rest)
    ensures WellRead([s] + rest)
  {
    var all := [s] + rest;
    forall i | 0 <= i < |all|
      ensures ReadAsSection(all[i])
    {
      if i > 0 {
        assert all[i] == rest[i - 1];
      }
    }
  }

  /** The body of a section on whose lines the rewrite and the reader
      agree holds no header for the reader. */
  lemma BodyInert(lines: seq<string>, n: nat)
    requires 1 + n <= |lines| && n <= PrefixLength(lines[1..])
    requires forall k :: 0 <= k < |lines| ==> Agrees(lines[k])
    ensures forall l :: l in lines[1..1 + n] ==> !IsMaterialHeader(l)
  {
    forall l | l in lines[1..1 + n]
      ensures !IsMaterialHeader(l)
    {
      var k :| 0 <= k < n && lines[1..1 + n][k] == l;
      assert lines[1..][k] == l && lines[1 + k] == l;
      assert Agrees(lines[1 + k]);
    }
  }

  /** When the rewrite and the reader agree on every line, the reader sees
      the rewrite's sections. */
  lemma {:induction false} SectionsWellRead(lines: seq<string>)
    requires lines == [] || IsSectionStart(lines[0])
    requires forall k :: 0 <= k < |lines| ==> Agrees(lines[k])
    ensures Sections(lines).Ok? ==> WellRead(Sections(lines).value)
    decreases |lines|
  {
    if lines != [] && Sections(lines).Ok? {
      var n := SectionsStep(lines);
      var body := lines[1..1 + n];
      var rest := lines[1 + n..];
      forall k | 0 <= k < |rest|
        ensures Agrees(rest[k])
      {
        assert rest[k] == lines[1 + n + k];
      }
      BodyInert(lines, n);
      SectionsWellRead(rest);
      assert Agrees(lines[0]);
      WellReadCons(Section(SectionNumber(lines[0]).value, lines[0], body), Sections(rest).value);
    }
  }

  /** A section header of the file numbers one of its sections. */
  lemma {:induction false} SectionsCover(lines: seq<string>, k: nat)
    requires lines == [] || IsSectionStart(lines[0])
    requires k < |lines| && IsSectionStart(lines[k]) && SectionNumber(lines[k]).Ok?
    ensures Sections(lines).Ok? ==> SectionNumber(lines[k]).value in Numbers(Sections(lines).value)
    decreases |lines|
  {
    if Sections(lines).Ok? {
      var n := SectionsStep(lines);
      var rest := lines[1 + n..];
      if k > 0 {
        assert lines[1..][k - 1] == lines[k];
        assert k > n;
        assert rest[k - 1 - n] == lines[k];
        SectionsCover(rest, k - 1 - n);
        assert Sections(lines).value[1..] == Sections(rest).value;
        assert Numbers(Sections(lines).value) >= Numbers(Sections(rest).value);
      }
    }
  }

  /** The headers of sections none of which is numbered `t` do not carry
      `t`. */
  lemma {:induction false} FlattenHeaders(sections: seq<Section>, t: int)
    requires WellRead(sections) && t !in Numbers(sections)
    ensures forall l :: l in Flatten(sections) && IsMaterialHeader(l) ==> HeaderNumber(l) != Ok(t)
    decreases |sections|
  {
    if sections != [] {
      var s := sections[0];
      assert WellRead(sections[1..]) by {
        forall i | 0 <= i < |sections[1..]|
          ensures sections[1..][i] == sections[i + 1]
        {
        }
      }
      FlattenHeaders(sections[1..], t);
      assert Flatten(sections) == [s.header] + s.body + Flatten(sections[1..]);
    }
  }

  /** Sections none of which is numbered `t`, read with `t` current: `t` is
      bound to the values read so far, and nothing rebinds it. */
  lemma AfterRecord(sections: seq<Section>, t: int, feed: real, kerf: real, dict: map<int, (real, real)>)
    requires WellRead(sections) && t !in Numbers(sections)
    ensures var r := ReadSections(Flatten(sections), t, feed, kerf, dict);
            r.Ok? ==> t in r.value && r.value[t] == (feed, kerf)
  {
    if sections != [] {
      var s := sections[0];
      var tail := s.body + Flatten(sections[1..]);
      assert Flatten(sections) == [s.header] + tail;
      ReadOne(s.header, tail, t, feed, kerf, dict);
      FlattenHeaders(sections, t);
      forall l | l in tail
        ensures l in Flatten(sections)
      {
      }
      KeepsBinding(tail, s.number, feed, kerf, dict[t := (feed, kerf)], t);
    }
  }

  /** The sections with the target's replaced by the record, read from any
      state: the target is bound to the record's cut speed and kerf width. */
  lemma {:induction false} ReplacedBinds(sections: seq<Section>, m: Material, host: Host, number: int, feed: real,
                                         kerf: real, dict: map<int, (real, real)>)
    requires ReprReads(host, m.kerfWidth) && ReprReads(host, m.cutSpeed)
    requires WellRead(sections) && m.number in Numbers(sections)
    ensures var r := ReadSections(Replaced(sections, m.number, RecordLines(m, host)), number, feed, kerf, dict);
            r.Ok? ==> m.number in r.value && r.value[m.number] == (m.cutSpeed, m.kerfWidth)
    decreases |sections|
  {
    var t, rec := m.number, RecordLines(m, host);
    var s := sections[0];
    var others := sections[1..];
    assert WellRead(others) by {
      forall i | 0 <= i < |others|
        ensures others[i] == sections[i + 1]
      {
      }
    }
    var tail := Replaced(others, t, rec);
    if s.number == t {
      RecordStep(m, host, tail, number, feed, kerf, dict);
      if t in Numbers(others) {
        ReplacedBinds(others, m, host, t, m.cutSpeed, m.kerfWidth, dict[number := (feed, kerf)]);
      } else {
        ReplacedKeepsOthers(others, t, rec);
        AfterRecord(others, t, m.cutSpeed, m.kerfWidth, dict[number := (feed, kerf)]);
      }
    } else {
      assert Replaced(sections, t, rec) == ([s.header] + s.body) + tail;
      var st := ReadAcross([s.header] + s.body, tail, number, feed, kerf, dict);
      ReplacedBinds(others, m, host, st.number, st.feed, st.kerf, st.dict);
    }
  }

  /** The number of lines before the reader's first header is found within
      the lines that hold it. */
  lemma {:induction false} LeadPrefix(a: seq<string>, b: seq<string>)
    requires LeadLength(a) < |a|
    ensures LeadLength(a + b) == LeadLength(a)
    decreases |a|
  {
    assert (a + b)[0] == a[0];
    if !IsMaterialHeader(a[0]) {
      assert (a + b)[1..] == a[1..] + b;
      LeadPrefix(a[1..], b);
    }
  }

  /** A record appended to any file: once the file reads, the record's
      number is bound to its cut speed and kerf width. */
  lemma AppendedRecordBinds(prefs: seq<string>, a: seq<string>, m: Material, host: Host)
    requires ReprReads(host, m.kerfWidth) && ReprReads(host, m.cutSpeed)
    ensures var r := GetMaterials(prefs, a + RecordLines(m, host));
            r.Ok? ==> m.number in r.value && r.value[m.number] == (m.cutSpeed, m.kerfWidth)
  {
    if Preferences(prefs, 0.0, 0.0).Ok? {
      var fk := Preferences(prefs, 0.0, 0.0).value;
      if LeadLength(a) < |a| {
        AppendedAfterHeader(prefs, a, m, host, fk);
      } else {
        AppendedFirstHeader(prefs, a, m, host, fk);
      }
    }
  }

  /** The record appended after a header: the reader reaches the record in
      some state and the record binds its number. */
  lemma AppendedAfterHeader(prefs: seq<string>, a: seq<string>, m: Material, host: Host, fk: (real, real))
    requires ReprReads(host, m.kerfWidth) && ReprReads(host, m.cutSpeed)
    requires Preferences(prefs, 0.0, 0.0) == Ok(fk) && LeadLength(a) < |a|
    ensures var r := GetMaterials(prefs, a + RecordLines(m, host));
            r.Ok? ==> m.number in r.value && r.value[m.number] == (m.cutSpeed, m.kerfWidth)
  {
    var rec := RecordLines(m, host);
    var q := LeadLength(a);
    LeadPrefix(a, rec);
    DropAppend(a, rec, q);
    DropAppend(a, rec, q + 1);
    if HeaderNumber(a[q]).Ok? {
      var n := HeaderNumber(a[q]).value;
      assert GetMaterials(prefs, a + rec) == ReadSections(a[q + 1..] + rec, n, fk.0, fk.1, map[0 := fk]);
      var st := ReadAcross(a[q + 1..], rec, n, fk.0, fk.1, map[0 := fk]);
      AppendNil(rec);
      RecordBinds(m, host, [], st.number, st.feed, st.kerf, st.dict);
    } else {
      assert GetMaterials(prefs, a + rec).Raise?;
    }
  }

  /** The record as the first header of the file: the reader starts inside
      it with its number current. */
  lemma AppendedFirstHeader(prefs: seq<string>, a: seq<string>, m: Material, host: Host, fk: (real, real))
    requires ReprReads(host, m.kerfWidth) && ReprReads(host, m.cutSpeed)
    requires Preferences(prefs, 0.0, 0.0) == Ok(fk) && LeadLength(a) == |a|
    ensures var r := GetMaterials(prefs, a + RecordLines(m, host));
            r.Ok? ==> m.number in r.value && r.value[m.number] == (m.cutSpeed, m.kerfWidth)
  {
    var rec := RecordLines(m, host);
    HeaderRoundTrip(m.number);
    LeadUnchanged(a, rec);
    DropAppend(a, rec, |a|);
    DropPast(a, rec, 1);
    AppendNil(rec[1..]);
    assert (a + rec)[|a|] == HeaderLine(m.number);
    assert GetMaterials(prefs, a + rec) == ReadSections(rec[1..], m.number, fk.0, fk.1, map[0 := fk]);
    RecordTail(m, host, [], m.number, fk.0, fk.1, map[0 := fk]);
  }

  /** Lines before the first header only delay it: reading from the header
      with number 0 current gives the same map. */
  lemma FromHeader(prefs: seq<string>, pre: seq<string>, h: seq<string>, fk: (real, real))
    requires forall l :: l in pre ==> !IsMaterialHeader(l)
    requires h != [] && IsMaterialHeader(h[0])
    requires Preferences(prefs, 0.0, 0.0) == Ok(fk)
    ensures GetMaterials(prefs, pre + h) == ReadSections(h, 0, fk.0, fk.1, map[0 := fk])
  {
    forall k | 0 <= k < |pre|
      ensures !IsMaterialHeader(pre[k])
    {
      assert pre[k] in pre;
    }
    LeadUnchanged(pre, h);
    assert (pre + h)[|pre|] == h[0];
    assert (pre + h)[|pre| + 1..] == h[1..];
    ReadOne(h[0], h[1..], 0, fk.0, fk.1, map[0 := fk]);
    assert [h[0]] + h[1..] == h;
    assert map[0 := fk][0 := fk] == map[0 := fk];
  }

  /** Lines without a header ahead of sections the reader sees as the
      rewrite does, with the target's replaced by the record: once they
      read, the target is bound to the record's cut speed and kerf width. */
  lemma ReplacedReads(prefs: seq<string>, pre: seq<string>, secs: seq<Section>, m: Material, host: Host,
                      fk: (real, real))
    requires ReprReads(host, m.kerfWidth) && ReprReads(host, m.cutSpeed)
    requires forall l :: l in pre ==> !IsMaterialHeader(l)
    requires WellRead(secs) && m.number in Numbers(secs)
    requires Preferences(prefs, 0.0, 0.0) == Ok(fk)
    ensures var r := GetMaterials(prefs, pre + Replaced(secs, m.number, RecordLines(m, host)));
            r.Ok? ==> m.number in r.value && r.value[m.number] == (m.cutSpeed, m.kerfWidth)
  {
    var rec := RecordLines(m, host);
    var h := Replaced(secs, m.number, rec);
    HeaderRoundTrip(m.number);
    assert h != [] && IsMaterialHeader(h[0]) by {
      var tail := Replaced(secs[1..], m.number, rec);
      if secs[0].number == m.number {
        assert h == rec + tail;
      } else {
        assert h == ([secs[0].header] + secs[0].body) + tail;
      }
    }
    FromHeader(prefs, pre, h, fk);
    ReplacedBinds(secs, m, host, 0, fk.0, fk.1, map[0 := fk]);
  }

  /** A file on whose every line the rewrite and the reader agree: no line
      before its first section header is a header to the reader. */
  lemma PrefixInert(lines: seq<string>)
    requires forall k :: 0 <= k < |lines| ==> Agrees(lines[k])
    ensures forall x :: x in lines[..PrefixLength(lines)] ==> !IsMaterialHeader(x)
  {
    var p := PrefixLength(lines);
    forall x | x in lines[..p]
      ensures !IsMaterialHeader(x)
    {
      var j :| 0 <= j < p && lines[..p][j] == x;
      assert lines[j] == x && Agrees(lines[j]);
    }
  }

  /** A section header of a file numbers one of the sections after the
      file's lead lines, which it does not belong to. */
  lemma FileCover(lines: seq<string>, k: nat)
    requires k < |lines| && IsSectionStart(lines[k]) && SectionNumber(lines[k]).Ok?
    ensures var p := PrefixLength(lines);
            && p <= k
            && (Sections(lines[p..]).Ok? ==> SectionNumber(lines[k]).value in Numbers(Sections(lines[p..]).value))
  {
    TailStart(lines, k);
    SectionsCover(lines[PrefixLength(lines)..], k - PrefixLength(lines));
  }

  /** A section header of a file comes at or after the end of its lead
      lines, where the sections start. */
  lemma TailStart(lines: seq<string>, k: nat)
    requires k < |lines| && IsSectionStart(lines[k])
    ensures var p := PrefixLength(lines);
            p <= k && lines[p..][0] == lines[p] && lines[p..][k - p] == lines[k]
  {
    FirstStartAt(lines, PrefixLength(lines), k);
  }

  /** TailStart for any position p before which no line starts a section and
      at which one does when p is inside the file. */
  lemma FirstStartAt(lines: seq<string>, p: nat, k: nat)
    requires p <= |lines| && (p < |lines| ==> IsSectionStart(lines[p]))
    requires forall j :: 0 <= j < p ==> !IsSectionStart(lines[j])
    requires k < |lines| && IsSectionStart(lines[k])
    ensures p <= k && lines[p..][0] == lines[p] && lines[p..][k - p] == lines[k]
  {
    DropIndex(lines, p, k);
    DropIndex(lines, p, p);
  }

  /** A file on whose every line the rewrite and the reader agree: the
      reader sees the sections after its lead lines as the rewrite does. */
  lemma FileWellRead(lines: seq<string>)
    requires forall k :: 0 <= k < |lines| ==> Agrees(lines[k])
    ensures var p := PrefixLength(lines);
            Sections(lines[p..]).Ok? ==> WellRead(Sections(lines[p..]).value)
  {
    var p := PrefixLength(lines);
    var tail := lines[p..];
    forall j | 0 <= j < |tail|
      ensures Agrees(tail[j])
    {
      DropIndex(lines, p, p + j);
    }
    SectionsWellRead(tail);
  }

  /** A file on whose every line the rewrite and the reader agree: the
      reader sees its sections as the rewrite does, and a section header of
      the file numbers one of them. */
  lemma FileSections(lines: seq<string>, k: nat)
    requires forall k :: 0 <= k < |lines| ==> Agrees(lines[k])
    requires k < |lines| && IsSectionStart(lines[k]) && SectionNumber(lines[k]).Ok?
    ensures var p := PrefixLength(lines);
            && p <= k
            && (Sections(lines[p..]).Ok? ==>
                  WellRead(Sections(lines[p..]).value)
                  && SectionNumber(lines[k]).value in Numbers(Sections(lines[p..]).value))
  {
    FileCover(lines, k);
    FileWellRead(lines);
  }

  /** A known material whose number heads a section of a file on whose
      every line the rewrite and the reader agree: once the rewritten file
      reads, the number is bound to the record's cut speed and kerf width. */
  lemma ReplacedFileBinds(prefs: seq<string>, lines: seq<string>, m: Material, known: set<int>, host: Host, l: string)
    requires ReprReads(host, m.kerfWidth) && ReprReads(host, m.cutSpeed)
    requires m.number in known
    requires forall k :: 0 <= k < |lines| ==> Agrees(lines[k])
    requires l in lines && IsSectionStart(l) && SectionNumber(l) == Ok(m.number)
    ensures var w := Rewrite(lines, m, known, host);
            w.Ok? && GetMaterials(prefs, w.value).Ok? ==>
              m.number in GetMaterials(prefs, w.value).value
              && GetMaterials(prefs, w.value).value[m.number] == (m.cutSpeed, m.kerfWidth)
  {
    var p := PrefixLength(lines);
    var tail := lines[p..];
    var k :| 0 <= k < |lines| && lines[k] == l;
    FileSections(lines, k);
    PrefixInert(lines);
    RewriteSections(lines, m, known, host);
    if Sections(tail).Ok? {
      var pre, secs := lines[..p], Sections(tail).value;
      var h := Replaced(secs, m.number, RecordLines(m, host));
      AppendNil(pre + h);
      assert Rewrite(lines, m, known, host) == Ok(pre + h);
      if Preferences(prefs, 0.0, 0.0).Ok? {
        ReplacedReads(prefs, pre, secs, m, host, Preferences(prefs, 0.0, 0.0).value);
      } else {
        assert GetMaterials(prefs, pre + h).Raise?;
      }
    }
  }
}
