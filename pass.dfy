/** The filter's state and its single pass over a program
    (qtplasmac_gcode.py:36-85 and :577-894). The module-level globals of
    the script are the fields of `PassState`; `ProcessLine` is one turn of
    the main loop, with the loop's checks in the same order, and `Run`
    is the whole loop followed by the output assembly. A Python exception
    ends the script before it prints anything: it is kept in `crash`, and
    once it is set no further line is read. */
module Pass {
  import opened PyStr
  import opened PyNum
  import opened Normalize
  import opened Tokens
  import opened Geometry
  import opened Materials
  import opened Filter

  /** How a run ends: with an exception, which prints nothing, or with the
      lines it prints. */
  datatype Outcome = Raised(error: PyError) | Printed(lines: seq<string>)

  /** The marker written instead of a velocity reduction under G41. */
  const G41VelocityMarker: string := ";m67 e3 q0 (inactive due to g41)"

  /** The marker written instead of a torch switch under G41. */
  const G41TorchMarker: string := ";m62 p3 (inactive due to g41)"

  /** The material change written after a temporary material directive. */
  function TemporaryChange(number: int, name: string): string {
    "m190 p" + IntToString(number) + " (" + name + ")"
  }

  /** The material file with a material written in, and the material map
      read back from it; the first exception of the two, if any. */
  function Reloaded(file: seq<string>, m: Material, known: set<int>, prefs: seq<string>, host: Host)
    : (r: Result<(seq<string>, map<int, (real, real)>)>)
    ensures r.Ok? <==> Rewrite(file, m, known, host).Ok? && GetMaterials(prefs, Rewrite(file, m, known, host).value).Ok?
    ensures r.Ok? ==> Rewrite(file, m, known, host) == Ok(r.value.0) && GetMaterials(prefs, r.value.0) == Ok(r.value.1)
  {
    match Rewrite(file, m, known, host)
    case Raise(e) => Raise(e)
    case Ok(f) =>
      match GetMaterials(prefs, f)
      case Raise(e) => Raise(e)
      case Ok(d) => Ok((f, d))
  }

  /** Once a material written into the material file reads back, its
      number is bound to its cut speed and kerf width, provided the host
      prints both values so that they read back as themselves and, for a
      number already in the map, the file has a section of that number and
      the rewrite and the reader agree on every line. */
  lemma ReloadBinds(file: seq<string>, m: Material, known: set<int>, prefs: seq<string>, host: Host)
    requires ReprReads(host, m.kerfWidth) && ReprReads(host, m.cutSpeed)
    requires m.number in known ==>
               (forall k :: 0 <= k < |file| ==> Agrees(file[k]))
               && exists k :: 0 <= k < |file| && IsSectionStart(file[k]) && SectionNumber(file[k]) == Ok(m.number)
    ensures var r := Reloaded(file, m, known, prefs, host);
            r.Ok? ==> m.number in r.value.1 && r.value.1[m.number] == (m.cutSpeed, m.kerfWidth)
  {
    var rec := RecordLines(m, host);
    if m.number in known {
      var k :| 0 <= k < |file| && IsSectionStart(file[k]) && SectionNumber(file[k]) == Ok(m.number);
      ReplacedFileBinds(prefs, file, m, known, host, file[k]);
    } else if PrefixLength(file) < |file| {
      var p := PrefixLength(file);
      RewriteSections(file, m, known, host);
      if Sections(file[p..]).Ok? {
        AppendedRecordBinds(prefs, file[..p] + Replaced(Sections(file[p..]).value, m.number, rec), m, host);
      }
    } else {
      RewriteNoSections(file, m, known, host);
      AppendedRecordBinds(prefs, file + rec, m, host);
    }
  }

  /** Whether the F-word check looks at `line`: it has an `f` and the text
      after it is not the cut-feed-rate pin. */
  predicate ChecksFeed(line: string) {
    'f' in line && !StartsWith(AxisWord(line, 'f'), CutFeedPin)
  }

  /** The exception the F-word check of `line` raises with material `num`
      current and the material map `dict`: ValueError when the feed text
      is not a number, KeyError when the material is not in the map. */
  function FeedRaise(line: string, num: int, dict: map<int, (real, real)>): (r: Option<PyError>)
    ensures r.Some? ==> ChecksFeed(line) && FeedToken(AxisWord(line, 'f')) != []
    ensures r == Some(KeyError) ==> num !in dict
  {
    if !ChecksFeed(line) then None
    else
      var raw := FeedToken(AxisWord(line, 'f'));
      if raw == [] then None
      else if ParseFloat(raw).None? then Some(ValueError)
      else if num !in dict then Some(KeyError)
      else None
  }

  /** Whether an `m5` line is a plain spindle stop rather than `m50`..`m59`. */
  predicate PlainSpindleStop(line: string) {
    |line| == 2 || (|line| > 2 && !IsDigit(line[2]))
  }

  /** The values `check_if_hole` reads (:137-140) from an arc line with
      the cursor at `(x0, y0)`: its end, from its X and Y words or else the
      cursor, and its centre offset, from its I and J words or else 0; the
      first exception raised while reading them. */
  function ArcWordsOf(line: string, x0: Option<real>, y0: Option<real>)
    : (r: Result<(Option<real>, Option<real>, Option<real>, Option<real>)>)
    ensures r.Ok? ==>
              (if 'x' in line then PositionOf(line, 'x') == Ok(r.value.0) else r.value.0 == x0)
              && (if 'y' in line then PositionOf(line, 'y') == Ok(r.value.1) else r.value.1 == y0)
              && (if 'i' in line then PositionOf(line, 'i') == Ok(r.value.2) else r.value.2 == Some(0.0))
              && (if 'j' in line then PositionOf(line, 'j') == Ok(r.value.3) else r.value.3 == Some(0.0))
    ensures r.Raise? ==>
              ('x' in line && PositionOf(line, 'x') == Raise(r.error))
              || ('y' in line && PositionOf(line, 'y') == Raise(r.error))
              || ('i' in line && PositionOf(line, 'i') == Raise(r.error))
              || ('j' in line && PositionOf(line, 'j') == Raise(r.error))
  {
    var ex := if 'x' in line then PositionOf(line, 'x') else Ok(x0);
    var ey := if 'y' in line then PositionOf(line, 'y') else Ok(y0);
    var ei := if 'i' in line then PositionOf(line, 'i') else Ok(Some(0.0));
    var ej := if 'j' in line then PositionOf(line, 'j') else Ok(Some(0.0));
    if ex.Raise? then Raise(ex.error)
    else if ey.Raise? then Raise(ey.error)
    else if ei.Raise? then Raise(ei.error)
    else if ej.Raise? then Raise(ej.error)
    else Ok((ex.value, ey.value, ei.value, ej.value))
  }

  /** The velocity lines `get_hole_radius` (:154-186) writes: for an arc
      that asks for a reduction, a marker under G41, or else the reduction
      line `reduction` unless the latch is already set; for any other arc,
      the restore line when the latch is set. */
  function RadiusLines(wanted: bool, g41: bool, active: bool, reduction: string): (r: seq<string>)
    ensures |r| <= 1
    ensures r == [] <==> (wanted && !g41 && active) || (!wanted && !active)
  {
    if wanted then (if g41 then [G41VelocityMarker] else if active then [] else [reduction])
    else if active then [RestoreLine] else []
  }

  /** An arc is a hole when it ends where the cursor stands (:142-143). */
  predicate IsHole(x0: Option<real>, y0: Option<real>, endX: Option<real>, endY: Option<real>) {
    x0 == endX && y0 == endY
  }

  /** The warnings `get_hole_radius` (:161-179) gives for an arc that asks
      for a reduction, both with the line counter `n` it leaves: one under
      G41, then one for a hole cut clockwise. Any other arc gives none, and
      none of them blocks. */
  function RadiusDialogs(wanted: bool, g41: bool, clockwise: bool, hole: bool, n: int): (r: seq<Dialog>)
    ensures |r| <= 2 && (r != [] ==> wanted)
    ensures forall k :: 0 <= k < |r| ==> r[k].severity == Warning && r[k].lineNum == n
  {
    if wanted then
      (if g41 then [Dialog(Warning, CompensationVelocity, n)] else [])
      + (if clockwise && hole then [Dialog(Warning, ClockwiseHole, n)] else [])
    else []
  }

  /** The latch events among those lines: the marker written under G41
      changes no latch. */
  function RadiusEvents(wanted: bool, g41: bool, active: bool, reduce: LatchEvent): (r: seq<LatchEvent>)
    ensures |r| <= 1
    ensures r != [] ==> r == (if wanted then [reduce] else [Restore(RestoreLine)])
  {
    if wanted then (if g41 || active then [] else [reduce])
    else if active then [Restore(RestoreLine)] else []
  }

  /** The end of the overcut of a hole of the given radius from `(x0, y0)`
      (:191-214): the turn is `len / radius`, in the direction of the arc. */
  function OverburnTarget(host: Host, x0: real, y0: real, i: real, j: real, radius: real, len: real,
                          clockwise: bool): (real, real)
    requires radius != 0.0
  {
    OverburnEnd(x0, y0, i, j, radius, host.cos(len / radius), host.sin(len / radius), clockwise)
  }

  /** An arc command (:809). */
  predicate ArcLine(line: string) {
    StartsWith(line, "g2") || StartsWith(line, "g3")
  }

  /** A torch disable (:815). */
  predicate TorchOffLine(line: string) {
    StartsWith(line, "m62p3") || StartsWith(line, "m64p3")
  }

  /** A torch enable (:820). */
  predicate TorchOnLine(line: string) {
    StartsWith(line, "m63p3") || StartsWith(line, "m65p3")
  }

  /** A program end (:842). */
  predicate EndLine(line: string) {
    StartsWith(line, "m2") || StartsWith(line, "m30") || StartsWith(line, "%")
  }

  /** The HAL pin a generated F word may name instead of a number (:870). */
  const CutFeedPin: string := "#<_hal[plasmac.cut-feed-rate]>"

  /** The distance-mode error of a line under hole sensing (:769-782): G91
      other than G91.1, or else G90.1. */
  function DistanceDialogs(line: string, n: int): (r: seq<Dialog>)
    ensures |r| <= 1 && (r != [] ==> IsBlocking(r[0]))
  {
    if Contains(line, "g91") && !Contains(line, "g91.1") then [Dialog(Error, DistanceMode, n)]
    else if Contains(line, "g90.1") then [Dialog(Error, ArcDistanceMode, n)]
    else []
  }

  /** The explicit-value error for one axis of a line under hole sensing
      (:783-787). */
  function MathDialog(line: string, axis: char, n: int): (r: seq<Dialog>)
    ensures r != [] <==> axis in line && UsesExpression(line, axis)
  {
    if axis in line && UsesExpression(line, axis) then [Dialog(Error, ExplicitValues, n)] else []
  }

  class PassState {
    // Configuration read from the INI file and HAL pins at start-up.
    const host: Host
    const units: Units
    const cutType: int
    const currentMat: int
    const zMaxOffset: real
    const prefs: seq<string>

    // Materials.
    var materialFile: seq<string>
    var materialDict: map<int, (real, real)>
    var tmpMatNum: int
    var tmpMatNam: string
    var tempMaterial: Option<Material>     // the temporary material file's contents
    var materialNum: int                   // material[0]
    var materialBound: bool                // material[1]
    var firstMaterial: int                 // 0 stands for the falsy ''
    var published: seq<int>                // material numbers written to HAL

    // Output and diagnostics.
    var gcodeList: seq<string>
    var dialogs: seq<Dialog>
    var codeError: bool
    var feedWarning: bool
    var crash: Option<PyError>
    var lineNum: int

    // Modes.
    var zBypass: bool
    var zSetup: bool
    var offsetG41: bool
    var scribing: bool
    var pierceOnly: bool
    var spotting: bool
    var pierces: int
    var rapidLine: string
    var holeEnable: bool
    var overCut: bool
    var arcEnable: bool
    var holeActive: bool
    var torchEnable: bool

    // Thresholds, their overrides and the cursor.
    var minDiameter: real
    var ocLength: real
    var holeVelocity: Num
    var unitMultiplier: Num
    var customDia: bool
    var customLen: bool
    var lastX: Option<real>
    var lastY: Option<real>

    /** Every velocity reduction and restore written, in order. */
    ghost var velocityLog: seq<LatchEvent>

    /** The latch agrees with its history: reductions and restores
        alternate and the latch is set exactly after a reduction. */
    ghost predicate LatchOk()
      reads this`velocityLog, this`holeActive
    {
      LatchTrace(velocityLog, holeActive)
    }

    /** `codeError` is set exactly when a blocking error was reported, and
        the feed warning was given once if at all. */
    ghost predicate DialogsOk()
      reads this`dialogs, this`codeError, this`feedWarning
    {
      codeError == Blocks(dialogs) && CountReason(dialogs, FeedMismatch) == (if feedWarning then 1 else 0)
    }

    /** The start-up globals (:36-85) and the first `get_materials` call
        (:576). */
    constructor (host: Host, units: Units, cutType: int, currentMat: int, zMaxOffset: real,
                 prefs: seq<string>, materialFile: seq<string>)
      ensures LatchOk() && DialogsOk()
      ensures this.host == host && this.units == units && this.cutType == cutType
      ensures this.currentMat == currentMat && this.zMaxOffset == zMaxOffset && this.prefs == prefs
      ensures this.materialFile == materialFile
      ensures GetMaterials(prefs, materialFile).Raise? ==> crash == Some(GetMaterials(prefs, materialFile).error)
      ensures GetMaterials(prefs, materialFile).Ok? ==> crash.None? && materialDict == GetMaterials(prefs, materialFile).value
      ensures gcodeList == [] && dialogs == [] && !codeError && !feedWarning && !holeActive && torchEnable
      ensures tmpMatNum == 1000000 && firstMaterial == 0 && lineNum == 0
      ensures minDiameter == (if units == Mm then 32.0 else 1.26)
      ensures ocLength == (if units == Mm then 4.0 else 0.157)
      ensures holeVelocity == Int(60) && unitMultiplier == Int(1)
    {
      this.host := host;
      this.units := units;
      this.cutType := cutType;
      this.currentMat := currentMat;
      this.zMaxOffset := zMaxOffset;
      this.prefs := prefs;
      this.materialFile := materialFile;
      tmpMatNum := 1000000;
      tmpMatNam := "";
      tempMaterial := None;
      materialNum := 0;
      materialBound := false;
      firstMaterial := 0;
      published := [];
      gcodeList := [];
      dialogs := [];
      codeError := false;
      feedWarning := false;
      lineNum := 0;
      zBypass := false;
      zSetup := false;
      offsetG41 := false;
      scribing := false;
      pierceOnly := false;
      spotting := false;
      pierces := 0;
      rapidLine := "";
      holeEnable := false;
      overCut := false;
      arcEnable := false;
      holeActive := false;
      torchEnable := true;
      minDiameter := if units == Mm then 32.0 else 1.26;
      ocLength := if units == Mm then 4.0 else 0.157;
      holeVelocity := Int(60);
      unitMultiplier := Int(1);
      customDia := false;
      customLen := false;
      lastX := Some(0.0);
      lastY := Some(0.0);
      velocityLog := [];
      var dict := GetMaterials(prefs, materialFile);
      if dict.Raise? {
        crash := Some(dict.error);
        materialDict := map[];
      } else {
        crash := None;
        materialDict := dict.value;
      }
    }

    // -------------------------------------------------------------------
    // The velocity latch and dialogs
    // -------------------------------------------------------------------

    /** The reduction of :171-173: allowed only while the latch is clear,
        and it sets the latch. */
    method EmitReduction(radius: real)
      requires LatchOk() && !holeActive
      modifies this`gcodeList, this`velocityLog, this`holeActive, this`lineNum
      ensures LatchOk() && holeActive && lineNum == old(lineNum) + 1
      ensures gcodeList == old(gcodeList) + [ReductionLine(host, holeVelocity, radius)]
      ensures velocityLog == old(velocityLog) + [Reduce(holeVelocity, radius)]
    {
      LatchReduce(velocityLog, holeVelocity, radius);
      lineNum := lineNum + 1;
      gcodeList := gcodeList + [ReductionLine(host, holeVelocity, radius)];
      velocityLog, holeActive := velocityLog + [Reduce(holeVelocity, radius)], true;
    }

    /** A restore (:183-185, :830-833, :845-848, :873-876): allowed only
        while the latch is set, and it clears the latch. */
    method EmitRestore(line: string)
      requires LatchOk() && holeActive
      requires line == RestoreLine || line == EndRestoreLine
      modifies this`gcodeList, this`velocityLog, this`holeActive, this`lineNum
      ensures LatchOk() && !holeActive && lineNum == old(lineNum) + 1
      ensures gcodeList == old(gcodeList) + [line]
      ensures velocityLog == old(velocityLog) + [Restore(line)]
    {
      LatchRestore(velocityLog, line);
      lineNum := lineNum + 1;
      gcodeList := gcodeList + [line];
      velocityLog, holeActive := velocityLog + [Restore(line)], false;
    }

    /** A dialog; a blocking error sets `codeError` with it. */
    method Report(severity: Severity, reason: Reason)
      requires DialogsOk() && reason != FeedMismatch
      modifies this`dialogs, this`codeError
      ensures DialogsOk()
      ensures dialogs == old(dialogs) + [Dialog(severity, reason, lineNum)]
      ensures codeError == (old(codeError) || IsBlocking(Dialog(severity, reason, lineNum)))
    {
      var d := Dialog(severity, reason, lineNum);
      BlocksAppend(dialogs, d);
      CountAppend(dialogs, d, FeedMismatch);
      dialogs, codeError := dialogs + [d], codeError || IsBlocking(d);
    }

    /** A warning raised on the current line: it blocks nothing, so
        `codeError` is left alone. */
    method Warn(reason: Reason)
      requires reason != FeedMismatch
      modifies this`dialogs
      ensures old(DialogsOk()) ==> DialogsOk()
      ensures dialogs == old(dialogs) + [Dialog(Warning, reason, lineNum)]
      ensures QuietlyExtends(dialogs, old(dialogs))
    {
      var d := Dialog(Warning, reason, lineNum);
      BlocksAppend(dialogs, d);
      CountAppend(dialogs, d, FeedMismatch);
      dialogs := dialogs + [d];
    }

    /** The feed-rate warning (:557-569), given at most once. */
    method WarnFeed()
      requires DialogsOk() && !feedWarning
      modifies this`dialogs, this`feedWarning
      ensures DialogsOk() && feedWarning
      ensures dialogs == old(dialogs) + [Dialog(Warning, FeedMismatch, lineNum)]
    {
      var d := Dialog(Warning, FeedMismatch, lineNum);
      BlocksAppend(dialogs, d);
      CountAppend(dialogs, d, FeedMismatch);
      dialogs, feedWarning := dialogs + [d], true;
    }

    // -------------------------------------------------------------------
    // Material directives and changes
    // -------------------------------------------------------------------

    /** The material file and map after `m` is written into `file0`, the
        file that came with the map `dict0`: a rewrite that raises leaves
        both as they were; otherwise the file is the rewritten one and the
        map is read back from it, unless the reader raises. */
    ghost predicate Written(m: Material, file0: seq<string>, dict0: map<int, (real, real)>, crash0: Option<PyError>)
      reads this`materialFile, this`materialDict, this`crash
    {
      var w := Rewrite(file0, m, dict0.Keys, host);
      if w.Raise? then
        crash == Some(w.error) && materialFile == file0 && materialDict == dict0
      else
        var d := GetMaterials(prefs, w.value);
        materialFile == w.value
        && (if d.Raise? then crash == Some(d.error) && materialDict == dict0
            else crash == crash0 && materialDict == d.value)
    }

    /** `rewrite_material_file` (:448-489) and the `get_materials` call in
        it: the material is written into the material file, and the
        material map is read back from the new file. The file is replaced
        only once the rewrite has succeeded; see `RewriteAsWritten` for the
        file the source leaves behind when it raises. */
    method RewriteMaterialFile(m: Material)
      modifies this`materialFile, this`materialDict, this`crash
      ensures Written(m, old(materialFile), old(materialDict), old(crash))
    {
      var written := Rewrite(materialFile, m, materialDict.Keys, host);
      if written.Raise? {
        crash := Some(written.error);
        return;
      }
      materialFile := written.value;
      var dict := GetMaterials(prefs, written.value);
      if dict.Raise? {
        crash := Some(dict.error);
        return;
      }
      materialDict := dict.value;
    }

    /** What a directive of `kind` for `m` does, from the state given by the
        other arguments: kind 0 records the temporary material; kind 1 with
        a number in use adds the "in use" dialog; any other writes `m` into
        the material file. Only what each case names changes. */
    ghost predicate Applied(kind: nat, m: Material, file0: seq<string>, dict0: map<int, (real, real)>,
                            nam0: string, temp0: Option<Material>, dialogs0: seq<Dialog>, crash0: Option<PyError>)
      reads this`materialFile, this`materialDict, this`crash
      reads this`tmpMatNam, this`tempMaterial, this`dialogs, this`lineNum
    {
      if kind == 0 then
        crash == crash0 && tmpMatNam == m.name && tempMaterial == Some(m)
        && materialFile == file0 && materialDict == dict0 && dialogs == dialogs0
      else if kind == 1 && m.number in dict0 then
        crash == crash0 && dialogs == dialogs0 + [Dialog(Error, MaterialInUse, lineNum)]
        && materialFile == file0 && materialDict == dict0 && tmpMatNam == nam0 && tempMaterial == temp0
      else
        dialogs == dialogs0 && tmpMatNam == nam0 && tempMaterial == temp0 && Written(m, file0, dict0, crash0)
    }

    /** What `check_material_edit` does with a directive (:392-399): a
        temporary material is kept as the temporary material file's
        contents and its name remembered; a new material whose number is
        in use gets an error dialog that does not set `codeError`; any
        other material is written into the material file, which is then
        read again. */
    method ApplyDirective(kind: nat, m: Material)
      requires DialogsOk()
      modifies this`materialFile, this`materialDict, this`tmpMatNam, this`tempMaterial
      modifies this`dialogs, this`codeError, this`crash
      ensures DialogsOk() && codeError == old(codeError)
      ensures Applied(kind, m, old(materialFile), old(materialDict), old(tmpMatNam), old(tempMaterial),
                      old(dialogs), old(crash))
    {
      if kind == 0 {
        tmpMatNam, tempMaterial := m.name, Some(m);
      } else if kind == 1 && m.number in materialDict {
        Report(Error, MaterialInUse);
      } else {
        WriteMaterial(kind, m);
      }
    }

    /** The last branch of :392-399: a directive that is neither temporary
        nor a new material whose number is in use is written into the
        material file, and nothing but the file, the map and the exception
        changes. */
    method WriteMaterial(kind: nat, m: Material)
      requires kind != 0 && !(kind == 1 && m.number in materialDict)
      modifies this`materialFile, this`materialDict, this`crash
      ensures Applied(kind, m, old(materialFile), old(materialDict), tmpMatNam, tempMaterial, dialogs, old(crash))
    {
      RewriteMaterialFile(m);
    }

    /** What `check_material_edit` (:334-406) does with `line` when the
        next temporary number is `tmpNum`, from the state given by the
        other arguments: a directive that cannot be read raises and leaves
        the materials and dialogs alone, one without all of its mandatory
        keys changes nothing, and any other is applied. */
    ghost predicate Edited(line: string, tmpNum: int, file0: seq<string>, dict0: map<int, (real, real)>,
                           nam0: string, temp0: Option<Material>, dialogs0: seq<Dialog>, crash0: Option<PyError>)
      requires '(' in line
      reads this`materialFile, this`materialDict, this`crash
      reads this`tmpMatNam, this`tempMaterial, this`dialogs, this`lineNum
    {
      match ParseDirective(line, tmpNum)
      case Raise(e) =>
        crash == Some(e) && materialFile == file0 && materialDict == dict0
        && tempMaterial == temp0 && dialogs == dialogs0
      case Ok(NoDirective) =>
        crash == crash0 && materialFile == file0 && materialDict == dict0
        && tmpMatNam == nam0 && tempMaterial == temp0 && dialogs == dialogs0
      case Ok(Directive(kind, m)) =>
        Applied(kind, m, file0, dict0, nam0, temp0, dialogs0, crash0)
    }

    /** `check_material_edit` (:334-406): a directive that cannot be read
        raises, one without all of its mandatory keys does nothing, and any
        other is applied. */
    method CheckMaterialEdit(line: string)
      requires DialogsOk() && '(' in line
      modifies this`materialFile, this`materialDict, this`tmpMatNam, this`tempMaterial
      modifies this`dialogs, this`codeError, this`crash
      ensures DialogsOk() && codeError == old(codeError)
      ensures Edited(line, tmpMatNum, old(materialFile), old(materialDict), old(tmpMatNam), old(tempMaterial),
                     old(dialogs), old(crash))
    {
      var d := ParseDirective(line, tmpMatNum);
      if d.Raise? {
        crash := Some(d.error);
      } else if d.value.Directive? {
        ApplyDirective(d.value.kind, d.value.mat);
      }
    }

    /** A `(o=` line (:590-597): the directive, then, when `temporary`
        says the line starts `(o=0`, the change to the temporary material
        and the wait for it, after which the next temporary number is
        taken. */
    method MaterialEdit(line: string, temporary: bool)
      requires DialogsOk() && '(' in line
      modifies this`materialFile, this`materialDict, this`tmpMatNam, this`tempMaterial, this`tmpMatNum
      modifies this`gcodeList, this`dialogs, this`codeError, this`crash
      ensures DialogsOk() && codeError == old(codeError)
      ensures Edited(line, old(tmpMatNum), old(materialFile), old(materialDict), old(tmpMatNam), old(tempMaterial),
                     old(dialogs), old(crash))
      ensures crash.None? && temporary ==>
                tmpMatNum == old(tmpMatNum) + 1
                && gcodeList == old(gcodeList) + [TemporaryChange(old(tmpMatNum), tmpMatNam), "m66 p3 l3 q1"]
      ensures crash.Some? || !temporary ==>
                tmpMatNum == old(tmpMatNum) && gcodeList == old(gcodeList)
    {
      CheckMaterialEdit(line);
      if crash.None? && temporary {
        TakeTemporary();
      }
    }

    /** The change to the temporary material and the wait for it
        (:594-596); the next temporary number is taken. */
    method TakeTemporary()
      modifies this`gcodeList, this`tmpMatNum
      ensures tmpMatNum == old(tmpMatNum) + 1
      ensures gcodeList == old(gcodeList) + [TemporaryChange(old(tmpMatNum), tmpMatNam), "m66 p3 l3 q1"]
    {
      gcodeList := gcodeList + [TemporaryChange(tmpMatNum, tmpMatNam), "m66 p3 l3 q1"];
      tmpMatNum := tmpMatNum + 1;
    }

    /** The digit loop of `do_material_change` (:305-309). */
    method CollectDigits(s: string) returns (m: string)
      ensures m == DigitsOf(s)
    {
      m := "";
      var i := 0;
      while i < |s|
        invariant 0 <= i <= |s| && m == DigitsOf(s[..i])
      {
        assert s[..i + 1][..i] == s[..i];
        if IsDigit(s[i]) {
          m := m + [s[i]];
        }
        i := i + 1;
      }
      assert s[..|s|] == s;
    }

    /** The number a material change names (:298-310): the code part is
        split at its first `p` and the digits after it are collected. */
    method ReadMaterialNumber(line: string) returns (r: Result<int>)
      ensures r == MaterialNumber(line)
    {
      var c := CodePart(line);
      if !Contains(c, "p") {
        return Raise(ValueError);
      }
      var m := CollectDigits(Strip(After(c, 'p')));
      if m == [] {
        return Raise(ValueError);
      }
      DigitsOfShape(Strip(After(c, 'p')));
      return Ok(DigitsValue(m));
    }

    /** `do_material_change` (:296-331): binds the material number, reports
        a number missing from the material map as a blocking error,
        publishes the number, remembers the first non-zero one and copies
        the line. */
    method MaterialChange(line: string)
      requires DialogsOk()
      modifies this`materialNum, this`materialBound, this`dialogs, this`codeError, this`published
      modifies this`firstMaterial, this`gcodeList, this`crash
      ensures DialogsOk()
      ensures MaterialNumber(line).Raise? ==>
                crash == Some(ValueError) && dialogs == old(dialogs) && codeError == old(codeError)
                && gcodeList == old(gcodeList)
      ensures MaterialNumber(line).Ok? ==>
                var n := MaterialNumber(line).value;
                crash == old(crash) && materialNum == n && materialBound
                && dialogs == old(dialogs) + (if n !in materialDict then [Dialog(Error, MissingReason(n), lineNum)] else [])
                && codeError == (old(codeError) || n !in materialDict)
                && published == old(published) + [n]
                && firstMaterial == (if old(firstMaterial) == 0 then n else old(firstMaterial))
                && gcodeList == old(gcodeList) + [line]
    {
      var number := ReadMaterialNumber(line);
      if number.Raise? {
        crash := Some(number.error);
        return;
      }
      UseMaterial(number.value, line);
    }

    /** Why material `n` is missing: a number from one million up names a
        temporary material (:314-320). */
    static function MissingReason(n: int): (r: Reason)
      ensures r != FeedMismatch && r != MaterialInUse
    {
      if n < 1000000 then MissingMaterial else TemporaryReference
    }

    /** The material number `n` read from `line` taken into use
        (:310-331). */
    method UseMaterial(n: int, line: string)
      requires DialogsOk()
      modifies this`materialNum, this`materialBound, this`dialogs, this`codeError, this`published
      modifies this`firstMaterial, this`gcodeList
      ensures DialogsOk()
      ensures materialNum == n && materialBound
      ensures dialogs == old(dialogs) + (if n !in materialDict then [Dialog(Error, MissingReason(n), lineNum)] else [])
      ensures codeError == (old(codeError) || n !in materialDict)
      ensures published == old(published) + [n]
      ensures firstMaterial == (if old(firstMaterial) == 0 then n else old(firstMaterial))
      ensures gcodeList == old(gcodeList) + [line]
    {
      materialNum, materialBound := n, true;
      published, gcodeList := published + [n], gcodeList + [line];
      if firstMaterial == 0 {
        firstMaterial := n;
      }
      assert DialogsOk();
      if n !in materialDict {
        Report(Error, MissingReason(n));
        assert codeError;
      }
    }

    // -------------------------------------------------------------------
    // Set-up checks (:622-662)
    // -------------------------------------------------------------------

    /** `#<keep-z-motion>` (:623-629): the first character after `=` turns
        Z bypass on or off. */
    method KeepZMotion(line: string)
      modifies this`zBypass, this`gcodeList, this`crash
      ensures var v := Piece(line, "=", 1);
              if v.None? || v.value == [] then crash == Some(IndexError) && gcodeList == old(gcodeList)
              else crash == old(crash) && zBypass == (v.value[0] == '1') && gcodeList == old(gcodeList) + [line]
    {
      var v := Piece(line, "=", 1);
      if v.None? || v.value == [] {
        crash := Some(IndexError);
        return;
      }
      zBypass := v.value[0] == '1';
      gcodeList := gcodeList + [line];
    }

    /** The move to just below the top of Z (:635-636), for the units and
        unit multiplier in force. */
    function TopZ(): string
      reads this`unitMultiplier
    {
      TopZLine(host, unitMultiplier, zMaxOffset * UnitsPerMm(units) * unitMultiplier.Value())
    }

    /** The first motion (:633-641): a move to just below the top of Z is
        put before it, or replaces it when it is itself such a move. */
    method SetupTopZ(line: string) returns (out: string)
      modifies this`zSetup, this`gcodeList
      ensures zSetup == (old(zSetup) || (!zBypass && (Contains(line, "g0") || Contains(line, "g1") || Contains(line, "m3"))))
      ensures if !old(zSetup) && zSetup then
                if Contains(line, MaxLimit) then out == TopZ() && gcodeList == old(gcodeList)
                else out == line && gcodeList == old(gcodeList) + [TopZ()]
              else out == line && gcodeList == old(gcodeList)
    {
      out := line;
      if !zSetup && !zBypass && (Contains(line, "g0") || Contains(line, "g1") || Contains(line, "m3")) {
        if !Contains(line, MaxLimit) {
          gcodeList := gcodeList + [TopZ()];
        } else {
          out := TopZ();
        }
        zSetup := true;
      }
    }

    /** `g21`/`g20` (:643-656): a program in the other unit system sets the
        unit multiplier and resets the small-hole diameter and the overcut
        length to that system's fixed defaults, unless they were set by the
        program. */
    method SwitchUnits(line: string)
      modifies this`unitMultiplier, this`minDiameter, this`ocLength
      ensures Contains(line, "g21") && units == Inch ==>
                unitMultiplier == Float(25.4)
                && minDiameter == (if customDia then old(minDiameter) else 32.0)
                && ocLength == (if customLen then old(ocLength) else 4.0)
      ensures !Contains(line, "g21") && Contains(line, "g20") && units == Mm ==>
                unitMultiplier == Float(0.03937)
                && minDiameter == (if customDia then old(minDiameter) else 1.26)
                && ocLength == (if customLen then old(ocLength) else 0.157)
      ensures !(Contains(line, "g21") && units == Inch) && !(!Contains(line, "g21") && Contains(line, "g20") && units == Mm) ==>
                unitMultiplier == old(unitMultiplier) && minDiameter == old(minDiameter) && ocLength == old(ocLength)
    {
      if Contains(line, "g21") {
        if units == Inch {
          unitMultiplier := Float(25.4);
          if !customDia { minDiameter := 32.0; }
          if !customLen { ocLength := 4.0; }
        }
      } else if Contains(line, "g20") {
        if units == Mm {
          unitMultiplier := Float(0.03937);
          if !customDia { minDiameter := 1.26; }
          if !customLen { ocLength := 0.157; }
        }
      }
    }

    /** :622-662 in order: Z bypass, dropping repeated moves to the top of
        Z, the first move to the top of Z, units and cutter compensation.
        Returns whether the line is finished with, and the line to go on
        with. */
    method Prepare(line: string) returns (done: bool, out: string)
      requires crash.None?
      modifies this`zBypass, this`zSetup, this`gcodeList, this`crash
      modifies this`unitMultiplier, this`minDiameter, this`ocLength, this`offsetG41
      ensures crash.Some? ==> done
      ensures old(zSetup) ==> zSetup
      ensures StartsWith(line, "#<keep-z-motion>") ==>
                done && zSetup == old(zSetup)
                && var v := Piece(line, "=", 1);
                   if v.None? || v.value == [] then crash == Some(IndexError) && gcodeList == old(gcodeList)
                   else crash.None? && zBypass == (v.value[0] == '1') && gcodeList == old(gcodeList) + [line]
      ensures !StartsWith(line, "#<keep-z-motion>") && Contains(line, MaxLimit) && old(zSetup) ==>
                done && crash.None? && gcodeList == old(gcodeList) && zSetup
      ensures !StartsWith(line, "#<keep-z-motion>") && !(Contains(line, MaxLimit) && old(zSetup)) ==>
                !done && zBypass == old(zBypass)
                && zSetup == (old(zSetup) || (!zBypass && (Contains(line, "g0") || Contains(line, "g1") || Contains(line, "m3"))))
                && (if !old(zSetup) && zSetup then
                      if Contains(line, MaxLimit) then out == old(TopZ()) && gcodeList == old(gcodeList)
                      else out == line && gcodeList == old(gcodeList) + [old(TopZ())]
                    else out == line && gcodeList == old(gcodeList))
                && (Contains(out, "g21") && units == Inch ==>
                      unitMultiplier == Float(25.4)
                      && minDiameter == (if customDia then old(minDiameter) else 32.0)
                      && ocLength == (if customLen then old(ocLength) else 4.0))
                && (!Contains(out, "g21") && Contains(out, "g20") && units == Mm ==>
                      unitMultiplier == Float(0.03937)
                      && minDiameter == (if customDia then old(minDiameter) else 1.26)
                      && ocLength == (if customLen then old(ocLength) else 0.157))
                && (!(Contains(out, "g21") && units == Inch) && !(!Contains(out, "g21") && Contains(out, "g20") && units == Mm) ==>
                      unitMultiplier == old(unitMultiplier) && minDiameter == old(minDiameter) && ocLength == old(ocLength))
                && offsetG41 == (Contains(out, "g41") || (old(offsetG41) && !Contains(out, "g40")))
    {
      out := line;
      done := true;
      if StartsWith(line, "#<keep-z-motion>") {
        KeepZMotion(line);
        return;
      }
      if Contains(line, MaxLimit) && zSetup {
        return;
      }
      out := FirstMotion(line);
      done := false;
    }

    /** :633-662: the first move to the top of Z, units and cutter
        compensation, on a line that is not a repeated move to the top of
        Z. */
    method FirstMotion(line: string) returns (out: string)
      requires !(Contains(line, MaxLimit) && zSetup)
      modifies this`zSetup, this`gcodeList, this`unitMultiplier, this`minDiameter, this`ocLength, this`offsetG41
      ensures zSetup == (old(zSetup) || (!zBypass && (Contains(line, "g0") || Contains(line, "g1") || Contains(line, "m3"))))
      ensures if !old(zSetup) && zSetup then
                if Contains(line, MaxLimit) then out == old(TopZ()) && gcodeList == old(gcodeList)
                else out == line && gcodeList == old(gcodeList) + [old(TopZ())]
              else out == line && gcodeList == old(gcodeList)
      ensures Contains(out, "g21") && units == Inch ==>
                unitMultiplier == Float(25.4)
                && minDiameter == (if customDia then old(minDiameter) else 32.0)
                && ocLength == (if customLen then old(ocLength) else 4.0)
      ensures !Contains(out, "g21") && Contains(out, "g20") && units == Mm ==>
                unitMultiplier == Float(0.03937)
                && minDiameter == (if customDia then old(minDiameter) else 1.26)
                && ocLength == (if customLen then old(ocLength) else 0.157)
      ensures !(Contains(out, "g21") && units == Inch) && !(!Contains(out, "g21") && Contains(out, "g20") && units == Mm) ==>
                unitMultiplier == old(unitMultiplier) && minDiameter == old(minDiameter) && ocLength == old(ocLength)
      ensures offsetG41 == (Contains(out, "g41") || (old(offsetG41) && !Contains(out, "g40")))
    {
      out := SetupTopZ(line);
      SwitchUnits(out);
      if Contains(out, "g41") {
        offsetG41 := true;
      } else if Contains(out, "g40") {
        offsetG41 := false;
      }
    }

    // -------------------------------------------------------------------
    // Scribing, pierce-only mode and settings (:663-753)
    // -------------------------------------------------------------------

    /** A line in pierce-only mode (:676-703): spotting blocks are skipped,
        rapids are held back, each pierce becomes a six-line block that
        counts it and replays the last rapid, and other lines are copied
        only before the first pierce or when they are `o` or `#` words. */
    method PierceOnlyLine(line: string)
      modifies this`gcodeList, this`spotting, this`rapidLine, this`pierces
      ensures StartsWith(line, "m3$2") ==>
                spotting && gcodeList == old(gcodeList) + ["(Ignoring spotting operation as pierce-only is active)"]
                && pierces == old(pierces) && rapidLine == old(rapidLine)
      ensures !StartsWith(line, "m3$2") && old(spotting) ==>
                spotting == !StartsWith(line, "m5$2") && gcodeList == old(gcodeList)
                && pierces == old(pierces) && rapidLine == old(rapidLine)
      ensures !StartsWith(line, "m3$2") && !old(spotting) ==>
                !spotting &&
                if StartsWith(line, "g0") then
                  rapidLine == line && gcodeList == old(gcodeList) && pierces == old(pierces)
                else if StartsWith(line, "m3") && !StartsWith(line, "m3$1") then
                  pierces == old(pierces) + 1 && rapidLine == ""
                  && gcodeList == old(gcodeList) + PierceBlock(pierces, old(rapidLine))
                else
                  pierces == old(pierces) && rapidLine == old(rapidLine)
                  && gcodeList == old(gcodeList)
                       + (if pierces == 0 || StartsWith(line, "o") || StartsWith(line, "#") then [line] else [])
    {
      if StartsWith(line, "m3$2") {
        spotting := true;
        gcodeList := gcodeList + ["(Ignoring spotting operation as pierce-only is active)"];
        return;
      }
      if spotting {
        if StartsWith(line, "m5$2") {
          spotting := false;
        }
        return;
      }
      if StartsWith(line, "g0") {
        rapidLine := line;
        return;
      }
      if StartsWith(line, "m3") && !StartsWith(line, "m3$1") {
        pierces := pierces + 1;
        gcodeList := gcodeList + PierceBlock(pierces, rapidLine);
        rapidLine := "";
        return;
      }
      if pierces == 0 || StartsWith(line, "o") || StartsWith(line, "#") {
        gcodeList := gcodeList + [line];
      }
    }

    /** Entering pierce-only mode (:704-718), asked for by
        `#<pierce-only>` or by the cut type; while scribing it is refused
        with a warning. */
    method StartPierceOnly()
      requires DialogsOk()
      modifies this`pierceOnly, this`pierces, this`rapidLine, this`gcodeList, this`dialogs, this`codeError
      ensures DialogsOk() && codeError == old(codeError)
      ensures scribing ==> pierceOnly == old(pierceOnly) && gcodeList == old(gcodeList)
                           && pierces == old(pierces) && rapidLine == old(rapidLine)
                           && dialogs == old(dialogs) + [Dialog(Warning, PierceOnlyWhileScribing, lineNum)]
      ensures !scribing ==> pierceOnly && pierces == 0 && rapidLine == "" && dialogs == old(dialogs)
                            && gcodeList == old(gcodeList) + ["(pierce only mode)"]
    {
      if scribing {
        Report(Warning, PierceOnlyWhileScribing);
      } else {
        pierceOnly, pierces, rapidLine := true, 0, "";
        gcodeList := gcodeList + ["(pierce only mode)"];
      }
    }

    /** `#<oclength>` (:719-723): a custom overcut length. */
    method SetOvercutLength(line: string)
      modifies this`ocLength, this`customLen, this`gcodeList, this`crash
      ensures var v := Piece(line, "=", 1);
              if v.None? then crash == Some(IndexError)
              else if ParseFloat(v.value).None? then crash == Some(ValueError)
              else crash == old(crash) && customLen && ocLength == ParseFloat(v.value).value
                   && gcodeList == old(gcodeList) + ["(overcut length = " + host.repr(ocLength) + ")"]
    {
      var v := Piece(line, "=", 1);
      if v.None? {
        crash := Some(IndexError);
        return;
      }
      var x := ParseFloat(v.value);
      if x.None? {
        crash := Some(ValueError);
        return;
      }
      ocLength, customLen := x.value, true;
      gcodeList := gcodeList + ["(overcut length = " + host.repr(ocLength) + ")"];
    }

    /** `set_hole_type` (:107-132): one of the five hole profiles, and its
        comments, with the line counter moved past the second one. */
    method SetHoleType(line: string)
      modifies this`holeEnable, this`overCut, this`arcEnable, this`lineNum, this`gcodeList, this`crash
      ensures var v := Piece(line, "=", 1);
              if v.None? || v.value == [] then crash == Some(IndexError) && lineNum == old(lineNum)
              else crash == old(crash)
                   && (holeEnable, overCut, arcEnable) == HoleProfile(v.value[0])
                   && gcodeList == old(gcodeList) + HoleProfileLines(v.value[0])
                   && lineNum == old(lineNum) + |HoleProfileLines(v.value[0])| - 1
    {
      var v := Piece(line, "=", 1);
      if v.None? || v.value == [] {
        crash := Some(IndexError);
        return;
      }
      var t := v.value[0];
      var profile := HoleProfile(t);
      holeEnable, overCut, arcEnable := profile.0, profile.1, profile.2;
      var lines := HoleProfileLines(t);
      gcodeList := gcodeList + [lines[0]];
      if |lines| == 2 {
        lineNum := lineNum + 1;
        gcodeList := gcodeList + [lines[1]];
        assert gcodeList == old(gcodeList) + lines;
      }
    }

    /** `#<h_diameter>` and its deprecated forms (:728-748): the value
        before a `;` or `(` becomes the small-hole diameter; the old names
        add a warning. */
    method SetHoleDiameter(line: string)
      requires DialogsOk()
      modifies this`minDiameter, this`customDia, this`gcodeList, this`dialogs, this`codeError, this`crash
      ensures DialogsOk() && codeError == old(codeError)
      ensures var v := Piece(line, "=", 1);
              if v.None? then crash == Some(IndexError) && dialogs == old(dialogs)
              else
                var text := if ';' in line then Before(v.value, ';') else if '(' in line then Before(v.value, '(') else v.value;
                if ParseFloat(text).None? then crash == Some(ValueError) && dialogs == old(dialogs)
                else crash == old(crash) && customDia && minDiameter == ParseFloat(text).value
                     && gcodeList == old(gcodeList) + ["(small hole diameter = " + host.repr(minDiameter) + ")"]
                     && dialogs == old(dialogs)
                          + (if Contains(line, "#<m_d") || Contains(line, "#<i_d")
                             then [Dialog(Warning, DeprecatedDiameter, lineNum)] else [])
    {
      var v := Piece(line, "=", 1);
      if v.None? {
        crash := Some(IndexError);
        return;
      }
      var text := if ';' in line then Before(v.value, ';') else if '(' in line then Before(v.value, '(') else v.value;
      var x := ParseFloat(text);
      if x.None? {
        crash := Some(ValueError);
        return;
      }
      minDiameter, customDia := x.value, true;
      gcodeList := gcodeList + ["(small hole diameter = " + host.repr(minDiameter) + ")"];
      if Contains(line, "#<m_d") || Contains(line, "#<i_d") {
        Report(Warning, DeprecatedDiameter);
      }
    }

    /** `#<h_velocity>` (:749-753): the percentage of velocity for small
        holes. */
    method SetHoleVelocity(line: string)
      modifies this`holeVelocity, this`gcodeList, this`crash
      ensures var v := Piece(line, "=", 1);
              if v.None? then crash == Some(IndexError)
              else if ParseFloat(Before(v.value, ';')).None? then crash == Some(ValueError)
              else crash == old(crash) && holeVelocity == Float(ParseFloat(Before(v.value, ';')).value)
                   && gcodeList == old(gcodeList) + ["(small hole velocity = " + host.repr(holeVelocity.r) + ")"]
    {
      var v := Piece(line, "=", 1);
      if v.None? {
        crash := Some(IndexError);
        return;
      }
      var x := ParseFloat(Before(v.value, ';'));
      if x.None? {
        crash := Some(ValueError);
        return;
      }
      holeVelocity := Float(x.value);
      gcodeList := gcodeList + ["(small hole velocity = " + host.repr(x.value) + ")"];
    }

    /** A scribe start (:663-675): refused with a warning in pierce-only
        mode, where the line goes on; otherwise scribing starts and the
        line is copied. Returns whether the line is finished with. */
    method Scribe(line: string) returns (done: bool)
      requires DialogsOk()
      modifies this`scribing, this`gcodeList, this`dialogs, this`codeError
      ensures DialogsOk() && codeError == old(codeError)
      ensures pierceOnly ==> !done && !scribing && gcodeList == old(gcodeList)
                             && dialogs == old(dialogs) + [Dialog(Warning, ScribeInPierceOnly, lineNum)]
      ensures !pierceOnly ==> done && scribing && gcodeList == old(gcodeList) + [line] && dialogs == old(dialogs)
    {
      if pierceOnly {
        Report(Warning, ScribeInPierceOnly);
        assert codeError == old(codeError);
        scribing, done := false, false;
      } else {
        scribing, done := true, true;
        gcodeList := gcodeList + [line];
      }
    }

    /** Whether a line asks for pierce-only mode (:705): `#<pierce-only>`
        with a value starting `1`, or a pierce-only cut type. A
        `#<pierce-only>` line without a value raises IndexError. */
    function PierceOnlyAsked(line: string): (r: Result<bool>)
      reads this`pierceOnly
      ensures !StartsWith(line, "#<pierce-only>") ==> r == Ok(!pierceOnly && cutType == 1)
      ensures r.Raise? ==> r.error == IndexError && StartsWith(line, "#<pierce-only>")
    {
      if StartsWith(line, "#<pierce-only>") then
        var v := Piece(line, "=", 1);
        if v.None? || v.value == [] then Raise(IndexError)
        else Ok(v.value[0] == '1' || (!pierceOnly && cutType == 1))
      else Ok(!pierceOnly && cutType == 1)
    }

    /** :663-753 in order. Returns whether the line is finished with. */
    method Modes(line: string) returns (done: bool)
      requires DialogsOk()
      modifies this`scribing, this`pierceOnly, this`spotting, this`pierces, this`rapidLine
      modifies this`gcodeList, this`dialogs, this`codeError, this`crash, this`lineNum
      modifies this`ocLength, this`customLen, this`holeEnable, this`overCut, this`arcEnable
      modifies this`minDiameter, this`customDia, this`holeVelocity
      ensures DialogsOk() && codeError == old(codeError)
      ensures crash.Some? || old(pierceOnly) ==> done
    {
      if StartsWith(line, "m3$1s") {
        done := Scribe(line);
        if done {
          return;
        }
      }
      done := true;
      if pierceOnly {
        PierceOnlyLine(line);
        return;
      }
      var asked := PierceOnlyAsked(line);
      if asked.Raise? {
        crash := Some(asked.error);
        return;
      }
      if asked.value {
        StartPierceOnly();
        if cutType != 1 {
          return;
        }
      }
      done := Settings(line);
    }

    /** The settings a program can make (:719-753). Returns whether the
        line was one. */
    method Settings(line: string) returns (done: bool)
      requires DialogsOk()
      modifies this`gcodeList, this`dialogs, this`codeError, this`crash, this`lineNum
      modifies this`ocLength, this`customLen, this`holeEnable, this`overCut, this`arcEnable
      modifies this`minDiameter, this`customDia, this`holeVelocity
      ensures DialogsOk() && codeError == old(codeError)
      ensures crash.Some? ==> done
      ensures !done ==> gcodeList == old(gcodeList) && lineNum == old(lineNum)
      ensures var v := Piece(line, "=", 1);
              if StartsWith(line, "#<oclength>") then
                done && dialogs == old(dialogs) && lineNum == old(lineNum)
                && if v.None? then crash == Some(IndexError)
                   else if ParseFloat(v.value).None? then crash == Some(ValueError)
                   else crash == old(crash) && customLen && ocLength == ParseFloat(v.value).value
                        && gcodeList == old(gcodeList) + ["(overcut length = " + host.repr(ocLength) + ")"]
              else if StartsWith(line, "#<holes>") then
                done && dialogs == old(dialogs)
                && if v.None? || v.value == [] then crash == Some(IndexError) && lineNum == old(lineNum)
                   else crash == old(crash)
                        && (holeEnable, overCut, arcEnable) == HoleProfile(v.value[0])
                        && gcodeList == old(gcodeList) + HoleProfileLines(v.value[0])
                        && lineNum == old(lineNum) + |HoleProfileLines(v.value[0])| - 1
              else if StartsWith(line, "#<h_diameter>") || StartsWith(line, "#<m_diameter>") || StartsWith(line, "#<i_diameter>") then
                done && lineNum == old(lineNum)
                && if v.None? then crash == Some(IndexError) && dialogs == old(dialogs)
                   else
                     var text := if ';' in line then Before(v.value, ';') else if '(' in line then Before(v.value, '(') else v.value;
                     if ParseFloat(text).None? then crash == Some(ValueError) && dialogs == old(dialogs)
                     else crash == old(crash) && customDia && minDiameter == ParseFloat(text).value
                          && gcodeList == old(gcodeList) + ["(small hole diameter = " + host.repr(minDiameter) + ")"]
                          && dialogs == old(dialogs)
                               + (if Contains(line, "#<m_d") || Contains(line, "#<i_d")
                                  then [Dialog(Warning, DeprecatedDiameter, lineNum)] else [])
              else if StartsWith(line, "#<h_velocity>") then
                done && dialogs == old(dialogs) && lineNum == old(lineNum)
                && if v.None? then crash == Some(IndexError)
                   else if ParseFloat(Before(v.value, ';')).None? then crash == Some(ValueError)
                   else crash == old(crash) && holeVelocity == Float(ParseFloat(Before(v.value, ';')).value)
                        && gcodeList == old(gcodeList) + ["(small hole velocity = " + host.repr(holeVelocity.r) + ")"]
              else done == old(crash).Some? && crash == old(crash)
                   && gcodeList == old(gcodeList) && dialogs == old(dialogs) && lineNum == old(lineNum)
    {
      done := true;
      if StartsWith(line, "#<oclength>") {
        SetOvercutLength(line);
      } else if StartsWith(line, "#<holes>") {
        SetHoleType(line);
      } else if StartsWith(line, "#<h_diameter>") || StartsWith(line, "#<m_diameter>") || StartsWith(line, "#<i_diameter>") {
        SetHoleDiameter(line);
      } else if StartsWith(line, "#<h_velocity>") {
        SetHoleVelocity(line);
      } else {
        done := crash.Some?;
      }
    }

    // -------------------------------------------------------------------
    // Material changes and checks (:754-787)
    // -------------------------------------------------------------------

    /** `check_math` (:285-293) under hole sensing: an axis value written
        as an expression or a parameter is a blocking error. */
    method CheckMath(line: string, axis: char)
      requires DialogsOk()
      modifies this`dialogs, this`codeError
      ensures DialogsOk()
      ensures dialogs == old(dialogs) + (if holeEnable then MathDialog(line, axis, lineNum) else [])
      ensures codeError == (old(codeError) || (holeEnable && axis in line && UsesExpression(line, axis)))
    {
      if holeEnable && axis in line && UsesExpression(line, axis) {
        Report(Error, ExplicitValues);
      }
    }

    /** The distance-mode checks under hole sensing (:769-782): G91 other
        than G91.1, and else G90.1, are blocking errors. */
    method DistanceModes(line: string)
      requires DialogsOk()
      modifies this`dialogs, this`codeError
      ensures DialogsOk()
      ensures dialogs == old(dialogs) + (if holeEnable then DistanceDialogs(line, lineNum) else [])
      ensures codeError == (old(codeError) || (holeEnable && DistanceDialogs(line, lineNum) != []))
    {
      if holeEnable && Contains(line, "g91") && !Contains(line, "g91.1") {
        Report(Error, DistanceMode);
      } else if holeEnable && Contains(line, "g90.1") {
        Report(Error, ArcDistanceMode);
      }
    }

    /** Material changes and the material wait (:754-768): a material
        change is made, and a line that waits for one is copied, with a
        blocking error under G41. Returns whether the line is finished
        with. */
    method MaterialLines(line: string) returns (done: bool)
      requires DialogsOk() && crash.None?
      modifies this`materialNum, this`materialBound, this`dialogs, this`codeError, this`published
      modifies this`firstMaterial, this`gcodeList, this`crash
      ensures DialogsOk() && (old(codeError) ==> codeError)
      ensures crash.Some? ==> done
      ensures !done ==> !StartsWith(line, "m190") && !Contains(line, "m66") && dialogs == old(dialogs)
      ensures Contains(line, "m66") && crash.None? ==>
                done && |gcodeList| > 0 && gcodeList[|gcodeList| - 1] == line && (offsetG41 ==> codeError)
      ensures StartsWith(line, "m190") || Contains(line, "m66") ==>
                done && MaterialHandled(line, old(published), old(firstMaterial), old(gcodeList), old(dialogs))
      ensures !StartsWith(line, "m190") && !Contains(line, "m66") ==>
                !done && crash.None? && gcodeList == old(gcodeList)
    {
      done := true;
      if StartsWith(line, "m190") {
        MaterialSwitch(line, Contains(line, "m66"));
      } else if Contains(line, "m66") {
        MaterialWait(line);
      } else {
        done := false;
      }
    }

    /** What a line holding `m190` or `m66` (:754-768) leaves, from the
        published numbers `published0`, the first material `first0`, the
        output `gcode0` and the dialogs `dialogs0`. An `m190` whose number
        cannot be read raises ValueError and writes nothing. An `m190` with
        a number binds and publishes it, remembers the first material,
        writes the line and reports an unknown number; a line that also
        waits is written a second time, with the G41 error under G41. An
        `m66` alone is written, with the G41 error under G41. */
    ghost predicate MaterialHandled(line: string, published0: seq<int>, first0: int,
                                    gcode0: seq<string>, dialogs0: seq<Dialog>)
      reads this`crash, this`materialNum, this`materialBound, this`published, this`firstMaterial
      reads this`gcodeList, this`dialogs, this`lineNum, this`offsetG41, this`materialDict
    {
      if StartsWith(line, "m190") then
        if MaterialNumber(line).Raise? then
          crash == Some(ValueError) && dialogs == dialogs0 && gcodeList == gcode0
        else
          var n := MaterialNumber(line).value;
          && crash.None? && materialNum == n && materialBound
          && published == published0 + [n]
          && firstMaterial == (if first0 == 0 then n else first0)
          && gcodeList == gcode0 + [line] + (if Contains(line, "m66") then [line] else [])
          && dialogs == dialogs0
               + (if n !in materialDict then [Dialog(Error, MissingReason(n), lineNum)] else [])
               + (if Contains(line, "m66") && offsetG41 then [Dialog(Error, CompensationMaterial, lineNum)] else [])
      else
        && crash.None? && gcodeList == gcode0 + [line]
        && dialogs == dialogs0 + (if offsetG41 then [Dialog(Error, CompensationMaterial, lineNum)] else [])
    }

    /** A material change (:754-763), followed by the material wait when
        `wait` says the line has one. */
    method MaterialSwitch(line: string, wait: bool)
      requires DialogsOk() && crash.None?
      modifies this`materialNum, this`materialBound, this`dialogs, this`codeError, this`published
      modifies this`firstMaterial, this`gcodeList, this`crash
      ensures DialogsOk() && (old(codeError) ==> codeError)
      ensures MaterialNumber(line).Raise? ==>
                crash == Some(ValueError) && dialogs == old(dialogs) && gcodeList == old(gcodeList)
      ensures MaterialNumber(line).Ok? ==>
                var n := MaterialNumber(line).value;
                crash.None? && materialNum == n && materialBound
                && published == old(published) + [n]
                && firstMaterial == (if old(firstMaterial) == 0 then n else old(firstMaterial))
                && gcodeList == old(gcodeList) + [line] + (if wait then [line] else [])
                && dialogs == old(dialogs)
                     + (if n !in materialDict then [Dialog(Error, MissingReason(n), lineNum)] else [])
                     + (if wait && offsetG41 then [Dialog(Error, CompensationMaterial, lineNum)] else [])
    {
      MaterialChange(line);
      if crash.None? && wait {
        MaterialWait(line);
      } else {
        AppendNil(dialogs);
        AppendNil(gcodeList);
      }
    }

    /** The material wait (:764-768): copied, with a blocking error under
        G41. */
    method MaterialWait(line: string)
      requires DialogsOk()
      modifies this`dialogs, this`codeError, this`gcodeList
      ensures DialogsOk() && codeError == (old(codeError) || offsetG41)
      ensures gcodeList == old(gcodeList) + [line]
      ensures dialogs == old(dialogs) + (if offsetG41 then [Dialog(Error, CompensationMaterial, lineNum)] else [])
    {
      if offsetG41 {
        Report(Error, CompensationMaterial);
      }
      gcodeList := gcodeList + [line];
    }

    /** :754-787: material changes, the material wait, the distance-mode
        checks and the explicit-value checks. Returns whether the line is
        finished with. */
    method Checks(line: string) returns (done: bool)
      requires DialogsOk() && crash.None?
      modifies this`materialNum, this`materialBound, this`dialogs, this`codeError, this`published
      modifies this`firstMaterial, this`gcodeList, this`crash
      ensures DialogsOk() && (old(codeError) ==> codeError)
      ensures crash.Some? ==> done
      ensures StartsWith(line, "m190") || Contains(line, "m66") ==>
                done && MaterialHandled(line, old(published), old(firstMaterial), old(gcodeList), old(dialogs))
      ensures !StartsWith(line, "m190") && !Contains(line, "m66") ==>
                !done && crash.None? && gcodeList == old(gcodeList)
                && dialogs
                   == if holeEnable
                      then old(dialogs) + DistanceDialogs(line, lineNum) + MathDialog(line, 'x', lineNum)
                           + MathDialog(line, 'y', lineNum) + MathDialog(line, 'i', lineNum) + MathDialog(line, 'j', lineNum)
                      else old(dialogs)
    {
      done := MaterialLines(line);
      if !done {
        LineChecks(line);
      }
    }

    /** The checks under hole sensing (:769-787): the distance modes, then
        explicit values for X, Y, I and J, in that order. */
    method LineChecks(line: string)
      requires DialogsOk()
      modifies this`dialogs, this`codeError
      ensures DialogsOk() && (old(codeError) ==> codeError)
      ensures dialogs
                == if holeEnable
                   then old(dialogs) + DistanceDialogs(line, lineNum) + MathDialog(line, 'x', lineNum)
                        + MathDialog(line, 'y', lineNum) + MathDialog(line, 'i', lineNum) + MathDialog(line, 'j', lineNum)
                   else old(dialogs)
    {
      DistanceModes(line);
      CheckMath(line, 'x');
      CheckMath(line, 'y');
      CheckMath(line, 'i');
      CheckMath(line, 'j');
    }

    // -------------------------------------------------------------------
    // Holes and arcs
    // -------------------------------------------------------------------

    /** The reduction branch of `get_hole_radius` (:161-179): under G41
        only a marker and a warning are written and the latch is left
        alone; otherwise the latch is set, with a reduction line only when
        it was clear. A hole cut clockwise is warned about. */
    method ReduceVelocity(radius: real, isHole: bool, line: string)
      requires LatchOk()
      modifies this`gcodeList, this`velocityLog, this`holeActive, this`lineNum, this`dialogs
      ensures old(DialogsOk()) ==> DialogsOk()
      ensures LatchOk() && QuietlyExtends(dialogs, old(dialogs))
      ensures dialogs == old(dialogs)
                + (if offsetG41 then [Dialog(Warning, CompensationVelocity, lineNum)] else [])
                + (if StartsWith(line, "g2") && isHole then [Dialog(Warning, ClockwiseHole, lineNum)] else [])
      ensures offsetG41 ==>
                holeActive == old(holeActive) && velocityLog == old(velocityLog)
                && gcodeList == old(gcodeList) + [G41VelocityMarker] && lineNum == old(lineNum) + 1
      ensures !offsetG41 ==>
                holeActive
                && gcodeList == old(gcodeList) + (if old(holeActive) then [] else [ReductionLine(host, holeVelocity, radius)])
                && velocityLog == old(velocityLog) + (if old(holeActive) then [] else [Reduce(holeVelocity, radius)])
                && lineNum == old(lineNum) + (if old(holeActive) then 0 else 1)
    {
      if offsetG41 {
        lineNum := lineNum + 1;
        gcodeList := gcodeList + [G41VelocityMarker];
        Warn(CompensationVelocity);
      } else if !holeActive {
        EmitReduction(radius);
      }
      if StartsWith(line, "g2") && isHole {
        ghost var d1 := dialogs;
        Warn(ClockwiseHole);
        QuietTrans(dialogs, d1, old(dialogs));
      }
    }

    /** `get_hole_radius` (:154-186): the radius of the arc, and the
        velocity latch: a qualifying arc asks for a reduction, and any
        other arc clears a set latch. */
    method HoleRadius(i: real, j: real, isHole: bool, line: string) returns (radius: real)
      requires LatchOk()
      modifies this`gcodeList, this`velocityLog, this`holeActive, this`lineNum, this`dialogs
      ensures old(DialogsOk()) ==> DialogsOk()
      ensures LatchOk() && QuietlyExtends(dialogs, old(dialogs))
      ensures radius == ArcRadius(host, i, j)
      ensures var wanted := ReductionWanted(radius, minDiameter, isHole, arcEnable);
              && holeActive == (if wanted then old(holeActive) || !offsetG41 else false)
              && gcodeList == old(gcodeList)
                   + RadiusLines(wanted, offsetG41, old(holeActive), ReductionLine(host, holeVelocity, radius))
              && velocityLog == old(velocityLog)
                   + RadiusEvents(wanted, offsetG41, old(holeActive), Reduce(holeVelocity, radius))
              && lineNum
                 == old(lineNum) + |RadiusLines(wanted, offsetG41, old(holeActive), ReductionLine(host, holeVelocity, radius))|
              && dialogs == old(dialogs) + RadiusDialogs(wanted, offsetG41, StartsWith(line, "g2"), isHole, lineNum)
    {
      radius := ArcRadius(host, i, j);
      if ReductionWanted(radius, minDiameter, isHole, arcEnable) {
        ReduceVelocity(radius, isHole, line);
      } else if holeActive {
        EmitRestore(RestoreLine);
      }
    }

    /** The torch switch of `overburn` (:197-206): under G41 only a marker
        and a warning are written; otherwise the torch is disabled. */
    method TorchOff()
      modifies this`gcodeList, this`lineNum, this`dialogs, this`torchEnable
      ensures old(DialogsOk()) ==> DialogsOk()
      ensures QuietlyExtends(dialogs, old(dialogs)) && lineNum == old(lineNum) + 1
      ensures offsetG41 ==>
                torchEnable == old(torchEnable) && gcodeList == old(gcodeList) + [G41TorchMarker]
                && dialogs == old(dialogs) + [Dialog(Warning, CompensationTorch, lineNum)]
      ensures !offsetG41 ==>
                !torchEnable && gcodeList == old(gcodeList) + [TorchDisableLine] && dialogs == old(dialogs)
    {
      lineNum := lineNum + 1;
      if offsetG41 {
        gcodeList := gcodeList + [G41TorchMarker];
        Warn(CompensationTorch);
      } else {
        gcodeList := gcodeList + [TorchDisableLine];
        torchEnable := false;
      }
    }

    /** `overburn` (:189-220): the torch is switched off and a continuation
        arc in the same direction and about the same centre is written,
        ending `ocLength` further along the circle; the cursor moves to its
        end. A cursor without a value is a TypeError in `lastX + I`, and a
        zero radius a ZeroDivisionError. */
    method Overburn(i: real, j: real, radius: real, line: string)
      modifies this`gcodeList, this`lineNum, this`dialogs, this`torchEnable
      modifies this`lastX, this`lastY, this`crash
      ensures old(DialogsOk()) ==> DialogsOk()
      ensures QuietlyExtends(dialogs, old(dialogs))
      ensures old(lastX).None? || old(lastY).None? ==>
                crash == Some(TypeError) && gcodeList == old(gcodeList) && lineNum == old(lineNum) && dialogs == old(dialogs)
      ensures old(lastX).Some? && old(lastY).Some? && radius == 0.0 ==>
                crash == Some(ZeroDivisionError) && gcodeList == old(gcodeList) && lineNum == old(lineNum)
                && dialogs == old(dialogs)
      ensures old(lastX).Some? && old(lastY).Some? && radius != 0.0 ==>
                var e := OverburnTarget(host, old(lastX).value, old(lastY).value, i, j, radius, ocLength,
                                        StartsWith(line, "g2"));
                crash == old(crash) && lastX == Some(e.0) && lastY == Some(e.1)
                && torchEnable == (old(torchEnable) && offsetG41)
                && lineNum == old(lineNum) + 2
                && dialogs == old(dialogs) + (if offsetG41 then [Dialog(Warning, CompensationTorch, old(lineNum) + 1)] else [])
                && gcodeList == old(gcodeList)
                     + [if offsetG41 then G41TorchMarker else TorchDisableLine,
                        OverburnLine(host, StartsWith(line, "g2"), e.0, e.1, i, j, Precision(units))]
    {
      if lastX.None? || lastY.None? {
        crash := Some(TypeError);
        return;
      }
      if radius == 0.0 {
        crash := Some(ZeroDivisionError);
        return;
      }
      var clockwise := StartsWith(line, "g2");
      var e := OverburnTarget(host, lastX.value, lastY.value, i, j, radius, ocLength, clockwise);
      OverburnMove(i, j, e.0, e.1, clockwise);
    }

    /** The writing half of `overburn` (:197-220): the torch line, then the
        continuation arc to `(endX, endY)`, to which the cursor moves. */
    method OverburnMove(i: real, j: real, endX: real, endY: real, clockwise: bool)
      modifies this`gcodeList, this`lineNum, this`dialogs, this`torchEnable
      modifies this`lastX, this`lastY
      ensures old(DialogsOk()) ==> DialogsOk()
      ensures QuietlyExtends(dialogs, old(dialogs))
      ensures lastX == Some(endX) && lastY == Some(endY)
      ensures torchEnable == (old(torchEnable) && offsetG41) && lineNum == old(lineNum) + 2
      ensures dialogs == old(dialogs) + (if offsetG41 then [Dialog(Warning, CompensationTorch, old(lineNum) + 1)] else [])
      ensures gcodeList == old(gcodeList)
                + [if offsetG41 then G41TorchMarker else TorchDisableLine,
                   OverburnLine(host, clockwise, endX, endY, i, j, Precision(units))]
    {
      TorchOff();
      lineNum := lineNum + 1;
      gcodeList := gcodeList + [OverburnLine(host, clockwise, endX, endY, i, j, Precision(units))];
      lastX, lastY := Some(endX), Some(endY);
    }

    /** An axis value of an arc line, or the `fallback` when the axis is
        absent (`get_position` at :137-141). */
    method ArcValue(line: string, axis: char, fallback: Option<real>) returns (r: Result<Option<real>>)
      ensures axis in line ==> r == PositionOf(line, axis)
      ensures axis !in line ==> r == Ok(fallback)
    {
      if axis in line {
        r := GetPosition(line, axis);
      } else {
        r := Ok(fallback);
      }
    }

    /** The values `check_if_hole` reads (:137-140), read from the cursor. */
    method ArcWords(line: string) returns (r: Result<(Option<real>, Option<real>, Option<real>, Option<real>)>)
      ensures r == ArcWordsOf(line, lastX, lastY)
    {
      var endX := ArcValue(line, 'x', lastX);
      if endX.Raise? { return Raise(endX.error); }
      var endY := ArcValue(line, 'y', lastY);
      if endY.Raise? { return Raise(endY.error); }
      var i := ArcValue(line, 'i', Some(0.0));
      if i.Raise? { return Raise(i.error); }
      var j := ArcValue(line, 'j', Some(0.0));
      if j.Raise? { return Raise(j.error); }
      return Ok((endX.value, endY.value, i.value, j.value));
    }

    /** What `check_if_hole` (:142-151) leaves after an arc with centre
        offset `(i, j)` ending at `(endX, endY)`, from the cursor
        `(x0, y0)`, the latch `active0`, the torch `torch0`, the lines
        `gcode0`, the latch history `log0`, the dialogs `dialogs0`, the line
        counter `lineNum0` and the exception `crash0`. The arc is a hole
        exactly when it ends at the cursor. The velocity lines and warnings
        of `get_hole_radius` come first, then the arc. A hole no wider than
        the small-hole diameter, with overcut on, gets the overcut: the
        torch is switched off (a marker and a warning under G41) and a
        continuation arc ends `ocLength` further along the circle, where the
        cursor moves; a cursor without a value is a TypeError and a zero
        radius a ZeroDivisionError. Any other arc moves the cursor to its
        end. */
    ghost predicate ArcCopied(line: string, endX: Option<real>, endY: Option<real>, i: real, j: real,
                              x0: Option<real>, y0: Option<real>, active0: bool, torch0: bool,
                              gcode0: seq<string>, log0: seq<LatchEvent>, dialogs0: seq<Dialog>, lineNum0: int,
                              crash0: Option<PyError>)
      reads this`crash, this`lastX, this`lastY, this`gcodeList, this`dialogs, this`lineNum, this`torchEnable
      reads this`overCut, this`minDiameter, this`ocLength, this`offsetG41
      reads this`arcEnable, this`holeVelocity, this`holeActive, this`velocityLog
    {
      var radius := ArcRadius(host, i, j);
      var hole := IsHole(x0, y0, endX, endY);
      var wanted := ReductionWanted(radius, minDiameter, hole, arcEnable);
      var lines := RadiusLines(wanted, offsetG41, active0, ReductionLine(host, holeVelocity, radius));
      var n := lineNum0 + |lines|;
      && holeActive == (if wanted then active0 || !offsetG41 else false)
      && velocityLog == log0 + RadiusEvents(wanted, offsetG41, active0, Reduce(holeVelocity, radius))
      && ArcTail(line, endX, endY, i, j, radius, hole,
                 x0, y0, torch0, gcode0 + lines + [line],
                 dialogs0 + RadiusDialogs(wanted, offsetG41, StartsWith(line, "g2"), hole, n), n, crash0)
    }

    /** The end of `check_if_hole` (:146-151) once the arc `line`, with the
        lines before it, makes `front`, and the dialogs and the line counter
        are `dialogs0` and `lineNum0`: with `overburn`, the overcut of
        `overburn` (:189-220) from the cursor `(x0, y0)` (a cursor without a
        value is a TypeError, a zero radius a ZeroDivisionError, and both
        come before anything is written or counted); without, the cursor
        moves to the arc's end `(endX, endY)`. */
    ghost predicate ArcTail(line: string, endX: Option<real>, endY: Option<real>, i: real, j: real, radius: real,
                            hole: bool, x0: Option<real>, y0: Option<real>, torch0: bool,
                            front: seq<string>, dialogs0: seq<Dialog>, lineNum0: int, crash0: Option<PyError>)
      reads this`crash, this`lastX, this`lastY, this`gcodeList, this`dialogs, this`lineNum, this`torchEnable
      reads this`overCut, this`minDiameter, this`ocLength, this`offsetG41
    {
      if !(hole && overCut && radius <= minDiameter / 2.0) then
        crash == crash0 && lastX == endX && lastY == endY && gcodeList == front
        && dialogs == dialogs0 && lineNum == lineNum0
      else if x0.None? || y0.None? then
        crash == Some(TypeError) && gcodeList == front && dialogs == dialogs0 && lineNum == lineNum0
      else if radius == 0.0 then
        crash == Some(ZeroDivisionError) && gcodeList == front && dialogs == dialogs0 && lineNum == lineNum0
      else
        var e := OverburnTarget(host, x0.value, y0.value, i, j, radius, ocLength, StartsWith(line, "g2"));
        crash == crash0 && lastX == Some(e.0) && lastY == Some(e.1)
        && torchEnable == (torch0 && offsetG41)
        && lineNum == lineNum0 + 2
        && dialogs == dialogs0 + (if offsetG41 then [Dialog(Warning, CompensationTorch, lineNum0 + 1)] else [])
        && gcodeList == front + [if offsetG41 then G41TorchMarker else TorchDisableLine,
                                 OverburnLine(host, StartsWith(line, "g2"), e.0, e.1, i, j, Precision(units))]
    }

    /** What `check_if_hole` (:135-151) leaves after an arc line read from
        the cursor `(x0, y0)` (the other arguments as for `ArcCopied`): an
        exception while reading its words, a TypeError in the radius when
        an I or J word is no number, or else the arc as `ArcCopied` says. */
    ghost predicate ArcHandled(line: string, x0: Option<real>, y0: Option<real>, active0: bool, torch0: bool,
                               gcode0: seq<string>, log0: seq<LatchEvent>, dialogs0: seq<Dialog>, lineNum0: int,
                               crash0: Option<PyError>)
      reads this`crash, this`lastX, this`lastY, this`gcodeList, this`dialogs, this`lineNum, this`torchEnable
      reads this`overCut, this`minDiameter, this`ocLength, this`offsetG41
      reads this`arcEnable, this`holeVelocity, this`holeActive, this`velocityLog
    {
      var w := ArcWordsOf(line, x0, y0);
      if w.Raise? then crash == Some(w.error) && gcodeList == gcode0 && dialogs == dialogs0 && lineNum == lineNum0
      else if w.value.2.None? || w.value.3.None? then
        crash == Some(TypeError) && gcodeList == gcode0 && dialogs == dialogs0 && lineNum == lineNum0
      else ArcCopied(line, w.value.0, w.value.1, w.value.2.value, w.value.3.value,
                     x0, y0, active0, torch0, gcode0, log0, dialogs0, lineNum0, crash0)
    }

    /** `check_if_hole` (:135-151): its dialogs are warnings only, so the
        dialog invariant is kept. */
    method CheckIfHole(line: string)
      requires LatchOk() && DialogsOk()
      modifies this`gcodeList, this`velocityLog, this`holeActive, this`lineNum, this`dialogs
      modifies this`torchEnable, this`lastX, this`lastY, this`crash
      ensures LatchOk() && DialogsOk()
      ensures ArcHandled(line, old(lastX), old(lastY), old(holeActive), old(torchEnable),
                         old(gcodeList), old(velocityLog), old(dialogs), old(lineNum), old(crash))
      ensures crash.None? ==> |old(gcodeList)| < |gcodeList| && line in gcodeList[|old(gcodeList)|..]
    {
      ReadArc(line);
    }

    /** The body of `check_if_hole` (:135-151): the arc's words are read,
        then the arc is handled by `HoleArc`. */
    method ReadArc(line: string)
      requires LatchOk()
      modifies this`gcodeList, this`velocityLog, this`holeActive, this`lineNum, this`dialogs
      modifies this`torchEnable, this`lastX, this`lastY, this`crash
      ensures old(DialogsOk()) ==> DialogsOk()
      ensures LatchOk() && QuietlyExtends(dialogs, old(dialogs))
      ensures ArcHandled(line, old(lastX), old(lastY), old(holeActive), old(torchEnable),
                         old(gcodeList), old(velocityLog), old(dialogs), old(lineNum), old(crash))
      ensures crash.None? ==> |old(gcodeList)| < |gcodeList| && line in gcodeList[|old(gcodeList)|..]
    {
      var words := ArcWords(line);
      if words.Raise? {
        crash := Some(words.error);
        return;
      }
      var (endX, endY, i, j) := words.value;
      if i.None? || j.None? {
        crash := Some(TypeError);
        return;
      }
      HoleArc(line, endX, endY, i.value, j.value);
    }

    /** The rest of `check_if_hole` (:142-151) for an arc with centre
        offset `(i, j)` ending at `(endX, endY)`. */
    method HoleArc(line: string, endX: Option<real>, endY: Option<real>, i: real, j: real)
      requires LatchOk()
      modifies this`gcodeList, this`velocityLog, this`holeActive, this`lineNum, this`dialogs
      modifies this`torchEnable, this`lastX, this`lastY, this`crash
      ensures old(DialogsOk()) ==> DialogsOk()
      ensures LatchOk() && QuietlyExtends(dialogs, old(dialogs))
      ensures ArcCopied(line, endX, endY, i, j, old(lastX), old(lastY), old(holeActive), old(torchEnable),
                        old(gcodeList), old(velocityLog), old(dialogs), old(lineNum), old(crash))
      ensures crash.None? ==> |old(gcodeList)| < |gcodeList| && line in gcodeList[|old(gcodeList)|..]
    {
      var isHole := IsHole(lastX, lastY, endX, endY);
      var radius := HoleRadius(i, j, isHole, line);
      ghost var d1 := dialogs;
      FinishArc(line, endX, endY, i, j, radius, isHole, old(lastX), old(lastY), old(holeActive), old(torchEnable),
                old(gcodeList), old(velocityLog), old(dialogs), old(lineNum), old(crash));
      QuietTrans(dialogs, d1, old(dialogs));
    }

    /** `ArcEnd` once the radius step has run from the state `(x0, y0,
        active0, torch0, gcode0, log0, dialogs0, lineNum0, crash0)`: the two
        steps make up `ArcCopied`. */
    method FinishArc(line: string, endX: Option<real>, endY: Option<real>, i: real, j: real, radius: real, hole: bool,
                     ghost x0: Option<real>, ghost y0: Option<real>, ghost active0: bool, ghost torch0: bool,
                     ghost gcode0: seq<string>, ghost log0: seq<LatchEvent>, ghost dialogs0: seq<Dialog>,
                     ghost lineNum0: int, ghost crash0: Option<PyError>)
      requires radius == ArcRadius(host, i, j) && hole == IsHole(x0, y0, endX, endY)
      requires lastX == x0 && lastY == y0 && torchEnable == torch0 && crash == crash0
      requires var wanted := ReductionWanted(radius, minDiameter, hole, arcEnable);
               var lines := RadiusLines(wanted, offsetG41, active0, ReductionLine(host, holeVelocity, radius));
               && holeActive == (if wanted then active0 || !offsetG41 else false)
               && velocityLog == log0 + RadiusEvents(wanted, offsetG41, active0, Reduce(holeVelocity, radius))
               && gcodeList == gcode0 + lines && lineNum == lineNum0 + |lines|
               && dialogs == dialogs0 + RadiusDialogs(wanted, offsetG41, StartsWith(line, "g2"), hole, lineNum)
      modifies this`gcodeList, this`lineNum, this`dialogs, this`torchEnable
      modifies this`lastX, this`lastY, this`crash
      ensures old(DialogsOk()) ==> DialogsOk()
      ensures QuietlyExtends(dialogs, old(dialogs))
      ensures ArcCopied(line, endX, endY, i, j, x0, y0, active0, torch0, gcode0, log0, dialogs0, lineNum0, crash0)
      ensures crash.None? ==> |old(gcodeList)| < |gcodeList| && gcodeList[|old(gcodeList)|] == line
    {
      ArcEnd(line, endX, endY, i, j, radius, hole);
      TailCopied(line, endX, endY, i, j, x0, y0, active0, torch0, gcode0, log0, dialogs0, lineNum0, crash0,
                 radius, old(gcodeList), old(dialogs), old(lineNum));
    }

    /** The arc chain's two steps make up `ArcCopied`: the radius step left
        the list `front`, the dialogs `dialogs1` and the counter `lineNum1`,
        and the arc's end followed from there. */
    lemma TailCopied(line: string, endX: Option<real>, endY: Option<real>, i: real, j: real,
                     x0: Option<real>, y0: Option<real>, active0: bool, torch0: bool,
                     gcode0: seq<string>, log0: seq<LatchEvent>, dialogs0: seq<Dialog>, lineNum0: int,
                     crash0: Option<PyError>, radius: real, front: seq<string>, dialogs1: seq<Dialog>, lineNum1: int)
      requires radius == ArcRadius(host, i, j)
      requires var hole := IsHole(x0, y0, endX, endY);
               var wanted := ReductionWanted(radius, minDiameter, hole, arcEnable);
               var lines := RadiusLines(wanted, offsetG41, active0, ReductionLine(host, holeVelocity, radius));
               && holeActive == (if wanted then active0 || !offsetG41 else false)
               && velocityLog == log0 + RadiusEvents(wanted, offsetG41, active0, Reduce(holeVelocity, radius))
               && front == gcode0 + lines && lineNum1 == lineNum0 + |lines|
               && dialogs1 == dialogs0 + RadiusDialogs(wanted, offsetG41, StartsWith(line, "g2"), hole, lineNum1)
      requires ArcTail(line, endX, endY, i, j, radius, IsHole(x0, y0, endX, endY),
                       x0, y0, torch0, front + [line], dialogs1, lineNum1, crash0)
      ensures ArcCopied(line, endX, endY, i, j, x0, y0, active0, torch0, gcode0, log0, dialogs0, lineNum0, crash0)
    {
    }

    /** The arc copied, then the overcut when `overburn` holds, or else the
        move of the cursor to the arc's end (:146-151). */
    method ArcEnd(line: string, endX: Option<real>, endY: Option<real>, i: real, j: real, radius: real, hole: bool)
      modifies this`gcodeList, this`lineNum, this`dialogs, this`torchEnable
      modifies this`lastX, this`lastY, this`crash
      ensures old(DialogsOk()) ==> DialogsOk()
      ensures QuietlyExtends(dialogs, old(dialogs))
      ensures ArcTail(line, endX, endY, i, j, radius, hole, old(lastX), old(lastY), old(torchEnable),
                      old(gcodeList) + [line], old(dialogs), old(lineNum), old(crash))
      ensures crash.None? ==> |old(gcodeList)| < |gcodeList| && gcodeList[|old(gcodeList)|] == line
    {
      gcodeList := gcodeList + [line];
      if hole && overCut && radius <= minDiameter / 2.0 {
        Overburn(i, j, radius, line);
      } else {
        lastX, lastY := endX, endY;
      }
    }

    // -------------------------------------------------------------------
    // Motion, torch and program end (:788-880)
    // -------------------------------------------------------------------

    /** A Z word with other axes (:801-807): the cursor is updated under
        hole sensing and the Z words are moved into a trailing comment;
        with the latch set, `comment_out_z_commands` raises
        UnboundLocalError at its unbound `lineNum`. */
    method CommentOutZ(line: string)
      requires line != []
      modifies this`lastX, this`lastY, this`gcodeList, this`crash
      ensures holeEnable && LastPosition(line, old(lastX), old(lastY)).Raise? ==>
                crash == Some(LastPosition(line, old(lastX), old(lastY)).error) && gcodeList == old(gcodeList)
      ensures !(holeEnable && LastPosition(line, old(lastX), old(lastY)).Raise?) ==>
                (holeEnable ==> (lastX, lastY) == LastPosition(line, old(lastX), old(lastY)).value)
                && (holeActive ==> crash == Some(UnboundLocalError) && gcodeList == old(gcodeList))
                && (!holeActive ==> crash == old(crash) && gcodeList == old(gcodeList) + [ZMoved(line)])
    {
      if holeEnable {
        var p := LastPosition(line, lastX, lastY);
        if p.Raise? {
          crash := Some(p.error);
          return;
        }
        lastX, lastY := p.value.0, p.value.1;
      }
      var r := MoveZWords(line);
      if holeActive {
        crash := Some(UnboundLocalError);
        return;
      }
      gcodeList := gcodeList + [r];
    }

    /** Z words (:788-807) unless Z motion is kept. The text after the
        first `z` decides: none at all is an IndexError; a number, `.`, `-`
        or space there makes it a Z word. A line whose only axis is Z
        becomes a comment; Z words beside other axes are moved into a
        trailing comment unless the line already has a `(z`. Returns whether
        the line is finished with; any other line goes on unchanged. */
    method ZWords(line: string) returns (done: bool)
      requires crash.None?
      modifies this`lastX, this`lastY, this`gcodeList, this`crash
      ensures crash.Some? ==> done
      ensures zBypass || 'z' !in line ==>
                !done && crash.None? && gcodeList == old(gcodeList) && lastX == old(lastX) && lastY == old(lastY)
      ensures !zBypass && 'z' in line && AxisWord(line, 'z') == [] ==>
                done && crash == Some(IndexError) && gcodeList == old(gcodeList)
      ensures !zBypass && 'z' in line && AxisWord(line, 'z') != [] && !ZWordChar(AxisWord(line, 'z')[0]) ==>
                !done && crash.None? && gcodeList == old(gcodeList) && lastX == old(lastX) && lastY == old(lastY)
      ensures !zBypass && 'z' in line && AxisWord(line, 'z') != [] && ZWordChar(AxisWord(line, 'z')[0]) ==>
                (!OtherAxis(line) ==>
                   done && crash.None? && gcodeList == old(gcodeList) + [ZOnlyComment(line)]
                   && lastX == old(lastX) && lastY == old(lastY))
                && (OtherAxis(line) && Contains(line, "(z") ==>
                      !done && crash.None? && gcodeList == old(gcodeList) && lastX == old(lastX) && lastY == old(lastY))
      ensures !zBypass && 'z' in line && AxisWord(line, 'z') != [] && ZWordChar(AxisWord(line, 'z')[0])
              && OtherAxis(line) && !Contains(line, "(z") ==>
                done
                && (holeEnable && LastPosition(line, old(lastX), old(lastY)).Raise? ==>
                      crash == Some(LastPosition(line, old(lastX), old(lastY)).error) && gcodeList == old(gcodeList))
                && (!(holeEnable && LastPosition(line, old(lastX), old(lastY)).Raise?) ==>
                      (holeEnable ==> (lastX, lastY) == LastPosition(line, old(lastX), old(lastY)).value)
                      && (holeActive ==> crash == Some(UnboundLocalError) && gcodeList == old(gcodeList))
                      && (!holeActive ==> crash.None? && gcodeList == old(gcodeList) + [ZMoved(line)]))
    {
      done := false;
      if !zBypass && 'z' in line {
        var t := AxisWord(line, 'z');
        if t == [] {
          crash := Some(IndexError);
          return true;
        }
        if ZWordChar(t[0]) {
          if !OtherAxis(line) {
            gcodeList := gcodeList + [ZOnlyComment(line)];
            return true;
          }
          if !Contains(line, "(z") {
            CommentOutZ(line);
            return true;
          }
        }
      }
    }

    /** `m5` (:825-841): a plain spindle stop restores velocity and
        re-enables the torch, each only when needed, after the line. */
    method SpindleOff(line: string)
      requires LatchOk()
      modifies this`gcodeList, this`velocityLog, this`holeActive, this`lineNum, this`torchEnable
      ensures LatchOk()
      ensures PlainSpindleStop(line) ==>
                !holeActive && torchEnable
                && gcodeList == old(gcodeList) + [line]
                     + (if old(holeActive) then [EndRestoreLine] else [])
                     + (if !old(torchEnable) then [TorchEnableLine] else [])
                && velocityLog == old(velocityLog) + (if old(holeActive) then [Restore(EndRestoreLine)] else [])
                && lineNum == old(lineNum) + (if old(holeActive) then 1 else 0) + (if !old(torchEnable) then 1 else 0)
      ensures !PlainSpindleStop(line) ==>
                gcodeList == old(gcodeList) + [line] && velocityLog == old(velocityLog)
                && holeActive == old(holeActive) && torchEnable == old(torchEnable) && lineNum == old(lineNum)
    {
      gcodeList := gcodeList + [line];
      if PlainSpindleStop(line) {
        if holeActive {
          EmitRestore(EndRestoreLine);
        }
        if !torchEnable {
          lineNum := lineNum + 1;
          gcodeList := gcodeList + [TorchEnableLine];
          torchEnable := true;
        }
      }
    }

    /** `m2`, `m30` or `%` (:842-866): velocity restored, torch enabled and
        hole sensing off, each written only when needed and all before the
        end line itself; the first material is published again. */
    method ProgramEnd(line: string)
      requires LatchOk()
      modifies this`gcodeList, this`velocityLog, this`holeActive, this`lineNum, this`torchEnable
      modifies this`holeEnable, this`published
      ensures LatchOk() && !holeActive && torchEnable && !holeEnable
      ensures gcodeList == old(gcodeList) + EndLines(old(holeActive), old(torchEnable), old(holeEnable)) + [line]
      ensures velocityLog == old(velocityLog) + (if old(holeActive) then [Restore(EndRestoreLine)] else [])
      ensures lineNum == old(lineNum) + |EndLines(old(holeActive), old(torchEnable), old(holeEnable))|
      ensures published == old(published) + (if firstMaterial != 0 then [firstMaterial] else [])
    {
      var ending := EndLines(holeActive, torchEnable, holeEnable);
      if holeActive {
        LatchRestore(velocityLog, EndRestoreLine);
        velocityLog := velocityLog + [Restore(EndRestoreLine)];
      }
      gcodeList, lineNum := gcodeList + ending + [line], lineNum + |ending|;
      holeActive, torchEnable, holeEnable := false, true, false;
      if firstMaterial != 0 {
        published := published + [firstMaterial];
      }
    }

    /** Arcs, torch switches, spindle stops and program ends (:808-866),
        tested in that order. Returns whether the line is finished with. */
    method Switches(line: string) returns (done: bool)
      requires LatchOk() && DialogsOk() && crash.None?
      modifies this`gcodeList, this`velocityLog, this`holeActive, this`lineNum, this`dialogs, this`codeError
      modifies this`torchEnable, this`lastX, this`lastY, this`crash, this`holeEnable, this`published
      ensures LatchOk() && DialogsOk() && codeError == old(codeError)
      ensures crash.Some? ==> done
      ensures ArcLine(line) && |line| < 3 ==>
                done && crash == Some(IndexError) && gcodeList == old(gcodeList)
                && dialogs == old(dialogs) && lineNum == old(lineNum)
      ensures ArcLine(line) && |line| >= 3 && IsAlpha(line[2]) ==>
                done
                && (holeEnable ==> ArcHandled(line, old(lastX), old(lastY), old(holeActive), old(torchEnable),
                                              old(gcodeList), old(velocityLog), old(dialogs), old(lineNum), old(crash)))
                && (!holeEnable ==> crash.None? && gcodeList == old(gcodeList) + [line]
                                    && dialogs == old(dialogs) && lineNum == old(lineNum))
      ensures !ArcLine(line) || (|line| >= 3 && !IsAlpha(line[2])) ==>
                (TorchOffLine(line) ==>
                   done && crash.None? && !torchEnable && gcodeList == old(gcodeList) + [line]
                   && dialogs == old(dialogs) && lineNum == old(lineNum) && velocityLog == old(velocityLog))
                && (!TorchOffLine(line) && TorchOnLine(line) ==>
                      done && crash.None? && torchEnable && gcodeList == old(gcodeList) + [line]
                      && dialogs == old(dialogs) && lineNum == old(lineNum) && velocityLog == old(velocityLog))
      ensures (!ArcLine(line) || (|line| >= 3 && !IsAlpha(line[2]))) && !TorchOffLine(line) && !TorchOnLine(line) ==>
                (StartsWith(line, "m5") ==>
                   done && crash.None?
                   && (PlainSpindleStop(line) ==>
                         !holeActive && torchEnable
                         && gcodeList == old(gcodeList) + [line]
                              + (if old(holeActive) then [EndRestoreLine] else [])
                              + (if !old(torchEnable) then [TorchEnableLine] else [])
                         && lineNum == old(lineNum) + (if old(holeActive) then 1 else 0) + (if !old(torchEnable) then 1 else 0))
                   && (!PlainSpindleStop(line) ==>
                         gcodeList == old(gcodeList) + [line]
                         && holeActive == old(holeActive) && torchEnable == old(torchEnable) && lineNum == old(lineNum)))
                && (!StartsWith(line, "m5") && EndLine(line) ==>
                      done && crash.None? && !holeActive && torchEnable && !holeEnable
                      && gcodeList == old(gcodeList) + EndLines(old(holeActive), old(torchEnable), old(holeEnable)) + [line]
                      && lineNum == old(lineNum) + |EndLines(old(holeActive), old(torchEnable), old(holeEnable))|
                      && published == old(published) + (if firstMaterial != 0 then [firstMaterial] else []))
                && (!StartsWith(line, "m5") && !EndLine(line) ==>
                      !done && crash.None? && gcodeList == old(gcodeList) && torchEnable == old(torchEnable)
                      && holeActive == old(holeActive) && lastX == old(lastX) && lastY == old(lastY))
    {
      if ArcLine(line) {
        done := ArcSwitch(line);
        if done {
          return;
        }
      }
      done := ToolSwitch(line);
    }

    /** An arc command (:808-813): a bare `g2` or `g3` is an IndexError at
        `line[2]`; an arc whose third character is a letter goes to hole
        detection under hole sensing and is copied otherwise. Returns
        whether the line is finished with. */
    method ArcSwitch(line: string) returns (done: bool)
      requires LatchOk() && DialogsOk() && crash.None?
      modifies this`gcodeList, this`velocityLog, this`holeActive, this`lineNum, this`dialogs, this`codeError
      modifies this`torchEnable, this`lastX, this`lastY, this`crash
      ensures LatchOk() && DialogsOk() && codeError == old(codeError)
      ensures |line| < 3 ==>
                done && crash == Some(IndexError) && gcodeList == old(gcodeList)
                && dialogs == old(dialogs) && lineNum == old(lineNum)
      ensures |line| >= 3 && IsAlpha(line[2]) ==>
                done
                && (holeEnable ==> ArcHandled(line, old(lastX), old(lastY), old(holeActive), old(torchEnable),
                                              old(gcodeList), old(velocityLog), old(dialogs), old(lineNum), old(crash)))
                && (!holeEnable ==> crash.None? && gcodeList == old(gcodeList) + [line]
                                    && dialogs == old(dialogs) && lineNum == old(lineNum))
      ensures |line| >= 3 && !IsAlpha(line[2]) ==>
                !done && crash.None? && gcodeList == old(gcodeList) && torchEnable == old(torchEnable)
                && holeActive == old(holeActive) && velocityLog == old(velocityLog)
                && lastX == old(lastX) && lastY == old(lastY) && lineNum == old(lineNum) && dialogs == old(dialogs)
    {
      done := true;
      if |line| < 3 {
        crash := Some(IndexError);
      } else if IsAlpha(line[2]) {
        if holeEnable {
          CheckIfHole(line);
        } else {
          gcodeList := gcodeList + [line];
        }
      } else {
        done := false;
      }
    }

    /** Torch switches, spindle stops and program ends (:814-866), tested
        in that order. Returns whether the line is finished with. */
    method ToolSwitch(line: string) returns (done: bool)
      requires LatchOk() && crash.None?
      modifies this`gcodeList, this`velocityLog, this`holeActive, this`lineNum
      modifies this`torchEnable, this`holeEnable, this`published
      ensures LatchOk()
      ensures TorchOffLine(line) ==>
                done && !torchEnable && gcodeList == old(gcodeList) + [line]
                && lineNum == old(lineNum) && velocityLog == old(velocityLog)
      ensures !TorchOffLine(line) && TorchOnLine(line) ==>
                done && torchEnable && gcodeList == old(gcodeList) + [line]
                && lineNum == old(lineNum) && velocityLog == old(velocityLog)
      ensures !TorchOffLine(line) && !TorchOnLine(line) ==>
                (StartsWith(line, "m5") ==>
                   done
                   && (PlainSpindleStop(line) ==>
                         !holeActive && torchEnable
                         && gcodeList == old(gcodeList) + [line]
                              + (if old(holeActive) then [EndRestoreLine] else [])
                              + (if !old(torchEnable) then [TorchEnableLine] else [])
                         && lineNum == old(lineNum) + (if old(holeActive) then 1 else 0) + (if !old(torchEnable) then 1 else 0))
                   && (!PlainSpindleStop(line) ==>
                         gcodeList == old(gcodeList) + [line]
                         && holeActive == old(holeActive) && torchEnable == old(torchEnable) && lineNum == old(lineNum)))
                && (!StartsWith(line, "m5") && EndLine(line) ==>
                      done && !holeActive && torchEnable && !holeEnable
                      && gcodeList == old(gcodeList) + EndLines(old(holeActive), old(torchEnable), old(holeEnable)) + [line]
                      && lineNum == old(lineNum) + |EndLines(old(holeActive), old(torchEnable), old(holeEnable))|
                      && published == old(published) + (if firstMaterial != 0 then [firstMaterial] else []))
                && (!StartsWith(line, "m5") && !EndLine(line) ==>
                      !done && gcodeList == old(gcodeList) && torchEnable == old(torchEnable)
                      && holeActive == old(holeActive) && velocityLog == old(velocityLog) && lineNum == old(lineNum))
    {
      done := true;
      if TorchOffLine(line) {
        torchEnable := false;
        gcodeList := gcodeList + [line];
      } else if TorchOnLine(line) {
        torchEnable := true;
        gcodeList := gcodeList + [line];
      } else if StartsWith(line, "m5") {
        SpindleOff(line);
      } else if EndLine(line) {
        ProgramEnd(line);
      } else {
        done := false;
      }
    }

    /** `check_f_word` (:544-569): an F value differing from the cut feed
        rate of the current material is warned about once per pass. An
        F value that is no number raises ValueError, and a material missing
        from the map KeyError, on every F word. */
    method CheckFeed(inFeed: string)
      requires DialogsOk()
      modifies this`materialNum, this`dialogs, this`feedWarning, this`crash
      ensures DialogsOk()
      ensures materialNum == (if materialBound then old(materialNum) else currentMat)
      ensures var raw := FeedToken(inFeed);
              if raw == [] then crash == old(crash) && dialogs == old(dialogs) && feedWarning == old(feedWarning)
              else if ParseFloat(raw).None? then
                crash == Some(ValueError) && dialogs == old(dialogs) && feedWarning == old(feedWarning)
              else if materialNum !in materialDict then
                crash == Some(KeyError) && dialogs == old(dialogs) && feedWarning == old(feedWarning)
              else crash == old(crash)
                   && feedWarning == (old(feedWarning) || ParseFloat(raw).value != materialDict[materialNum].0)
                   && dialogs == old(dialogs)
                        + (if !old(feedWarning) && ParseFloat(raw).value != materialDict[materialNum].0
                           then [Dialog(Warning, FeedMismatch, lineNum)] else [])
    {
      if !materialBound {
        materialNum := currentMat;
      }
      var rawFeed := ReadFeed(inFeed);
      if rawFeed != [] {
        CompareFeed(rawFeed);
      }
    }

    /** The end of `check_f_word` (:553-569): the collected feed text is
        parsed and compared with the cut feed rate of the current
        material. */
    method CompareFeed(raw: string)
      requires DialogsOk()
      modifies this`dialogs, this`feedWarning, this`crash
      ensures DialogsOk()
      ensures if ParseFloat(raw).None? then
                crash == Some(ValueError) && dialogs == old(dialogs) && feedWarning == old(feedWarning)
              else if materialNum !in materialDict then
                crash == Some(KeyError) && dialogs == old(dialogs) && feedWarning == old(feedWarning)
              else crash == old(crash)
                   && feedWarning == (old(feedWarning) || ParseFloat(raw).value != materialDict[materialNum].0)
                   && dialogs == old(dialogs)
                        + (if !old(feedWarning) && ParseFloat(raw).value != materialDict[materialNum].0
                           then [Dialog(Warning, FeedMismatch, lineNum)] else [])
    {
      var f := ParseFloat(raw);
      if f.None? {
        crash := Some(ValueError);
        return;
      }
      if materialNum !in materialDict {
        crash := Some(KeyError);
        return;
      }
      if f.value != materialDict[materialNum].0 && !feedWarning {
        WarnFeed();
      }
    }

    /** What the F-word check of `line` (:867-871 and :531-569) leaves in
        the material number, the dialogs and the feed-warning flag, from
        the values given; `n` is the line number the warning carries. A
        line without an F word, or whose F word is the cut-feed-rate pin,
        changes none of them; otherwise the material number is bound and
        the warning is added when the feed differs from the material's cut
        feed rate and was not given before. */
    ghost predicate FeedChecked(line: string, num0: int, dialogs0: seq<Dialog>, warned0: bool, n: int)
      reads this`materialNum, this`dialogs, this`feedWarning, this`materialDict, this`materialBound
    {
      if !ChecksFeed(line) then
        dialogs == dialogs0 && materialNum == num0 && feedWarning == warned0
      else
        var raw := FeedToken(AxisWord(line, 'f'));
        materialNum == (if materialBound then num0 else currentMat)
        && if raw == [] || ParseFloat(raw).None? || materialNum !in materialDict then
             dialogs == dialogs0 && feedWarning == warned0
           else
             feedWarning == (warned0 || ParseFloat(raw).value != materialDict[materialNum].0)
             && dialogs == dialogs0
                  + (if !warned0 && ParseFloat(raw).value != materialDict[materialNum].0
                     then [Dialog(Warning, FeedMismatch, n)] else [])
    }

    /** The F word of a line (:867-871): the text after the first `f` goes
        to `check_f_word` unless it is the cut-feed-rate pin. */
    method FeedWord(line: string)
      requires DialogsOk()
      modifies this`materialNum, this`dialogs, this`feedWarning, this`crash
      ensures DialogsOk()
      ensures FeedChecked(line, old(materialNum), old(dialogs), old(feedWarning), lineNum)
      ensures crash == (if FeedRaise(line, materialNum, materialDict).Some? then FeedRaise(line, materialNum, materialDict)
                        else old(crash))
    {
      if 'f' in line {
        var inFeed := AxisWord(line, 'f');
        if !StartsWith(inFeed, CutFeedPin) {
          CheckFeed(inFeed);
        }
      }
    }

    /** Any other line (:867-880): its F word is checked, a set latch is
        cleared, the cursor follows the line under hole sensing, and the
        line is copied. An exception from the F-word check leaves the
        output, the latch and the cursor as they were. */
    method PlainLine(line: string)
      requires LatchOk() && DialogsOk() && crash.None?
      modifies this`gcodeList, this`velocityLog, this`holeActive, this`lineNum, this`dialogs
      modifies this`lastX, this`lastY, this`crash, this`materialNum, this`feedWarning
      ensures LatchOk() && DialogsOk()
      ensures FeedChecked(line, old(materialNum), old(dialogs), old(feedWarning), old(lineNum))
      ensures FeedRaise(line, materialNum, materialDict).Some? ==>
                crash == FeedRaise(line, materialNum, materialDict)
                && gcodeList == old(gcodeList) && velocityLog == old(velocityLog) && holeActive == old(holeActive)
                && lineNum == old(lineNum) && lastX == old(lastX) && lastY == old(lastY)
      ensures FeedRaise(line, materialNum, materialDict).None? ==>
                lineNum == old(lineNum) + (if old(holeActive) then 1 else 0)
      ensures FeedRaise(line, materialNum, materialDict).None? && crash.None? ==>
                !holeActive
                && gcodeList == old(gcodeList) + (if old(holeActive) then [RestoreLine] else []) + [line]
                && velocityLog == old(velocityLog) + (if old(holeActive) then [Restore(RestoreLine)] else [])
      ensures FeedRaise(line, materialNum, materialDict).None? && crash.None? && holeEnable && line != [] ==>
                LastPosition(line, old(lastX), old(lastY)) == Ok((lastX, lastY))
      ensures FeedRaise(line, materialNum, materialDict).None? && !(holeEnable && line != []) ==>
                crash.None? && lastX == old(lastX) && lastY == old(lastY)
      ensures FeedRaise(line, materialNum, materialDict).None? && holeEnable && line != []
              && LastPosition(line, old(lastX), old(lastY)).Raise? ==>
                crash == Some(LastPosition(line, old(lastX), old(lastY)).error)
                && gcodeList == old(gcodeList) + (if old(holeActive) then [RestoreLine] else [])
    {
      FeedWord(line);
      if crash.None? {
        CopyLine(line);
      }
    }

    /** The end of :867-880: a set latch is cleared, the cursor follows
        the line under hole sensing, and the line is copied. */
    method CopyLine(line: string)
      requires LatchOk() && crash.None?
      modifies this`gcodeList, this`velocityLog, this`holeActive, this`lineNum, this`lastX, this`lastY, this`crash
      ensures LatchOk()
      ensures lineNum == old(lineNum) + (if old(holeActive) then 1 else 0)
      ensures crash.None? ==>
                !holeActive
                && gcodeList == old(gcodeList) + (if old(holeActive) then [RestoreLine] else []) + [line]
                && velocityLog == old(velocityLog) + (if old(holeActive) then [Restore(RestoreLine)] else [])
      ensures crash.None? && holeEnable && line != [] ==> LastPosition(line, old(lastX), old(lastY)) == Ok((lastX, lastY))
      ensures crash.None? && !(holeEnable && line != []) ==> lastX == old(lastX) && lastY == old(lastY)
      ensures holeEnable && line != [] && LastPosition(line, old(lastX), old(lastY)).Raise? ==>
                crash == Some(LastPosition(line, old(lastX), old(lastY)).error)
                && gcodeList == old(gcodeList) + (if old(holeActive) then [RestoreLine] else [])
      ensures !(holeEnable && line != [] && LastPosition(line, old(lastX), old(lastY)).Raise?) ==> crash.None?
    {
      if holeActive {
        EmitRestore(RestoreLine);
      }
      if holeEnable && line != [] {
        var p := LastPosition(line, lastX, lastY);
        if p.Raise? {
          crash := Some(p.error);
          return;
        }
        lastX, lastY := p.value.0, p.value.1;
      }
      gcodeList := gcodeList + [line];
    }

    /** :788-880 in order, for a line past all earlier checks. */
    method Motion(line: string)
      requires LatchOk() && DialogsOk() && crash.None?
      modifies this`gcodeList, this`velocityLog, this`holeActive, this`lineNum, this`dialogs, this`codeError
      modifies this`torchEnable, this`lastX, this`lastY, this`crash, this`holeEnable, this`published
      modifies this`materialNum, this`feedWarning
      ensures LatchOk() && DialogsOk() && codeError == old(codeError)
    {
      var done := ZWords(line);
      if done {
        return;
      }
      done := Switches(line);
      if done {
        return;
      }
      PlainLine(line);
    }

    // -------------------------------------------------------------------
    // The pass
    // -------------------------------------------------------------------

    /** The start of a turn of the main loop (:579-588): the line counter,
        the strip and the line-number strip. */
    method Intake(raw: string) returns (r: Result<string>)
      modifies this`lineNum
      ensures lineNum == old(lineNum) + 1
      ensures r == LineNumberDropped(Strip(raw))
    {
      lineNum := lineNum + 1;
      r := DropLineNumber(Strip(raw));
    }

    /** A line past the full-line comments (:602-880): its normal form
        goes through the checks in order. */
    method CodeLine(line: string)
      requires LatchOk() && DialogsOk() && crash.None?
      modifies this
      ensures LatchOk() && DialogsOk() && (old(codeError) ==> codeError)
    {
      var normal := StripLeadingZeros(NormalizeCode(line));
      NormalLine(normal);
    }

    /** :622-880 in order, for a line in normal form. */
    method NormalLine(line: string)
      requires LatchOk() && DialogsOk() && crash.None?
      modifies this
      ensures LatchOk() && DialogsOk() && (old(codeError) ==> codeError)
    {
      var done, next := Prepare(line);
      if !done {
        Dispatch(next);
      }
    }

    /** :663-880 in order, for a line past the set-up checks. */
    method Dispatch(line: string)
      requires LatchOk() && DialogsOk() && crash.None?
      modifies this
      ensures LatchOk() && DialogsOk() && (old(codeError) ==> codeError)
    {
      var done := Modes(line);
      if done {
        return;
      }
      done := Checks(line);
      if done {
        return;
      }
      Motion(line);
    }

    /** One turn of the main loop (:579-880). */
    method ProcessLine(raw: string)
      requires LatchOk() && DialogsOk() && crash.None?
      modifies this
      ensures LatchOk() && DialogsOk() && (old(codeError) ==> codeError)
    {
      var line := Intake(raw);
      if line.Raise? {
        crash := Some(line.error);
      } else {
        TakeLine(line.value);
      }
    }

    /** A line once stripped and rid of its line number (:589-880): a
        material edit, a full comment copied as it is, or a code line. */
    method TakeLine(line: string)
      requires LatchOk() && DialogsOk() && crash.None?
      modifies this
      ensures LatchOk() && DialogsOk() && (old(codeError) ==> codeError)
    {
      if StartsWith(line, "(o=") {
        assert line[0] == line[..3][0];
        MaterialEdit(line, StartsWith(line, "(o=0"));
      } else if IsFullComment(line) {
        gcodeList := gcodeList + [line];
      } else {
        CodeLine(line);
      }
    }

    /** The pierce-only trailer (:881-885). */
    method Finish()
      modifies this`gcodeList
      ensures pierceOnly ==>
                gcodeList == old(gcodeList) + [""] + (if rapidLine != "" then [rapidLine] else []) + ["M2 (END)"]
      ensures !pierceOnly ==> gcodeList == old(gcodeList)
    {
      if pierceOnly {
        gcodeList := gcodeList + [""] + (if rapidLine != "" then [rapidLine] else []) + ["M2 (END)"];
      }
    }

    /** What the run prints, or the exception it ends with. */
    function Output(): (o: Outcome)
      reads this`crash, this`codeError, this`gcodeList
      ensures crash.Some? <==> o.Raised?
      ensures o.Printed? && codeError ==> o.lines == ErrorProgram
      ensures o.Printed? && !codeError ==> o.lines == gcodeList
    {
      if crash.Some? then Raised(crash.value) else Printed(Printout(codeError, gcodeList))
    }

    /** The main loop over the program's lines, the trailer and the output
        assembly (:577-894). Lines are read until one raises. Once an
        error is reported, the run prints the fixed error program whatever
        it gathered; the feed warning is given at most once; and the latch
        history alternates. */
    method Run(lines: seq<string>) returns (o: Outcome)
      requires LatchOk() && DialogsOk()
      modifies this
      ensures LatchOk() && DialogsOk() && o == Output()
      ensures old(codeError) ==> codeError
      ensures old(crash).Some? ==> o == Raised(old(crash).value)
      ensures codeError <==> exists k :: 0 <= k < |dialogs| && IsBlocking(dialogs[k])
      ensures CountReason(dialogs, FeedMismatch) <= 1
    {
      var k := 0;
      while k < |lines| && crash.None?
        invariant LatchOk() && DialogsOk() && 0 <= k <= |lines|
        invariant old(codeError) ==> codeError
        invariant old(crash).Some? ==> crash == old(crash)
      {
        ProcessLine(lines[k]);
        k := k + 1;
      }
      if crash.None? {
        Finish();
      }
      BlocksMeans(dialogs);
      o := Output();
    }
  }

  /** The whole script: the start-up state, then the run. A preference or
      material file the reader cannot parse raises before any line is
      read. */
  method RunScript(host: Host, units: Units, cutType: int, currentMat: int, zMaxOffset: real,
                   prefs: seq<string>, materialFile: seq<string>, lines: seq<string>) returns (o: Outcome)
    ensures GetMaterials(prefs, materialFile).Raise? ==> o == Raised(GetMaterials(prefs, materialFile).error)
    ensures o.Printed? ==> GetMaterials(prefs, materialFile).Ok?
  {
    var s := new PassState(host, units, cutType, currentMat, zMaxOffset, prefs, materialFile);
    o := s.Run(lines);
  }
}
