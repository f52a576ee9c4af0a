# QtPlasmaC G-code filter, modelled in Dafny

QtPlasmaC runs every G-code program through a filter script,
`qtplasmac_gcode.py`, before LinuxCNC loads it. The script reads the program
line by line and prints a rewritten program. Along the way it:

- normalises each line: line numbers are dropped, code is lower-cased with its
  spaces removed, and leading zeros of G and M words are stripped;
- handles material directives `(o=0`, `(o=1` and `(o=2`, which add, edit or
  make a temporary material in the material file;
- checks material changes `m190 p<n>` against the material map;
- writes a move to the top of Z before the first motion, and switches unit
  multipliers on `g20`/`g21`;
- handles the scribe, pierce-only and spotting modes;
- reads the `#<holes>`, `#<h_diameter>`, `#<h_velocity>` and `#<oclength>`
  settings;
- reduces velocity on small holes and arcs with `m67 e3`, and restores it
  afterwards;
- writes an overcut past the end of a small hole;
- comments out Z moves;
- tracks torch enable and disable;
- checks F words against the material's cut feed rate;
- prints either the rewritten program or a short error program.

The project has one module per concern:

| file | module | what it holds |
|---|---|---|
| `pystr.dfy` | `PyStr` | The Python string operations the script uses, such as `strip`, `lower`, `split`, `find` and `str(int)`. |
| `pynum.dfy` | `PyNum` | `int()` and `float()` on decimal text; a Python number that is an `int` or a `float` (`Num`); the `Host` record of float primitives; the exceptions (`PyError`) and `Result`/`Option`. |
| `normalize.dfy` | `Normalize` | Line normalisation, and the proof that it is idempotent. |
| `tokens.dfy` | `Tokens` | `get_position`, `set_last_position`, `check_math`'s test, the Z-word mover `comment_out_z_commands` and the F-word reader of `check_f_word`. |
| `geometry.dfy` | `Geometry` | The arc radius and the overcut end point, with the proofs that the overcut stays on the circle and turns the arc's way. |
| `materials.dfy` | `Materials` | Directive parsing (`check_material_edit`), the material record (`add_edit_material`), the file rewrite (`rewrite_material_file`) and the material map reader (`get_materials`), with header round trips and a section-wise account of the rewrite. |
| `filter.dfy` | `Filter` | Units, dialog records, the velocity latch's history, the fixed lines the pass writes, the material number of a material change, and the final printout. |
| `pass.dfy` | `Pass` | The class `PassState`. Its fields are the script's globals and its methods are the script's functions and the branches of the main loop. `Run` is the whole loop, and `RunScript` adds start-up. |

The script is a sequence of global updates, so the pass is imperative: each
method states the new state of the fields it modifies.

A Python exception ends the script before it prints anything. It is recorded
in `crash`, and once `crash` is set no further line is processed. The model
keeps the script's behaviour where that behaviour is surprising:

- `comment_out_z_commands` assigns `lineNum` without declaring it global. When
  the velocity latch is set, it raises UnboundLocalError instead of writing
  the restore.
- A line that meets none of `(o=0`, `(o=1` and `(o=2` but carries all four
  of `ph=`, `pd=`, `ch=` and `fr=` raises IndexError at `newMaterial[0]`. So
  the "invalid parameter" dialog is never shown.
- An overcut on an arc with zero radius raises ZeroDivisionError.
- A line holding both `m190` and `m66` is written twice.
- `codeWarn` is set as a global at module level (:666, :707, :745) and as a
  local inside functions (:165, :175, :199, :439, :483), but nothing reads
  it, so warnings never set `codeError`. A scribe in pierce-only mode, and
  pierce-only requested while scribing, are warnings only.
- The restore at a spindle stop or a program end is written with `m68`, not
  `m67`.

Invariants kept by every step of the pass:

- **`LatchOk`.** The ghost history of velocity reductions and restores
  alternates, starting with a reduction. The latch `holeActive` is set
  exactly after a reduction. Every restore writes one of the two restore
  lines.
- **`DialogsOk`.** `codeError` holds exactly when one of the dialogs is a
  blocking error. At most one feed-rate warning is raised.

## Model

| member | source | states |
|---|---|---|
| Normalize.SkipLineNumber | configs/by_machine/qtplasmac/qtplasmac/qtplasmac_gcode.py:585-588 | What is left after skipping a line number is a suffix of the text, and it does not start with a digit or '.' |
| Normalize.DropLineNumber | configs/by_machine/qtplasmac/qtplasmac/qtplasmac_gcode.py:583-588 | The character loop computes `LineNumberDropped`. The result is a suffix of the line, and if anything was removed it does not start with a digit or '.'. It raises IndexError exactly for a line that is only `n` or `N` |
| Normalize.DropZeros | configs/by_machine/qtplasmac/qtplasmac/qtplasmac_gcode.py:617-621 | The leading-zero loop keeps the first letter and never lengthens the text. It removes only zeros right after the letter that are followed by a digit, and leaves no such zero behind |
| Normalize.StripLeadingZeros | configs/by_machine/qtplasmac/qtplasmac/qtplasmac_gcode.py:613-621 | The loop computes `ZeroStripped`. It keeps the first character, touches only G and M lines longer than two characters, and leaves nothing more to strip |
| Normalize.ZeroStrippedIdempotent | configs/by_machine/qtplasmac/qtplasmac/qtplasmac_gcode.py:613-621 | Stripping leading zeros twice gives the same result as stripping once |
| Normalize.ZeroStrippedPrefix | configs/by_machine/qtplasmac/qtplasmac/qtplasmac_gcode.py:617-621 | Zero stripping never reaches past the code part into the comment |
| Normalize.ZeroStrippedCode | configs/by_machine/qtplasmac/qtplasmac/qtplasmac_gcode.py:613-621 | Zero stripping keeps code in normal form |
| Normalize.LowerRemovePlain | configs/by_machine/qtplasmac/qtplasmac/qtplasmac_gcode.py:612 | Lower-casing text without comment delimiters and removing its spaces gives code in normal form |
| Normalize.CompactShape | configs/by_machine/qtplasmac/qtplasmac/qtplasmac_gcode.py:605 | `strip().lower().replace(' ', '')` of code is trimmed normal-form code |
| Normalize.SemicolonShape | configs/by_machine/qtplasmac/qtplasmac/qtplasmac_gcode.py:603-605 | A line with a `;` comment becomes trimmed code, a space, `(`, the comment and `)` |
| Normalize.ParenShape | configs/by_machine/qtplasmac/qtplasmac/qtplasmac_gcode.py:607-609 | A line with a `(` comment and no `;` becomes trimmed code, a space, `(` and the comment as written |
| Normalize.PlainShape | configs/by_machine/qtplasmac/qtplasmac/qtplasmac_gcode.py:610-612 | A line without a comment becomes code in normal form |
| Normalize.CommentFormFixed | configs/by_machine/qtplasmac/qtplasmac/qtplasmac_gcode.py:607-609 | A normalised line with a comment is left unchanged by the code normalisation |
| Normalize.CodeFormFixed | configs/by_machine/qtplasmac/qtplasmac/qtplasmac_gcode.py:610-612 | Normal-form code is left unchanged by the code normalisation |
| Normalize.CommentedFixed | configs/by_machine/qtplasmac/qtplasmac/qtplasmac_gcode.py:602-621 | A zero-stripped line with a comment is a fixed point of the whole normalisation |
| Normalize.PlainFixed | configs/by_machine/qtplasmac/qtplasmac/qtplasmac_gcode.py:602-621 | Zero-stripped code without a comment is a fixed point of the whole normalisation |
| Normalize.NormalizeLineIdempotent | configs/by_machine/qtplasmac/qtplasmac/qtplasmac_gcode.py:602-621 | Normalising a normalised line changes nothing, provided a `;` comment is the only `;` and has no `(` before it |
| Tokens.NumberRun | configs/by_machine/qtplasmac/qtplasmac/qtplasmac_gcode.py:229-236 | The collected number is a prefix made of digits, '.' and '-', and it stops at the end or at the first other character |
| Tokens.NumberRunUnique | configs/by_machine/qtplasmac/qtplasmac/qtplasmac_gcode.py:229-236 | Any prefix of number characters that stops at the end or at another character is the collected number |
| Tokens.PositionOf | configs/by_machine/qtplasmac/qtplasmac/qtplasmac_gcode.py:223-237 | The axis value is IndexError exactly when the axis text is empty, and None exactly when it starts with something other than a number character. Otherwise it is `float()` of the longest run of number characters. The only exceptions are IndexError and ValueError |
| Tokens.GetPosition | configs/by_machine/qtplasmac/qtplasmac/qtplasmac_gcode.py:223-237 | The character-by-character loop computes `PositionOf` |
| Tokens.AxisTextOf | configs/by_machine/qtplasmac/qtplasmac/qtplasmac_gcode.py:224 | With one occurrence of the axis letter, the axis text is everything after it, with spaces removed |
| Tokens.PositionOfInteger | configs/by_machine/qtplasmac/qtplasmac/qtplasmac_gcode.py:223-237 | Round trip: an integer written after the axis letter is read back as that number, whatever non-number text follows |
| Tokens.LastPosition | configs/by_machine/qtplasmac/qtplasmac/qtplasmac_gcode.py:240-248 | Lines not starting with g, x or y keep the cursor. On a g, x or y line, a present axis whose text is a number sets that coordinate, and a coordinate changes only that way. Reading X raises before Y is read, Y raises only when X did not, and every exception comes from reading a present axis |
| Tokens.MoveZWords | configs/by_machine/qtplasmac/qtplasmac/qtplasmac_gcode.py:251-282 | The scan with its two flags computes `ZMoved` |
| Tokens.ZRunCopiesComment | configs/by_machine/qtplasmac/qtplasmac/qtplasmac_gcode.py:258-261 | Inside a comment every character is copied unchanged up to `)` |
| Tokens.ZRunKeepsCode | configs/by_machine/qtplasmac/qtplasmac/qtplasmac_gcode.py:276-277 | Command text without `z` or `(` is copied unchanged |
| Tokens.ZRunCollects | configs/by_machine/qtplasmac/qtplasmac/qtplasmac_gcode.py:262-264 | While a Z word is read, its characters go to the Z text |
| Tokens.ZRunMovesWord | configs/by_machine/qtplasmac/qtplasmac/qtplasmac_gcode.py:262-275 | A `z` word leaves the command. The character ending it stays in the command, and the word, opened with `(` and right-stripped, goes to the Z text |
| Tokens.ZMovedLine | configs/by_machine/qtplasmac/qtplasmac/qtplasmac_gcode.py:251-282 | On a line of command text, one Z word, command text and a comment, the result is the command without the Z word, the comment, a space, and `(z…)` |
| Tokens.ZRunOrder | configs/by_machine/qtplasmac/qtplasmac/qtplasmac_gcode.py:257-277 | The command text keeps a subsequence of the scanned characters in order. The Z text gains only `(`, `z` and Z-word characters |
| Tokens.FeedTokenChars | configs/by_machine/qtplasmac/qtplasmac/qtplasmac_gcode.py:550-552 | The collected feed text holds only digits and dots |
| Tokens.ReadFeed | configs/by_machine/qtplasmac/qtplasmac/qtplasmac_gcode.py:548-552 | The collecting loop computes `FeedToken` |
| Tokens.FeedTokenOfNat | configs/by_machine/qtplasmac/qtplasmac/qtplasmac_gcode.py:550-552 | Round trip: a feed written as digits and followed by a non-number, non-space character is read back exactly |
| Geometry.OverburnTurn | configs/by_machine/qtplasmac/qtplasmac/qtplasmac_gcode.py:191-216 | Relative to the centre, the overcut end is the start vector `(-I, -J)` turned by A: clockwise for `g2` and counter-clockwise otherwise |
| Geometry.OverburnOnCircle | configs/by_machine/qtplasmac/qtplasmac/qtplasmac_gcode.py:191-216 | Given radius² = I² + J² and cos²A + sin²A = 1, the overcut end lies on the arc's circle |
| Geometry.OverburnDirection | configs/by_machine/qtplasmac/qtplasmac/qtplasmac_gcode.py:207-216 | The dot product of the start and end vectors is r² cos A. Their cross product is -r² sin A for `g2` and r² sin A for `g3` |
| Materials.StartFields | configs/by_machine/qtplasmac/qtplasmac/qtplasmac_gcode.py:336-349 | A temporary material starts with number `tmpMatNum` and name `Temporary <n>`. Otherwise number and name are unset. The four mandatory values are unset and the optional ones hold their defaults |
| Materials.ApplyItem | configs/by_machine/qtplasmac/qtplasmac/qtplasmac_gcode.py:355-389 | An item naming no optional key keeps the defaults. A temporary material's number is never changed, and a set number or name stays set |
| Materials.ApplyItems | configs/by_machine/qtplasmac/qtplasmac/qtplasmac_gcode.py:355-389 | Reading all items keeps a temporary material's number |
| Materials.ApplyItemsDefaults | configs/by_machine/qtplasmac/qtplasmac/qtplasmac_gcode.py:338-389 | Items that name no optional key leave every optional value at its default |
| Materials.DirectiveKind | configs/by_machine/qtplasmac/qtplasmac/qtplasmac_gcode.py:343-353 | The kind is 0 exactly for `(o=0`. Kinds 1 and 2 need `nu=` and `na=`. There is no kind exactly when none of the three forms applies |
| Materials.ToMaterial | configs/by_machine/qtplasmac/qtplasmac/qtplasmac_gcode.py:390-391 | A material is built exactly when number, name, pierce height, pierce delay, cut height and feed rate are all set. Otherwise it raises UnboundLocalError |
| Materials.ParseDirective | configs/by_machine/qtplasmac/qtplasmac/qtplasmac_gcode.py:334-406 | There is no directive exactly when one of `ph=`, `pd=`, `ch=` and `fr=` is missing. A directive has the line's kind, and a temporary one gets `tmpMatNum`. All four keys with no kind raises IndexError |
| Materials.DirectiveDefaults | configs/by_machine/qtplasmac/qtplasmac/qtplasmac_gcode.py:338-341 | A directive naming no optional value gets kerf 0, THC 0, cut amps 15, cut volts 100, and 0 for the rest |
| Materials.RecordLines | configs/by_machine/qtplasmac/qtplasmac/qtplasmac_gcode.py:492-508 | A record is sixteen lines: the material's header, fourteen settings, and a blank line |
| Materials.HeaderRecognised | configs/by_machine/qtplasmac/qtplasmac/qtplasmac_gcode.py:457-528 | A written header passes both the rewrite's header test and the reader's header test |
| Materials.SectionNumberOf | configs/by_machine/qtplasmac/qtplasmac/qtplasmac_gcode.py:466 | The rewrite reads back the number of a written header |
| Materials.HeaderNumberOf | configs/by_machine/qtplasmac/qtplasmac/qtplasmac_gcode.py:529 | The reader reads back the number of a written header |
| Materials.HeaderRoundTrip | configs/by_machine/qtplasmac/qtplasmac/qtplasmac_gcode.py:457-529 | A written header is recognised by both the rewrite and the reader, and both read back its number |
| Materials.PrefixLength | configs/by_machine/qtplasmac/qtplasmac/qtplasmac_gcode.py:453-460 | The first loop copies exactly the lines before the first header |
| Materials.CopyIsReplace | configs/by_machine/qtplasmac/qtplasmac/qtplasmac_gcode.py:461-473 | From the first header on, the second loop is the section-wise replacement, and it raises when a header's number does not parse |
| Materials.RewriteSections | configs/by_machine/qtplasmac/qtplasmac/qtplasmac_gcode.py:448-475 | The rewritten file is: the lead lines; every section unchanged except the target's, which the record replaces in place; then the record again if the number is not a known material |
| Materials.RewriteNoSections | configs/by_machine/qtplasmac/qtplasmac/qtplasmac_gcode.py:448-475 | A file without headers keeps its lines and gains the record, twice when the number is not known |
| Materials.ReplacedKeepsOthers | configs/by_machine/qtplasmac/qtplasmac/qtplasmac_gcode.py:465-470 | Without the target among the sections, the rewrite copies them unchanged |
| Materials.SectionsFlatten | configs/by_machine/qtplasmac/qtplasmac/qtplasmac_gcode.py:461-473 | Cutting the file into sections loses and reorders nothing |
| Materials.LeadLength | configs/by_machine/qtplasmac/qtplasmac/qtplasmac_gcode.py:524-530 | The reader's first loop stops exactly at the first header |
| Materials.ReadSections | configs/by_machine/qtplasmac/qtplasmac/qtplasmac_gcode.py:531-542 | The current number is bound when the reader finishes, and no key is lost |
| Materials.ReadStep | configs/by_machine/qtplasmac/qtplasmac/qtplasmac_gcode.py:536-542 | A header binds the current number to the feed rate and kerf width read so far, and its own number becomes current; a header whose number does not parse raises. A `CUT_SPEED` line sets the feed rate, and a `KERF_WIDTH` line the kerf width, to the value after `=`. A line that is none of these keeps the number, the values and the map |
| Materials.GetMaterials | configs/by_machine/qtplasmac/qtplasmac/qtplasmac_gcode.py:512-542 | Material 0 is always in the map |
| Materials.ReadSectionsKeys | configs/by_machine/qtplasmac/qtplasmac/qtplasmac_gcode.py:531-542 | Every header the reader meets becomes a key of the map |
| Materials.PlainLines | configs/by_machine/qtplasmac/qtplasmac/qtplasmac_gcode.py:531-542 | Lines that are neither headers nor settings change nothing |
| Materials.LeadUnchanged | configs/by_machine/qtplasmac/qtplasmac/qtplasmac_gcode.py:524-530 | Lines without a header before the first header do not move it |
| Materials.TwoPlainSections | configs/by_machine/qtplasmac/qtplasmac/qtplasmac_gcode.py:531-542 | Two headers, each followed by lines without settings, bind both numbers to the values read so far |
| Materials.FirstHeader | configs/by_machine/qtplasmac/qtplasmac/qtplasmac_gcode.py:512-530 | Reading starts at the first header, with material 0 bound to the preference defaults |
| Materials.CarryOver | configs/by_machine/qtplasmac/qtplasmac/qtplasmac_gcode.py:512-542 | Sections without `CUT_SPEED` or `KERF_WIDTH` inherit the values read before them, here the preference defaults |
| Materials.RecordStep | configs/by_machine/qtplasmac/qtplasmac/qtplasmac_gcode.py:492-508 | Reading a written record from any state binds the current number to the values read so far and leaves its own number current with the record's cut speed and kerf width, provided the host prints both so that they read back as themselves |
| Materials.RecordTail | configs/by_machine/qtplasmac/qtplasmac/qtplasmac_gcode.py:495-508 | After its header, a written record sets the feed rate and kerf width to its cut speed and kerf width and changes nothing else |
| Materials.RecordBinds | configs/by_machine/qtplasmac/qtplasmac/qtplasmac_gcode.py:531-542 | A written record followed by a header, or by the end of the file, binds its number to its cut speed and kerf width |
| Materials.ReadAcross | configs/by_machine/qtplasmac/qtplasmac/qtplasmac_gcode.py:531-542 | Reading two stretches of lines one after the other is reading the second from the state the first leaves |
| Materials.KeepsBinding | configs/by_machine/qtplasmac/qtplasmac/qtplasmac_gcode.py:531-542 | A number bound in the map, and not current, keeps its binding across lines none of whose headers carries it |
| Materials.SectionsWellRead | configs/by_machine/qtplasmac/qtplasmac/qtplasmac_gcode.py:457-542 | When the rewrite and the reader agree on every header line, the reader sees the rewrite's sections: each header is a header to it with the section's number, and no body line is |
| Materials.SectionsCover | configs/by_machine/qtplasmac/qtplasmac/qtplasmac_gcode.py:461-473 | Every section header of the file numbers one of its sections |
| Materials.AfterRecord | configs/by_machine/qtplasmac/qtplasmac/qtplasmac_gcode.py:531-542 | Sections that do not carry the current number keep it bound to the values read before them |
| Materials.ReplacedBinds | configs/by_machine/qtplasmac/qtplasmac/qtplasmac_gcode.py:461-473 | Reading the sections with the target's replaced by the record, from any state, binds the target to the record's cut speed and kerf width, even when the target's section comes more than once |
| Materials.AppendedRecordBinds | configs/by_machine/qtplasmac/qtplasmac/qtplasmac_gcode.py:474-475 | A record appended to any file binds its number to its cut speed and kerf width once the file reads |
| Materials.ReplacedFileBinds | configs/by_machine/qtplasmac/qtplasmac/qtplasmac_gcode.py:448-542 | For a known material whose number heads a section, on a file where the rewrite and the reader agree on every line: once the rewritten file reads, the number is bound to the record's cut speed and kerf width |
| Materials.CopyWritten | configs/by_machine/qtplasmac/qtplasmac/qtplasmac_gcode.py:461-473 | The lines the second loop has written when it stops; equal to the full rewrite when that does not raise |
| Materials.RewriteAsWritten | configs/by_machine/qtplasmac/qtplasmac/qtplasmac_gcode.py:451-475 | The file as the source leaves it: the rewrite when it succeeds, and otherwise the lead lines and what the second loop wrote before it raised. It always keeps the lines before the first header |
| Materials.TrailedHeaderTests | configs/by_machine/qtplasmac/qtplasmac/qtplasmac_gcode.py:457-466 | `[MATERIAL_NUMBER_5] old` is a section header to the rewrite, whose number raises ValueError, and no header to the reader |
| Materials.RewriteEmptiesFile | configs/by_machine/qtplasmac/qtplasmac/qtplasmac_gcode.py:448-466 | A material file made of `[MATERIAL_NUMBER_5] old` reads without error, but writing any material into it raises ValueError and leaves the file empty |
| Materials.SkippedLineReads | configs/by_machine/qtplasmac/qtplasmac/qtplasmac_gcode.py:512-542 | A file of one line that is no header to the reader gives the map of material 0 alone |
| Materials.BadHeaderEmpties | configs/by_machine/qtplasmac/qtplasmac/qtplasmac_gcode.py:451-466 | A file of one section header with an unreadable number makes the rewrite raise ValueError, and the file as written is empty |
| Filter.LatchReduce | configs/by_machine/qtplasmac/qtplasmac/qtplasmac_gcode.py:170-173 | A reduction written while the latch is clear keeps the latch history consistent and sets the latch |
| Filter.LatchRestore | configs/by_machine/qtplasmac/qtplasmac/qtplasmac_gcode.py:182-185 | A restore written while the latch is set keeps the history consistent and clears the latch |
| Filter.LatchSeparated | configs/by_machine/qtplasmac/qtplasmac/qtplasmac_gcode.py:161-185 | Between any two velocity reductions there is a restore, and it writes a restore line |
| Filter.QuietKeeps | configs/by_machine/qtplasmac/qtplasmac/qtplasmac_gcode.py:161-220 | Dialogs extended only by warnings other than the feed warning block exactly when the original did and hold the same number of feed warnings |
| Filter.QuietTrans | configs/by_machine/qtplasmac/qtplasmac/qtplasmac_gcode.py:161-220 | Two such extensions in a row are one |
| Filter.HoleProfiles | configs/by_machine/qtplasmac/qtplasmac/qtplasmac_gcode.py:107-132 | Overcut and arc treatment come only with hole sensing. The overcut comment is written exactly when overcut is on. Profiles other than 1-4 disable sensing |
| Filter.DigitsOfShape | configs/by_machine/qtplasmac/qtplasmac/qtplasmac_gcode.py:305-309 | The collected material number holds only digits, and is the text itself when the text is all digits |
| Filter.MaterialNumber | configs/by_machine/qtplasmac/qtplasmac/qtplasmac_gcode.py:298-310 | The material number is non-negative. The only exception is ValueError, for a missing `p` or no digits |
| Filter.MaterialNumberOf | configs/by_machine/qtplasmac/qtplasmac/qtplasmac_gcode.py:298-310 | Round trip: `m190 p<n>` binds material n |
| Filter.ZOnlyComment | configs/by_machine/qtplasmac/qtplasmac/qtplasmac_gcode.py:791-800 | The comment written for a Z-only line starts with `(` |
| Filter.ZOnlyCommentKeeps | configs/by_machine/qtplasmac/qtplasmac/qtplasmac_gcode.py:793-799 | A Z-only line with one `(` or `;` comment becomes `(`, the code before the comment, a space and the comment text; a line without a comment becomes `(` + line + `)` |
| Filter.Printout | configs/by_machine/qtplasmac/qtplasmac/qtplasmac_gcode.py:886-894 | With an error, the five-line error program is printed. Otherwise the collected lines are printed |
| Pass.Reloaded | configs/by_machine/qtplasmac/qtplasmac/qtplasmac_gcode.py:474-479 | A reload succeeds exactly when both the rewrite and the map reader succeed, and then gives their results |
| Pass.ReloadBinds | configs/by_machine/qtplasmac/qtplasmac/qtplasmac_gcode.py:448-542 | Round trip: once a material written into the file reads back, its number is bound to its cut speed and kerf width. This needs the host to print both so that they read back, and, for a number already in the map, a section of that number and agreement of the rewrite and the reader on every line |
| Pass.PassState.constructor | configs/by_machine/qtplasmac/qtplasmac/qtplasmac_gcode.py:36-85 | Start-up values by units (diameter 32/1.26, overcut 4/0.157, velocity 60, temporary numbers from 1000000). The material map is read, or the reader's exception is recorded. Both invariants hold |
| Pass.PassState.EmitReduction | configs/by_machine/qtplasmac/qtplasmac/qtplasmac_gcode.py:170-173 | Allowed only while the latch is clear. Writes the reduction line, sets the latch and keeps `LatchOk` |
| Pass.PassState.EmitRestore | configs/by_machine/qtplasmac/qtplasmac/qtplasmac_gcode.py:182-185 | Allowed only while the latch is set. Writes the restore line, clears the latch and keeps `LatchOk` |
| Pass.PassState.WarnFeed | configs/by_machine/qtplasmac/qtplasmac/qtplasmac_gcode.py:557-569 | The feed warning is raised once, sets `feedWarning`, and keeps `DialogsOk` |
| Pass.PassState.Warn | configs/by_machine/qtplasmac/qtplasmac/qtplasmac_gcode.py:161-220 | A warning on the current line is added and nothing else; it blocks nothing |
| Pass.PassState.RewriteMaterialFile | configs/by_machine/qtplasmac/qtplasmac/qtplasmac_gcode.py:448-489 | `Written`: a rewrite that raises records its exception and keeps the file and the map. Otherwise the file is the rewritten one, and the map is the one read back from it, or the reader's exception is recorded. This is the corrected member of the finding below |
| Pass.PassState.ApplyDirective | configs/by_machine/qtplasmac/qtplasmac/qtplasmac_gcode.py:392-399 | `Applied`: kind 0 records the temporary material and its name and changes nothing else. Kind 1 with a number in use adds the "in use" error and keeps the file, the map, the temporary name and the temporary material. Any other directive writes the material in as `Written` says, and keeps the dialogs, the temporary name and the temporary material. `codeError` is unchanged |
| Pass.PassState.WriteMaterial | configs/by_machine/qtplasmac/qtplasmac/qtplasmac_gcode.py:396-399 | A directive that is neither temporary nor a new material whose number is in use is written into the material file as `Written` says; the dialogs, the temporary name and the temporary material are kept |
| Pass.PassState.CheckMaterialEdit | configs/by_machine/qtplasmac/qtplasmac/qtplasmac_gcode.py:334-406 | `Edited`: a parse exception is recorded, and the file, the map, the temporary material and the dialogs are kept. With no directive nothing changes. A directive is applied as in `ApplyDirective`. `codeError` is never set |
| Pass.PassState.MaterialEdit | configs/by_machine/qtplasmac/qtplasmac/qtplasmac_gcode.py:590-597 | The directive as in `CheckMaterialEdit`, read with the temporary number the line started with. Then a `(o=0` line that did not raise writes `m190 p<n> (<name>)` and `m66 p3 l3 q1` and advances the temporary number. Other lines write nothing and keep the number |
| Pass.PassState.TakeTemporary | configs/by_machine/qtplasmac/qtplasmac/qtplasmac_gcode.py:594-596 | Writes the change to the temporary material and the wait for it, and advances the temporary number |
| Pass.PassState.CollectDigits | configs/by_machine/qtplasmac/qtplasmac/qtplasmac_gcode.py:305-309 | The digit loop computes `DigitsOf` |
| Pass.PassState.ReadMaterialNumber | configs/by_machine/qtplasmac/qtplasmac/qtplasmac_gcode.py:298-310 | The parsing steps compute `MaterialNumber` |
| Pass.PassState.MaterialChange | configs/by_machine/qtplasmac/qtplasmac/qtplasmac_gcode.py:296-331 | A bad number raises ValueError and writes nothing. Otherwise the material is bound and published, the first material is remembered and the line is written. An unknown number raises a blocking error: "missing" below 1000000, "temporary reference" from it on |
| Pass.PassState.MissingReason | configs/by_machine/qtplasmac/qtplasmac/qtplasmac_gcode.py:314-320 | The dialog for an unknown material is neither the feed warning nor the "in use" error |
| Pass.PassState.UseMaterial | configs/by_machine/qtplasmac/qtplasmac/qtplasmac_gcode.py:310-331 | Binds, publishes and writes the material change. An unknown number adds one blocking dialog and sets `codeError` |
| Pass.PassState.KeepZMotion | configs/by_machine/qtplasmac/qtplasmac/qtplasmac_gcode.py:623-629 | Z bypass is on exactly when the value starts with `1`. A missing value raises IndexError |
| Pass.PassState.SetupTopZ | configs/by_machine/qtplasmac/qtplasmac/qtplasmac_gcode.py:633-641 | The top-of-Z move is written once, before the first motion and unless Z motion is kept. It replaces a line that already moves to the Z limit |
| Pass.PassState.SwitchUnits | configs/by_machine/qtplasmac/qtplasmac/qtplasmac_gcode.py:643-656 | `g21` on an inch machine and `g20` on a metric one set the multiplier and the default diameter and overcut, unless the user set them. Otherwise nothing changes |
| Pass.PassState.Prepare | configs/by_machine/qtplasmac/qtplasmac/qtplasmac_gcode.py:622-662 | `#<keep-z-motion>` sets Z bypass from the value (IndexError without one) and consumes the line. A repeated move to the Z limit after set-up is dropped. Any other line goes on: the top-of-Z move is written once before the first motion, and `out`, the line or the top-of-Z move that replaces it, switches the units and sets the G41 flag on `g41` and clears it on `g40` |
| Pass.PassState.FirstMotion | configs/by_machine/qtplasmac/qtplasmac/qtplasmac_gcode.py:633-662 | The top-of-Z move is written once, before the first `g0`, `g1` or `m3` unless Z motion is kept, and replaces a line that already moves to the Z limit. `out` then switches the units and sets or clears the G41 flag |
| Pass.PassState.PierceOnlyLine | configs/by_machine/qtplasmac/qtplasmac/qtplasmac_gcode.py:676-703 | `m3$2` starts spotting and writes one note. While spotting, lines are skipped until `m5$2`. These keep the pierce count and the held rapid. Otherwise spotting stays off, a rapid is held back, each pierce writes the six-line pierce block with the held rapid and clears it, and other lines are kept only before the first pierce or when they start with `o` or `#` |
| Pass.PassState.StartPierceOnly | configs/by_machine/qtplasmac/qtplasmac/qtplasmac_gcode.py:704-718 | While scribing, only a warning is added; the mode, the output, the pierce count and the held rapid are kept. Otherwise pierce-only mode starts with no pierces and no held rapid, and its comment is written |
| Pass.PassState.SetOvercutLength | configs/by_machine/qtplasmac/qtplasmac/qtplasmac_gcode.py:719-723 | The overcut length becomes the parsed value and is marked user-set. A missing value raises IndexError and a bad one ValueError |
| Pass.PassState.SetHoleType | configs/by_machine/qtplasmac/qtplasmac/qtplasmac_gcode.py:107-132 | The flags become the profile of the first character of the value, and its comments are written. A missing value raises IndexError |
| Pass.PassState.SetHoleDiameter | configs/by_machine/qtplasmac/qtplasmac/qtplasmac_gcode.py:728-748 | The diameter is the value before a `;` or `(` comment and is marked user-set. The `m_`/`i_` spellings add a deprecation warning. Missing and bad values raise |
| Pass.PassState.SetHoleVelocity | configs/by_machine/qtplasmac/qtplasmac/qtplasmac_gcode.py:749-753 | The hole velocity becomes the float before a `;`. Missing and bad values raise |
| Pass.PassState.Scribe | configs/by_machine/qtplasmac/qtplasmac/qtplasmac_gcode.py:663-675 | In pierce-only mode a scribe start only warns and clears scribing. Otherwise it sets scribing and writes the line |
| Pass.PassState.PierceOnlyAsked | configs/by_machine/qtplasmac/qtplasmac/qtplasmac_gcode.py:705 | Without `#<pierce-only>`, pierce-only mode is asked for exactly when it is off and the cut type is 1. The only exception is IndexError, from a `#<pierce-only>` line without a value |
| Pass.PassState.Modes | configs/by_machine/qtplasmac/qtplasmac/qtplasmac_gcode.py:663-753 | In pierce-only mode, and after an exception, the line is consumed. `codeError` is unchanged |
| Pass.PassState.Settings | configs/by_machine/qtplasmac/qtplasmac/qtplasmac_gcode.py:719-753 | `#<oclength>`, `#<holes>`, `#<h_diameter>` (and its `m_`/`i_` spellings) and `#<h_velocity>` each set their value as in the setter for that prefix, with its comment line, deprecation warning and exceptions. `#<holes>` advances the line counter by one less than the lines it writes; the other settings keep it, and only the diameter adds a dialog. Any other line writes nothing, keeps the dialogs and the counter, and is consumed only when an exception is already recorded. `codeError` is unchanged |
| Pass.PassState.CheckMath | configs/by_machine/qtplasmac/qtplasmac/qtplasmac_gcode.py:285-293 | With hole sensing on, an axis value given as `[...]` or `#` adds exactly one blocking error and sets `codeError`. Otherwise nothing changes |
| Pass.PassState.DistanceModes | configs/by_machine/qtplasmac/qtplasmac/qtplasmac_gcode.py:769-782 | With hole sensing on, `g91` (not `g91.1`) adds the distance-mode error, else `g90.1` adds the arc-distance-mode error, and either sets `codeError`. Otherwise nothing changes |
| Pass.DistanceDialogs | configs/by_machine/qtplasmac/qtplasmac/qtplasmac_gcode.py:769-782 | At most one dialog, and it is a blocking error |
| Pass.MathDialog | configs/by_machine/qtplasmac/qtplasmac/qtplasmac_gcode.py:283-293 | An explicit-value error exactly when the axis is present and its value is an expression or a parameter |
| Pass.PassState.MaterialLines | configs/by_machine/qtplasmac/qtplasmac/qtplasmac_gcode.py:754-768 | `m190` with a bad number raises ValueError and writes nothing. `m190` with a number binds and publishes it, remembers the first material, writes the line, adds the missing-material error for an unknown number, and, when the line also holds `m66`, writes it a second time with the G41 error under G41. `m66` alone writes the line, with the G41 error under G41 (the outcome is the predicate `MaterialHandled`). Other lines change nothing and go on |
| Pass.PassState.MaterialSwitch | configs/by_machine/qtplasmac/qtplasmac/qtplasmac_gcode.py:754-768 | The material change followed, when asked, by the material wait: the line written once or twice, the missing-material error and the G41 error in that order |
| Pass.PassState.MaterialWait | configs/by_machine/qtplasmac/qtplasmac/qtplasmac_gcode.py:764-768 | The line is written. Under G41 the compensation error is added and `codeError` is set; otherwise nothing else changes |
| Pass.PassState.Checks | configs/by_machine/qtplasmac/qtplasmac/qtplasmac_gcode.py:754-787 | Material changes and waits consume the line with the outcome `MaterialHandled` states, the same as `MaterialLines`: the ValueError, the binding, the published number, the first material, the lines written and the dialogs. Any other line goes on, writes nothing, and with hole sensing on gains the distance-mode error, then the explicit-value errors for X, Y, I and J, in that order |
| Pass.PassState.LineChecks | configs/by_machine/qtplasmac/qtplasmac/qtplasmac_gcode.py:769-787 | With hole sensing on the dialogs gain the distance-mode error, then the explicit-value errors for X, Y, I and J, in that order. Without it nothing is added. `codeError` is never cleared |
| Pass.PassState.ReduceVelocity | configs/by_machine/qtplasmac/qtplasmac/qtplasmac_gcode.py:161-179 | Under G41 only the inactive marker is written, the latch is kept and the line counter advances by one. Otherwise the latch is set, and the reduction is written (and counted as a line) only if the latch was clear. The dialogs gain exactly the G41 warning under G41 and the clockwise-hole warning for a `g2` hole, both carrying the line counter it leaves. Both invariants are kept |
| Pass.PassState.HoleRadius | configs/by_machine/qtplasmac/qtplasmac/qtplasmac_gcode.py:154-186 | The radius is sqrt(I² + J²). A small hole, or a small arc with arcs enabled, writes the G41 marker under G41, else the reduction unless the latch is set, and sets the latch unless under G41. Any other arc writes the restore and clears the latch if it was set. The latch history gains exactly the reduction or restore written, the line counter advances by the lines written, and the dialogs gain exactly the warnings of `RadiusDialogs` |
| Pass.RadiusLines | configs/by_machine/qtplasmac/qtplasmac/qtplasmac_gcode.py:154-186 | At most one line, and none exactly when a wanted reduction finds the latch set outside G41, or no reduction is wanted and the latch is clear |
| Pass.RadiusEvents | configs/by_machine/qtplasmac/qtplasmac/qtplasmac_gcode.py:154-186 | At most one latch event: the reduction when one is wanted, and otherwise the restore |
| Pass.RadiusDialogs | configs/by_machine/qtplasmac/qtplasmac/qtplasmac_gcode.py:161-179 | At most two warnings, only when a reduction is wanted, each on the line it is given |
| Pass.PassState.TorchOff | configs/by_machine/qtplasmac/qtplasmac/qtplasmac_gcode.py:197-206 | Under G41 the inactive marker and a warning are written. Otherwise the torch-disable line is written and the torch is off |
| Pass.PassState.Overburn | configs/by_machine/qtplasmac/qtplasmac/qtplasmac_gcode.py:189-220 | An unknown cursor raises TypeError and a zero radius raises ZeroDivisionError; both write nothing and keep the dialogs and the line counter. Otherwise the torch-disable line (or the G41 marker and a warning on the next line) and the continuation arc to the overcut end are written, the line counter advances by two, and the cursor moves to that end, the start turned by `ocLength / radius` the arc's way |
| Pass.PassState.OverburnMove | configs/by_machine/qtplasmac/qtplasmac/qtplasmac_gcode.py:197-220 | The torch-disable line, or under G41 the marker with the torch left alone and a warning on the next line, then the continuation arc to the given end in the arc's direction, are written. The line counter advances by two, no other dialog is added, and the cursor moves to that end |
| Pass.PassState.ArcValue | configs/by_machine/qtplasmac/qtplasmac/qtplasmac_gcode.py:137-141 | A present axis is read with `get_position`, and an absent one takes its fallback |
| Pass.PassState.ArcWords | configs/by_machine/qtplasmac/qtplasmac/qtplasmac_gcode.py:136-140 | The loop over the arc words computes `ArcWordsOf` from the cursor |
| Pass.PassState.ReadArc | configs/by_machine/qtplasmac/qtplasmac/qtplasmac_gcode.py:135-151 | Reads the arc's words and then handles it as `ArcHandled` says; the dialogs gain only warnings that block nothing, and a line that does not raise is written |
| Pass.ArcWordsOf | configs/by_machine/qtplasmac/qtplasmac/qtplasmac_gcode.py:136-140 | X and Y default to the cursor, and I and J to 0. Each present word is read with `get_position`, and an exception comes from one of them |
| Pass.PassState.CheckIfHole | configs/by_machine/qtplasmac/qtplasmac/qtplasmac_gcode.py:135-151 | `ArcHandled`: an exception reading the words is recorded, and the output, the dialogs and the line counter are kept. The arc is a hole exactly when its end equals the cursor; the velocity lines of `get_hole_radius` for that, then the arc line, are written, with the dialogs and line counter as in `HoleRadius`. A hole with overcut on and radius at most half the small-hole diameter gets the overcut as in `Overburn`; any other arc moves the cursor to the arc's end. Both invariants are kept |
| Pass.PassState.HoleArc | configs/by_machine/qtplasmac/qtplasmac/qtplasmac_gcode.py:141-151 | `ArcCopied`: the hole test is end == cursor. The velocity lines for the radius, with their dialogs and line count, then the arc line are written. An overcut (hole, overcut on, radius at most half the diameter) is written as in `Overburn`; otherwise the cursor moves to the arc's end and the dialogs and line counter are those after the velocity lines |
| Pass.PassState.ArcEnd | configs/by_machine/qtplasmac/qtplasmac/qtplasmac_gcode.py:144-151 | `ArcTail`: the arc line is written first. Without an overcut the cursor moves to the arc's end and the dialogs and line counter are kept. With one, an unknown cursor raises TypeError, a zero radius ZeroDivisionError, and otherwise the torch line and the continuation arc are written, with the line count and dialog of `Overburn`, and the cursor moves to the overcut end |
| Pass.PassState.CommentOutZ | configs/by_machine/qtplasmac/qtplasmac/qtplasmac_gcode.py:801-807 | With hole sensing the cursor is updated first. With the latch set the script raises UnboundLocalError. Otherwise the line with its Z words moved into a comment is written |
| Pass.PassState.ZWords | configs/by_machine/qtplasmac/qtplasmac/qtplasmac_gcode.py:788-807 | Without Z bypass and with a `z`: nothing after the `z` raises IndexError; a `z` not followed by a number character leaves the line to the later steps. A Z-only line is written as `ZOnlyComment`. A line with other axes and no `(z` updates the cursor under hole sensing and is written with its Z words moved into a comment (UnboundLocalError with the latch set); with `(z` it goes on. With Z bypass or no `z` nothing changes |
| Pass.PassState.SpindleOff | configs/by_machine/qtplasmac/qtplasmac/qtplasmac_gcode.py:825-841 | A plain `m5` is written, then the `m68` restore if the latch was set and the torch enable if the torch was off; the line counter advances once for each of those two. `m50`-`m59` are only written, and keep the counter |
| Pass.PassState.ProgramEnd | configs/by_machine/qtplasmac/qtplasmac/qtplasmac_gcode.py:842-866 | The restore, the torch enable and the end of hole sensing are written as needed, then the end line. The first material is published again |
| Pass.PassState.Switches | configs/by_machine/qtplasmac/qtplasmac/qtplasmac_gcode.py:808-866 | A bare `g2`/`g3` raises IndexError and keeps the output, the dialogs and the line counter. An arc whose third character is a letter goes to hole detection (`ArcHandled`) under hole sensing, and is otherwise copied with the dialogs and line counter kept. Then `m62p3`/`m64p3` disable and `m63p3`/`m65p3` enable the torch and are copied, keeping the dialogs, the latch history and the line counter; `m5` is a spindle stop, and `m2`/`m30`/`%` end the program, with their line counts as in those members. Any other line changes nothing and goes on |
| Pass.PassState.ArcSwitch | configs/by_machine/qtplasmac/qtplasmac/qtplasmac_gcode.py:808-813 | A bare `g2`/`g3` raises IndexError and keeps the output, the dialogs and the line counter. An arc whose third character is a letter is handled by hole detection (`ArcHandled`) under hole sensing, and is otherwise copied with the dialogs and line counter kept. Any other arc line changes nothing, the line counter and dialogs included, and goes on |
| Pass.PassState.ToolSwitch | configs/by_machine/qtplasmac/qtplasmac/qtplasmac_gcode.py:814-866 | Torch disables and enables set the torch flag, are copied and keep the latch history and the line counter. A plain spindle stop writes `m5`, then the restore if the latch was set and the torch enable if the torch was off, counting one line for each; `m50`-`m59` are only copied. A program end writes its lines as in `ProgramEnd` and counts them. Any other line changes nothing and goes on |
| Pass.PassState.CheckFeed | configs/by_machine/qtplasmac/qtplasmac/qtplasmac_gcode.py:544-569 | An unbound material falls back to the current one. No feed text changes nothing. A bad number raises ValueError and an unknown material KeyError. A feed that differs from the material's raises the warning once |
| Pass.PassState.CompareFeed | configs/by_machine/qtplasmac/qtplasmac/qtplasmac_gcode.py:553-569 | A feed that is no number raises ValueError and an unknown material KeyError. A feed that differs from the material's cut feed rate raises the warning once and sets `feedWarning`; otherwise nothing changes |
| Pass.PassState.FeedWord | configs/by_machine/qtplasmac/qtplasmac/qtplasmac_gcode.py:867-871 | `FeedChecked` and `FeedRaise`: a line without `f`, or whose F word names the cut-feed-rate pin, changes nothing. Otherwise an unbound material falls back to the current one; a bad number raises ValueError and an unknown material KeyError, both adding no dialog; and a feed that differs from the material's adds the warning once |
| Pass.PassState.PlainLine | configs/by_machine/qtplasmac/qtplasmac/qtplasmac_gcode.py:867-880 | The F word is checked as in `FeedWord`. If that raises, the output, the latch, the line counter and the cursor are kept. Otherwise a set latch is cleared with a restore, which advances the line counter by one, the cursor follows the line under hole sensing (its exception is recorded after the restore), and the line is written |
| Pass.FeedRaise | configs/by_machine/qtplasmac/qtplasmac/qtplasmac_gcode.py:544-569 | The F-word check raises only on a line it looks at with feed text: ValueError for text that is no number, KeyError for a material missing from the map |
| Pass.PassState.CopyLine | configs/by_machine/qtplasmac/qtplasmac/qtplasmac_gcode.py:872-880 | A set latch is cleared with a restore, which advances the line counter by one (and the counter is kept otherwise), the cursor becomes `set_last_position` of the line under hole sensing or else is kept, and the line is written. An exception from the cursor update is recorded and the line is not written |
| Pass.PassState.Motion | configs/by_machine/qtplasmac/qtplasmac/qtplasmac_gcode.py:788-880 | Z words, then arcs and switches, then any other line, in that order; both invariants are kept and `codeError` is unchanged |
| Pass.PassState.Intake | configs/by_machine/qtplasmac/qtplasmac/qtplasmac_gcode.py:579-588 | The line counter advances by one, and the line is stripped with its line number dropped |
| Pass.PassState.CodeLine | configs/by_machine/qtplasmac/qtplasmac/qtplasmac_gcode.py:602-880 | Both invariants are kept, and `codeError` is never cleared |
| Pass.PassState.NormalLine | configs/by_machine/qtplasmac/qtplasmac/qtplasmac_gcode.py:622-880 | The set-up, then, unless it consumed the line, the rest of the pass on its output. Both invariants are kept, and `codeError` is never cleared |
| Pass.PassState.Dispatch | configs/by_machine/qtplasmac/qtplasmac/qtplasmac_gcode.py:663-880 | Modes, checks and motion, in that order. Both invariants are kept, and `codeError` is never cleared |
| Pass.PassState.ProcessLine | configs/by_machine/qtplasmac/qtplasmac/qtplasmac_gcode.py:579-880 | Both invariants are kept, and `codeError` is never cleared |
| Pass.PassState.Finish | configs/by_machine/qtplasmac/qtplasmac/qtplasmac_gcode.py:881-885 | In pierce-only mode a blank line, the held rapid if any, and `M2 (END)` are added. Otherwise nothing is added |
| Pass.PassState.Output | configs/by_machine/qtplasmac/qtplasmac/qtplasmac_gcode.py:886-894 | An exception prints nothing. Otherwise the error program is printed when `codeError` is set, and the collected lines when it is not |
| Pass.PassState.Run | configs/by_machine/qtplasmac/qtplasmac/qtplasmac_gcode.py:577-894 | `codeError` holds exactly when some dialog is a blocking error. At most one feed warning is raised. An exception at start-up is the outcome. The outcome is `Output()` |
| Pass.RunScript | configs/by_machine/qtplasmac/qtplasmac/qtplasmac_gcode.py:576-894 | An unreadable material or preference file raises before any line. A printed outcome means the files were read |

## Left out

- Qt dialogs are `Dialog` records: a severity, a reason and a line number. Their text, colours and modality are not modelled.
- HAL: material-number writes are the `published` list. Reading `cut_type`, `material_change_number` and `max-offset` becomes constructor parameters. The `material_temp` and `material_reload` handshakes are not modelled.
- The INI file: the linear units become a constructor parameter. The material and preference files, whose paths are built from the machine name (:37), are passed in as their contents; the machine name and the paths are not modelled.
- The busy-wait loops of `write_temp_default_material` (:436-445) and `rewrite_material_file` (:480-489) are not modelled. Neither is the timeout warning that each raises after three seconds, because both depend on the clock and on another process.
- File I/O: the program, the material file and the preferences file are sequences of lines without line ends. The `.bkp` copy of the material file is not modelled.
- `write_temp_default_material` (:416-434): the temporary material is kept as a record (`tempMaterial`), not as the text of the temporary file.
- Floating point: `sqrt`, `cos`, `sin`, `str(float)` and fixed-point formatting come from a `Host` record of functions. The geometry lemmas take the needed identities as hypotheses.
- `int()` and `float()` accept decimal text with an optional sign. Exponents, `inf`/`nan`, underscores and other Unicode digits are not modelled.
- The global `holeType` set by `set_hole_type` (:109) is never read, and it is not modelled.
- Pass.PassState.Modes: the contract states only that the line is consumed in pierce-only mode or after an exception, and that `codeError` is unchanged. Each mode's effect is stated by the member for that mode.
- Pass.PassState.Motion: the contract states only the invariants. What each of its three steps writes and changes is stated by `ZWords`, `Switches` and `PlainLine`.
- Pass.PassState.CodeLine: the contract states only the invariants and that `codeError` is never cleared. The output written for each kind of line is stated by the members it calls.
- Pass.PassState.Dispatch: the same as `CodeLine`; its steps are stated by `Modes`, `Checks` and `Motion`.
- Pass.PassState.NormalLine: the same as `CodeLine`; its steps are stated by `Prepare` and `Dispatch`.
- Pass.PassState.ProcessLine: the same as `CodeLine`.
- Text is ASCII: `isdigit`, `isalpha`, `isspace`, `lower` and `strip` treat only ASCII digits, letters, whitespace and capitals as such. Python's Unicode digits, letters, whitespace and case mapping are not modelled.
- Pass.PassState.Run: the printed lines are related to the input only through the per-line members, not by one specification of the whole output.
- Pass.ReloadBinds: the round trip needs the host to print the cut speed and kerf width so that they read back as themselves. For a number already in the map it also needs a section of that number in the file, and the rewrite and the reader to agree on every line. Material 0 comes from the preferences and so counts as known even when the file has no section 0; a directive for it writes no record into a file that has other sections but none numbered 0.
- Materials.ReplacedFileBinds: needs the same agreement of the rewrite and the reader on every line of the file.
- Pass.PassState.CheckMaterialEdit: when the directive parser raises after a temporary directive has named the material, the name already set in `tmpMatNam` is not stated.
- Pass.PassState.RewriteMaterialFile: models the corrected behaviour of the finding below, in which a rewrite that raises keeps the file. The file the source leaves is `Materials.RewriteAsWritten`.
- Pass.PassState.RewriteMaterialFile: when the reader raises, the map it had built before the exception is not kept; `materialDict` is left as it was.

## Findings

| source | as written | input that shows it | evidently intended | confidence | as-written member | corrected member |
|---|---|---|---|---|---|---|
| configs/by_machine/qtplasmac/qtplasmac/qtplasmac_gcode.py:448-475 | `rewrite_material_file` opens the material file for writing (:452), which empties it, before it reads the numbers of the section headers (:466). A header whose number `int()` rejects raises ValueError after the file is emptied, so the file keeps only what was written before that header | a material file holding the one line `[MATERIAL_NUMBER_5] old`, which `get_materials` reads without error because it skips the line, and any material written into it | a rewrite that raises leaves the material file as it was | not executed | Materials.RewriteEmptiesFile | Pass.PassState.RewriteMaterialFile |
