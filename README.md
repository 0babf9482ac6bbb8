# aiida-jdftx input encoder and output decoder, in Dafny

This project models the two halves of the AiiDA plugin for the JDFTx
density-functional code:

- **The input encoder.** `JdftxCalculation._generate_inputdata` turns a
  structure, pseudopotentials, a k-point mesh, a parameter dictionary and a
  `settings` dictionary into the lines of the JDFTx input file and the list
  of pseudopotential files to stage. `_if_pos` maps a "fixed" flag to 0 and
  a free coordinate to 1.
- **The output decoder.** `JdftxParser.parse` reads the retrieved folder: the
  stdout transcript (`parse_stdout`, `grep_energy_from_line`), the dump files
  `aiida.Ecomponents`, `aiida.lattice`, `aiida.ionpos` and `aiida.kPts`
  (`parsed_ecomponents`, `parsed_structure`, `parsed_kpoints`), and builds a
  trajectory from them (`build_output_trajectory`).

Each operation is a pure specification function. Where the source works by
loops and updates, there is also a method that does the same work step by
step and is proved equal to that function:

- `GenerateInputData` pops `fixed_coords` from a `Settings` object.
- `JdftxParser` keeps `exit_code_stdout` as a field that each sub-parser
  overwrites.

Lemmas then state what the functions mean. The encoder lemmas say when a
file is produced at all, where each block sits, that the species lines name
the staged copies, and which tokens read back as the integers written. The
decoder lemmas say how many frames and cells a transcript yields, which exit
code is left behind, how each energy label fills its channel or its key (the
last mention wins in the energy-components file), and how each dump line
becomes a site, a lattice row, or a k-point and its weight.

Modules:

| module | file | contents |
|---|---|---|
| `Wrappers` | wrappers.dfy | `Option`, `Result` |
| `Text` | text.dfy | Python's `in`, `split(sep)`, `split()`, `strip()`, `ljust`, list slicing |
| `Numbers` | numbers.dfy | `str(n)` / `:d`, `float(text)` on decimal literals, unit constants |
| `Nodes` | nodes.dfy | the structure, kind, site, pseudopotential, k-point and settings values |
| `Calculations` | calculations.dfy | the encoder |
| `CalculationProperties` | calculation_properties.dfy | what the encoded file is |
| `Parsers` | parsers.dfy | the decoder and the `JdftxParser` class |
| `ParserProperties` | parser_properties.dfy | what the decoder reads back |

Where the code departs from what its comments suggest, the model follows
the code:

- **The copy list is not deduplicated.** The comment at
  aiida_jdftx/calculations.py:146-149 says `pseudo_filenames` keeps one file
  name per pseudopotential so that files are not overwritten. The dictionary
  is filled (`WriteSpecies` keeps it as a local) but never read: one staging
  entry is made per kind, and two kinds with the same pseudopotential are
  staged twice to the same target (`CopiesFollowKinds`).
- **There is one flag per site, not one per axis.** The `_if_pos` docstring
  (aiida_jdftx/calculations.py:253-255) refers to Quantum Espresso's per-axis
  `if_pos`, but one flag is made per site. Without `fixed_coords`, every flag
  is the integer 0, which is what `_if_pos` gives a *fixed* coordinate
  (`DefaultFlagsFixEveryIon`).
- **A valid `fixed_coords` list never yields a file for a structure with
  sites.** The comment at aiida_jdftx/calculations.py:179 expects a list of
  bools, but each boolean becomes the text `' 0'` or `' 1'`, and the `{4:d}`
  format refuses text with a ValueError. So the positions block exists only
  when `fixed_coords` is absent, or empty for a structure without sites
  (`PositionsOkIff`, `EncodeOkIff`, `FixedCoordsFormatError`).
- **The encoder is not pure.** It pops `fixed_coords` from the caller's
  settings, but only once every kind has been accepted
  (`GenerateInputData`, `FirstBadKindDecides`, `SettingsLoseOnlyFixedCoords`).
- **Malformed dump content raises past the sub-parsers.** A bad number or a
  missing field in a k-point, lattice or ionpos line escapes them, just as
  a bad energy line does (`DecodeError`).
- **The energy scan starts at its header line.** It reads up to the first
  blank line.
- **Labels are matched as substrings.** A line with `Exc_core` also feeds
  the `energy_xc` channel (`ExcCoreAlsoFeedsXc`).
- **Positions carry over between steps.** The `positions` of a step are the
  last ones read, possibly in an earlier step, and once a relaxation step
  has multiplied them they are Cartesian. A first relaxation step without
  an ionic-positions header raises, because `positions` was never
  assigned (`FirstRelaxNeedsPositions`).
- **The last exit code set wins.** The k-points file, read last, decides the
  code whenever it is missing or unreadable (`ParseExitCode`).

## Model

| member | source | states |
|---|---|---|
| Calculations.IfPos | aiida_jdftx/calculations.py:251-259 | the flag is 0 or 1, and 0 exactly for a fixed coordinate |
| Calculations.FirstUnsupported | aiida_jdftx/calculations.py:157-165 | the index of the first kind without a pseudopotential or that is an alloy or has vacancies; every earlier kind is supported |
| Calculations.FirstNonBool | aiida_jdftx/calculations.py:194-196 | the index of the first `fixed_coords` element that is not a bool; every earlier one is a bool |
| Calculations.FixedFlags | aiida_jdftx/calculations.py:182-198 | the flags are built exactly when `fixed_coords` is absent, or a sized value of one bool per site; absent, every flag is 0, otherwise each is the text of `_if_pos`; no length is a TypeError, a wrong length is the length error with both sizes, and otherwise the first non-bool is reported at its 1-based position with every earlier element a bool |
| Calculations.Settings.constructor | aiida_jdftx/calculations.py:129 | the settings dictionary holds the given entries |
| Calculations.Settings.Pop | aiida_jdftx/calculations.py:183 | `dict.pop`: the key is removed, nothing else changes, and the stored value or the default is returned |
| Calculations.WriteLattice | aiida_jdftx/calculations.py:140-142 | the loop yields the lattice header and one continued row per cell vector |
| Calculations.WriteSpecies | aiida_jdftx/calculations.py:157-176 | the kinds loop yields one species line and one copy entry per kind, or the error of the first unsupported kind |
| Calculations.WriteFlags | aiida_jdftx/calculations.py:182-198 | the flag loop yields the flags, or the length or non-bool validation error |
| Calculations.WritePositions | aiida_jdftx/calculations.py:200-208 | the site loop yields the coords-type line and one ion line per site, or fails at the first text flag |
| Calculations.WriteParam | aiida_jdftx/calculations.py:216-222 | one scalar line, or a header and one continued line per inner key |
| Calculations.WriteKpoints | aiida_jdftx/calculations.py:226-234 | the k-point lines are the folding line and the offset line with weight one, or the error for k-points without a mesh |
| Calculations.WriteControl | aiida_jdftx/calculations.py:213-222 | the parameters are rendered in insertion order |
| Calculations.GenerateInputData | aiida_jdftx/calculations.py:124-249 | the file and copy list of `Encode` (the specification function of `_generate_inputdata`), and the settings left with `fixed_coords` popped once the kinds are accepted |
| CalculationProperties.SpeciesOkIff | aiida_jdftx/calculations.py:157-165 | the species block exists if and only if every kind is supported |
| CalculationProperties.PositionsOkIff | aiida_jdftx/calculations.py:182-208 | the positions block exists if and only if `fixed_coords` is absent, or empty with no sites |
| CalculationProperties.EncodeOkIff | aiida_jdftx/calculations.py:157-234 | a file is produced if and only if the kinds, `fixed_coords` and the k-point mesh are all usable |
| CalculationProperties.FirstBadKindDecides | aiida_jdftx/calculations.py:157-183 | the first unsupported kind decides the error (a missing pseudopotential is a KeyError), and the settings are untouched |
| CalculationProperties.SettingsLoseOnlyFixedCoords | aiida_jdftx/calculations.py:183 | once every kind is accepted, `fixed_coords` is gone and every other setting is unchanged, whether or not the rest of the call then fails |
| CalculationProperties.FixedCoordsLengthError | aiida_jdftx/calculations.py:188-192 | with the kinds accepted, a sized `fixed_coords` of the wrong length makes the call fail with the length validation error carrying both sizes |
| CalculationProperties.FixedCoordsNonBoolError | aiida_jdftx/calculations.py:194-196 | with the kinds accepted and the length right, the first non-bool element makes the call fail with a validation error naming its 1-based position |
| CalculationProperties.FixedCoordsFormatError | aiida_jdftx/calculations.py:194-208 | with the kinds accepted, a valid list of bools for at least one site passes validation and then fails at the `{4:d}` format, which is not a validation error |
| CalculationProperties.CopiesFollowKinds | aiida_jdftx/calculations.py:151-173 | one copy entry per kind with that kind's pseudopotential uuid, file name and target; two kinds staged from the same pseudopotential give equal entries, so nothing is deduplicated |
| CalculationProperties.AssembleLayout | aiida_jdftx/calculations.py:240-247 | each block sits at its offset, followed by an empty line, and the dump block closes the file |
| CalculationProperties.AssembleSeparators | aiida_jdftx/calculations.py:240-247 | the separators and the first line of each block, by offset |
| CalculationProperties.EncodedBlocks | aiida_jdftx/calculations.py:140-249 | an accepted input is assembled from a species block naming the copy targets, a positions block with one line per site, and the two-line k-point block |
| CalculationProperties.FileLength | aiida_jdftx/calculations.py:240-247 | the file has one line per cell vector, kind, site and control line, plus twelve, and ends with the dump lines |
| CalculationProperties.BlockSeparators | aiida_jdftx/calculations.py:240-247 | each of the six blocks is closed by an empty line at its computed offset |
| CalculationProperties.BlockHeads | aiida_jdftx/calculations.py:140-234 | the lattice, positions and k-point blocks open with their keyword lines at their computed offsets |
| CalculationProperties.SpeciesLinesNameCopies | aiida_jdftx/calculations.py:168-176 | each `ion-species` line of the file names the target its pseudopotential is copied to |
| CalculationProperties.DefaultFlagsFixEveryIon | aiida_jdftx/calculations.py:183-207 | without `fixed_coords`, every ion line carries `_if_pos(True)`, the integer 0 |
| CalculationProperties.ControlBlockConcat | aiida_jdftx/calculations.py:213-222 | parameters render independently and in order |
| CalculationProperties.ScalarControlLines | aiida_jdftx/calculations.py:216-218 | non-dictionary parameters give exactly one line each, in order |
| CalculationProperties.NestedLinesCount | aiida_jdftx/calculations.py:219-222 | a dictionary value gives one continued line per inner key, in order |
| CalculationProperties.KeyLeadsScalarLine | aiida_jdftx/calculations.py:218 | a one-word key is the first word of its padded control line, followed by the words of the value |
| CalculationProperties.FoldingLineReadsBack | aiida_jdftx/calculations.py:233 | the `kpoint-folding` line splits into four words whose last three read back as the mesh sizes |
| Numbers.ParseIntToString | aiida_jdftx/calculations.py:233 | `float` of the `:d` rendering of an integer is that integer |
| Text.Strip | aiida_jdftx/parsers.py:127 | `strip()` is empty exactly for blank text, has non-blank ends, and leaves text with non-blank ends as it is |
| Text.StripIsSlice | aiida_jdftx/parsers.py:127 | `strip()` is the slice of the text between a blank prefix and a blank suffix; with Strip's non-blank ends this fixes it as the text between its leading and trailing whitespace |
| Text.PySlice | aiida_jdftx/parsers.py:217 | a list slice clipped at the end, element by element |
| Text.LJust | aiida_jdftx/calculations.py:206-207 | `ljust` keeps the text and pads with spaces up to the width |
| Parsers.ParseFloats | aiida_jdftx/parsers.py:217 | a list of floats has one number per text, or fails with a ValueError |
| Parsers.ParseFloatsMeaning | aiida_jdftx/parsers.py:217 | the list converts if and only if every text does, and each number is `float` of its text |
| Parsers.Scale | aiida_jdftx/parsers.py:304 | scaling a matrix keeps its shape and multiplies every entry by the factor |
| Parsers.CellAt | aiida_jdftx/parsers.py:299-304 | a cell is read exactly when lines count+2..count+4 each give their fields 1..3 and the three rows are equally long; row k is then `bohr_to_ang` times the fields of line count+2+k |
| Parsers.CellOfVectors | aiida_jdftx/parsers.py:304 | `np.array([a1, a2, a3]) * bohr_to_ang` exists exactly for vectors of one length (otherwise numpy's array error), and row k is vector k scaled |
| ParserProperties.LatticePartShape | aiida_jdftx/parsers.py:299-307 | a line with the lattice header appends exactly the cell read below it and marks the step as a relaxation step; any other line leaves the cells alone |
| Parsers.MatMul | aiida_jdftx/parsers.py:324 | the product exists exactly when both operands are rectangular, non-empty and the rows of `p` are as long as `c` is high; ragged operands are numpy's array error; the product has one row per position, each as wide as `c`, and entry (i, j) is the dot product of row i with column j |
| Parsers.RelaxSteps | aiida_jdftx/parsers.py:266-268 | one step per occurrence of the minimization delimiter |
| Parsers.BuildOutputTrajectory | aiida_jdftx/parsers.py:81-110 | at least one frame and one cell, step ids `0..n-1` matching the frames, and one symbol per site, its kind name |
| Parsers.AppendLineEnergies | aiida_jdftx/parsers.py:284-297 | the label loop over one energy line agrees with the specification function |
| Parsers.ReadEnergyBlock | aiida_jdftx/parsers.py:278-297 | the energy block loop, up to the first blank line, agrees with the specification function |
| Parsers.ReadIonicBlock | aiida_jdftx/parsers.py:310-318 | the ionic-positions loop agrees with the specification function |
| Parsers.ScanLine | aiida_jdftx/parsers.py:276-318 | the three header checks on one line agree with the specification function |
| Parsers.ScanStep | aiida_jdftx/parsers.py:272-326 | one step's line loop and relaxation check agree with the specification function |
| Parsers.ScanTranscript | aiida_jdftx/parsers.py:266-326 | the loop over steps agrees with the specification function |
| Parsers.RecordEcomponents | aiida_jdftx/parsers.py:164-178 | the label loop over one energy-components line agrees with the specification function |
| Parsers.ReadEcomponents | aiida_jdftx/parsers.py:160-180 | the line loop over the energy-components file agrees with the specification function |
| Parsers.JdftxParser.constructor | aiida_jdftx/parsers.py:31-50 | the parser holds the retrieved folder, the input structure and the output file name, with no exit code set |
| Parsers.JdftxParser.ParseStdout | aiida_jdftx/parsers.py:229-333 | equal to `ParseStdoutSpec`: `parse_stdout`'s channels, cells and frames, and the exit code it leaves (200, 201, 202 or the previous one) |
| Parsers.JdftxParser.ParsedEcomponents | aiida_jdftx/parsers.py:144-180 | equal to `ParsedEcomponentsSpec`: `parsed_ecomponents`'s dictionary and the exit code it leaves |
| Parsers.JdftxParser.ParsedStructure | aiida_jdftx/parsers.py:182-227 | equal to `ParsedStructureSpec` (which reads each ionpos line with `IonposLine`): `parsed_structure`'s structure, whether it is new, and the exit code it leaves |
| Parsers.JdftxParser.ParsedKpoints | aiida_jdftx/parsers.py:112-142 | equal to `ParsedKpointsSpec` (which reads each line with `KpointLine`): `parsed_kpoints`'s k-points and the exit code it leaves |
| Parsers.JdftxParser.Parse | aiida_jdftx/parsers.py:44-78 | equal to `ParseSpec`: `parse`'s outputs and returned exit code, which is the code left in the parser |
| ParserProperties.PaddedIntParses | aiida_jdftx/parsers.py:339 | integer text after blanks, as after `=` in an energy line, reads back as the integer |
| ParserProperties.SameStripSameFloat | aiida_jdftx/parsers.py:339 | `float` depends only on the text without its surrounding whitespace |
| ParserProperties.GrepEnergyReadsBack | aiida_jdftx/parsers.py:336-342 | `GrepEnergy`, the model of `grep_energy_from_line`, reads the line `<label> = <n>` as `n` hartree in eV |
| ParserProperties.GrepEnergyNeedsEquals | aiida_jdftx/parsers.py:336-342 | `GrepEnergy` of a line without `=` is the energy parsing error |
| ParserProperties.ParseJoinedInts | aiida_jdftx/parsers.py:133 | blank-separated integers read back through `split()` and `float` as themselves |
| ParserProperties.KpointLineReadsBack | aiida_jdftx/parsers.py:133-134 | `KpointLine` reads the line `<prefix>[n1 n2 ...] w` as the point `(n1, n2, ...)` and the weight `w` |
| ParserProperties.EnergyKeysDistinct | aiida_jdftx/parsers.py:165-174 | the eight energy keys are distinct and none is another with the units suffix |
| ParserProperties.LineChannelsAppend | aiida_jdftx/parsers.py:284-297 | a readable energy line appends its value to the channel of every label it contains and leaves all other channels alone |
| ParserProperties.LineChannelsFail | aiida_jdftx/parsers.py:294-295 | an unreadable energy line raises exactly when it contains a label |
| ParserProperties.LineChannelsOk | aiida_jdftx/parsers.py:284-297 | an energy-block line is accepted if and only if it contains no label or its energy reads |
| ParserProperties.ExcCoreAlsoFeedsXc | aiida_jdftx/parsers.py:289-290 | an `Exc_core` line appends to both the `energy_xc` and the `energy_xc_core` channels |
| ParserProperties.EcompLineSets | aiida_jdftx/parsers.py:164-178 | a readable line sets every key whose label it contains, with eV units, and keeps every other entry |
| ParserProperties.EcompLineFail | aiida_jdftx/parsers.py:175-176 | an unreadable line raises exactly when it contains a label |
| ParserProperties.EcompLineStep | aiida_jdftx/parsers.py:164-178 | for one line, contained labels are set, other labels and their units are kept, and only energy entries are added |
| ParserProperties.EcompLinesMeaning | aiida_jdftx/parsers.py:160-180 | over the whole file, unmentioned keys are kept, mentioned keys are present, the last mentioning line's energy wins, and only energy entries are added |
| ParserProperties.LineEffectShape | aiida_jdftx/parsers.py:276-318 | one line adds a cell and marks the step exactly at a lattice header, and changes positions only at an ionic header |
| ParserProperties.StepEffectShape | aiida_jdftx/parsers.py:276-318 | a step's lines add one cell per lattice header, mark the step exactly when there is one, and add no frame |
| ParserProperties.StepEndShape | aiida_jdftx/parsers.py:321-326 | the relaxation check adds one frame exactly for a relaxation step |
| ParserProperties.TranscriptCounts | aiida_jdftx/parsers.py:272-326 | one frame per relaxation step and one cell per lattice printout |
| ParserProperties.FirstRelaxNeedsPositions | aiida_jdftx/parsers.py:299-326 | a first relaxation step without ionic positions raises, because `positions` was never assigned |
| ParserProperties.ParseStdoutMeaning | aiida_jdftx/parsers.py:229-333 | frame and cell counts, and code 202 exactly when no line contains `Done!` |
| ParserProperties.AppendAtomKeeps | aiida_jdftx/parsers.py:225 | `append_atom` adds exactly the new site, keeps the cell and keeps the kinds well formed |
| ParserProperties.IonposLineShape | aiida_jdftx/parsers.py:222-225 | `IonposLine` adds one site, named by field 1 and placed at fields 2..4 |
| ParserProperties.CellFromLines | aiida_jdftx/parsers.py:213-219 | the cell is read from exactly three lattice lines, each row from the first three fields of its line |
| ParserProperties.SitesFromLines | aiida_jdftx/parsers.py:221-225 | one site per ionpos line, each read from its line, with well-formed kinds |
| ParserProperties.ParsedStructureMeaning | aiida_jdftx/parsers.py:182-227 | a new structure exactly when both files are read, with its cell and sites read line by line; otherwise the input, with the code of the failing file |
| ParserProperties.ParsedKpointsMeaning | aiida_jdftx/parsers.py:112-142 | k-points exactly when the file is read: on the structure's cell, one point and weight per line as that line reads; otherwise the file's code |
| ParserProperties.ParseTrajectory | aiida_jdftx/parsers.py:80-108 | the trajectory `parse` attaches has one frame per relaxation step and one cell per lattice printout of the transcript, or the single frame and cell of the final structure when there were none or the transcript was not read; step ids count the frames and the symbols are the final structure's kind names |
| ParserProperties.ParseExitCode | aiida_jdftx/parsers.py:44-78 | no exit code if and only if every file is read and the run printed `Done!`; an unreadable k-points file decides the code |
| ParserProperties.ParseOutputs | aiida_jdftx/parsers.py:44-78 | the parameters are the energy components, the structure is new exactly when both structure files are read, k-points exactly when their file is read, and the trajectory is built from the transcript and the final structure |

## Left out

- **Float rendering.** The fixed-width renderings `{:18.10f}` and `{:4.1f}` are a parameter of the encoder, because binary floating-point text is not modelled. The numbers are exact reals, so the unit conversions have no rounding.
- **Python's float syntax.** `float()` accepts decimal literals with a sign, a point and an exponent. `inf`, `nan`, underscores and non-ASCII digits are not modelled.
- **numpy and AiiDA node validation.** Modelled: the 3x3 cell check of `StructureData(cell=...)` and the position-triple check of `append_atom` (both `InvalidStructure`), numpy's error for an array built from rows of different lengths when a lattice is read (`CellOfVectors`) or positions are converted (`MatMul`), and the `np.matmul` shape error. Not modelled: `np.array` over cells or frames of different shapes in `build_output_trajectory` (aiida_jdftx/parsers.py:83 and 89-90), which raises there while `BuildOutputTrajectory` always returns, the chemical-symbol check of `Kind(symbols=...)` inside `append_atom` (`AppendAtom` accepts any name as the element), and the checks inside `TrajectoryData.set_trajectory`, `KpointsData.set_kpoints` and `set_array`.
- **Host-framework code.** `define`, `prepare_for_submission` (file writing, `CalcInfo`), the workflows, and storing output nodes through `self.out` are not modelled. The outputs are returned as a value, and "is stored" is the flag saying whether the structure is new.
- **The process-class check.** The `JdftxParser` constructor's check that the node comes from a `JdftxCalculation` is not modelled.
- **The stdout `parameters`.** `parse_stdout` always returns an empty dictionary here, so it is not carried.
- **Units of the dump files.** `aiida.lattice` and `aiida.ionpos` are taken as written, without unit conversion, as the source does.
- **Exceptions raised on malformed input.** These are values of `DecodeError` or `EncodeError`, not exceptions that unwind the call stack.
- Parsers.BuildOutputTrajectory: always returns a trajectory; it does not model the ValueError numpy raises when the collected cells or frames differ in shape, as noted under numpy validation above.
- ParserProperties.ParseStdoutMeaning: states the counts of frames and cells and the exit code, not the numbers in each frame. Those are given by the specification function that `JdftxParser.ParseStdout` is proved equal to.
- ParserProperties.ParsedStructureMeaning: states the kinds only as well formed (distinct plain kinds, each used by a site, each site's kind present), not their order of first appearance.
