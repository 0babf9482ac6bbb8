/**
 * The output decoder of `JdftxParser` (aiida_jdftx/parsers.py): the stdout
 * transcript scanner, the readers of the `aiida.Ecomponents`, `aiida.lattice`,
 * `aiida.ionpos` and `aiida.kPts` dump files, the trajectory builder and
 * `parse`, which runs them in order and reports the last exit code any of
 * them set.
 *
 * Each scanner is a function over the lines it reads (the specification); the
 * parser's methods and the loop methods beside them walk the same lines step
 * by step, as the source does, and are proved to compute those functions.
 */
module Parsers {
  import opened Wrappers
  import opened Text
  import opened Numbers
  import opened Nodes

  const UnitsSuffix: string := "_units"
  const DefaultEnergyUnits: string := "eV"

  const StepDelimiter: string := "-------- Electronic minimization -----------"
  const EnergyHeader: string := "# Energy components:"
  const LatticeHeader: string := "# Lattice vectors:"
  const IonicHeader: string := "# Ionic positions in lattice coordinates:"
  const DoneMarker: string := "Done!"

  const KpointsFile: string := "aiida.kPts"
  const EcomponentsFile: string := "aiida.Ecomponents"
  const LatticeFile: string := "aiida.lattice"
  const IonposFile: string := "aiida.ionpos"

  /** The energy labels, matched as substrings, and the key each one fills, in the order they are tried. */
  const EnergyLabels: seq<(string, string)> := [
    ("Eewald", "energy_ewald"),
    ("EH", "energy_hartree"),
    ("Eloc", "energy_local"),
    ("Enl", "energy_nonlocal"),
    ("Exc", "energy_xc"),
    ("Exc_core", "energy_xc_core"),
    ("KE", "energy_kinetic"),
    ("Etot", "energy_total")
  ]

  /** A numpy array of rank two, as its rows. */
  type Matrix = seq<seq<real>>

  /** The exit codes the parser can set (declared on `JdftxCalculation`). */
  datatype ExitCode =
    | StdoutMissing              // 200
    | StdoutRead                 // 201
    | UnexpectedParserException  // 202

  /** The exceptions that escape the parser: `parse` raises them and produces no outputs. */
  datatype DecodeError =
    | EnergyNotParsed     // JdftxOutputParsingError from `grep_energy_from_line`
    | NotANumber          // ValueError from `float`
    | MissingField        // IndexError from a list index
    | RaggedArray         // ValueError: numpy array from rows of different lengths
    | ShapeMismatch       // ValueError: `np.matmul` operands that do not fit
    | NameUndefined       // UnboundLocalError: `positions` used before any was read
    | InvalidStructure    // ValueError: a cell that is not 3x3, or a position that is not a triple

  /** The retrieved folder: file contents by name, and the names whose reading fails. */
  datatype Folder = Folder(files: map<string, string>, unreadable: set<string>)

  datatype FileRead = Missing | ReadFailed | Content(text: string)

  function ReadFile(folder: Folder, name: string): FileRead {
    if name !in folder.files then Missing
    else if name in folder.unreadable then ReadFailed
    else Content(folder.files[name])
  }

  /** What a sub-parser hands back: the exit code it set, if any, and its value. */
  datatype Sub<T> = Sub(code: Option<ExitCode>, value: T)

  /** The code a sub-parser sets when its file is missing or cannot be read. */
  function FallbackCode(f: FileRead): Option<ExitCode> {
    match f
    case Missing => Some(StdoutMissing)
    case ReadFailed => Some(StdoutRead)
    case Content(_) => None
  }

  /** `exit_code_stdout` after a sub-parser ran: a code it set replaces the previous one. */
  function Overwrite(current: Option<ExitCode>, code: Option<ExitCode>): Option<ExitCode> {
    if code.Some? then code else current
  }

  function ValueOf<T>(s: Result<Sub<T>, DecodeError>): Result<T, DecodeError> {
    match s
    case Ok(sub) => Ok(sub.value)
    case Err(e) => Err(e)
  }

  /** The code after a sub-parser that may have raised: it raises only before setting one. */
  function CodeAfter<T>(current: Option<ExitCode>, s: Result<Sub<T>, DecodeError>): Option<ExitCode> {
    if s.Ok? then Overwrite(current, s.value.code) else current
  }

  // ---------------------------------------------------------------------
  // Numbers on a line

  /** `grep_energy_from_line`: the number between the first and second `=`, in eV. */
  function GrepEnergy(line: string): Result<real, DecodeError> {
    var parts := Split(line, "=");
    if |parts| < 2 then Err(EnergyNotParsed) else HartreeToEv(ParseFloat(parts[1]))
  }

  /** A number of hartree in eV; a text that is not a number raises the energy parsing error. */
  function HartreeToEv(parsed: Option<real>): Result<real, DecodeError> {
    match parsed
    case None => Err(EnergyNotParsed)
    case Some(v) => Ok(v * HarToEv)
  }

  /** `[float(x) for x in ws]`, failing on the first text that is not a number. */
  function ParseFloats(ws: seq<string>): (r: Result<seq<real>, DecodeError>)
    ensures r.Ok? ==> |r.value| == |ws|
    ensures r.Err? ==> r.error == NotANumber
  {
    ReadAll(ws, ParseFloat)
  }

  /** `[read(x) for x in ws]`, failing on the first text `read` rejects. */
  function ReadAll<T>(ws: seq<string>, read: string -> Option<T>): (r: Result<seq<T>, DecodeError>)
    ensures r.Ok? ==> |r.value| == |ws|
    ensures r.Err? ==> r.error == NotANumber
  {
    if |ws| == 0 then Ok([])
    else
      match read(ws[0])
      case None => Err(NotANumber)
      case Some(v) =>
        match ReadAll(ws[1..], read)
        case Err(e) => Err(e)
        case Ok(rest) => Ok([v] + rest)
  }

  /** `ParseFloats` succeeds exactly when every text is a number, and then reads each one. */
  lemma ParseFloatsMeaning(ws: seq<string>)
    ensures ParseFloats(ws).Ok? <==> forall i :: 0 <= i < |ws| ==> ParseFloat(ws[i]).Some?
    ensures ParseFloats(ws).Ok? ==> forall i :: 0 <= i < |ws| ==> ParseFloat(ws[i]) == Some(ParseFloats(ws).value[i])
  {
    ReadAllMeaning(ws, ParseFloat);
  }

  /** `ReadAll` succeeds exactly when `read` accepts every text, and then holds each reading. */
  lemma {:induction false} ReadAllMeaning<T>(ws: seq<string>, read: string -> Option<T>)
    ensures ReadAll(ws, read).Ok? <==> forall i :: 0 <= i < |ws| ==> read(ws[i]).Some?
    ensures ReadAll(ws, read).Ok? ==> forall i :: 0 <= i < |ws| ==> read(ws[i]) == Some(ReadAll(ws, read).value[i])
  {
    if |ws| > 0 {
      ReadAllMeaning(ws[1..], read);
      assert forall i :: 1 <= i < |ws| ==> ws[i] == ws[1..][i - 1];
    }
  }

  // ---------------------------------------------------------------------
  // The stdout transcript

  /** `trajectory_data.setdefault(key, [])`: the values a channel holds so far. */
  function Channel(channels: map<string, seq<real>>, key: string): seq<real> {
    if key in channels then channels[key] else []
  }

  /**
   * One line of an energy block: every label of `labels` from position `k`
   * on that the line contains appends the line's energy to that label's
   * channel. `energy` is `grep_energy_from_line(line)`; the source calls it
   * once per contained label, each time on the same line, so one outcome
   * serves them all, and a line that contains no label never raises.
   */
  function LineChannels(labels: seq<(string, string)>, line: string, energy: Result<real, DecodeError>,
                        k: nat, channels: map<string, seq<real>>)
    : Result<map<string, seq<real>>, DecodeError>
    decreases |labels| - k
  {
    if k >= |labels| then Ok(channels)
    else if Contains(line, labels[k].0) then
      match energy
      case Err(e) => Err(e)
      case Ok(v) =>
        var key := labels[k].1;
        LineChannels(labels, line, energy, k + 1, channels[key := Channel(channels, key) + [v]])
    else
      LineChannels(labels, line, energy, k + 1, channels)
  }

  /** The energy block read from line `j` on, up to the first line that strips to nothing. */
  function EnergyBlock(step: seq<string>, j: nat, channels: map<string, seq<real>>)
    : Result<map<string, seq<real>>, DecodeError>
    decreases |step| - j
  {
    if j >= |step| || Strip(step[j]) == "" then Ok(channels)
    else
      match LineChannels(EnergyLabels, step[j], GrepEnergy(step[j]), 0, channels)
      case Err(e) => Err(e)
      case Ok(next) => EnergyBlock(step, j + 1, next)
  }

  /** `[float(x) for x in line.split()[from:to]]`. */
  function FieldFloats(line: string, from: nat, to: nat): Result<seq<real>, DecodeError> {
    ParseFloats(PySlice(Words(line), from, to))
  }

  /** Fractional positions from line `j` on, up to the first blank line: fields 2..4 of each. */
  function IonicBlock(step: seq<string>, j: nat, rows: Matrix): Result<Matrix, DecodeError>
    decreases |step| - j
  {
    if j >= |step| || Strip(step[j]) == "" then Ok(rows)
    else
      match FieldFloats(step[j], 2, 5)
      case Err(e) => Err(e)
      case Ok(row) => IonicBlock(step, j + 1, rows + [row])
  }

  /** Fields 1..3 of line `idx` as numbers. */
  function CellRow(step: seq<string>, idx: nat): Result<seq<real>, DecodeError> {
    if idx >= |step| then Err(MissingField) else FieldFloats(step[idx], 1, 4)
  }

  predicate Rectangular(m: Matrix) {
    forall i :: 0 <= i < |m| ==> |m[i]| == |m[0]|
  }

  function Scale(m: Matrix, c: real): (r: Matrix)
    ensures |r| == |m| && forall i :: 0 <= i < |m| ==> |r[i]| == |m[i]|
    ensures forall i, j :: 0 <= i < |m| && 0 <= j < |m[i]| ==> r[i][j] == m[i][j] * c
  {
    seq(|m|, i requires 0 <= i < |m| => seq(|m[i]|, j requires 0 <= j < |m[i]| => m[i][j] * c))
  }

  /** `row` is `fields` multiplied by `c`, element by element. */
  predicate ScaledRow(row: seq<real>, fields: seq<real>, c: real) {
    |row| == |fields| && forall j :: 0 <= j < |row| ==> row[j] == fields[j] * c
  }

  /**
   * The cell printed two to four lines below a lattice header, in angstrom:
   * row k is `bohr_to_ang` times fields 1..3 of line count+2+k.
   */
  function CellAt(step: seq<string>, count: nat): (r: Result<Matrix, DecodeError>)
    ensures r.Ok? <==>
      (CellRow(step, count + 2).Ok? && CellRow(step, count + 3).Ok? && CellRow(step, count + 4).Ok?
       && |CellRow(step, count + 2).value| == |CellRow(step, count + 3).value| == |CellRow(step, count + 4).value|)
    ensures r.Ok? ==> count + 4 < |step| && |r.value| == 3 && Rectangular(r.value)
    ensures r.Ok? ==>
      ScaledRow(r.value[0], CellRow(step, count + 2).value, BohrToAng)
      && ScaledRow(r.value[1], CellRow(step, count + 3).value, BohrToAng)
      && ScaledRow(r.value[2], CellRow(step, count + 4).value, BohrToAng)
  {
    match CellRow(step, count + 2)
    case Err(e) => Err(e)
    case Ok(a1) =>
      match CellRow(step, count + 3)
      case Err(e) => Err(e)
      case Ok(a2) =>
        match CellRow(step, count + 4)
        case Err(e) => Err(e)
        case Ok(a3) => CellOfVectors(a1, a2, a3)
  }

  /** `np.array([a1, a2, a3]) * BohrToAng`: three lattice vectors of one length, in angstrom. */
  function CellOfVectors(a1: seq<real>, a2: seq<real>, a3: seq<real>): (r: Result<Matrix, DecodeError>)
    ensures r.Ok? <==> |a1| == |a2| == |a3|
    ensures r.Ok? ==> |r.value| == 3 && Rectangular(r.value)
    ensures r.Ok? ==>
      ScaledRow(r.value[0], a1, BohrToAng) && ScaledRow(r.value[1], a2, BohrToAng)
      && ScaledRow(r.value[2], a3, BohrToAng)
  {
    if |a1| == |a2| == |a3| then Ok(Scale([a1, a2, a3], BohrToAng)) else Err(RaggedArray)
  }

  /** Sum over `k < |row|` of `row[k] * m[k][j]`. */
  function Dot(row: seq<real>, m: Matrix, j: nat): real
    requires |row| <= |m| && forall k :: 0 <= k < |row| ==> j < |m[k]|
  {
    if |row| == 0 then 0.0 else Dot(row[..|row| - 1], m, j) + row[|row| - 1] * m[|row| - 1][j]
  }

  /** `np.matmul(np.array(p), c)` for a list of rows `p` and a rectangular `c`. */
  function MatMul(p: Matrix, c: Matrix): (r: Result<Matrix, DecodeError>)
    ensures r.Ok? <==> Rectangular(p) && Rectangular(c) && |p| > 0 && |c| > 0 && |p[0]| == |c|
    ensures !(Rectangular(p) && Rectangular(c)) ==> r == Err(RaggedArray)
    ensures r.Ok? ==> |r.value| == |p| && Rectangular(r.value)
    ensures r.Ok? ==> forall i :: 0 <= i < |p| ==> |r.value[i]| == |c[0]|
    ensures r.Ok? ==> forall i, j :: 0 <= i < |p| && 0 <= j < |c[0]| ==> r.value[i][j] == Dot(p[i], c, j)
  {
    if !Rectangular(p) || !Rectangular(c) then Err(RaggedArray)
    else if |p| == 0 || |c| == 0 || |p[0]| != |c| then Err(ShapeMismatch)
    else Ok(seq(|p|, i requires 0 <= i < |p| => seq(|c[0]|, j requires 0 <= j < |c[0]| => Dot(p[i], c, j))))
  }

  /**
   * What the scan of the transcript carries: the channels of
   * `trajectory_data`, and the locals `positions`, `cell` and `do_relax`,
   * which are never reset between steps except `do_relax`.
   */
  datatype ScanState = ScanState(
    channels: map<string, seq<real>>,
    cells: seq<Matrix>,
    frames: seq<Matrix>,
    positions: Option<Matrix>,
    cell: Option<Matrix>,
    doRelax: bool)

  const InitialScan: ScanState := ScanState(map[], [], [], None, None, false)

  function EnergyPart(step: seq<string>, count: nat, st: ScanState): Result<ScanState, DecodeError>
    requires count < |step|
  {
    if Contains(step[count], EnergyHeader) then
      match EnergyBlock(step, count, st.channels)
      case Err(e) => Err(e)
      case Ok(channels) => Ok(st.(channels := channels))
    else Ok(st)
  }

  function LatticePart(step: seq<string>, count: nat, st: ScanState): Result<ScanState, DecodeError>
    requires count < |step|
  {
    if Contains(step[count], LatticeHeader) then
      match CellAt(step, count)
      case Err(e) => Err(e)
      case Ok(cell) => Ok(st.(cells := st.cells + [cell], cell := Some(cell), doRelax := true))
    else Ok(st)
  }

  function IonicPart(step: seq<string>, count: nat, st: ScanState): Result<ScanState, DecodeError>
    requires count < |step|
  {
    if Contains(step[count], IonicHeader) then
      match IonicBlock(step, count + 1, [])
      case Err(e) => Err(e)
      case Ok(rows) => Ok(st.(positions := Some(rows)))
    else Ok(st)
  }

  /** One line of a step: the three header tests, in the source's order. */
  function LineEffect(step: seq<string>, count: nat, st: ScanState): Result<ScanState, DecodeError>
    requires count < |step|
  {
    match EnergyPart(step, count, st)
    case Err(e) => Err(e)
    case Ok(st1) =>
      match LatticePart(step, count, st1)
      case Err(e) => Err(e)
      case Ok(st2) => IonicPart(step, count, st2)
  }

  /** The lines of a step from line `i` on. */
  function StepEffect(step: seq<string>, i: nat, st: ScanState): Result<ScanState, DecodeError>
    decreases |step| - i
  {
    if i >= |step| then Ok(st)
    else
      match LineEffect(step, i, st)
      case Err(e) => Err(e)
      case Ok(next) => StepEffect(step, i + 1, next)
  }

  /** The check after a step: a relaxation step turns the positions into a Cartesian frame. */
  function StepEnd(st: ScanState): Result<ScanState, DecodeError> {
    if !st.doRelax then Ok(st)
    else if st.positions.None? || st.cell.None? then Err(NameUndefined)
    else
      match MatMul(st.positions.value, st.cell.value)
      case Err(e) => Err(e)
      case Ok(p) => Ok(st.(frames := st.frames + [p], positions := Some(p)))
  }

  /** The steps from step `i` on, each starting with `do_relax` false. */
  function TranscriptEffect(steps: seq<seq<string>>, i: nat, st: ScanState): Result<ScanState, DecodeError>
    decreases |steps| - i
  {
    if i >= |steps| then Ok(st)
    else
      match StepEffect(steps[i], 0, st.(doRelax := false))
      case Err(e) => Err(e)
      case Ok(st1) =>
        match StepEnd(st1)
        case Err(e) => Err(e)
        case Ok(st2) => TranscriptEffect(steps, i + 1, st2)
  }

  /** The pieces after each step delimiter, each as its lines; text before the first is dropped. */
  function RelaxSteps(text: string): (steps: seq<seq<string>>)
    ensures |steps| == |Split(text, StepDelimiter)| - 1
  {
    var pieces := Split(text, StepDelimiter)[1..];
    seq(|pieces|, i requires 0 <= i < |pieces| => Split(pieces[i], "\n"))
  }

  /** A run succeeded when some line of its transcript contains `Done!`. */
  predicate Succeeded(text: string) {
    exists i :: 0 <= i < |Split(text, "\n")| && Contains(Split(text, "\n")[i], DoneMarker)
  }

  /** The trajectory channels of the transcript; `lattice_relax` and the positions channel exist when non-empty. */
  datatype StdoutData = StdoutData(channels: map<string, seq<real>>, cells: seq<Matrix>, frames: seq<Matrix>)

  const NoStdoutData: StdoutData := StdoutData(map[], [], [])

  /** `parse_stdout`. The `parameters` it returns are always empty and are not carried. */
  function ParseStdoutSpec(folder: Folder, filename: string): Result<Sub<StdoutData>, DecodeError> {
    var file := ReadFile(folder, filename);
    if !file.Content? then Ok(Sub(FallbackCode(file), NoStdoutData))
    else
      match TranscriptEffect(RelaxSteps(file.text), 0, InitialScan)
      case Err(e) => Err(e)
      case Ok(st) =>
        Ok(Sub(if Succeeded(file.text) then None else Some(UnexpectedParserException),
               StdoutData(st.channels, st.cells, st.frames)))
  }

  // ---------------------------------------------------------------------
  // aiida.Ecomponents

  /**
   * One line of the energy-components file: every label of `labels` from
   * position `k` on that the line contains sets its key to the line's
   * energy and the key's units to eV. `energy` is as for `LineChannels`.
   */
  function EcompLine(labels: seq<(string, string)>, line: string, energy: Result<real, DecodeError>,
                     k: nat, m: map<string, PyValue>)
    : Result<map<string, PyValue>, DecodeError>
    decreases |labels| - k
  {
    if k >= |labels| then Ok(m)
    else if Contains(line, labels[k].0) then
      match energy
      case Err(e) => Err(e)
      case Ok(v) =>
        var key := labels[k].1;
        EcompLine(labels, line, energy, k + 1, m[key := PyFloat(v)][key + UnitsSuffix := PyStr(DefaultEnergyUnits)])
    else
      EcompLine(labels, line, energy, k + 1, m)
  }

  function EcompLines(lines: seq<string>, i: nat, m: map<string, PyValue>): Result<map<string, PyValue>, DecodeError>
    decreases |lines| - i
  {
    if i >= |lines| then Ok(m)
    else
      match EcompLine(EnergyLabels, lines[i], GrepEnergy(lines[i]), 0, m)
      case Err(e) => Err(e)
      case Ok(next) => EcompLines(lines, i + 1, next)
  }

  /** `parsed_ecomponents`. */
  function ParsedEcomponentsSpec(folder: Folder): Result<Sub<map<string, PyValue>>, DecodeError> {
    var file := ReadFile(folder, EcomponentsFile);
    if !file.Content? then Ok(Sub(FallbackCode(file), map[]))
    else
      match EcompLines(Split(file.text, "\n"), 0, map[])
      case Err(e) => Err(e)
      case Ok(m) => Ok(Sub(None, m))
  }

  // ---------------------------------------------------------------------
  // aiida.lattice and aiida.ionpos

  /** Lattice rows from line `i` on: the first three fields of each line. */
  function LatticeRows(lines: seq<string>, i: nat, rows: Matrix): Result<Matrix, DecodeError>
    decreases |lines| - i
  {
    if i >= |lines| then Ok(rows)
    else
      match FieldFloats(lines[i], 0, 3)
      case Err(e) => Err(e)
      case Ok(row) => LatticeRows(lines, i + 1, rows + [row])
  }

  /** The cell a structure accepts: exactly three rows of three numbers. */
  function CellOf(rows: Matrix): Result<seq<Vec3>, DecodeError> {
    if |rows| != 3 || |rows[0]| != 3 || |rows[1]| != 3 || |rows[2]| != 3 then Err(InvalidStructure)
    else Ok([Vec3(rows[0][0], rows[0][1], rows[0][2]),
             Vec3(rows[1][0], rows[1][1], rows[1][2]),
             Vec3(rows[2][0], rows[2][1], rows[2][2])])
  }

  predicate HasKind(s: Structure, name: string) {
    exists k :: 0 <= k < |s.kinds| && s.kinds[k].name == name
  }

  /** `append_atom`: a site of the named element, adding a kind of that name when there is none yet. */
  function AppendAtom(s: Structure, position: seq<real>, element: string): Result<Structure, DecodeError> {
    if |position| != 3 then Err(InvalidStructure)
    else
      var kinds := if HasKind(s, element) then s.kinds else s.kinds + [Kind(element, false, false)];
      Ok(Structure(s.cell, kinds, s.sites + [Site(element, Vec3(position[0], position[1], position[2]))]))
  }

  /** One ionpos line: the position from fields 2..4 first, then the element from field 1. */
  function IonposLine(line: string, s: Structure): Result<Structure, DecodeError> {
    match FieldFloats(line, 2, 5)
    case Err(e) => Err(e)
    case Ok(position) =>
      var ws := Words(line);
      if |ws| < 2 then Err(MissingField) else AppendAtom(s, position, ws[1])
  }

  /** Sites from line `i` on. */
  function IonposSites(lines: seq<string>, i: nat, s: Structure): Result<Structure, DecodeError>
    decreases |lines| - i
  {
    if i >= |lines| then Ok(s)
    else
      match IonposLine(lines[i], s)
      case Err(e) => Err(e)
      case Ok(next) => IonposSites(lines, i + 1, next)
  }

  /** The lines of a dump file after its header line. */
  function BodyLines(text: string): seq<string> {
    Split(Strip(text), "\n")[1..]
  }

  /** `parsed_structure`: the structure and whether it is new (not the input passed through). */
  function ParsedStructureSpec(folder: Folder, input: Structure): Result<Sub<(Structure, bool)>, DecodeError> {
    var lattice := ReadFile(folder, LatticeFile);
    if !lattice.Content? then Ok(Sub(FallbackCode(lattice), (input, false)))
    else
      var ionpos := ReadFile(folder, IonposFile);
      if !ionpos.Content? then Ok(Sub(FallbackCode(ionpos), (input, false)))
      else
        match LatticeRows(BodyLines(lattice.text), 0, [])
        case Err(e) => Err(e)
        case Ok(rows) =>
          match CellOf(rows)
          case Err(e) => Err(e)
          case Ok(cell) =>
            match IonposSites(BodyLines(ionpos.text), 0, Structure(cell, [], []))
            case Err(e) => Err(e)
            case Ok(s) => Ok(Sub(None, (s, true)))
  }

  // ---------------------------------------------------------------------
  // aiida.kPts

  /** The k-points as stored: the structure's cell, the fractional points and their weights. */
  datatype KpointsOut = KpointsOut(cell: seq<Vec3>, points: seq<seq<real>>, weights: seq<real>)

  /** One line: the numbers between the first `[` and the next `]`, then the weight after that `]`. */
  function KpointLine(line: string): Result<(seq<real>, real), DecodeError> {
    var open := Split(line, "[");
    if |open| < 2 then Err(MissingField)
    else
      var close := Split(open[1], "]");
      match ParseFloats(Words(close[0]))
      case Err(e) => Err(e)
      case Ok(point) =>
        if |close| < 2 then Err(MissingField)
        else
          match ParseFloat(close[1])
          case None => Err(NotANumber)
          case Some(w) => Ok((point, w))
  }

  function KpointLines(lines: seq<string>, i: nat, points: seq<seq<real>>, weights: seq<real>)
    : Result<(seq<seq<real>>, seq<real>), DecodeError>
    decreases |lines| - i
  {
    if i >= |lines| then Ok((points, weights))
    else
      match KpointLine(lines[i])
      case Err(e) => Err(e)
      case Ok((p, w)) => KpointLines(lines, i + 1, points + [p], weights + [w])
  }

  /** `parsed_kpoints`: `None` when the file is missing or unreadable. */
  function ParsedKpointsSpec(folder: Folder, structure: Structure): Result<Sub<Option<KpointsOut>>, DecodeError> {
    var file := ReadFile(folder, KpointsFile);
    if !file.Content? then Ok(Sub(FallbackCode(file), None))
    else
      match KpointLines(Split(Strip(file.text), "\n"), 0, [], [])
      case Err(e) => Err(e)
      case Ok((points, weights)) => Ok(Sub(None, Some(KpointsOut(structure.cell, points, weights))))
  }

  // ---------------------------------------------------------------------
  // The trajectory and `parse`

  datatype Trajectory = Trajectory(
    stepids: seq<nat>,
    cells: seq<Matrix>,
    positions: seq<Matrix>,
    symbols: seq<string>,
    arrays: map<string, seq<real>>)

  function VecRow(v: Vec3): seq<real> {
    [v.x, v.y, v.z]
  }

  function CellMatrix(cell: seq<Vec3>): Matrix {
    seq(|cell|, i requires 0 <= i < |cell| => VecRow(cell[i]))
  }

  function SitePositions(sites: seq<Site>): Matrix {
    seq(|sites|, i requires 0 <= i < |sites| => VecRow(sites[i].position))
  }

  /**
   * `build_output_trajectory`: the relaxation channels when the transcript
   * had any, otherwise one frame of the structure; every energy channel is
   * attached as it is.
   */
  function BuildOutputTrajectory(data: StdoutData, structure: Structure): (t: Trajectory)
    ensures |t.stepids| == |t.positions| >= 1 && |t.cells| >= 1
    ensures forall i :: 0 <= i < |t.stepids| ==> t.stepids[i] == i
    ensures |t.symbols| == |structure.sites|
    ensures forall i :: 0 <= i < |t.symbols| ==> t.symbols[i] == structure.sites[i].kindName
  {
    var cells := if |data.cells| > 0 then data.cells else [CellMatrix(structure.cell)];
    var positions := if |data.frames| > 0 then data.frames else [SitePositions(structure.sites)];
    Trajectory(seq(|positions|, i requires 0 <= i < |positions| => i), cells, positions,
               seq(|structure.sites|, i requires 0 <= i < |structure.sites| => structure.sites[i].kindName),
               data.channels)
  }

  /** What `parse` leaves behind when it returns. */
  datatype ParseOutcome = ParseOutcome(
    exitCode: Option<ExitCode>,
    parameters: map<string, PyValue>,
    kpoints: Option<KpointsOut>,
    trajectory: Trajectory,
    structure: Structure,
    structureIsNew: bool)

  /** `parse`: stdout, energy components, structure, trajectory, k-points, in that order. */
  function ParseSpec(folder: Folder, input: Structure, filename: string): Result<ParseOutcome, DecodeError> {
    match ParseStdoutSpec(folder, filename)
    case Err(e) => Err(e)
    case Ok(stdout) =>
      match ParsedEcomponentsSpec(folder)
      case Err(e) => Err(e)
      case Ok(ecomponents) =>
        match ParsedStructureSpec(folder, input)
        case Err(e) => Err(e)
        case Ok(structure) =>
          match ParsedKpointsSpec(folder, structure.value.0)
          case Err(e) => Err(e)
          case Ok(kpoints) =>
            var code := Overwrite(Overwrite(Overwrite(stdout.code, ecomponents.code), structure.code), kpoints.code);
            Ok(ParseOutcome(code, map[] + ecomponents.value, kpoints.value,
                            BuildOutputTrajectory(stdout.value, structure.value.0),
                            structure.value.0, structure.value.1))
  }

  // ---------------------------------------------------------------------
  // The loops of the scanners

  /** The label loop of one energy-block line, appending to the channels. */
  method AppendLineEnergies(line: string, channels: map<string, seq<real>>)
    returns (r: Result<map<string, seq<real>>, DecodeError>)
    ensures r == LineChannels(EnergyLabels, line, GrepEnergy(line), 0, channels)
  {
    var data := channels;
    for k := 0 to |EnergyLabels|
      invariant LineChannels(EnergyLabels, line, GrepEnergy(line), k, data)
             == LineChannels(EnergyLabels, line, GrepEnergy(line), 0, channels)
    {
      var marker := EnergyLabels[k].0;
      var key := EnergyLabels[k].1;
      if Contains(line, marker) {
        var value := GrepEnergy(line);
        if value.Err? {
          return Err(value.error);
        }
        data := data[key := Channel(data, key) + [value.value]];
      }
    }
    return Ok(data);
  }

  /** The energy block from its header line to the first blank line. */
  method ReadEnergyBlock(step: seq<string>, count: nat, channels: map<string, seq<real>>)
    returns (r: Result<map<string, seq<real>>, DecodeError>)
    ensures r == EnergyBlock(step, count, channels)
  {
    var data := channels;
    var j := count;
    while j < |step|
      invariant EnergyBlock(step, j, data) == EnergyBlock(step, count, channels)
      decreases |step| - j
    {
      if Strip(step[j]) == "" {
        break;
      }
      var next := AppendLineEnergies(step[j], data);
      if next.Err? {
        return Err(next.error);
      }
      data := next.value;
      j := j + 1;
    }
    return Ok(data);
  }

  /** The fractional positions below an ionic-positions header, up to the first blank line. */
  method ReadIonicBlock(step: seq<string>, from: nat) returns (r: Result<Matrix, DecodeError>)
    ensures r == IonicBlock(step, from, [])
  {
    var positions: Matrix := [];
    var j := from;
    while j < |step|
      invariant IonicBlock(step, j, positions) == IonicBlock(step, from, [])
      decreases |step| - j
    {
      if Strip(step[j]) == "" {
        break;
      }
      var row := FieldFloats(step[j], 2, 5);
      if row.Err? {
        return Err(row.error);
      }
      positions := positions + [row.value];
      j := j + 1;
    }
    return Ok(positions);
  }

  /** One line of a step. */
  method ScanLine(step: seq<string>, count: nat, st: ScanState) returns (r: Result<ScanState, DecodeError>)
    requires count < |step|
    ensures r == LineEffect(step, count, st)
  {
    var line := step[count];
    var s := st;
    if Contains(line, EnergyHeader) {
      var channels := ReadEnergyBlock(step, count, s.channels);
      if channels.Err? {
        return Err(channels.error);
      }
      s := s.(channels := channels.value);
    }
    assert EnergyPart(step, count, st) == Ok(s);
    var s1 := s;
    if Contains(line, LatticeHeader) {
      var cell := CellAt(step, count);
      if cell.Err? {
        return Err(cell.error);
      }
      s := s.(cells := s.cells + [cell.value], cell := Some(cell.value), doRelax := true);
    }
    assert LatticePart(step, count, s1) == Ok(s);
    if Contains(line, IonicHeader) {
      var positions := ReadIonicBlock(step, count + 1);
      if positions.Err? {
        return Err(positions.error);
      }
      s := s.(positions := Some(positions.value));
    }
    return Ok(s);
  }

  /** The lines of one step, in order. */
  method ScanStep(step: seq<string>, st: ScanState) returns (r: Result<ScanState, DecodeError>)
    ensures r == StepEffect(step, 0, st)
  {
    var s := st;
    for count := 0 to |step|
      invariant StepEffect(step, count, s) == StepEffect(step, 0, st)
    {
      var next := ScanLine(step, count, s);
      if next.Err? {
        return Err(next.error);
      }
      s := next.value;
    }
    return Ok(s);
  }

  /** The steps of a transcript, each followed by its relaxation check. */
  method ScanTranscript(stdout: string) returns (r: Result<ScanState, DecodeError>)
    ensures r == TranscriptEffect(RelaxSteps(stdout), 0, InitialScan)
  {
    var relaxSteps := RelaxSteps(stdout);
    var s := InitialScan;
    for i := 0 to |relaxSteps|
      invariant TranscriptEffect(relaxSteps, i, s) == TranscriptEffect(relaxSteps, 0, InitialScan)
    {
      s := s.(doRelax := false);
      var scanned := ScanStep(relaxSteps[i], s);
      if scanned.Err? {
        return Err(scanned.error);
      }
      var checked := StepEnd(scanned.value);
      if checked.Err? {
        return Err(checked.error);
      }
      s := checked.value;
    }
    return Ok(s);
  }

  /** The label loop of one line of the energy-components file. */
  method RecordEcomponents(line: string, m: map<string, PyValue>)
    returns (r: Result<map<string, PyValue>, DecodeError>)
    ensures r == EcompLine(EnergyLabels, line, GrepEnergy(line), 0, m)
  {
    var ecomponents := m;
    for k := 0 to |EnergyLabels|
      invariant EcompLine(EnergyLabels, line, GrepEnergy(line), k, ecomponents)
             == EcompLine(EnergyLabels, line, GrepEnergy(line), 0, m)
    {
      var marker := EnergyLabels[k].0;
      var key := EnergyLabels[k].1;
      if Contains(line, marker) {
        var value := GrepEnergy(line);
        if value.Err? {
          return Err(value.error);
        }
        ecomponents := ecomponents[key := PyFloat(value.value)];
        ecomponents := ecomponents[key + UnitsSuffix := PyStr(DefaultEnergyUnits)];
      }
    }
    return Ok(ecomponents);
  }

  /** The lines of the energy-components file, in order. */
  method ReadEcomponents(dataLines: seq<string>) returns (r: Result<map<string, PyValue>, DecodeError>)
    ensures r == EcompLines(dataLines, 0, map[])
  {
    var ecomponents: map<string, PyValue> := map[];
    for i := 0 to |dataLines|
      invariant EcompLines(dataLines, i, ecomponents) == EcompLines(dataLines, 0, map[])
    {
      var next := RecordEcomponents(dataLines[i], ecomponents);
      if next.Err? {
        return Err(next.error);
      }
      ecomponents := next.value;
    }
    return Ok(ecomponents);
  }

  /** The JDFTx parser and its one piece of state, `exit_code_stdout`. */
  class JdftxParser {
    const retrieved: Folder
    const inputStructure: Structure
    const outputFilename: string
    var exitCode: Option<ExitCode>

    constructor(retrieved: Folder, inputStructure: Structure, outputFilename: string)
      ensures this.retrieved == retrieved && this.inputStructure == inputStructure
      ensures this.outputFilename == outputFilename && exitCode == None
    {
      this.retrieved := retrieved;
      this.inputStructure := inputStructure;
      this.outputFilename := outputFilename;
      exitCode := None;
    }

    /** `parse_stdout`. */
    method ParseStdout() returns (r: Result<StdoutData, DecodeError>)
      modifies this
      ensures r == ValueOf(ParseStdoutSpec(retrieved, outputFilename))
      ensures exitCode == CodeAfter(old(exitCode), ParseStdoutSpec(retrieved, outputFilename))
    {
      var file := ReadFile(retrieved, outputFilename);
      if file.Missing? {
        exitCode := Some(StdoutMissing);
        return Ok(NoStdoutData);
      }
      if file.ReadFailed? {
        exitCode := Some(StdoutRead);
        return Ok(NoStdoutData);
      }
      var stdout := file.text;
      var dataLines := Split(stdout, "\n");
      var calcSuccess := false;
      for i := 0 to |dataLines|
        invariant calcSuccess <==> exists j :: 0 <= j < i && Contains(dataLines[j], DoneMarker)
      {
        if Contains(dataLines[i], DoneMarker) {
          calcSuccess := true;
        }
      }
      var scan := ScanTranscript(stdout);
      if scan.Err? {
        return Err(scan.error);
      }
      if !calcSuccess {
        exitCode := Some(UnexpectedParserException);
      }
      return Ok(StdoutData(scan.value.channels, scan.value.cells, scan.value.frames));
    }

    /** `parsed_ecomponents`. */
    method ParsedEcomponents() returns (r: Result<map<string, PyValue>, DecodeError>)
      modifies this
      ensures r == ValueOf(ParsedEcomponentsSpec(retrieved))
      ensures exitCode == CodeAfter(old(exitCode), ParsedEcomponentsSpec(retrieved))
    {
      var file := ReadFile(retrieved, EcomponentsFile);
      if file.Missing? {
        exitCode := Some(StdoutMissing);
        return Ok(map[]);
      }
      if file.ReadFailed? {
        exitCode := Some(StdoutRead);
        return Ok(map[]);
      }
      r := ReadEcomponents(Split(file.text, "\n"));
    }

    /** `parsed_structure`. */
    method ParsedStructure() returns (r: Result<(Structure, bool), DecodeError>)
      modifies this
      ensures r == ValueOf(ParsedStructureSpec(retrieved, inputStructure))
      ensures exitCode == CodeAfter(old(exitCode), ParsedStructureSpec(retrieved, inputStructure))
    {
      var latticeFile := ReadFile(retrieved, LatticeFile);
      if !latticeFile.Content? {
        exitCode := FallbackCode(latticeFile);
        return Ok((inputStructure, false));
      }
      var ionposFile := ReadFile(retrieved, IonposFile);
      if !ionposFile.Content? {
        exitCode := FallbackCode(ionposFile);
        return Ok((inputStructure, false));
      }

      var dataLine := BodyLines(latticeFile.text);
      var unitCell: Matrix := [];
      for i := 0 to |dataLine|
        invariant LatticeRows(dataLine, i, unitCell) == LatticeRows(dataLine, 0, [])
      {
        var row := FieldFloats(dataLine[i], 0, 3);
        if row.Err? {
          return Err(row.error);
        }
        unitCell := unitCell + [row.value];
      }
      var cell := CellOf(unitCell);
      if cell.Err? {
        return Err(cell.error);
      }

      var structure := Structure(cell.value, [], []);
      dataLine := BodyLines(ionposFile.text);
      for i := 0 to |dataLine|
        invariant IonposSites(dataLine, i, structure) == IonposSites(dataLine, 0, Structure(cell.value, [], []))
      {
        var position := FieldFloats(dataLine[i], 2, 5);
        if position.Err? {
          return Err(position.error);
        }
        var fields := Words(dataLine[i]);
        if |fields| < 2 {
          return Err(MissingField);
        }
        var next := AppendAtom(structure, position.value, fields[1]);
        if next.Err? {
          return Err(next.error);
        }
        structure := next.value;
      }
      return Ok((structure, true));
    }

    /** `parsed_kpoints`. */
    method ParsedKpoints(structure: Structure) returns (r: Result<Option<KpointsOut>, DecodeError>)
      modifies this
      ensures r == ValueOf(ParsedKpointsSpec(retrieved, structure))
      ensures exitCode == CodeAfter(old(exitCode), ParsedKpointsSpec(retrieved, structure))
    {
      var file := ReadFile(retrieved, KpointsFile);
      if !file.Content? {
        exitCode := FallbackCode(file);
        return Ok(None);
      }
      var dataLines := Split(Strip(file.text), "\n");
      var kpointsList: seq<seq<real>> := [];
      var kpointsWeights: seq<real> := [];
      for i := 0 to |dataLines|
        invariant KpointLines(dataLines, i, kpointsList, kpointsWeights) == KpointLines(dataLines, 0, [], [])
      {
        var parsed := KpointLine(dataLines[i]);
        if parsed.Err? {
          return Err(parsed.error);
        }
        kpointsList := kpointsList + [parsed.value.0];
        kpointsWeights := kpointsWeights + [parsed.value.1];
      }
      return Ok(Some(KpointsOut(structure.cell, kpointsList, kpointsWeights)));
    }

    /** `parse`: returns the outcome, whose exit code is the one left in `exitCode`. */
    method Parse() returns (r: Result<ParseOutcome, DecodeError>)
      modifies this
      ensures r == ParseSpec(retrieved, inputStructure, outputFilename)
      ensures r.Ok? ==> exitCode == r.value.exitCode
    {
      exitCode := None;
      var parsedStdout := ParseStdout();
      if parsedStdout.Err? {
        return Err(parsedStdout.error);
      }
      var parameters: map<string, PyValue> := map[];
      var ecomponents := ParsedEcomponents();
      if ecomponents.Err? {
        return Err(ecomponents.error);
      }
      parameters := parameters + ecomponents.value;
      var outputStructure := ParsedStructure();
      if outputStructure.Err? {
        return Err(outputStructure.error);
      }
      var outputTrajectory := BuildOutputTrajectory(parsedStdout.value, outputStructure.value.0);
      var outputKpoints := ParsedKpoints(outputStructure.value.0);
      if outputKpoints.Err? {
        return Err(outputKpoints.error);
      }
      return Ok(ParseOutcome(exitCode, parameters, outputKpoints.value, outputTrajectory,
                             outputStructure.value.0, outputStructure.value.1));
    }
  }
}
