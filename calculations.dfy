/**
 * The input-file encoder of `JdftxCalculation` (aiida_jdftx/calculations.py):
 * `_generate_inputdata`, which turns a structure, pseudopotentials, k-points,
 * parameters and settings into the lines of the JDFTx input file plus the
 * list of pseudopotential files to copy, and `_if_pos`.
 *
 * `Encode` and the block functions say what the file is; the method
 * `GenerateInputData` builds it step by step as the source does (and pops
 * `fixed_coords` from the caller's settings) and is proved to agree with them.
 */
module Calculations {
  import opened Wrappers
  import opened Text
  import opened Numbers
  import opened Nodes

  const PseudoSubfolder: string := "./pseudo/"
  const FixedCoordsKey: string := "fixed_coords"
  const LatticeHeader: string := "lattice \\ "
  const CoordsTypeLine: string := "coords-type cartesian"
  const DumpNameLine: string := "dump-name aiida.$VAR"
  const DumpLine: string := "dump End ElecDensity Kpoints Ecomponents Lattice IonicPositions"

  /**
   * The two fixed-width float renderings the file uses, `{:18.10f}` and
   * `{:4.1f}`. They are parameters: binary floating-point text is not modelled.
   */
  datatype NumberFormat = NumberFormat(fixed18: real -> string, fixed4: real -> string)

  /** One pseudopotential file to stage: (uuid, file name, destination). */
  datatype CopyEntry = CopyEntry(uuid: string, filename: string, target: string)

  /** The generated file as its lines (each written with a trailing newline) and the copy list. */
  datatype InputData = InputData(lines: seq<string>, copies: seq<CopyEntry>)

  /** Why encoding stopped; the source raises each of these and writes nothing. */
  datatype EncodeError =
    | MissingPseudo(kind: string)                 // KeyError at `pseudos[kind.name]`
    | AlloyOrVacancy(kind: string)                // InputValidationError
    | FixedCoordsUnsized                          // TypeError from `len(fixed_coords)`
    | FixedCoordsLength(sites: nat, given: nat)   // InputValidationError
    | FixedCoordsNonBool(position: nat)           // InputValidationError, 1-based position
    | FlagFormat                                  // ValueError: format code 'd' applied to a str
    | NoKpointMesh                                // InputValidationError

  /** The input-validation errors, as opposed to the Python errors the code runs into. */
  predicate IsValidationError(e: EncodeError) {
    e.AlloyOrVacancy? || e.FixedCoordsLength? || e.FixedCoordsNonBool? || e.NoKpointMesh?
  }

  /** An element of `fixed_coords_strings`: the integer 0, or the text built from `_if_pos`. */
  datatype Flag = IntFlag(n: int) | TextFlag(text: string)

  /** `_if_pos`: 0 for a fixed coordinate, 1 for a free one. */
  function IfPos(fixed: bool): (r: int)
    ensures r == 0 || r == 1
    ensures r == 0 <==> fixed
  {
    if fixed then 0 else 1
  }

  /** `os.path.join(directory, name)` for a directory that ends in a slash. */
  function PathJoin(directory: string, name: string): string {
    if |name| > 0 && name[0] == '/' then name else directory + name
  }

  // ---------------------------------------------------------------------
  // The six blocks

  function LatticeRow(v: Vec3, fmt: NumberFormat): string {
    fmt.fixed18(v.x * AngToBohr) + " " + fmt.fixed18(v.y * AngToBohr) + " "
    + fmt.fixed18(v.z * AngToBohr) + " \\ "
  }

  /** The lattice block: the header, then one continued row per cell vector, in bohr. */
  function LatticeBlock(cell: seq<Vec3>, fmt: NumberFormat): seq<string> {
    [LatticeHeader] + seq(|cell|, i requires 0 <= i < |cell| => LatticeRow(cell[i], fmt))
  }

  predicate KindSupported(k: Kind, pseudos: map<string, Pseudo>) {
    k.name in pseudos && !k.isAlloy && !k.hasVacancies
  }

  /** The error the first unsupported kind raises: the lookup comes before the alloy test. */
  function KindError(k: Kind, pseudos: map<string, Pseudo>): EncodeError {
    if k.name !in pseudos then MissingPseudo(k.name) else AlloyOrVacancy(k.name)
  }

  /** Index of the first kind that cannot be encoded, or the number of kinds. */
  function FirstUnsupported(kinds: seq<Kind>, pseudos: map<string, Pseudo>): (i: nat)
    ensures i <= |kinds|
    ensures forall j :: 0 <= j < i ==> KindSupported(kinds[j], pseudos)
    ensures i < |kinds| ==> !KindSupported(kinds[i], pseudos)
  {
    if |kinds| == 0 || !KindSupported(kinds[0], pseudos) then 0
    else 1 + FirstUnsupported(kinds[1..], pseudos)
  }

  function PseudoTarget(p: Pseudo): string {
    PathJoin(PseudoSubfolder, p.filename)
  }

  function SpeciesLine(p: Pseudo): string {
    "ion-species " + PseudoTarget(p)
  }

  function CopyOf(p: Pseudo): CopyEntry {
    CopyEntry(p.uuid, p.filename, PseudoTarget(p))
  }

  /** The ion-species block and the copy list: one line and one entry per kind, in kind order. */
  function SpeciesBlock(kinds: seq<Kind>, pseudos: map<string, Pseudo>)
    : Result<(seq<string>, seq<CopyEntry>), EncodeError>
  {
    var bad := FirstUnsupported(kinds, pseudos);
    if bad < |kinds| then Err(KindError(kinds[bad], pseudos))
    else
      Ok((seq(|kinds|, i requires 0 <= i < |kinds| && kinds[i].name in pseudos =>
             SpeciesLine(pseudos[kinds[i].name])),
          seq(|kinds|, i requires 0 <= i < |kinds| && kinds[i].name in pseudos =>
             CopyOf(pseudos[kinds[i].name]))))
  }

  /** What `len` and iteration see in a settings value, or `None` where `len` raises TypeError. */
  function Elements(v: PyValue): Option<seq<PyValue>> {
    match v
    case PyList(items) => Some(items)
    case PyStr(s) => Some(seq(|s|, i requires 0 <= i < |s| => PyStr([s[i]])))
    case PyDict(entries) => Some(seq(|entries|, i requires 0 <= i < |entries| => PyStr(entries[i].0)))
    case _ => None
  }

  /** Index of the first element that is not a bool, or the number of elements. */
  function FirstNonBool(items: seq<PyValue>): (i: nat)
    ensures i <= |items|
    ensures forall j :: 0 <= j < i ==> items[j].PyBool?
    ensures i < |items| ==> !items[i].PyBool?
  {
    if |items| == 0 || !items[0].PyBool? then 0 else 1 + FirstNonBool(items[1..])
  }

  /** The value `settings.pop('fixed_coords', None)` returns. */
  function FixedCoordsOf(settings: map<string, PyValue>): PyValue {
    if FixedCoordsKey in settings then settings[FixedCoordsKey] else PyNone
  }

  /**
   * `fixed_coords_strings`: one flag per site, or the error. A missing value
   * fixes every ion; a value without a length is a TypeError; a wrong length
   * and the first non-bool (at its 1-based position) are validation errors.
   */
  function FixedFlags(fixed: PyValue, nSites: nat): (r: Result<seq<Flag>, EncodeError>)
    ensures r.Ok? <==>
      (fixed.PyNone? ||
       (Elements(fixed).Some? && |Elements(fixed).value| == nSites
        && forall j :: 0 <= j < nSites ==> Elements(fixed).value[j].PyBool?))
    ensures r.Ok? ==> |r.value| == nSites
    ensures fixed.PyNone? ==> forall i :: 0 <= i < nSites ==> r.value[i] == IntFlag(0)
    ensures r.Ok? && !fixed.PyNone? ==> forall i :: 0 <= i < nSites ==>
      r.value[i] == TextFlag(" " + IntToString(IfPos(Elements(fixed).value[i].b)))
    ensures r == Err(FixedCoordsUnsized) <==> (!fixed.PyNone? && Elements(fixed).None?)
    ensures (r.Err? && r.error.FixedCoordsLength?) <==>
      (!fixed.PyNone? && Elements(fixed).Some? && |Elements(fixed).value| != nSites)
    ensures r.Err? && r.error.FixedCoordsLength? ==>
      r.error == FixedCoordsLength(nSites, |Elements(fixed).value|)
    ensures r.Err? && r.error.FixedCoordsNonBool? ==>
      var items := Elements(fixed).value;
      var p := r.error.position;
      |items| == nSites && 1 <= p <= |items| && !items[p - 1].PyBool?
      && forall j :: 0 <= j < p - 1 ==> items[j].PyBool?
    ensures r.Err? ==> r.error.FixedCoordsUnsized? || r.error.FixedCoordsLength? || r.error.FixedCoordsNonBool?
  {
    if fixed.PyNone? then Ok(seq(nSites, _ => IntFlag(0)))
    else
      match Elements(fixed)
      case None => Err(FixedCoordsUnsized)
      case Some(items) =>
        if |items| != nSites then Err(FixedCoordsLength(nSites, |items|))
        else
          var bad := FirstNonBool(items);
          if bad < |items| then Err(FixedCoordsNonBool(bad + 1))
          else Ok(seq(|items|, i requires 0 <= i < |items| && items[i].PyBool? =>
                        TextFlag(" " + IntToString(IfPos(items[i].b)))))
  }

  function IonLine(site: Site, flag: string, fmt: NumberFormat): string {
    "ion " + LJust(site.kindName, 6) + " " + fmt.fixed18(site.position.x * AngToBohr) + " "
    + fmt.fixed18(site.position.y * AngToBohr) + " " + fmt.fixed18(site.position.z * AngToBohr)
    + " " + flag
  }

  /** The ion-positions block; a text flag cannot be printed with `:d`. */
  function PositionsBlock(sites: seq<Site>, flags: seq<Flag>, fmt: NumberFormat)
    : Result<seq<string>, EncodeError>
    requires |flags| == |sites|
  {
    if exists i :: 0 <= i < |flags| && flags[i].TextFlag? then Err(FlagFormat)
    else
      Ok([CoordsTypeLine] + seq(|sites|, i requires 0 <= i < |sites| && flags[i].IntFlag? =>
                                  IonLine(sites[i], IntToString(flags[i].n), fmt)))
  }

  function ScalarLine(key: string, text: string): string {
    LJust(key, 30) + " " + text
  }

  function NestedHeader(key: string): string {
    LJust(key, 30) + " \\ "
  }

  function NestedLine(key: string, text: string): string {
    "    " + LJust(key, 30) + " " + text + " \\ "
  }

  /** The continued lines of a dictionary value, in its key order. */
  function NestedLines(entries: seq<(string, string)>): seq<string> {
    if |entries| == 0 then []
    else NestedLines(entries[..|entries| - 1]) + [NestedLine(entries[|entries| - 1].0, entries[|entries| - 1].1)]
  }

  function ParamLines(key: string, v: ParamValue): seq<string> {
    match v
    case Scalar(text) => [ScalarLine(key, text)]
    case Nested(entries) => [NestedHeader(key)] + NestedLines(entries)
  }

  /** The control block: the parameters in insertion order. */
  function ControlBlock(params: seq<(string, ParamValue)>): seq<string> {
    if |params| == 0 then []
    else ControlBlock(params[..|params| - 1]) + ParamLines(params[|params| - 1].0, params[|params| - 1].1)
  }

  /** The k-point block, or the error for k-points without a mesh. */
  function KpointBlock(k: KpointsInput, fmt: NumberFormat): Result<seq<string>, EncodeError> {
    match k
    case NoMesh => Err(NoKpointMesh)
    case Mesh(n1, n2, n3, o1, o2, o3) =>
      Ok(["kpoint-folding " + IntToString(n1) + " " + IntToString(n2) + " " + IntToString(n3),
          "kpoint " + fmt.fixed4(o1) + " " + fmt.fixed4(o2) + " " + fmt.fixed4(o3) + "  1.0"])
  }

  function DumpBlock(): seq<string> {
    [DumpNameLine, DumpLine]
  }

  /** The six blocks in file order, each followed by an empty line. */
  function Assemble(lattice: seq<string>, species: seq<string>, positions: seq<string>,
                    kpoint: seq<string>, control: seq<string>): seq<string> {
    lattice + [""] + species + [""] + positions + [""] + kpoint + [""] + control + [""] + DumpBlock() + [""]
  }

  /** `_generate_inputdata`, given the settings dictionary as it was on entry. */
  function Encode(structure: Structure, pseudos: map<string, Pseudo>, kpoints: KpointsInput,
                  params: seq<(string, ParamValue)>, settings: map<string, PyValue>, fmt: NumberFormat)
    : Result<InputData, EncodeError>
  {
    match SpeciesBlock(structure.kinds, pseudos)
    case Err(e) => Err(e)
    case Ok((species, copies)) =>
      match FixedFlags(FixedCoordsOf(settings), |structure.sites|)
      case Err(e) => Err(e)
      case Ok(flags) =>
        match PositionsBlock(structure.sites, flags, fmt)
        case Err(e) => Err(e)
        case Ok(positions) =>
          match KpointBlock(kpoints, fmt)
          case Err(e) => Err(e)
          case Ok(kpoint) =>
            Ok(InputData(Assemble(LatticeBlock(structure.cell, fmt), species, positions, kpoint,
                                  ControlBlock(params)), copies))
  }

  /** The settings dictionary after the call: `fixed_coords` is popped once the kinds are accepted. */
  function SettingsAfter(structure: Structure, pseudos: map<string, Pseudo>, settings: map<string, PyValue>)
    : map<string, PyValue>
  {
    if SpeciesBlock(structure.kinds, pseudos).Ok? then settings - {FixedCoordsKey} else settings
  }

  /** The caller's `settings` dictionary, which the encoder changes in place. */
  class Settings {
    var entries: map<string, PyValue>

    constructor(entries: map<string, PyValue>)
      ensures this.entries == entries
    {
      this.entries := entries;
    }

    /** `dict.pop(key, default)`. */
    method Pop(key: string, default: PyValue) returns (v: PyValue)
      modifies this
      ensures entries == old(entries) - {key}
      ensures v == if key in old(entries) then old(entries)[key] else default
    {
      v := if key in entries then entries[key] else default;
      entries := entries - {key};
    }
  }

  /** The lattice lines, row by row. */
  method WriteLattice(cell: seq<Vec3>, fmt: NumberFormat) returns (lines: seq<string>)
    ensures lines == LatticeBlock(cell, fmt)
  {
    lines := [LatticeHeader];
    for i := 0 to |cell|
      invariant |lines| == i + 1 && lines[0] == LatticeHeader
      invariant forall j :: 0 <= j < i ==> lines[j + 1] == LatticeRow(cell[j], fmt)
    {
      lines := lines + [LatticeRow(cell[i], fmt)];
    }
  }

  /** The kinds loop: species lines and the copy list, stopping at the first unsupported kind. */
  method WriteSpecies(kinds: seq<Kind>, pseudos: map<string, Pseudo>)
    returns (r: Result<(seq<string>, seq<CopyEntry>), EncodeError>)
    ensures r == SpeciesBlock(kinds, pseudos)
  {
    var copies: seq<CopyEntry> := [];
    var pseudoFilenames: map<int, string> := map[];
    var species: seq<string> := [];
    for i := 0 to |kinds|
      invariant |species| == i && |copies| == i
      invariant forall j :: 0 <= j < i ==> KindSupported(kinds[j], pseudos)
      invariant forall j :: 0 <= j < i ==>
        species[j] == SpeciesLine(pseudos[kinds[j].name]) && copies[j] == CopyOf(pseudos[kinds[j].name])
    {
      var kind := kinds[i];
      if kind.name !in pseudos {
        return Err(MissingPseudo(kind.name));
      }
      var pseudo := pseudos[kind.name];
      if kind.isAlloy || kind.hasVacancies {
        return Err(AlloyOrVacancy(kind.name));
      }
      var filename := pseudo.filename;
      pseudoFilenames := pseudoFilenames[pseudo.pk := filename];
      var subfolderFilename := PathJoin(PseudoSubfolder, filename);
      copies := copies + [CopyEntry(pseudo.uuid, pseudo.filename, subfolderFilename)];
      species := species + ["ion-species " + subfolderFilename];
    }
    assert FirstUnsupported(kinds, pseudos) == |kinds|;
    assert species == seq(|kinds|, i requires 0 <= i < |kinds| && kinds[i].name in pseudos =>
                            SpeciesLine(pseudos[kinds[i].name]));
    assert copies == seq(|kinds|, i requires 0 <= i < |kinds| && kinds[i].name in pseudos =>
                           CopyOf(pseudos[kinds[i].name]));
    return Ok((species, copies));
  }

  /** `fixed_coords_strings` from the popped `fixed_coords` value. */
  method WriteFlags(fixedCoords: PyValue, nSites: nat) returns (r: Result<seq<Flag>, EncodeError>)
    ensures r == FixedFlags(fixedCoords, nSites)
  {
    if fixedCoords.PyNone? {
      return Ok(seq(nSites, _ => IntFlag(0)));
    }
    var elements := Elements(fixedCoords);
    if elements.None? {
      return Err(FixedCoordsUnsized);
    }
    var items := elements.value;
    if |items| != nSites {
      return Err(FixedCoordsLength(nSites, |items|));
    }
    var flags: seq<Flag> := [];
    for i := 0 to |items|
      invariant |flags| == i
      invariant forall j :: 0 <= j < i ==> items[j].PyBool? && flags[j] == TextFlag(" " + IntToString(IfPos(items[j].b)))
    {
      if !items[i].PyBool? {
        return Err(FixedCoordsNonBool(i + 1));
      }
      flags := flags + [TextFlag(" " + IntToString(IfPos(items[i].b)))];
    }
    assert FirstNonBool(items) == |items|;
    assert flags == seq(|items|, i requires 0 <= i < |items| && items[i].PyBool? =>
                          TextFlag(" " + IntToString(IfPos(items[i].b))));
    return Ok(flags);
  }

  /** The ion lines, site by site; the `:d` format fails on the first text flag. */
  method WritePositions(sites: seq<Site>, flags: seq<Flag>, fmt: NumberFormat)
    returns (r: Result<seq<string>, EncodeError>)
    requires |flags| == |sites|
    ensures r == PositionsBlock(sites, flags, fmt)
  {
    var positions := [CoordsTypeLine];
    for i := 0 to |sites|
      invariant |positions| == i + 1 && positions[0] == CoordsTypeLine
      invariant forall j :: 0 <= j < i ==> flags[j].IntFlag? && positions[j + 1] == IonLine(sites[j], IntToString(flags[j].n), fmt)
    {
      match flags[i]
      case TextFlag(_) =>
        return Err(FlagFormat);
      case IntFlag(n) =>
        positions := positions + [IonLine(sites[i], IntToString(n), fmt)];
    }
    assert !exists i :: 0 <= i < |flags| && flags[i].TextFlag?;
    assert positions == [CoordsTypeLine] + seq(|sites|, i requires 0 <= i < |sites| && flags[i].IntFlag? =>
                                                 IonLine(sites[i], IntToString(flags[i].n), fmt));
    return Ok(positions);
  }

  /** The lines of one parameter: a scalar line, or a header and one continued line per inner key. */
  method WriteParam(key: string, value: ParamValue) returns (lines: seq<string>)
    ensures lines == ParamLines(key, value)
  {
    match value {
      case Scalar(text) =>
        lines := [ScalarLine(key, text)];
      case Nested(entries) =>
        lines := [NestedHeader(key)];
        for j := 0 to |entries|
          invariant lines == [NestedHeader(key)] + NestedLines(entries[..j])
        {
          assert entries[..j + 1][..j] == entries[..j];
          lines := lines + [NestedLine(entries[j].0, entries[j].1)];
        }
        assert entries[..|entries|] == entries;
    }
  }

  /** The k-point lines: the folding, then the offset with weight one; k-points without a mesh raise. */
  method WriteKpoints(kpoints: KpointsInput, fmt: NumberFormat) returns (r: Result<seq<string>, EncodeError>)
    ensures r == KpointBlock(kpoints, fmt)
  {
    match kpoints
    case NoMesh =>
      return Err(NoKpointMesh);
    case Mesh(n1, n2, n3, o1, o2, o3) =>
      var kpoint := ["kpoint-folding " + IntToString(n1) + " " + IntToString(n2) + " " + IntToString(n3)];
      kpoint := kpoint + ["kpoint " + fmt.fixed4(o1) + " " + fmt.fixed4(o2) + " " + fmt.fixed4(o3) + "  1.0"];
      assert kpoint == KpointBlock(kpoints, fmt).value;
      return Ok(kpoint);
  }

  /** The control lines, parameter by parameter. */
  method WriteControl(params: seq<(string, ParamValue)>) returns (control: seq<string>)
    ensures control == ControlBlock(params)
  {
    control := [];
    for i := 0 to |params|
      invariant control == ControlBlock(params[..i])
    {
      var (key, value) := params[i];
      var lines := WriteParam(key, value);
      assert params[..i + 1][..i] == params[..i] && params[..i + 1][i] == (key, value);
      control := control + lines;
    }
    assert params[..|params|] == params;
  }

  /** `JdftxCalculation._generate_inputdata`. */
  method GenerateInputData(structure: Structure, pseudos: map<string, Pseudo>, kpoints: KpointsInput,
                           params: seq<(string, ParamValue)>, settings: Settings, fmt: NumberFormat)
    returns (r: Result<InputData, EncodeError>)
    modifies settings
    ensures r == Encode(structure, pseudos, kpoints, params, old(settings.entries), fmt)
    ensures settings.entries == SettingsAfter(structure, pseudos, old(settings.entries))
  {
    var lattice := WriteLattice(structure.cell, fmt);

    var speciesResult := WriteSpecies(structure.kinds, pseudos);
    if speciesResult.Err? {
      return Err(speciesResult.error);
    }
    var (species, copies) := speciesResult.value;

    var fixedCoords := settings.Pop(FixedCoordsKey, PyNone);
    assert fixedCoords == FixedCoordsOf(old(settings.entries));
    var flags := WriteFlags(fixedCoords, |structure.sites|);
    if flags.Err? {
      return Err(flags.error);
    }
    var positions := WritePositions(structure.sites, flags.value, fmt);
    if positions.Err? {
      return Err(positions.error);
    }

    var control := WriteControl(params);

    var kpointResult := WriteKpoints(kpoints, fmt);
    if kpointResult.Err? {
      return Err(kpointResult.error);
    }
    var kpoint := kpointResult.value;

    var dump := [DumpNameLine];
    dump := dump + [DumpLine];

    var content := lattice + [""];
    content := content + species + [""];
    content := content + positions.value + [""];
    content := content + kpoint + [""];
    content := content + control + [""];
    content := content + dump + [""];
    assert content == Assemble(lattice, species, positions.value, kpoint, control);
    return Ok(InputData(content, copies));
  }
}
