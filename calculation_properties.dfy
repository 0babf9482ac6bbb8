/**
 * What the input file written by `_generate_inputdata` is: when it can be
 * written at all, where each block sits, how the species lines and the copy
 * list agree, what the position flags are, and which tokens read back.
 */
module CalculationProperties {
  import opened Wrappers
  import opened Text
  import opened Numbers
  import opened Nodes
  import opened Calculations

  /** The `fixed_coords` values the ion lines can be printed with: none, or an empty one for no sites. */
  predicate FlagsAccepted(fixed: PyValue, nSites: nat) {
    fixed.PyNone? || (nSites == 0 && Elements(fixed).Some? && |Elements(fixed).value| == 0)
  }

  predicate AllKindsSupported(kinds: seq<Kind>, pseudos: map<string, Pseudo>) {
    forall k :: 0 <= k < |kinds| ==> KindSupported(kinds[k], pseudos)
  }

  lemma SpeciesOkIff(kinds: seq<Kind>, pseudos: map<string, Pseudo>)
    ensures SpeciesBlock(kinds, pseudos).Ok? <==> AllKindsSupported(kinds, pseudos)
  {
    var bad := FirstUnsupported(kinds, pseudos);
    if bad < |kinds| {
      assert !KindSupported(kinds[bad], pseudos);
    }
  }

  /**
   * The positions block exists exactly when `fixed_coords` is absent, or
   * empty for a structure without sites: every given bool becomes the text
   * `' 0'` or `' 1'`, which the `:d` format refuses.
   */
  lemma {:induction false} PositionsOkIff(sites: seq<Site>, fixed: PyValue, fmt: NumberFormat)
    ensures (FixedFlags(fixed, |sites|).Ok? && PositionsBlock(sites, FixedFlags(fixed, |sites|).value, fmt).Ok?)
            <==> FlagsAccepted(fixed, |sites|)
  {
    var f := FixedFlags(fixed, |sites|);
    if fixed.PyNone? {
      assert forall i :: 0 <= i < |f.value| ==> f.value[i].IntFlag?;
    } else if f.Ok? && |sites| > 0 {
      var items := Elements(fixed).value;
      assert FirstNonBool(items) == |items|;
      assert f.value[0].TextFlag?;
    }
  }

  /** `_generate_inputdata` returns exactly when the kinds, `fixed_coords` and the k-points are all usable. */
  lemma EncodeOkIff(structure: Structure, pseudos: map<string, Pseudo>, kpoints: KpointsInput,
                    params: seq<(string, ParamValue)>, settings: map<string, PyValue>, fmt: NumberFormat)
    ensures Encode(structure, pseudos, kpoints, params, settings, fmt).Ok? <==>
      AllKindsSupported(structure.kinds, pseudos)
      && FlagsAccepted(FixedCoordsOf(settings), |structure.sites|)
      && kpoints.Mesh?
  {
    SpeciesOkIff(structure.kinds, pseudos);
    PositionsOkIff(structure.sites, FixedCoordsOf(settings), fmt);
  }

  /**
   * The first kind that cannot be encoded decides the error, whatever comes
   * after it, and `fixed_coords` is then left in the settings.
   */
  lemma FirstBadKindDecides(structure: Structure, pseudos: map<string, Pseudo>, kpoints: KpointsInput,
                            params: seq<(string, ParamValue)>, settings: map<string, PyValue>, fmt: NumberFormat,
                            j: nat)
    requires j < |structure.kinds| && !KindSupported(structure.kinds[j], pseudos)
    requires forall k :: 0 <= k < j ==> KindSupported(structure.kinds[k], pseudos)
    ensures Encode(structure, pseudos, kpoints, params, settings, fmt)
            == Err(KindError(structure.kinds[j], pseudos))
    ensures SettingsAfter(structure, pseudos, settings) == settings
    ensures structure.kinds[j].name !in pseudos ==>
            Encode(structure, pseudos, kpoints, params, settings, fmt).error.MissingPseudo?
  {
    assert FirstUnsupported(structure.kinds, pseudos) == j;
  }

  /**
   * Once every kind is accepted `fixed_coords` has been removed from the
   * settings and nothing else has changed, whether or not the flags, the
   * positions or the k-points then fail.
   */
  lemma SettingsLoseOnlyFixedCoords(structure: Structure, pseudos: map<string, Pseudo>,
                                    settings: map<string, PyValue>)
    requires AllKindsSupported(structure.kinds, pseudos)
    ensures FixedCoordsKey !in SettingsAfter(structure, pseudos, settings)
    ensures forall key :: key in settings && key != FixedCoordsKey ==>
      key in SettingsAfter(structure, pseudos, settings) && SettingsAfter(structure, pseudos, settings)[key] == settings[key]
  {
    SpeciesOkIff(structure.kinds, pseudos);
  }

  /**
   * Which error a supplied `fixed_coords` gets once the kinds are accepted:
   * a wrong length is a validation error, checked before the elements.
   */
  lemma FixedCoordsLengthError(structure: Structure, pseudos: map<string, Pseudo>, kpoints: KpointsInput,
                               params: seq<(string, ParamValue)>, settings: map<string, PyValue>,
                               fmt: NumberFormat, items: seq<PyValue>)
    requires AllKindsSupported(structure.kinds, pseudos)
    requires Elements(FixedCoordsOf(settings)) == Some(items)
    requires |items| != |structure.sites|
    ensures var r := Encode(structure, pseudos, kpoints, params, settings, fmt);
      r == Err(FixedCoordsLength(|structure.sites|, |items|)) && IsValidationError(r.error)
  {
    FlagsOfItems(FixedCoordsOf(settings), |structure.sites|, items);
    var e := FixedCoordsLength(|structure.sites|, |items|);
    assert FixedFlags(FixedCoordsOf(settings), |structure.sites|) == Err(e);
    EncodeAtFlags(structure, pseudos, kpoints, params, settings, fmt);
  }

  /** Of a list of the right length, the first non-bool is a validation error at its 1-based position. */
  lemma FixedCoordsNonBoolError(structure: Structure, pseudos: map<string, Pseudo>, kpoints: KpointsInput,
                                params: seq<(string, ParamValue)>, settings: map<string, PyValue>,
                                fmt: NumberFormat, items: seq<PyValue>)
    requires AllKindsSupported(structure.kinds, pseudos)
    requires Elements(FixedCoordsOf(settings)) == Some(items)
    requires |items| == |structure.sites| && FirstNonBool(items) < |items|
    ensures var r := Encode(structure, pseudos, kpoints, params, settings, fmt);
      r == Err(FixedCoordsNonBool(FirstNonBool(items) + 1)) && IsValidationError(r.error)
  {
    FlagsOfItems(FixedCoordsOf(settings), |structure.sites|, items);
    var e := FixedCoordsNonBool(FirstNonBool(items) + 1);
    assert FixedFlags(FixedCoordsOf(settings), |structure.sites|) == Err(e);
    EncodeAtFlags(structure, pseudos, kpoints, params, settings, fmt);
  }

  /**
   * A valid list of bools for at least one site passes validation and then
   * reaches the `:d` format, which fails with a Python error, not a validation error.
   */
  lemma FixedCoordsFormatError(structure: Structure, pseudos: map<string, Pseudo>, kpoints: KpointsInput,
                               params: seq<(string, ParamValue)>, settings: map<string, PyValue>,
                               fmt: NumberFormat, items: seq<PyValue>)
    requires AllKindsSupported(structure.kinds, pseudos)
    requires Elements(FixedCoordsOf(settings)) == Some(items)
    requires |items| == |structure.sites| > 0 && FirstNonBool(items) == |items|
    ensures var r := Encode(structure, pseudos, kpoints, params, settings, fmt);
      r == Err(FlagFormat) && !IsValidationError(r.error)
  {
    FlagFormatError(structure.sites, FixedCoordsOf(settings), items, fmt);
    var flags := FixedFlags(FixedCoordsOf(settings), |structure.sites|).value;
    EncodeAtPositions(structure, pseudos, kpoints, params, settings, fmt, flags);
  }

  /** A valid, non-empty list of bools gives text flags, which the positions block refuses. */
  lemma FlagFormatError(sites: seq<Site>, fixed: PyValue, items: seq<PyValue>, fmt: NumberFormat)
    requires Elements(fixed) == Some(items) && |items| == |sites| > 0 && FirstNonBool(items) == |items|
    ensures FixedFlags(fixed, |sites|).Ok?
    ensures PositionsBlock(sites, FixedFlags(fixed, |sites|).value, fmt) == Err(FlagFormat)
  {
    var f := FixedFlags(fixed, |sites|);
    assert f.Ok? && f.value[0].TextFlag?;
  }

  /** The flag list of a sized `fixed_coords` value, by its length and its first non-bool. */
  lemma FlagsOfItems(fixed: PyValue, nSites: nat, items: seq<PyValue>)
    requires Elements(fixed) == Some(items)
    ensures |items| != nSites ==> FixedFlags(fixed, nSites) == Err(FixedCoordsLength(nSites, |items|))
    ensures |items| == nSites && FirstNonBool(items) < |items| ==>
      FixedFlags(fixed, nSites) == Err(FixedCoordsNonBool(FirstNonBool(items) + 1))
    ensures |items| == nSites && FirstNonBool(items) == |items| ==> FixedFlags(fixed, nSites).Ok?
  {
    assert !fixed.PyNone?;
  }

  /** Once every kind is accepted, a failing flag list is the file's error. */
  lemma EncodeAtFlags(structure: Structure, pseudos: map<string, Pseudo>, kpoints: KpointsInput,
                      params: seq<(string, ParamValue)>, settings: map<string, PyValue>, fmt: NumberFormat)
    requires AllKindsSupported(structure.kinds, pseudos)
    requires FixedFlags(FixedCoordsOf(settings), |structure.sites|).Err?
    ensures Encode(structure, pseudos, kpoints, params, settings, fmt)
            == Err(FixedFlags(FixedCoordsOf(settings), |structure.sites|).error)
  {
    SpeciesOkIff(structure.kinds, pseudos);
  }

  /** Once every kind and the flag list are accepted, a failing positions block is the file's error. */
  lemma EncodeAtPositions(structure: Structure, pseudos: map<string, Pseudo>, kpoints: KpointsInput,
                          params: seq<(string, ParamValue)>, settings: map<string, PyValue>, fmt: NumberFormat,
                          flags: seq<Flag>)
    requires AllKindsSupported(structure.kinds, pseudos)
    requires FixedFlags(FixedCoordsOf(settings), |structure.sites|) == Ok(flags)
    requires PositionsBlock(structure.sites, flags, fmt).Err?
    ensures Encode(structure, pseudos, kpoints, params, settings, fmt)
            == Err(PositionsBlock(structure.sites, flags, fmt).error)
  {
    SpeciesOkIff(structure.kinds, pseudos);
  }

  /**
   * One copy entry per kind, in kind order: kinds that share a pseudopotential
   * are staged twice, to the same target.
   */
  lemma CopiesFollowKinds(structure: Structure, pseudos: map<string, Pseudo>, kpoints: KpointsInput,
                          params: seq<(string, ParamValue)>, settings: map<string, PyValue>, fmt: NumberFormat)
    requires Encode(structure, pseudos, kpoints, params, settings, fmt).Ok?
    ensures var copies := Encode(structure, pseudos, kpoints, params, settings, fmt).value.copies;
      |copies| == |structure.kinds|
      && (forall i :: 0 <= i < |copies| ==>
            structure.kinds[i].name in pseudos
            && copies[i].uuid == pseudos[structure.kinds[i].name].uuid
            && copies[i].filename == pseudos[structure.kinds[i].name].filename
            && copies[i].target == PathJoin(PseudoSubfolder, copies[i].filename))
      && (forall i, j ::
            0 <= i < j < |copies| && pseudos[structure.kinds[i].name] == pseudos[structure.kinds[j].name]
            ==> copies[i] == copies[j])
  {
    SpeciesOkIff(structure.kinds, pseudos);
  }

  /** Where each block of an assembled file starts, and the empty line after each. */
  lemma AssembleLayout(lattice: seq<string>, species: seq<string>, positions: seq<string>,
                       kpoint: seq<string>, control: seq<string>)
    ensures var lines := Assemble(lattice, species, positions, kpoint, control);
      var a, b, c, d, e := |lattice|, |species|, |positions|, |kpoint|, |control|;
      |lines| == a + b + c + d + e + 8
      && (forall i :: 0 <= i < a ==> lines[i] == lattice[i]) && lines[a] == ""
      && (forall i :: 0 <= i < b ==> lines[a + 1 + i] == species[i]) && lines[a + b + 1] == ""
      && (forall i :: 0 <= i < c ==> lines[a + b + 2 + i] == positions[i]) && lines[a + b + c + 2] == ""
      && (forall i :: 0 <= i < d ==> lines[a + b + c + 3 + i] == kpoint[i]) && lines[a + b + c + d + 3] == ""
      && (forall i :: 0 <= i < e ==> lines[a + b + c + d + 4 + i] == control[i]) && lines[a + b + c + d + e + 4] == ""
      && lines[|lines| - 3] == DumpNameLine && lines[|lines| - 2] == DumpLine && lines[|lines| - 1] == ""
  {
    var t5 := control + [""] + DumpBlock() + [""];
    var t4 := kpoint + [""] + t5;
    var t3 := positions + [""] + t4;
    var t2 := species + [""] + t3;
    assert Assemble(lattice, species, positions, kpoint, control) == lattice + [""] + t2;
  }

  /** The separators and the first line of each block, without quantifiers. */
  lemma AssembleSeparators(lattice: seq<string>, species: seq<string>, positions: seq<string>,
                           kpoint: seq<string>, control: seq<string>)
    requires |lattice| > 0 && |positions| > 0 && |kpoint| > 0
    ensures var lines := Assemble(lattice, species, positions, kpoint, control);
      var a, b, c, d, e := |lattice|, |species|, |positions|, |kpoint|, |control|;
      |lines| == a + b + c + d + e + 8
      && lines[0] == lattice[0] && lines[a] == "" && lines[a + b + 1] == ""
      && lines[a + b + 2] == positions[0] && lines[a + b + c + 2] == ""
      && lines[a + b + c + 3] == kpoint[0] && lines[a + b + c + d + 3] == ""
      && lines[a + b + c + d + e + 4] == ""
      && lines[|lines| - 3] == DumpNameLine && lines[|lines| - 2] == DumpLine && lines[|lines| - 1] == ""
  {
    AssembleLayout(lattice, species, positions, kpoint, control);
  }

  /** The blocks an accepted input is assembled from. */
  lemma EncodedBlocks(structure: Structure, pseudos: map<string, Pseudo>, kpoints: KpointsInput,
                      params: seq<(string, ParamValue)>, settings: map<string, PyValue>, fmt: NumberFormat,
                      r: InputData)
    returns (species: seq<string>, positions: seq<string>, kpoint: seq<string>)
    requires Encode(structure, pseudos, kpoints, params, settings, fmt) == Ok(r)
    ensures |species| == |structure.kinds| == |r.copies|
    ensures forall i :: 0 <= i < |species| ==> species[i] == "ion-species " + r.copies[i].target
    ensures |positions| == |structure.sites| + 1 && positions[0] == CoordsTypeLine
    ensures kpoints.Mesh? && kpoint == KpointBlock(kpoints, fmt).value && |kpoint| == 2
    ensures r.lines == Assemble(LatticeBlock(structure.cell, fmt), species, positions, kpoint, ControlBlock(params))
    ensures FixedCoordsOf(settings).PyNone? ==>
      forall i :: 0 <= i < |structure.sites| ==>
        positions[i + 1] == IonLine(structure.sites[i], IntToString(0), fmt)
  {
    SpeciesLinesTargets(structure.kinds, pseudos);
    species := SpeciesBlock(structure.kinds, pseudos).value.0;
    var flags := FixedFlags(FixedCoordsOf(settings), |structure.sites|).value;
    positions := PositionsBlock(structure.sites, flags, fmt).value;
    kpoint := KpointBlock(kpoints, fmt).value;
    if FixedCoordsOf(settings).PyNone? {
      DefaultPositions(structure.sites, fmt);
    }
  }

  /** Each species line names the target its pseudopotential is copied to. */
  lemma SpeciesLinesTargets(kinds: seq<Kind>, pseudos: map<string, Pseudo>)
    requires SpeciesBlock(kinds, pseudos).Ok?
    ensures var (species, copies) := SpeciesBlock(kinds, pseudos).value;
      |species| == |kinds| == |copies| && forall i :: 0 <= i < |species| ==> species[i] == "ion-species " + copies[i].target
  {
  }

  /** Without `fixed_coords` every ion line carries the flag `0`. */
  lemma DefaultPositions(sites: seq<Site>, fmt: NumberFormat)
    ensures var p := PositionsBlock(sites, FixedFlags(PyNone, |sites|).value, fmt);
      p.Ok? && |p.value| == |sites| + 1 && p.value[0] == CoordsTypeLine
      && forall i :: 0 <= i < |sites| ==> p.value[i + 1] == IonLine(sites[i], IntToString(0), fmt)
  {
    var flags := FixedFlags(PyNone, |sites|).value;
    assert forall i :: 0 <= i < |flags| ==> flags[i] == IntFlag(0);
  }

  /** The file has one line per cell vector, kind, site and control line, plus twelve, and ends with the dump block. */
  lemma FileLength(structure: Structure, pseudos: map<string, Pseudo>, kpoints: KpointsInput,
      params: seq<(string, ParamValue)>, settings: map<string, PyValue>, fmt: NumberFormat, r: InputData)
    requires Encode(structure, pseudos, kpoints, params, settings, fmt) == Ok(r)
    ensures |r.lines| == |structure.cell| + |structure.kinds| + |structure.sites| + |ControlBlock(params)| + 12
    ensures r.lines[|r.lines| - 3] == DumpNameLine && r.lines[|r.lines| - 2] == DumpLine
    ensures r.lines[|r.lines| - 1] == ""
  {
    var species, positions, kpoint := EncodedBlocks(structure, pseudos, kpoints, params, settings, fmt, r);
    var lattice := LatticeBlock(structure.cell, fmt);
    assert |lattice| == |structure.cell| + 1 && lattice[0] == LatticeHeader;
    AssembleSeparators(lattice, species, positions, kpoint, ControlBlock(params));
  }

  /** Each of the six blocks is closed by an empty line. */
  lemma BlockSeparators(structure: Structure, pseudos: map<string, Pseudo>, kpoints: KpointsInput,
      params: seq<(string, ParamValue)>, settings: map<string, PyValue>, fmt: NumberFormat, r: InputData)
    requires Encode(structure, pseudos, kpoints, params, settings, fmt) == Ok(r)
    ensures |r.lines| == |structure.cell| + |structure.kinds| + |structure.sites| + |ControlBlock(params)| + 12
    ensures r.lines[|structure.cell| + 1] == ""
    ensures r.lines[|structure.cell| + |structure.kinds| + 2] == ""
    ensures r.lines[|structure.cell| + |structure.kinds| + |structure.sites| + 4] == ""
    ensures r.lines[|structure.cell| + |structure.kinds| + |structure.sites| + 7] == ""
    ensures r.lines[|structure.cell| + |structure.kinds| + |structure.sites| + |ControlBlock(params)| + 8] == ""
  {
    var species, positions, kpoint := EncodedBlocks(structure, pseudos, kpoints, params, settings, fmt, r);
    var lattice := LatticeBlock(structure.cell, fmt);
    assert |lattice| == |structure.cell| + 1 && lattice[0] == LatticeHeader;
    AssembleSeparators(lattice, species, positions, kpoint, ControlBlock(params));
  }

  /** The lattice, positions and k-point blocks open with their keyword lines. */
  lemma BlockHeads(structure: Structure, pseudos: map<string, Pseudo>, kpoints: KpointsInput,
      params: seq<(string, ParamValue)>, settings: map<string, PyValue>, fmt: NumberFormat, r: InputData)
    requires Encode(structure, pseudos, kpoints, params, settings, fmt) == Ok(r)
    ensures |r.lines| == |structure.cell| + |structure.kinds| + |structure.sites| + |ControlBlock(params)| + 12
    ensures r.lines[0] == LatticeHeader
    ensures r.lines[|structure.cell| + |structure.kinds| + 3] == CoordsTypeLine
    ensures r.lines[|structure.cell| + |structure.kinds| + |structure.sites| + 5] == KpointBlock(kpoints, fmt).value[0]
  {
    var species, positions, kpoint := EncodedBlocks(structure, pseudos, kpoints, params, settings, fmt, r);
    var lattice := LatticeBlock(structure.cell, fmt);
    assert |lattice| == |structure.cell| + 1 && lattice[0] == LatticeHeader;
    AssembleSeparators(lattice, species, positions, kpoint, ControlBlock(params));
  }

  /** Each `ion-species` line names the target its pseudopotential is copied to. */
  lemma SpeciesLinesNameCopies(structure: Structure, pseudos: map<string, Pseudo>, kpoints: KpointsInput,
                               params: seq<(string, ParamValue)>, settings: map<string, PyValue>,
                               fmt: NumberFormat, r: InputData)
    requires Encode(structure, pseudos, kpoints, params, settings, fmt) == Ok(r)
    ensures |r.copies| == |structure.kinds|
    ensures forall i :: 0 <= i < |r.copies| ==>
      r.lines[|structure.cell| + 2 + i] == "ion-species " + r.copies[i].target
  {
    var species, positions, kpoint := EncodedBlocks(structure, pseudos, kpoints, params, settings, fmt, r);
    var lattice := LatticeBlock(structure.cell, fmt);
    AssembleLayout(lattice, species, positions, kpoint, ControlBlock(params));
    assert |lattice| == |structure.cell| + 1;
    forall i | 0 <= i < |r.copies| ensures r.lines[|structure.cell| + 2 + i] == "ion-species " + r.copies[i].target {
      assert r.lines[|lattice| + 1 + i] == species[i];
    }
  }

  /**
   * Without `fixed_coords` every ion line ends in the flag 0, the value
   * `_if_pos` gives a fixed coordinate.
   */
  lemma DefaultFlagsFixEveryIon(structure: Structure, pseudos: map<string, Pseudo>, kpoints: KpointsInput,
                                params: seq<(string, ParamValue)>, settings: map<string, PyValue>,
                                fmt: NumberFormat, r: InputData)
    requires FixedCoordsKey !in settings
    requires Encode(structure, pseudos, kpoints, params, settings, fmt) == Ok(r)
    ensures forall i :: 0 <= i < |structure.sites| ==>
      r.lines[|structure.cell| + |structure.kinds| + 4 + i] == IonLine(structure.sites[i], IntToString(IfPos(true)), fmt)
  {
    var species, positions, kpoint := EncodedBlocks(structure, pseudos, kpoints, params, settings, fmt, r);
    var lattice := LatticeBlock(structure.cell, fmt);
    AssembleLayout(lattice, species, positions, kpoint, ControlBlock(params));
    assert |lattice| == |structure.cell| + 1;
    forall i | 0 <= i < |structure.sites|
      ensures r.lines[|structure.cell| + |structure.kinds| + 4 + i] == IonLine(structure.sites[i], IntToString(IfPos(true)), fmt)
    {
      assert r.lines[|lattice| + |species| + 2 + (i + 1)] == positions[i + 1];
    }
  }

  lemma ControlBlockSnoc(p: seq<(string, ParamValue)>, x: (string, ParamValue))
    ensures ControlBlock(p + [x]) == ControlBlock(p) + ParamLines(x.0, x.1)
  {
    assert (p + [x])[..|p|] == p;
  }

  lemma ControlBlockAppendLast(a: seq<(string, ParamValue)>, b: seq<(string, ParamValue)>)
    requires |b| > 0
    ensures ControlBlock(a + b) == ControlBlock(a + b[..|b| - 1]) + ParamLines(b[|b| - 1].0, b[|b| - 1].1)
  {
    var b', last := b[..|b| - 1], b[|b| - 1];
    assert a + b == (a + b') + [last];
    ControlBlockSnoc(a + b', last);
  }

  lemma ControlBlockUnfold(b: seq<(string, ParamValue)>)
    requires |b| > 0
    ensures ControlBlock(b) == ControlBlock(b[..|b| - 1]) + ParamLines(b[|b| - 1].0, b[|b| - 1].1)
  {
  }

  /** The parameters render independently of each other, in order. */
  lemma {:induction false} ControlBlockConcat(a: seq<(string, ParamValue)>, b: seq<(string, ParamValue)>)
    ensures ControlBlock(a + b) == ControlBlock(a) + ControlBlock(b)
    decreases |b|
  {
    if |b| == 0 {
      assert a + b == a;
    } else {
      ControlBlockConcat(a, b[..|b| - 1]);
      ControlBlockAppendLast(a, b);
      ControlBlockUnfold(b);
      ConcatAssoc(ControlBlock(a), ControlBlock(b[..|b| - 1]), ParamLines(b[|b| - 1].0, b[|b| - 1].1));
    }
  }

  lemma ConcatAssoc<T>(x: seq<T>, y: seq<T>, z: seq<T>)
    ensures (x + y) + z == x + (y + z)
  {
  }

  /** Parameters without dictionary values give one line each, key first. */
  lemma {:induction false} ScalarControlLines(params: seq<(string, ParamValue)>)
    requires forall i :: 0 <= i < |params| ==> params[i].1.Scalar?
    ensures |ControlBlock(params)| == |params|
    ensures forall i :: 0 <= i < |params| ==>
      ControlBlock(params)[i] == ScalarLine(params[i].0, params[i].1.text)
  {
    if |params| > 0 {
      ScalarControlLines(params[..|params| - 1]);
    }
  }

  /** A dictionary value gives its header and one continued line per inner key. */
  lemma {:induction false} NestedLinesCount(entries: seq<(string, string)>)
    ensures |NestedLines(entries)| == |entries|
    ensures forall i :: 0 <= i < |entries| ==> NestedLines(entries)[i] == NestedLine(entries[i].0, entries[i].1)
  {
    if |entries| > 0 {
      NestedLinesCount(entries[..|entries| - 1]);
    }
  }

  /** A one-word key is the first word of its control line; the value text follows. */
  lemma KeyLeadsScalarLine(key: string, text: string)
    requires IsWord(key)
    ensures Words(ScalarLine(key, text)) == [key] + Words(text)
  {
    var pad := LJust(key, 30)[|key|..];
    assert LJust(key, 30) == key + pad;
    var rest := pad + " " + text;
    assert ScalarLine(key, text) == key + rest;
    assert forall i :: 0 <= i < |pad + " "| ==> IsSpace((pad + " ")[i]);
    assert rest == (pad + " ") + text;
    assert IsSpace(rest[0]);
    WordsOfWord(key, rest);
    WordsAfterSpaces(pad + " ", text);
  }

  /** The k-point folding line reads back, word by word, as the three mesh sizes. */
  lemma FoldingLineReadsBack(n1: int, n2: int, n3: int, o1: real, o2: real, o3: real, fmt: NumberFormat)
    ensures var line := KpointBlock(Mesh(n1, n2, n3, o1, o2, o3), fmt).value[0];
      var ws := Words(line);
      |ws| == 4 && ws[0] == "kpoint-folding"
      && ParseFloat(ws[1]) == Some(n1 as real)
      && ParseFloat(ws[2]) == Some(n2 as real)
      && ParseFloat(ws[3]) == Some(n3 as real)
  {
    IntToStringIsWord(n1);
    IntToStringIsWord(n2);
    IntToStringIsWord(n3);
    FoldingWords(IntToString(n1), IntToString(n2), IntToString(n3));
    ParseIntToString(n1);
    ParseIntToString(n2);
    ParseIntToString(n3);
  }

  /** `kpoint-folding a b c` splits back into its four words. */
  lemma FoldingWords(a: string, b: string, c: string)
    requires IsWord(a) && IsWord(b) && IsWord(c)
    ensures Words("kpoint-folding " + a + " " + b + " " + c) == ["kpoint-folding", a, b, c]
  {
    var parts := ["kpoint-folding", a, b, c];
    assert IsWord("kpoint-folding");
    JoinFour("kpoint-folding", a, b, c);
    assert "kpoint-folding" + " " == "kpoint-folding ";
    WordsOfJoin(parts);
  }

  /** Four words joined by blanks, written out left to right. */
  lemma JoinFour(w: string, a: string, b: string, c: string)
    ensures Join([w, a, b, c], " ") == w + " " + a + " " + b + " " + c
  {
    var sp := " ";
    assert [w, a, b, c][1..] == [a, b, c] && [a, b, c][1..] == [b, c] && [b, c][1..] == [c];
    assert Join([b, c], sp) == (b + sp) + c by { assert Join([c], sp) == c; }
    assert Join([a, b, c], sp) == (a + sp) + Join([b, c], sp);
    assert Join([w, a, b, c], sp) == (w + sp) + Join([a, b, c], sp);
    var p := (w + sp) + a;
    ConcatAssoc(w + sp, a + sp, (b + sp) + c);
    ConcatAssoc(w + sp, a, sp);
    ConcatAssoc(p + sp, b + sp, c);
    ConcatAssoc(p + sp, b, sp);
  }


}
