/**
 * Properties of the output decoder: the energy and k-point lines the
 * parser reads back, what one line of an energy block adds to the
 * trajectory channels, what the energy-components file yields, how many
 * frames and cells a transcript produces, the structure read from the dump
 * files, and the exit code `parse` leaves behind.
 */
module ParserProperties {
  import opened Wrappers
  import opened Text
  import opened Numbers
  import opened Nodes
  import opened Parsers

  // ---------------------------------------------------------------------
  // Numbers read back

  /** Integer text after some blanks reads back as that integer. */
  lemma PaddedIntParses(pad: string, n: int)
    requires forall i :: 0 <= i < |pad| ==> IsSpace(pad[i])
    ensures ParseFloat(pad + IntToString(n)) == Some(n as real)
  {
    var w := IntToString(n);
    IntToStringIsWord(n);
    StripPadded(pad, w);
    assert Strip(w) == w;
    SameStripSameFloat(pad + w, w);
    ParseIntToString(n);
  }

  /** `float` looks only at the text without its surrounding blanks. */
  lemma SameStripSameFloat(s: string, t: string)
    requires Strip(s) == Strip(t)
    ensures ParseFloat(s) == ParseFloat(t)
  {
  }

  /** An energy line `<label> = <n>` reads back as `n` hartree, in eV. */
  lemma GrepEnergyReadsBack(name: string, n: int)
    requires '=' !in name
    ensures GrepEnergy(name + " = " + IntToString(n)) == Ok(n as real * HarToEv)
  {
    IntWordFacts(n);
    GrepOfWord(name, IntToString(n), n as real);
  }

  /** `str(n)` after one blank reads as `n`, and holds no `=` and no bracket. */
  lemma IntWordFacts(n: int)
    ensures ParseFloat(" " + IntToString(n)) == Some(n as real)
    ensures '=' !in IntToString(n) && '[' !in IntToString(n) && ']' !in IntToString(n)
  {
    PaddedIntParses(" ", n);
    IntToStringChars(n);
  }

  /** An energy line `<label> = <w>` whose value text reads as `v`. */
  lemma GrepOfWord(name: string, w: string, v: real)
    requires '=' !in name && '=' !in w && ParseFloat(" " + w) == Some(v)
    ensures GrepEnergy(name + " = " + w) == Ok(v * HarToEv)
  {
    EnergyLinePieces(name, w);
    GrepOfPieces(name + " = " + w, v);
  }

  /** The pieces of an energy line around its one `=`. */
  lemma EnergyLinePieces(name: string, w: string)
    requires '=' !in name && '=' !in w
    ensures Split(name + " = " + w, "=") == [name + " ", " " + w]
  {
    var a := name + " ";
    var b := " " + w;
    assert name + " = " + w == a + ['='] + b;
    assert '=' !in a;
    SplitAfterPiece(a, '=', b);
    assert '=' !in b;
    SplitWhole(b, '=');
    assert "=" == ['='];
  }

  /** `grep_energy_from_line` once the piece after the first `=` is known to read as `v`. */
  lemma GrepOfPieces(line: string, v: real)
    requires |Split(line, "=")| >= 2 && ParseFloat(Split(line, "=")[1]) == Some(v)
    ensures GrepEnergy(line) == Ok(v * HarToEv)
  {
    HartreeOfNumber(ParseFloat(Split(line, "=")[1]), v);
  }

  lemma HartreeOfNumber(parsed: Option<real>, v: real)
    requires parsed == Some(v)
    ensures HartreeToEv(parsed) == Ok(v * HarToEv)
  {
  }

  /** A line without `=` is not an energy line: reading it raises. */
  lemma GrepEnergyNeedsEquals(line: string)
    requires '=' !in line
    ensures GrepEnergy(line) == Err(EnergyNotParsed)
  {
    SplitWhole(line, '=');
    assert "=" == ['='];
  }

  function IntTexts(ns: seq<int>): (ts: seq<string>)
    ensures |ts| == |ns|
  {
    seq(|ns|, i requires 0 <= i < |ns| => IntToString(ns[i]))
  }

  function Reals(ns: seq<int>): (rs: seq<real>)
    ensures |rs| == |ns|
  {
    seq(|ns|, i requires 0 <= i < |ns| => ns[i] as real)
  }

  /** Integers joined by blanks hold only digits, signs and blanks. */
  lemma {:induction false} JoinedIntsChars(ns: seq<int>)
    ensures forall i :: 0 <= i < |Join(IntTexts(ns), " ")| ==>
      var c := Join(IntTexts(ns), " ")[i]; c == ' ' || c == '-' || IsDigit(c)
    decreases |ns|
  {
    var ts := IntTexts(ns);
    if |ns| >= 2 {
      JoinedIntsChars(ns[1..]);
      assert IntTexts(ns[1..]) == ts[1..];
      IntToStringChars(ns[0]);
      assert Join(ts, " ") == ts[0] + " " + Join(ts[1..], " ");
    } else if |ns| == 1 {
      IntToStringChars(ns[0]);
    }
  }

  /** Integers joined by blanks read back, through `split()` and `float`, as themselves. */
  lemma ParseJoinedInts(ns: seq<int>)
    ensures ParseFloats(Words(Join(IntTexts(ns), " "))) == Ok(Reals(ns))
  {
    var ts := IntTexts(ns);
    forall k | 0 <= k < |ts| ensures IsWord(ts[k]) && ParseFloat(ts[k]) == Some(ns[k] as real) {
      IntToStringIsWord(ns[k]);
      ParseIntToString(ns[k]);
    }
    WordsOfJoin(ts);
    ParseFloatsMeaning(ts);
    var r := ParseFloats(ts);
    assert r.Ok?;
    assert r.value == Reals(ns);
  }

  /**
   * A k-point line `<prefix>[<n1> <n2> ...]  <w>` reads back as the point
   * `(n1, n2, ...)` and the weight `w`, whatever precedes the bracket.
   */
  lemma KpointLineReadsBack(prefix: string, ns: seq<int>, w: int)
    requires '[' !in prefix
    ensures KpointLine(prefix + "[" + Join(IntTexts(ns), " ") + "]" + " " + IntToString(w))
         == Ok((Reals(ns), w as real))
  {
    var body := Join(IntTexts(ns), " ");
    var wt := IntToString(w);
    JoinedIntsNoBrackets(ns);
    IntWordFacts(w);
    KpointLinePieces(prefix, body, wt);
    ParseJoinedInts(ns);
    var tail := " " + wt;
    KpointOfPieces(prefix + "[" + body + "]" + " " + wt, body + [']'] + tail, body, tail, Reals(ns), w as real);
  }

  /** Integers joined by blanks hold no bracket. */
  lemma JoinedIntsNoBrackets(ns: seq<int>)
    ensures '[' !in Join(IntTexts(ns), " ") && ']' !in Join(IntTexts(ns), " ")
  {
    JoinedIntsChars(ns);
  }

  /** The pieces of a k-point line around its brackets. */
  lemma KpointLinePieces(prefix: string, body: string, wt: string)
    requires '[' !in prefix && '[' !in body && ']' !in body && '[' !in wt && ']' !in wt
    ensures var tail := " " + wt;
            var rest := body + [']'] + tail;
            Split(prefix + "[" + body + "]" + " " + wt, "[") == [prefix, rest]
            && Split(rest, "]") == [body, tail]
  {
    var tail := " " + wt;
    var rest := body + [']'] + tail;
    var line := prefix + "[" + body + "]" + " " + wt;
    assert line == prefix + ['['] + rest;
    assert '[' !in tail && ']' !in tail;
    assert '[' !in rest by {
      forall i | 0 <= i < |rest| ensures rest[i] != '[' {
        if i < |body| {
          assert rest[i] == body[i];
        } else if i > |body| {
          assert rest[i] == tail[i - |body| - 1];
        }
      }
    }
    SplitAfterPiece(prefix, '[', rest);
    SplitWhole(rest, '[');
    assert "[" == ['['];
    SplitAfterPiece(body, ']', tail);
    SplitWhole(tail, ']');
    assert "]" == [']'];
  }

  /** `KpointLine` once the pieces around the brackets are known to read as a point and a weight. */
  lemma KpointOfPieces(line: string, rest: string, body: string, tail: string, point: seq<real>, weight: real)
    requires Split(line, "[") == [Split(line, "[")[0], rest] && Split(rest, "]") == [body, tail]
    requires ParseFloats(Words(body)) == Ok(point) && ParseFloat(tail) == Some(weight)
    ensures KpointLine(line) == Ok((point, weight))
  {
  }

  // ---------------------------------------------------------------------
  // Energy labels and keys

  /** No two labels fill the same key. */
  predicate KeysDistinct(labels: seq<(string, string)>) {
    forall a, b :: 0 <= a < b < |labels| ==> labels[a].1 != labels[b].1
  }

  /** No key is another key with the units suffix. */
  predicate UnitKeysApart(labels: seq<(string, string)>) {
    forall a, b :: 0 <= a < |labels| && 0 <= b < |labels| ==> labels[a].1 != labels[b].1 + UnitsSuffix
  }

  /** `key` is the key of some label from position `k` on. */
  predicate KeyFrom(labels: seq<(string, string)>, key: string, k: nat) {
    exists j :: k <= j < |labels| && labels[j].1 == key
  }

  /** `line` contains some label from position `k` on. */
  predicate MentionsLabelFrom(labels: seq<(string, string)>, line: string, k: nat) {
    exists j :: k <= j < |labels| && Contains(line, labels[j].0)
  }

  /** The energy labels' keys are distinct and clear of one another's units keys. */
  lemma EnergyKeysDistinct()
    ensures KeysDistinct(EnergyLabels) && UnitKeysApart(EnergyLabels)
  {
    var ls := EnergyLabels;
    forall a, b | 0 <= a < b < |ls| ensures ls[a].1 != ls[b].1 {
      assert |ls[a].1| != |ls[b].1| || ls[a].1[7] != ls[b].1[7];
    }
    forall a, b | 0 <= a < |ls| && 0 <= b < |ls| ensures ls[a].1 != ls[b].1 + UnitsSuffix {
      assert |ls[a].1| != |ls[b].1 + UnitsSuffix| || ls[a].1[7] != (ls[b].1 + UnitsSuffix)[7];
    }
  }

  // ---------------------------------------------------------------------
  // One line of an energy block in the transcript

  /**
   * A line whose energy reads as `v`: the channel of every label the line
   * contains gains `v` at its end, and every other channel is unchanged.
   */
  lemma {:induction false} LineChannelsAppend(labels: seq<(string, string)>, line: string, k: nat,
                                              ch: map<string, seq<real>>, v: real)
    requires k <= |labels| && KeysDistinct(labels)
    ensures LineChannels(labels, line, Ok(v), k, ch).Ok?
    ensures forall j :: k <= j < |labels| ==>
      Channel(LineChannels(labels, line, Ok(v), k, ch).value, labels[j].1)
        == Channel(ch, labels[j].1) + (if Contains(line, labels[j].0) then [v] else [])
    ensures forall key :: !KeyFrom(labels, key, k) ==>
      Channel(LineChannels(labels, line, Ok(v), k, ch).value, key) == Channel(ch, key)
    decreases |labels| - k
  {
    if k < |labels| {
      var key := labels[k].1;
      var next := if Contains(line, labels[k].0) then ch[key := Channel(ch, key) + [v]] else ch;
      assert LineChannels(labels, line, Ok(v), k, ch) == LineChannels(labels, line, Ok(v), k + 1, next);
      LineChannelsAppend(labels, line, k + 1, next, v);
      var r := LineChannels(labels, line, Ok(v), k + 1, next).value;
      assert !KeyFrom(labels, key, k + 1) by {
        forall j | k + 1 <= j < |labels| ensures labels[j].1 != key {
          assert labels[k].1 != labels[j].1;
        }
      }
      assert Channel(r, key) == Channel(next, key);
      forall j | k < j < |labels|
        ensures Channel(r, labels[j].1) == Channel(ch, labels[j].1) + (if Contains(line, labels[j].0) then [v] else [])
      {
        assert labels[k].1 != labels[j].1;
      }
      forall key' | !KeyFrom(labels, key', k) ensures Channel(r, key') == Channel(ch, key') {
        assert !KeyFrom(labels, key', k + 1);
        assert key' != key;
      }
    }
  }

  /** A line whose energy does not read fails, with that error, exactly when it contains a label. */
  lemma {:induction false} LineChannelsFail(labels: seq<(string, string)>, line: string, k: nat,
                                            ch: map<string, seq<real>>, e: DecodeError)
    requires k <= |labels|
    ensures LineChannels(labels, line, Err(e), k, ch)
         == if MentionsLabelFrom(labels, line, k) then Err(e) else Ok(ch)
    decreases |labels| - k
  {
    if k < |labels| && !Contains(line, labels[k].0) {
      LineChannelsFail(labels, line, k + 1, ch, e);
      assert MentionsLabelFrom(labels, line, k) == MentionsLabelFrom(labels, line, k + 1);
    }
  }

  /** An energy-block line raises exactly when it contains a label and its energy does not read. */
  lemma LineChannelsOk(line: string, ch: map<string, seq<real>>)
    ensures LineChannels(EnergyLabels, line, GrepEnergy(line), 0, ch).Ok?
        <==> (!MentionsLabelFrom(EnergyLabels, line, 0) || GrepEnergy(line).Ok?)
  {
    match GrepEnergy(line)
    case Ok(v) =>
      EnergyKeysDistinct();
      LineChannelsAppend(EnergyLabels, line, 0, ch, v);
    case Err(e) =>
      LineChannelsFail(EnergyLabels, line, 0, ch, e);
  }

  /** `Exc` is a substring of `Exc_core`: a core-correction line also feeds the exchange-correlation channel. */
  lemma ExcCoreAlsoFeedsXc(line: string, ch: map<string, seq<real>>, v: real)
    requires Contains(line, "Exc_core")
    ensures LineChannels(EnergyLabels, line, Ok(v), 0, ch).Ok?
    ensures Channel(LineChannels(EnergyLabels, line, Ok(v), 0, ch).value, "energy_xc") == Channel(ch, "energy_xc") + [v]
    ensures Channel(LineChannels(EnergyLabels, line, Ok(v), 0, ch).value, "energy_xc_core")
         == Channel(ch, "energy_xc_core") + [v]
  {
    var i :| 0 <= i <= |line| && StartsWith(line[i..], "Exc_core");
    assert line[i..][..3] == "Exc";
    assert line[i..i + 3] == "Exc";
    ContainsAt(line, "Exc", i);
    EnergyKeysDistinct();
    LineChannelsAppend(EnergyLabels, line, 0, ch, v);
    assert EnergyLabels[4] == ("Exc", "energy_xc") && EnergyLabels[5] == ("Exc_core", "energy_xc_core");
  }

  // ---------------------------------------------------------------------
  // aiida.Ecomponents

  /** `key` is written by a label from position `k` on that `line` contains: its own key or its units key. */
  predicate WrittenFrom(labels: seq<(string, string)>, line: string, key: string, k: nat) {
    exists j :: k <= j < |labels| && Contains(line, labels[j].0) && (key == labels[j].1 || key == labels[j].1 + UnitsSuffix)
  }

  lemma SuffixCancels(a: string, b: string)
    requires a + UnitsSuffix == b + UnitsSuffix
    ensures a == b
  {
    assert a == (a + UnitsSuffix)[..|a|];
    assert b == (b + UnitsSuffix)[..|b|];
  }

  /**
   * A line of the energy-components file whose energy reads as `v`: every
   * label it contains sets its key to `v` and the key's units to eV; every
   * other entry is unchanged.
   */
  lemma {:induction false} EcompLineSets(labels: seq<(string, string)>, line: string, k: nat,
                                         m: map<string, PyValue>, v: real)
    requires k <= |labels| && KeysDistinct(labels) && UnitKeysApart(labels)
    ensures EcompLine(labels, line, Ok(v), k, m).Ok?
    ensures forall j :: k <= j < |labels| && Contains(line, labels[j].0) ==>
      var r := EcompLine(labels, line, Ok(v), k, m).value;
      labels[j].1 in r && r[labels[j].1] == PyFloat(v)
      && labels[j].1 + UnitsSuffix in r && r[labels[j].1 + UnitsSuffix] == PyStr(DefaultEnergyUnits)
    ensures forall key :: !WrittenFrom(labels, line, key, k) ==>
      var r := EcompLine(labels, line, Ok(v), k, m).value;
      (key in r <==> key in m) && (key in m ==> r[key] == m[key])
    decreases |labels| - k
  {
    if k < |labels| {
      var key := labels[k].1;
      var units := key + UnitsSuffix;
      var matched := Contains(line, labels[k].0);
      var next := if matched then m[key := PyFloat(v)][units := PyStr(DefaultEnergyUnits)] else m;
      assert EcompLine(labels, line, Ok(v), k, m) == EcompLine(labels, line, Ok(v), k + 1, next);
      EcompLineSets(labels, line, k + 1, next, v);
      var r := EcompLine(labels, line, Ok(v), k, m).value;
      if matched {
        assert !WrittenFrom(labels, line, key, k + 1);
        forall j | k < j < |labels| ensures units != labels[j].1 && units != labels[j].1 + UnitsSuffix {
          if units == labels[j].1 + UnitsSuffix {
            SuffixCancels(key, labels[j].1);
          }
        }
        assert !WrittenFrom(labels, line, units, k + 1);
      }
      forall key' | !WrittenFrom(labels, line, key', k)
        ensures (key' in r <==> key' in m) && (key' in m ==> r[key'] == m[key'])
      {
        assert !WrittenFrom(labels, line, key', k + 1);
        assert matched ==> key' != key && key' != units;
      }
    }
  }

  /** A line of the energy-components file whose energy does not read fails exactly when it contains a label. */
  lemma {:induction false} EcompLineFail(labels: seq<(string, string)>, line: string, k: nat,
                                         m: map<string, PyValue>, e: DecodeError)
    requires k <= |labels|
    ensures EcompLine(labels, line, Err(e), k, m) == if MentionsLabelFrom(labels, line, k) then Err(e) else Ok(m)
    decreases |labels| - k
  {
    if k < |labels| && !Contains(line, labels[k].0) {
      EcompLineFail(labels, line, k + 1, m, e);
      assert MentionsLabelFrom(labels, line, k) == MentionsLabelFrom(labels, line, k + 1);
    }
  }

  /** `key` is unchanged from `m` to `r`: present in both or neither, with the same value. */
  predicate Kept(m: map<string, PyValue>, r: map<string, PyValue>, key: string) {
    (key in r <==> key in m) && (key in m ==> r[key] == m[key])
  }

  /** `r` holds the energy `v` under `key` and eV as its units. */
  predicate SetTo(r: map<string, PyValue>, key: string, v: real) {
    key in r && r[key] == PyFloat(v) && key + UnitsSuffix in r && r[key + UnitsSuffix] == PyStr(DefaultEnergyUnits)
  }

  /** `key` is a key of `labels` or such a key with the units suffix. */
  predicate IsEnergyEntry(labels: seq<(string, string)>, key: string) {
    exists k :: 0 <= k < |labels| && (key == labels[k].1 || key == labels[k].1 + UnitsSuffix)
  }

  /** One line of the energy-components file, label by label. */
  lemma EcompLineStep(labels: seq<(string, string)>, line: string, energy: Result<real, DecodeError>,
                      m: map<string, PyValue>, next: map<string, PyValue>)
    requires KeysDistinct(labels) && UnitKeysApart(labels)
    requires EcompLine(labels, line, energy, 0, m) == Ok(next)
    ensures forall k :: 0 <= k < |labels| && Contains(line, labels[k].0) ==>
      energy.Ok? && SetTo(next, labels[k].1, energy.value)
    ensures forall k :: 0 <= k < |labels| && !Contains(line, labels[k].0) ==>
      Kept(m, next, labels[k].1) && Kept(m, next, labels[k].1 + UnitsSuffix)
    ensures forall key :: key in next ==> key in m || IsEnergyEntry(labels, key)
  {
    match energy
    case Err(e) =>
      EcompLineFail(labels, line, 0, m, e);
    case Ok(v) =>
      EcompLineSets(labels, line, 0, m, v);
      forall k | 0 <= k < |labels| && !Contains(line, labels[k].0)
        ensures !WrittenFrom(labels, line, labels[k].1, 0) && !WrittenFrom(labels, line, labels[k].1 + UnitsSuffix, 0)
      {
        forall j | 0 <= j < |labels| && Contains(line, labels[j].0)
          ensures labels[k].1 != labels[j].1 && labels[k].1 != labels[j].1 + UnitsSuffix
          ensures labels[k].1 + UnitsSuffix != labels[j].1 && labels[k].1 + UnitsSuffix != labels[j].1 + UnitsSuffix
        {
          if labels[k].1 + UnitsSuffix == labels[j].1 + UnitsSuffix {
            SuffixCancels(labels[k].1, labels[j].1);
          }
        }
      }
  }

  /** The label `name` appears on some line from line `i` on. */
  predicate MentionedFrom(lines: seq<string>, i: nat, name: string) {
    exists j :: i <= j < |lines| && Contains(lines[j], name)
  }

  /**
   * The energy-components file from line `i` on: an energy key is set
   * exactly when some line names its label, then to the energy of the last
   * such line with eV as its units; keys no line names are untouched, and
   * nothing but energy keys and their units is added.
   */
  lemma {:induction false} EcompLinesMeaning(lines: seq<string>, i: nat, m: map<string, PyValue>,
                                             r: map<string, PyValue>)
    requires i <= |lines|
    requires EcompLines(lines, i, m) == Ok(r)
    ensures forall k :: 0 <= k < |EnergyLabels| && !MentionedFrom(lines, i, EnergyLabels[k].0) ==>
      Kept(m, r, EnergyLabels[k].1) && Kept(m, r, EnergyLabels[k].1 + UnitsSuffix)
    ensures forall k :: 0 <= k < |EnergyLabels| && MentionedFrom(lines, i, EnergyLabels[k].0) ==>
      EnergyLabels[k].1 in r && EnergyLabels[k].1 + UnitsSuffix in r
    ensures forall k, j :: 0 <= k < |EnergyLabels| && i <= j < |lines| && Contains(lines[j], EnergyLabels[k].0)
                           && !MentionedFrom(lines, j + 1, EnergyLabels[k].0) ==>
      GrepEnergy(lines[j]).Ok? && SetTo(r, EnergyLabels[k].1, GrepEnergy(lines[j]).value)
    ensures forall key :: key in r ==> key in m || IsEnergyEntry(EnergyLabels, key)
    decreases |lines| - i
  {
    if i < |lines| {
      var line := lines[i];
      var next := EcompLine(EnergyLabels, line, GrepEnergy(line), 0, m).value;
      assert EcompLines(lines, i, m) == EcompLines(lines, i + 1, next);
      EnergyKeysDistinct();
      EcompLineStep(EnergyLabels, line, GrepEnergy(line), m, next);
      EcompLinesMeaning(lines, i + 1, next, r);
      forall k | 0 <= k < |EnergyLabels|
        ensures MentionedFrom(lines, i, EnergyLabels[k].0)
            <==> Contains(line, EnergyLabels[k].0) || MentionedFrom(lines, i + 1, EnergyLabels[k].0)
      {
        if MentionedFrom(lines, i, EnergyLabels[k].0) && !Contains(line, EnergyLabels[k].0) {
          var j :| i <= j < |lines| && Contains(lines[j], EnergyLabels[k].0);
          assert j != i;
        }
      }
    }
  }

  // ---------------------------------------------------------------------
  // The stdout transcript

  /** The lines of `step` from line `i` on that contain `header`. */
  function HeaderCount(step: seq<string>, i: nat, header: string): nat
    decreases |step| - i
  {
    if i >= |step| then 0 else (if Contains(step[i], header) then 1 else 0) + HeaderCount(step, i + 1, header)
  }

  /** What one line of a step changes: a lattice header adds a cell and marks the step, an ionic header sets positions. */
  lemma LineEffectShape(step: seq<string>, count: nat, st: ScanState, r: ScanState)
    requires count < |step| && LineEffect(step, count, st) == Ok(r)
    ensures r.frames == st.frames
    ensures |r.cells| == |st.cells| + (if Contains(step[count], LatticeHeader) then 1 else 0)
    ensures r.doRelax == (st.doRelax || Contains(step[count], LatticeHeader))
    ensures !Contains(step[count], IonicHeader) ==> r.positions == st.positions
  {
    var st1 := EnergyPart(step, count, st).value;
    EnergyPartKeeps(step, count, st, st1);
    var st2 := LatticePart(step, count, st1).value;
    LatticePartShape(step, count, st1, st2);
    IonicPartShape(step, count, st2, r);
  }

  /** An energy block touches only the channels. */
  lemma EnergyPartKeeps(step: seq<string>, count: nat, st: ScanState, r: ScanState)
    requires count < |step| && EnergyPart(step, count, st) == Ok(r)
    ensures r.frames == st.frames && r.cells == st.cells && r.doRelax == st.doRelax && r.positions == st.positions
  {
  }

  /** A lattice header adds the cell printed below it and marks the step as a relaxation step. */
  lemma LatticePartShape(step: seq<string>, count: nat, st: ScanState, r: ScanState)
    requires count < |step| && LatticePart(step, count, st) == Ok(r)
    ensures r.frames == st.frames && r.positions == st.positions
    ensures |r.cells| == |st.cells| + (if Contains(step[count], LatticeHeader) then 1 else 0)
    ensures Contains(step[count], LatticeHeader) ==>
      CellAt(step, count).Ok? && r.cells == st.cells + [CellAt(step, count).value]
    ensures !Contains(step[count], LatticeHeader) ==> r.cells == st.cells
    ensures r.doRelax == (st.doRelax || Contains(step[count], LatticeHeader))
  {
  }

  /** An ionic-positions header replaces only the positions. */
  lemma IonicPartShape(step: seq<string>, count: nat, st: ScanState, r: ScanState)
    requires count < |step| && IonicPart(step, count, st) == Ok(r)
    ensures r.frames == st.frames && r.cells == st.cells && r.doRelax == st.doRelax
    ensures !Contains(step[count], IonicHeader) ==> r.positions == st.positions
  {
  }

  /**
   * The lines of a step from line `i` on: no frame is added, one cell per
   * line with a lattice header, the step is a relaxation step exactly when
   * there is such a line, and positions change only at an ionic header.
   */
  lemma {:induction false} StepEffectShape(step: seq<string>, i: nat, st: ScanState, r: ScanState)
    requires StepEffect(step, i, st) == Ok(r)
    ensures r.frames == st.frames
    ensures |r.cells| == |st.cells| + HeaderCount(step, i, LatticeHeader)
    ensures r.doRelax == (st.doRelax || HeaderCount(step, i, LatticeHeader) > 0)
    ensures HeaderCount(step, i, IonicHeader) == 0 ==> r.positions == st.positions
    decreases |step| - i
  {
    if i < |step| {
      var next := LineEffect(step, i, st).value;
      LineEffectShape(step, i, st, next);
      StepEffectShape(step, i + 1, next, r);
    }
  }

  /** The check after a step adds one frame exactly when the step was a relaxation step. */
  lemma StepEndShape(st: ScanState, r: ScanState)
    requires StepEnd(st) == Ok(r)
    ensures |r.frames| == |st.frames| + (if st.doRelax then 1 else 0)
    ensures r.cells == st.cells && r.channels == st.channels
  {
  }

  /** The steps from step `i` on that print a lattice. */
  function RelaxCount(steps: seq<seq<string>>, i: nat): nat
    decreases |steps| - i
  {
    if i >= |steps| then 0
    else (if HeaderCount(steps[i], 0, LatticeHeader) > 0 then 1 else 0) + RelaxCount(steps, i + 1)
  }

  /** The lattice printouts in the steps from step `i` on. */
  function CellCount(steps: seq<seq<string>>, i: nat): nat
    decreases |steps| - i
  {
    if i >= |steps| then 0 else HeaderCount(steps[i], 0, LatticeHeader) + CellCount(steps, i + 1)
  }

  /** A transcript yields one frame per relaxation step and one cell per lattice printout. */
  lemma {:induction false} TranscriptCounts(steps: seq<seq<string>>, i: nat, st: ScanState, r: ScanState)
    requires TranscriptEffect(steps, i, st) == Ok(r)
    ensures |r.frames| == |st.frames| + RelaxCount(steps, i)
    ensures |r.cells| == |st.cells| + CellCount(steps, i)
    ensures RelaxCount(steps, i) <= CellCount(steps, i)
    decreases |steps| - i
  {
    if i < |steps| {
      var st1 := StepEffect(steps[i], 0, st.(doRelax := false)).value;
      StepEffectShape(steps[i], 0, st.(doRelax := false), st1);
      var st2 := StepEnd(st1).value;
      StepEndShape(st1, st2);
      TranscriptCounts(steps, i + 1, st2, r);
    }
  }

  /**
   * A first step that prints a lattice but no ionic positions raises: the
   * positions the relaxation check multiplies were never assigned.
   */
  lemma FirstRelaxNeedsPositions(steps: seq<seq<string>>)
    requires |steps| >= 1
    requires HeaderCount(steps[0], 0, LatticeHeader) > 0 && HeaderCount(steps[0], 0, IonicHeader) == 0
    requires StepEffect(steps[0], 0, InitialScan).Ok?
    ensures TranscriptEffect(steps, 0, InitialScan) == Err(NameUndefined)
  {
    assert InitialScan.(doRelax := false) == InitialScan;
    StepEffectShape(steps[0], 0, InitialScan, StepEffect(steps[0], 0, InitialScan).value);
  }

  /**
   * `parse_stdout` on a readable transcript: one frame per relaxation step
   * and one cell per lattice printout; the only code it sets is 202, and
   * it sets it exactly when no line contains `Done!`.
   */
  lemma ParseStdoutMeaning(folder: Folder, filename: string, sub: Sub<StdoutData>)
    requires ReadFile(folder, filename).Content?
    requires ParseStdoutSpec(folder, filename) == Ok(sub)
    ensures var text := ReadFile(folder, filename).text;
      |sub.value.frames| == RelaxCount(RelaxSteps(text), 0) && |sub.value.cells| == CellCount(RelaxSteps(text), 0)
      && (sub.code == None <==> Succeeded(text))
      && (sub.code != None ==> sub.code == Some(UnexpectedParserException))
  {
    var text := ReadFile(folder, filename).text;
    var st := TranscriptEffect(RelaxSteps(text), 0, InitialScan).value;
    TranscriptCounts(RelaxSteps(text), 0, InitialScan, st);
  }

  // ---------------------------------------------------------------------
  // aiida.lattice and aiida.ionpos

  /** The kinds of a structure read back: distinct names, plain kinds, each used by a site and each site's kind present. */
  predicate WellKinded(s: Structure) {
    DistinctKinds(s) && PlainKinds(s) && SitesHaveKinds(s) && KindsUsed(s)
  }

  predicate DistinctKinds(s: Structure) {
    forall a, b :: 0 <= a < b < |s.kinds| ==> s.kinds[a].name != s.kinds[b].name
  }

  predicate PlainKinds(s: Structure) {
    forall k :: 0 <= k < |s.kinds| ==> !s.kinds[k].isAlloy && !s.kinds[k].hasVacancies
  }

  predicate SitesHaveKinds(s: Structure) {
    forall i :: 0 <= i < |s.sites| ==> HasKind(s, s.sites[i].kindName)
  }

  predicate KindsUsed(s: Structure) {
    forall k :: 0 <= k < |s.kinds| ==> exists i :: 0 <= i < |s.sites| && s.sites[i].kindName == s.kinds[k].name
  }

  lemma AppendAtomKeeps(s: Structure, position: seq<real>, element: string, r: Structure)
    requires WellKinded(s) && AppendAtom(s, position, element) == Ok(r)
    ensures WellKinded(r) && r.cell == s.cell && |position| == 3
    ensures r.sites == s.sites + [Site(element, Vec3(position[0], position[1], position[2]))]
  {
    KindsAfterAppend(s, r, element);
  }

  /**
   * A site of kind `element` appended to a structure whose kinds are well
   * formed, with a plain kind of that name added when there is none yet,
   * keeps them well formed.
   */
  lemma KindsAfterAppend(s: Structure, r: Structure, element: string)
    requires WellKinded(s)
    requires r.kinds == if HasKind(s, element) then s.kinds else s.kinds + [Kind(element, false, false)]
    requires |r.sites| == |s.sites| + 1 && r.sites[|s.sites|].kindName == element
    requires forall i :: 0 <= i < |s.sites| ==> r.sites[i] == s.sites[i]
    ensures WellKinded(r)
  {
    SitesKeepKinds(s, r, element);
    KindsStayUsed(s, r, element);
  }

  /** After the append every site's kind is present. */
  lemma SitesKeepKinds(s: Structure, r: Structure, element: string)
    requires SitesHaveKinds(s)
    requires r.kinds == if HasKind(s, element) then s.kinds else s.kinds + [Kind(element, false, false)]
    requires |r.sites| == |s.sites| + 1 && r.sites[|s.sites|].kindName == element
    requires forall i :: 0 <= i < |s.sites| ==> r.sites[i] == s.sites[i]
    ensures SitesHaveKinds(r)
  {
    var n := |s.sites|;
    forall i | 0 <= i < |r.sites| ensures HasKind(r, r.sites[i].kindName) {
      var name := r.sites[i].kindName;
      if i < n {
        assert r.sites[i] == s.sites[i];
        assert HasKind(s, s.sites[i].kindName);
      }
      if HasKind(s, name) {
        var k :| 0 <= k < |s.kinds| && s.kinds[k].name == name;
        assert r.kinds[k] == s.kinds[k];
      } else {
        assert i == n;
        assert r.kinds[|s.kinds|].name == element;
      }
    }
  }

  /** After the append every kind is still used by a site. */
  lemma KindsStayUsed(s: Structure, r: Structure, element: string)
    requires KindsUsed(s)
    requires r.kinds == if HasKind(s, element) then s.kinds else s.kinds + [Kind(element, false, false)]
    requires |r.sites| == |s.sites| + 1 && r.sites[|s.sites|].kindName == element
    requires forall i :: 0 <= i < |s.sites| ==> r.sites[i] == s.sites[i]
    ensures KindsUsed(r)
  {
    var n := |s.sites|;
    forall k | 0 <= k < |r.kinds| ensures exists i :: 0 <= i < |r.sites| && r.sites[i].kindName == r.kinds[k].name {
      if k < |s.kinds| {
        assert r.kinds[k] == s.kinds[k];
        var i :| 0 <= i < n && s.sites[i].kindName == s.kinds[k].name;
        assert r.sites[i] == s.sites[i];
      } else {
        assert r.sites[n].kindName == r.kinds[k].name;
      }
    }
  }



  // ---------------------------------------------------------------------
  // The dump-file scanners, with the reading of one line abstracted

  /** One item per line from line `i` on, appended to `acc`: the shape of the lattice scanner. */
  function Collect<T>(lines: seq<string>, i: nat, acc: seq<T>, read: string -> Result<T, DecodeError>)
    : Result<seq<T>, DecodeError>
    decreases |lines| - i
  {
    if i >= |lines| then Ok(acc)
    else
      match read(lines[i])
      case Err(e) => Err(e)
      case Ok(x) => Collect(lines, i + 1, acc + [x], read)
  }

  lemma {:induction false} CollectShape<T>(lines: seq<string>, i: nat, acc: seq<T>,
                                          read: string -> Result<T, DecodeError>, r: seq<T>)
    requires i <= |lines| && Collect(lines, i, acc, read) == Ok(r)
    ensures |r| == |acc| + |lines| - i
    ensures forall j :: 0 <= j < |acc| ==> r[j] == acc[j]
    ensures forall j :: i <= j < |lines| ==> read(lines[j]) == Ok(r[|acc| + j - i])
    decreases |lines| - i
  {
    if i < |lines| {
      CollectShape(lines, i + 1, acc + [read(lines[i]).value], read, r);
    }
  }

  /** Two items per line from line `i` on, appended to `xs` and `ys`: the shape of the k-point scanner. */
  function Collect2<A, B>(lines: seq<string>, i: nat, xs: seq<A>, ys: seq<B>, read: string -> Result<(A, B), DecodeError>)
    : Result<(seq<A>, seq<B>), DecodeError>
    decreases |lines| - i
  {
    if i >= |lines| then Ok((xs, ys))
    else
      match read(lines[i])
      case Err(e) => Err(e)
      case Ok((x, y)) => Collect2(lines, i + 1, xs + [x], ys + [y], read)
  }

  lemma {:induction false} Collect2Shape<A, B>(lines: seq<string>, i: nat, xs: seq<A>, ys: seq<B>,
                                              read: string -> Result<(A, B), DecodeError>, r: (seq<A>, seq<B>))
    requires i <= |lines| && |xs| == |ys| && Collect2(lines, i, xs, ys, read) == Ok(r)
    ensures |r.0| == |r.1| == |xs| + |lines| - i
    ensures forall j :: 0 <= j < |xs| ==> r.0[j] == xs[j] && r.1[j] == ys[j]
    ensures forall j :: i <= j < |lines| ==> read(lines[j]) == Ok((r.0[|xs| + j - i], r.1[|xs| + j - i]))
    decreases |lines| - i
  {
    if i < |lines| {
      var (x, y) := read(lines[i]).value;
      Collect2Shape(lines, i + 1, xs + [x], ys + [y], read, r);
    }
  }

  /** A state threaded through the lines from line `i` on: the shape of the ionpos scanner. */
  function Fold<S>(lines: seq<string>, i: nat, s: S, step: (string, S) -> Result<S, DecodeError>)
    : Result<S, DecodeError>
    decreases |lines| - i
  {
    if i >= |lines| then Ok(s)
    else
      match step(lines[i], s)
      case Err(e) => Err(e)
      case Ok(next) => Fold(lines, i + 1, next, step)
  }

  /** `step` keeps `inv`, keeps the cell and adds one site that `siteOk` accepts for its line. */
  ghost predicate AddsOneSite(step: (string, Structure) -> Result<Structure, DecodeError>, siteOk: (string, Site) -> bool,
                              inv: Structure -> bool) {
    forall line, a, b {:trigger step(line, a), inv(b)} :: step(line, a) == Ok(b) && inv(a) ==>
      inv(b) && b.cell == a.cell && |b.sites| == |a.sites| + 1
      && (forall k :: 0 <= k < |a.sites| ==> b.sites[k] == a.sites[k])
      && siteOk(line, b.sites[|a.sites|])
  }

  lemma {:induction false} FoldSites(lines: seq<string>, i: nat, s: Structure,
                                     step: (string, Structure) -> Result<Structure, DecodeError>,
                                     siteOk: (string, Site) -> bool, inv: Structure -> bool, r: Structure)
    requires i <= |lines| && inv(s) && AddsOneSite(step, siteOk, inv) && Fold(lines, i, s, step) == Ok(r)
    ensures inv(r) && r.cell == s.cell
    ensures |r.sites| == |s.sites| + |lines| - i
    ensures forall k :: 0 <= k < |s.sites| ==> r.sites[k] == s.sites[k]
    ensures forall j :: i <= j < |lines| ==> siteOk(lines[j], r.sites[|s.sites| + j - i])
    decreases |lines| - i
  {
    if i < |lines| {
      var next := step(lines[i], s).value;
      assert step(lines[i], s) == Ok(next);
      assert inv(next) && next.cell == s.cell && |next.sites| == |s.sites| + 1
        && (forall k :: 0 <= k < |s.sites| ==> next.sites[k] == s.sites[k])
        && siteOk(lines[i], next.sites[|s.sites|]);
      FoldSites(lines, i + 1, next, step, siteOk, inv, r);
      forall j | i <= j < |lines| ensures siteOk(lines[j], r.sites[|s.sites| + j - i]) {
        if j == i {
          assert r.sites[|s.sites|] == next.sites[|s.sites|];
        } else {
          assert |next.sites| + j - (i + 1) == |s.sites| + j - i;
        }
      }
    }
  }

  // ---------------------------------------------------------------------
  // aiida.lattice and aiida.ionpos

  function LatticeFields(line: string): Result<seq<real>, DecodeError> {
    FieldFloats(line, 0, 3)
  }

  lemma {:induction false} LatticeRowsCollect(lines: seq<string>, i: nat, rows: Matrix)
    ensures LatticeRows(lines, i, rows) == Collect(lines, i, rows, LatticeFields)
    decreases |lines| - i
  {
    if i < |lines| && LatticeFields(lines[i]).Ok? {
      LatticeRowsCollect(lines, i + 1, rows + [LatticeFields(lines[i]).value]);
    }
  }

  lemma {:induction false} IonposSitesFold(lines: seq<string>, i: nat, s: Structure)
    ensures IonposSites(lines, i, s) == Fold(lines, i, s, IonposLine)
    decreases |lines| - i
  {
    if i < |lines| && IonposLine(lines[i], s).Ok? {
      IonposSitesFold(lines, i + 1, IonposLine(lines[i], s).value);
    }
  }

  /** A site read from an ionpos line: named by the line's second field, at its fields 2..4 as written. */
  predicate SiteReads(line: string, site: Site) {
    |Words(line)| >= 2 && site.kindName == Words(line)[1] && FieldFloats(line, 2, 5) == Ok(VecRow(site.position))
  }

  /** One ionpos line adds one site, read from that line, and keeps the kinds well formed. */
  lemma IonposLineShape(line: string, a: Structure, b: Structure)
    requires WellKinded(a) && IonposLine(line, a) == Ok(b)
    ensures WellKinded(b) && b.cell == a.cell && |b.sites| == |a.sites| + 1
    ensures forall k :: 0 <= k < |a.sites| ==> b.sites[k] == a.sites[k]
    ensures SiteReads(line, b.sites[|a.sites|])
  {
    var position := FieldFloats(line, 2, 5).value;
    AppendAtomKeeps(a, position, Words(line)[1], b);
    assert VecRow(b.sites[|a.sites|].position) == position;
  }

  /** The three lattice lines read as the rows of `cell`. */
  lemma {:induction false} CellFromLines(lines: seq<string>, cell: seq<Vec3>)
    requires LatticeRows(lines, 0, []).Ok? && CellOf(LatticeRows(lines, 0, []).value) == Ok(cell)
    ensures |lines| == 3 && |cell| == 3
    ensures forall j :: 0 <= j < 3 ==> LatticeFields(lines[j]) == Ok(VecRow(cell[j]))
  {
    LatticeRowsCollect(lines, 0, []);
    var rows := LatticeRows(lines, 0, []).value;
    CollectShape(lines, 0, [], LatticeFields, rows);
    CellOfRows(rows, cell);
  }

  /** `CellOf` keeps the three rows it accepts. */
  lemma CellOfRows(rows: Matrix, cell: seq<Vec3>)
    requires CellOf(rows) == Ok(cell)
    ensures |rows| == 3 && |cell| == 3
    ensures forall j :: 0 <= j < 3 ==> rows[j] == VecRow(cell[j])
  {
    assert rows[0] == VecRow(cell[0]) && rows[1] == VecRow(cell[1]) && rows[2] == VecRow(cell[2]);
  }

  /** The ionpos lines read one site each onto a structure with `cell` and no sites. */
  lemma {:induction false} SitesFromLines(lines: seq<string>, cell: seq<Vec3>, s: Structure)
    requires IonposSites(lines, 0, Structure(cell, [], [])) == Ok(s)
    ensures WellKinded(s) && s.cell == cell && |s.sites| == |lines|
    ensures forall j :: 0 <= j < |lines| ==> SiteReads(lines[j], s.sites[j])
  {
    var s0 := Structure(cell, [], []);
    IonposSitesFold(lines, 0, s0);
    IonposLineAddsOneSite();
    assert WellKinded(s0);
    FoldSitesFromEmpty(lines, s0, IonposLine, SiteReads, WellKinded, s);
  }

  /** Folding over a structure with no sites: site `j` comes from line `j`. */
  lemma FoldSitesFromEmpty(lines: seq<string>, s: Structure,
                           step: (string, Structure) -> Result<Structure, DecodeError>,
                           siteOk: (string, Site) -> bool, inv: Structure -> bool, r: Structure)
    requires s.sites == [] && inv(s) && AddsOneSite(step, siteOk, inv) && Fold(lines, 0, s, step) == Ok(r)
    ensures inv(r) && r.cell == s.cell && |r.sites| == |lines|
    ensures forall j :: 0 <= j < |lines| ==> siteOk(lines[j], r.sites[j])
  {
    FoldSites(lines, 0, s, step, siteOk, inv, r);
    forall j | 0 <= j < |lines| ensures siteOk(lines[j], r.sites[j]) {
      assert |s.sites| + j - 0 == j;
    }
  }

  /** Each ionpos line that reads adds one well-formed site, read from that line, and keeps the rest. */
  lemma IonposLineAddsOneSite()
    ensures AddsOneSite(IonposLine, SiteReads, WellKinded)
  {
    forall line, a, b | IonposLine(line, a) == Ok(b) && WellKinded(a)
      ensures WellKinded(b) && b.cell == a.cell && |b.sites| == |a.sites| + 1
        && (forall k :: 0 <= k < |a.sites| ==> b.sites[k] == a.sites[k])
        && SiteReads(line, b.sites[|a.sites|])
    {
      IonposLineShape(line, a, b);
    }
  }

  /**
   * `parsed_structure`: a new structure exactly when both files are read;
   * then its cell is the three lattice lines after the header, one site per
   * ionpos line after the header, read from that line, and well-formed
   * kinds. Otherwise the input structure, with the code of the file that
   * could not be read.
   */
  lemma ParsedStructureMeaning(folder: Folder, input: Structure, sub: Sub<(Structure, bool)>)
    requires ParsedStructureSpec(folder, input) == Ok(sub)
    ensures sub.value.1 <==> ReadFile(folder, LatticeFile).Content? && ReadFile(folder, IonposFile).Content?
    ensures !sub.value.1 ==> sub.value.0 == input && sub.code.Some?
    ensures sub.value.1 ==>
      var cellLines := BodyLines(ReadFile(folder, LatticeFile).text);
      var siteLines := BodyLines(ReadFile(folder, IonposFile).text);
      var s := sub.value.0;
      sub.code == None && WellKinded(s) && |cellLines| == 3 && |s.cell| == 3
      && (forall j :: 0 <= j < 3 ==> LatticeFields(cellLines[j]) == Ok(VecRow(s.cell[j])))
      && |s.sites| == |siteLines|
      && (forall j :: 0 <= j < |siteLines| ==> SiteReads(siteLines[j], s.sites[j]))
  {
    var lattice := ReadFile(folder, LatticeFile);
    var ionpos := ReadFile(folder, IonposFile);
    if lattice.Content? && ionpos.Content? {
      var cellLines := BodyLines(lattice.text);
      var rows := LatticeRows(cellLines, 0, []).value;
      var cell := CellOf(rows).value;
      CellFromLines(cellLines, cell);
      SitesFromLines(BodyLines(ionpos.text), cell, sub.value.0);
    }
  }

  // ---------------------------------------------------------------------
  // aiida.kPts

  lemma {:induction false} KpointLinesCollect(lines: seq<string>, i: nat, points: seq<seq<real>>, weights: seq<real>)
    ensures KpointLines(lines, i, points, weights) == Collect2(lines, i, points, weights, KpointLine)
    decreases |lines| - i
  {
    if i < |lines| && KpointLine(lines[i]).Ok? {
      var (p, w) := KpointLine(lines[i]).value;
      KpointLinesCollect(lines, i + 1, points + [p], weights + [w]);
    }
  }

  /**
   * `parsed_kpoints`: k-points exactly when the file is read, then on the
   * given structure's cell with one point and weight per line of the
   * stripped file, as that line reads; otherwise none, with the file's code.
   */
  lemma ParsedKpointsMeaning(folder: Folder, structure: Structure, sub: Sub<Option<KpointsOut>>)
    requires ParsedKpointsSpec(folder, structure) == Ok(sub)
    ensures sub.value.Some? <==> ReadFile(folder, KpointsFile).Content?
    ensures sub.code == None <==> sub.value.Some?
    ensures sub.value.Some? ==>
      var lines := Split(Strip(ReadFile(folder, KpointsFile).text), "\n");
      var k := sub.value.value;
      k.cell == structure.cell && |k.points| == |k.weights| == |lines|
      && forall j :: 0 <= j < |lines| ==> KpointLine(lines[j]) == Ok((k.points[j], k.weights[j]))
  {
    if ReadFile(folder, KpointsFile).Content? {
      var lines := Split(Strip(ReadFile(folder, KpointsFile).text), "\n");
      KpointLinesCollect(lines, 0, [], []);
      Collect2Shape(lines, 0, [], [], KpointLine, KpointLines(lines, 0, [], []).value);
    }
  }

  // ---------------------------------------------------------------------
  // The trajectory and `parse`

  /**
   * The trajectory `parse` attaches: one frame per relaxation step of the
   * transcript and one cell per lattice printout, or, when there were none
   * or the transcript could not be read, the single frame and the cell of
   * the final structure; step ids count the frames and the symbols are the
   * final structure's kind names.
   */
  lemma ParseTrajectory(folder: Folder, input: Structure, filename: string, o: ParseOutcome)
    requires ParseSpec(folder, input, filename) == Ok(o)
    ensures var t := o.trajectory;
      |t.stepids| == |t.positions| && (forall i :: 0 <= i < |t.stepids| ==> t.stepids[i] == i)
      && |t.symbols| == |o.structure.sites|
      && (forall i :: 0 <= i < |t.symbols| ==> t.symbols[i] == o.structure.sites[i].kindName)
    ensures !ReadFile(folder, filename).Content? ==>
      o.trajectory.positions == [SitePositions(o.structure.sites)]
      && o.trajectory.cells == [CellMatrix(o.structure.cell)]
    ensures ReadFile(folder, filename).Content? ==>
      var steps := RelaxSteps(ReadFile(folder, filename).text);
      (RelaxCount(steps, 0) == 0 ==> o.trajectory.positions == [SitePositions(o.structure.sites)])
      && (RelaxCount(steps, 0) > 0 ==> |o.trajectory.positions| == RelaxCount(steps, 0))
      && (CellCount(steps, 0) == 0 ==> o.trajectory.cells == [CellMatrix(o.structure.cell)])
      && (CellCount(steps, 0) > 0 ==> |o.trajectory.cells| == CellCount(steps, 0))
  {
    ParseOutputs(folder, input, filename, o);
    var sub := ParseStdoutSpec(folder, filename).value;
    if ReadFile(folder, filename).Content? {
      ParseStdoutMeaning(folder, filename, sub);
    }
  }

  /** The transcript and every dump file can be read. */
  predicate AllReadable(folder: Folder, filename: string) {
    ReadFile(folder, filename).Content? && ReadFile(folder, EcomponentsFile).Content?
    && ReadFile(folder, LatticeFile).Content? && ReadFile(folder, IonposFile).Content?
    && ReadFile(folder, KpointsFile).Content?
  }

  /**
   * `parse`'s exit code: none exactly when every file is read and the run
   * printed `Done!`; the k-points file, read last, decides it whenever it
   * cannot be read.
   */
  lemma ParseExitCode(folder: Folder, input: Structure, filename: string, o: ParseOutcome)
    requires ParseSpec(folder, input, filename) == Ok(o)
    ensures o.exitCode == None <==> AllReadable(folder, filename) && Succeeded(ReadFile(folder, filename).text)
    ensures ReadFile(folder, KpointsFile) == Missing ==> o.exitCode == Some(StdoutMissing)
    ensures ReadFile(folder, KpointsFile) == ReadFailed ==> o.exitCode == Some(StdoutRead)
  {
    var stdout := ParseStdoutSpec(folder, filename).value;
    StdoutCode(folder, filename, stdout);
    var ecomponents := ParsedEcomponentsSpec(folder).value;
    EcomponentsCode(folder, ecomponents);
    var structure := ParsedStructureSpec(folder, input).value;
    StructureCode(folder, input, structure);
    var kpoints := ParsedKpointsSpec(folder, structure.value.0).value;
    KpointsCode(folder, structure.value.0, kpoints);
    assert o.exitCode == Overwrite(Overwrite(Overwrite(stdout.code, ecomponents.code), structure.code), kpoints.code);
  }

  /** `parse_stdout` sets no code exactly when the transcript is read and printed `Done!`. */
  lemma StdoutCode(folder: Folder, filename: string, sub: Sub<StdoutData>)
    requires ParseStdoutSpec(folder, filename) == Ok(sub)
    ensures sub.code == None <==> ReadFile(folder, filename).Content? && Succeeded(ReadFile(folder, filename).text)
  {
  }

  /** `parsed_ecomponents` sets only the code of a file it cannot read. */
  lemma EcomponentsCode(folder: Folder, sub: Sub<map<string, PyValue>>)
    requires ParsedEcomponentsSpec(folder) == Ok(sub)
    ensures sub.code == FallbackCode(ReadFile(folder, EcomponentsFile))
  {
  }

  /** `parsed_structure` sets no code exactly when both structure files are read. */
  lemma StructureCode(folder: Folder, input: Structure, sub: Sub<(Structure, bool)>)
    requires ParsedStructureSpec(folder, input) == Ok(sub)
    ensures sub.code == None <==> ReadFile(folder, LatticeFile).Content? && ReadFile(folder, IonposFile).Content?
  {
  }

  /** `parsed_kpoints` sets only the code of a file it cannot read. */
  lemma KpointsCode(folder: Folder, structure: Structure, sub: Sub<Option<KpointsOut>>)
    requires ParsedKpointsSpec(folder, structure) == Ok(sub)
    ensures sub.code == FallbackCode(ReadFile(folder, KpointsFile))
  {
  }

  /** `parse`'s outputs: the parameters are the energy components, and a new structure exactly when both structure files are read. */
  lemma ParseOutputs(folder: Folder, input: Structure, filename: string, o: ParseOutcome)
    requires ParseSpec(folder, input, filename) == Ok(o)
    ensures o.parameters == ParsedEcomponentsSpec(folder).value.value
    ensures o.structureIsNew <==> ReadFile(folder, LatticeFile).Content? && ReadFile(folder, IonposFile).Content?
    ensures o.kpoints.Some? <==> ReadFile(folder, KpointsFile).Content?
    ensures o.trajectory == BuildOutputTrajectory(ParseStdoutSpec(folder, filename).value.value, o.structure)
  {
    var structure := ParsedStructureSpec(folder, input).value;
    ParsedStructureMeaning(folder, input, structure);
    ParsedKpointsMeaning(folder, structure.value.0, ParsedKpointsSpec(folder, structure.value.0).value);
    assert map[] + ParsedEcomponentsSpec(folder).value.value == ParsedEcomponentsSpec(folder).value.value;
  }
}
