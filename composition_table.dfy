/** The composition table of the GUI: the editing rules of its model
    (`CompositionModel`) and the list of compositions the table offers to
    copy from (`CompositionTable.farmCompositions`). */
module CompositionTables {
  import opened Strings
  import opened Formula
  import opened FormulaProperties
  import opened Entities
  import opened SampleBackgrounds
  import opened GudrunFiles

  /** The attribute of an element each column shows. */
  datatype Attribute = AtomicSymbol | MassNo | Abundance

  /** The column-to-attribute dictionary of the model. */
  const Attrs: map<int, Attribute> := map[0 := AtomicSymbol, 1 := MassNo, 2 := Abundance]

  /** Qt's `EditRole`. */
  const EditRole: int := 2

  /** A value the table's editors hand to `setData`. */
  datatype CellValue = Text(text: string) | Whole(whole: int) | Amount(amount: real)

  /** The kinds of value each attribute takes: the abundance column also takes
      the whole number 0 its delegate falls back to when the editor's value
      cannot be read. */
  predicate Fits(a: Attribute, v: CellValue) {
    match a
    case AtomicSymbol => v.Text?
    case MassNo => v.Whole?
    case Abundance => v.Amount? || v.Whole?
  }

  /** The abundance a fitting value stands for. */
  function AmountOf(v: CellValue): real
    requires v.Amount? || v.Whole?
  {
    if v.Amount? then v.amount else v.whole as real
  }

  /** `columnCount`: the number of columns, one per attribute. */
  function ColumnCount(): (n: int)
    ensures n == |Attrs|
    ensures forall c | 0 <= c < n :: c in Attrs
    ensures forall c | c in Attrs :: 0 <= c < n
  {
    assert Attrs.Keys == {0, 1, 2};
    3
  }

  /** An element with one attribute set to the given value. */
  function WithAttribute(e: Element, a: Attribute, v: CellValue): Element
    requires Fits(a, v)
  {
    match a
    case AtomicSymbol => e.(atomicSymbol := v.text)
    case MassNo => e.(massNo := v.whole)
    case Abundance => e.(abundance := AmountOf(v))
  }

  /** The effect of `setData` on the rows: what it returns (`None` where the
      code falls off its end) and the new rows. */
  function Edit(table: MassTable, data: seq<Element>, row: int, col: int, value: CellValue, role: int)
    : (r: (Option<bool>, seq<Element>))
    requires role == EditRole ==> 0 <= row < |data| && col in Attrs && Fits(Attrs[col], value)
    ensures |r.1| == |data| && forall i | 0 <= i < |data| && i != row :: r.1[i] == data[i]
    ensures r.0 == Some(false) ==> r.1 == data
  {
    if role != EditRole then (None, data)
    else if col == 0 && value.text == Deuterium then
      (Some(true), data[row := data[row].(atomicSymbol := "H", massNo := DeuteriumMassNo)])
    else if col == 0 && value.text !in table then (Some(false), data)
    else (None, data[row := WithAttribute(data[row], Attrs[col], value)])
  }

  /** Every row's symbol is empty (a fresh row), a symbol of the mass table,
      or hydrogen written by the deuterium alias. */
  predicate KnownSymbols(table: MassTable, data: seq<Element>) {
    forall i | 0 <= i < |data| :: data[i].atomicSymbol == "" || data[i].atomicSymbol in table
                                  || data[i].atomicSymbol == "H"
  }

  /** Editing with "D" in the symbol column writes hydrogen-2, accepts the
      edit and touches no other row or attribute. */
  lemma DeuteriumAlias(table: MassTable, data: seq<Element>, row: int, role: int)
    requires 0 <= row < |data| && role == EditRole
    ensures var (r, d) := Edit(table, data, row, 0, Text(Deuterium), role);
            && r == Some(true) && |d| == |data|
            && d[row] == Element("H", DeuteriumMassNo, data[row].abundance)
            && forall i | 0 <= i < |data| && i != row :: d[i] == data[i]
  {
  }

  /** The alias agrees with the formula parser: the row gets the symbol and
      mass number that parsing "D" gives. */
  lemma DeuteriumAliasAsParsed(table: MassTable, data: seq<Element>, row: int, role: int)
    requires 0 <= row < |data| && role == EditRole
    ensures ParseFormula(table, Deuterium).Parsed?
    ensures |ParseFormula(table, Deuterium).elements| == 1
    ensures var parsed := ParseFormula(table, Deuterium).elements[0];
            var edited := Edit(table, data, row, 0, Text(Deuterium), role).1[row];
            edited.atomicSymbol == parsed.atomicSymbol && edited.massNo == parsed.massNo
  {
    var ts := [Written(Deuterium, None, None)];
    ParseWritten(table, ts);
    assert FormulaText(ts) == Deuterium;
  }

  /** A symbol the mass table does not know is refused and nothing changes. */
  lemma UnknownSymbolRejected(table: MassTable, data: seq<Element>, row: int, symbol: string, role: int)
    requires 0 <= row < |data| && role == EditRole
    requires symbol != Deuterium && symbol !in table
    ensures Edit(table, data, row, 0, Text(symbol), role) == (Some(false), data)
  {
  }

  /** Any other edit writes exactly the attribute its column maps to, in
      exactly the edited row, and returns nothing. */
  lemma OrdinaryEdit(table: MassTable, data: seq<Element>, row: int, col: int, value: CellValue, role: int)
    requires 0 <= row < |data| && col in Attrs && Fits(Attrs[col], value) && role == EditRole
    requires col == 0 ==> value.text != Deuterium && value.text in table
    ensures var (r, d) := Edit(table, data, row, col, value, role);
            && r.None? && |d| == |data|
            && (forall i | 0 <= i < |data| && i != row :: d[i] == data[i])
            && (col == 0 ==> d[row] == data[row].(atomicSymbol := value.text))
            && (col == 1 ==> d[row] == data[row].(massNo := value.whole))
            && (col == 2 && value.Amount? ==> d[row] == data[row].(abundance := value.amount))
            && (col == 2 && value.Whole? ==> d[row] == data[row].(abundance := value.whole as real))
  {
  }

  /** Roles other than `EditRole` change nothing. */
  lemma OtherRolesIgnored(table: MassTable, data: seq<Element>, row: int, col: int, value: CellValue, role: int)
    requires role != EditRole
    ensures Edit(table, data, row, col, value, role) == (None, data)
  {
  }

  /** Edits keep every symbol known. */
  lemma EditKeepsSymbolsKnown(table: MassTable, data: seq<Element>, row: int, col: int, value: CellValue,
                              role: int)
    requires role == EditRole ==> 0 <= row < |data| && col in Attrs && Fits(Attrs[col], value)
    requires KnownSymbols(table, data)
    ensures KnownSymbols(table, Edit(table, data, row, col, value, role).1)
  {
    var d := Edit(table, data, row, col, value, role).1;
    forall i | 0 <= i < |d|
      ensures d[i].atomicSymbol == "" || d[i].atomicSymbol in table || d[i].atomicSymbol == "H"
    {
      if i != row {
        assert d[i] == data[i];
      }
    }
  }

  /** The row `insertRow` appends. */
  const DefaultRow: Element := Element("", 0, 0.0)

  /** Inserting the default row keeps every symbol known. */
  lemma InsertKeepsSymbolsKnown(table: MassTable, data: seq<Element>)
    requires KnownSymbols(table, data)
    ensures KnownSymbols(table, data + [DefaultRow])
  {
    var d := data + [DefaultRow];
    forall i | 0 <= i < |d|
      ensures d[i].atomicSymbol == "" || d[i].atomicSymbol in table || d[i].atomicSymbol == "H"
    {
      if i < |data| {
        assert d[i] == data[i];
      }
    }
  }

  class CompositionModel {
    /** The mass table `setData` checks symbols against. */
    const table: MassTable
    /** The rows, one element each. */
    var data: seq<Element>

    constructor (table: MassTable, data: seq<Element>)
      ensures this.table == table && this.data == data
    {
      this.table := table;
      this.data := data;
    }

    /** `setData`: applies an edit of one cell. */
    method SetData(row: int, col: int, value: CellValue, role: int) returns (r: Option<bool>)
      requires role == EditRole ==> 0 <= row < |data| && col in Attrs && Fits(Attrs[col], value)
      modifies this`data
      ensures (r, data) == Edit(table, old(data), row, col, value, role)
    {
      if role == EditRole {
        if col == 0 {
          if value.text == Deuterium {
            data := data[row := data[row].(atomicSymbol := "H", massNo := DeuteriumMassNo)];
            return Some(true);
          } else if value.text !in table {
            return Some(false);
          }
        }
        data := data[row := WithAttribute(data[row], Attrs[col], value)];
      }
      return None;
    }

    /** `insertRow`: appends the default row. */
    method InsertRow()
      modifies this`data
      ensures data == old(data) + [DefaultRow]
    {
      data := data + [DefaultRow];
    }
  }

  /** An entry of the list of compositions: a name and a composition. */
  type Entry = (string, Composition)

  /** The entries the containers contribute, leaving out `parent`. */
  function ContainerEntries(containers: seq<Container>, parent: object?): (r: seq<Entry>)
    ensures |r| <= |containers|
    decreases |containers|
  {
    if containers == [] then []
    else
      var c := containers[|containers| - 1];
      ContainerEntries(containers[..|containers| - 1], parent)
      + (if c != parent then [(c.name, c.composition)] else [])
  }

  /** The entries of one sample: the sample itself, unless it is `parent`,
      then its containers. */
  function SampleEntries(s: Sample, parent: object?): seq<Entry> {
    (if s != parent then [(s.name, s.composition)] else []) + ContainerEntries(s.containers, parent)
  }

  function SamplesEntries(samples: seq<Sample>, parent: object?): seq<Entry>
    decreases |samples|
  {
    if samples == [] then []
    else SamplesEntries(samples[..|samples| - 1], parent) + SampleEntries(samples[|samples| - 1], parent)
  }

  function BackgroundsEntries(sbs: seq<SampleBackground>, parent: object?): seq<Entry>
    reads sbs
    decreases |sbs|
  {
    if sbs == [] then []
    else BackgroundsEntries(sbs[..|sbs| - 1], parent) + SamplesEntries(sbs[|sbs| - 1].samples, parent)
  }

  /** The list `farmCompositions` builds: the normalisation first, then
      every sample and container other than `parent`. */
  function Farmed(gudrunFile: GudrunFile, parent: object?): (r: seq<Entry>)
    reads gudrunFile.sampleBackgrounds
    ensures r != [] && r[0] == ("Normalisation", gudrunFile.normalisation.composition)
  {
    [("Normalisation", gudrunFile.normalisation.composition)]
    + BackgroundsEntries(gudrunFile.sampleBackgrounds, parent)
  }

  /** Where an entry comes from. */
  datatype Origin = FromSample(sample: Sample) | FromContainer(container: Container)

  function EntryOf(o: Origin): Entry {
    match o
    case FromSample(s) => (s.name, s.composition)
    case FromContainer(c) => (c.name, c.composition)
  }

  predicate IsParent(o: Origin, parent: object?) {
    match o
    case FromSample(s) => s == parent
    case FromContainer(c) => c == parent
  }

  /** Every sample followed by its containers, background by background:
      the candidates for the list, in order. */
  function Candidates(samples: seq<Sample>): seq<Origin>
    decreases |samples|
  {
    if samples == [] then []
    else
      var s := samples[|samples| - 1];
      Candidates(samples[..|samples| - 1]) + [FromSample(s)] + ContainerOrigins(s.containers)
  }

  function ContainerOrigins(containers: seq<Container>): (r: seq<Origin>)
    ensures |r| == |containers| && forall i | 0 <= i < |r| :: r[i] == FromContainer(containers[i])
  {
    seq(|containers|, i requires 0 <= i < |containers| => FromContainer(containers[i]))
  }

  /** The entries of the candidates that are not `parent`, in order. */
  function EntriesExcept(origins: seq<Origin>, parent: object?): seq<Entry>
    decreases |origins|
  {
    if origins == [] then []
    else
      var o := origins[|origins| - 1];
      EntriesExcept(origins[..|origins| - 1], parent) + (if IsParent(o, parent) then [] else [EntryOf(o)])
  }

  lemma {:induction false} EntriesExceptAppend(a: seq<Origin>, b: seq<Origin>, parent: object?)
    ensures EntriesExcept(a + b, parent) == EntriesExcept(a, parent) + EntriesExcept(b, parent)
    decreases |b|
  {
    if b == [] {
      assert a + b == a;
    } else {
      var b' := b[..|b| - 1];
      assert (a + b)[..|a + b| - 1] == a + b';
      EntriesExceptAppend(a, b', parent);
    }
  }

  lemma {:induction false} ContainerEntriesAsExcept(containers: seq<Container>, parent: object?)
    ensures ContainerEntries(containers, parent) == EntriesExcept(ContainerOrigins(containers), parent)
    decreases |containers|
  {
    if containers != [] {
      var init := containers[..|containers| - 1];
      ContainerEntriesAsExcept(init, parent);
      assert ContainerOrigins(containers)[..|containers| - 1] == ContainerOrigins(init);
    }
  }

  /** The samples' entries are the entries of the candidate list without
      the parent: the nested loops filter one flat, ordered list. */
  lemma {:induction false} SamplesEntriesAsExcept(samples: seq<Sample>, parent: object?)
    ensures SamplesEntries(samples, parent) == EntriesExcept(Candidates(samples), parent)
    decreases |samples|
  {
    if samples != [] {
      var init := samples[..|samples| - 1];
      var s := samples[|samples| - 1];
      SamplesEntriesAsExcept(init, parent);
      ContainerEntriesAsExcept(s.containers, parent);
      EntriesExceptAppend(Candidates(init) + [FromSample(s)], ContainerOrigins(s.containers), parent);
      EntriesExceptAppend(Candidates(init), [FromSample(s)], parent);
      var head := if s != parent then [(s.name, s.composition)] else [];
      assert EntriesExcept([FromSample(s)], parent) == head by {
        assert [FromSample(s)][..0] == [];
      }
      AppendAssoc(EntriesExcept(Candidates(init), parent), head, ContainerEntries(s.containers, parent));
    }
  }

  /** The list starts with the normalisation and then holds exactly the
      candidates of all samples, in background-then-sample order with each
      sample before its containers, except the parent. */
  lemma FarmedAsExcept(gudrunFile: GudrunFile, parent: object?)
    ensures Farmed(gudrunFile, parent)[0] == ("Normalisation", gudrunFile.normalisation.composition)
    ensures Farmed(gudrunFile, parent)[1..]
            == EntriesExcept(Candidates(AllSamples(gudrunFile.sampleBackgrounds)), parent)
  {
    BackgroundsEntriesAsExcept(gudrunFile.sampleBackgrounds, parent);
  }

  lemma {:induction false} SamplesEntriesAppend(a: seq<Sample>, b: seq<Sample>, parent: object?)
    ensures SamplesEntries(a + b, parent) == SamplesEntries(a, parent) + SamplesEntries(b, parent)
    decreases |b|
  {
    if b == [] {
      AppendEmpty(a);
      AppendEmpty(SamplesEntries(a, parent));
    } else {
      var b' := b[..|b| - 1];
      InitOfAppend(a, b);
      SamplesEntriesAppend(a, b', parent);
      AppendAssoc(SamplesEntries(a, parent), SamplesEntries(b', parent), SampleEntries(b[|b| - 1], parent));
    }
  }

  lemma ContainerEntriesStep(containers: seq<Container>, k: nat, parent: object?)
    requires k < |containers|
    ensures ContainerEntries(containers[..k + 1], parent)
            == ContainerEntries(containers[..k], parent)
               + (if containers[k] != parent then [(containers[k].name, containers[k].composition)] else [])
  {
    TakeStep(containers, k);
  }

  lemma SamplesEntriesStep(samples: seq<Sample>, i: nat, parent: object?)
    requires i < |samples|
    ensures SamplesEntries(samples[..i + 1], parent)
            == SamplesEntries(samples[..i], parent) + SampleEntries(samples[i], parent)
  {
    TakeStep(samples, i);
  }

  lemma BackgroundsEntriesStep(sbs: seq<SampleBackground>, j: nat, parent: object?)
    requires j < |sbs|
    ensures BackgroundsEntries(sbs[..j + 1], parent)
            == BackgroundsEntries(sbs[..j], parent) + SamplesEntries(sbs[j].samples, parent)
  {
    TakeStep(sbs, j);
  }

  lemma {:induction false} BackgroundsEntriesAsExcept(sbs: seq<SampleBackground>, parent: object?)
    ensures BackgroundsEntries(sbs, parent) == EntriesExcept(Candidates(AllSamples(sbs)), parent)
    decreases |sbs|
  {
    if sbs != [] {
      var init := sbs[..|sbs| - 1];
      BackgroundsEntriesAsExcept(init, parent);
      SamplesEntriesAppend(AllSamples(init), sbs[|sbs| - 1].samples, parent);
      SamplesEntriesAsExcept(AllSamples(sbs), parent);
      SamplesEntriesAsExcept(AllSamples(init), parent);
    }
  }

  class CompositionTable {
    /** The sample, container or normalisation whose composition the table
        edits; it is not offered as a source to copy from. */
    var parentObject: object?
    /** The compositions offered to copy from, with their names. */
    var compositions: seq<Entry>

    constructor ()
      ensures parentObject == null && compositions == []
    {
      compositions := [];
      parentObject := null;
    }

    /** `makeModel`: records the object being edited and, when asked, farms
        the compositions of the Gudrun file the widget hierarchy leads to. */
    method MakeModel(parentObject: object?, gudrunFile: GudrunFile, farm: bool := true)
      modifies this`parentObject, this`compositions
      ensures this.parentObject == parentObject
      ensures farm ==> compositions == Farmed(gudrunFile, parentObject)
      ensures !farm ==> compositions == old(compositions)
    {
      this.parentObject := parentObject;
      if farm {
        FarmCompositions(gudrunFile);
      }
    }

    /** `farmCompositions`, given the Gudrun file the widget hierarchy leads
        to: rebuilds the list from scratch. */
    method FarmCompositions(gudrunFile: GudrunFile)
      modifies this`compositions
      ensures compositions == Farmed(gudrunFile, parentObject)
    {
      compositions := [];
      compositions := [("Normalisation", gudrunFile.normalisation.composition)];
      var first := compositions;
      var sbs := gudrunFile.sampleBackgrounds;
      for j := 0 to |sbs|
        invariant compositions == first + BackgroundsEntries(sbs[..j], parentObject)
      {
        var samples := sbs[j].samples;
        AppendSamplesEntries(samples);
        BackgroundsEntriesStep(sbs, j, parentObject);
        AppendAssoc(first, BackgroundsEntries(sbs[..j], parentObject), SamplesEntries(samples, parentObject));
      }
      TakeAll(sbs);
    }

    /** The loop over one sample background's samples. */
    method AppendSamplesEntries(samples: seq<Sample>)
      modifies this`compositions
      ensures compositions == old(compositions) + SamplesEntries(samples, parentObject)
    {
      var before := compositions;
      for i := 0 to |samples|
        invariant compositions == before + SamplesEntries(samples[..i], parentObject)
      {
        var sample := samples[i];
        var head := if sample != parentObject then [(sample.name, sample.composition)] else [];
        if sample != parentObject {
          compositions := compositions + [(sample.name, sample.composition)];
        }
        AppendContainerEntries(sample.containers);
        SamplesEntriesStep(samples, i, parentObject);
        AppendAssoc4(before, SamplesEntries(samples[..i], parentObject), head,
                     ContainerEntries(sample.containers, parentObject));
      }
      TakeAll(samples);
    }

    /** The loop over one sample's containers. */
    method AppendContainerEntries(containers: seq<Container>)
      modifies this`compositions
      ensures compositions == old(compositions) + ContainerEntries(containers, parentObject)
    {
      var atContainers := compositions;
      for k := 0 to |containers|
        invariant compositions == atContainers + ContainerEntries(containers[..k], parentObject)
      {
        var container := containers[k];
        ContainerEntriesStep(containers, k, parentObject);
        AppendAssoc(atContainers, ContainerEntries(containers[..k], parentObject),
                    if container != parentObject then [(container.name, container.composition)] else []);
        if container != parentObject {
          compositions := compositions + [(container.name, container.composition)];
        }
      }
      TakeAll(containers);
    }
  }
}
