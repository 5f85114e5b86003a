/** The cloning protocol of data/ot2_cloning/protocol_v2.py: material lookup,
    the transfer plan a reaction table turns into, spotting, the Gibson
    cool-down ramp, the transformation sample set and the workflow loop. */
module ProtocolV2 {
  import opened Robot
  import opened Params

  const P20: string := "p20_single_gen2"
  const P300: string := "p300_single_gen2"

  // ---------------------------------------------------------------------
  // find_materials_well

  /** `find_materials_well(material, right_well)`: an "[E]" name is looked up
      in the enzyme positions, any other name is searched for in the plates. */
  function FindMaterialsWell(deck: Deck, material: string, right: bool): Lookup
  {
    if StartsWith(material, "[E]") then
      if material in deck.enzymes then Found(deck.enzymes[material]) else Raised(KeyError)
    else SearchPlates(deck.plates, material, right)
  }

  /** A well found is on the deck: an enzyme position, or a well of the
      plate whose data names the material. */
  lemma FoundWellOnDeck(deck: Deck, material: string, right: bool)
    requires FindMaterialsWell(deck, material, right).Found?
    ensures !StartsWith(material, "[E]") ==>
      exists i :: 0 <= i < |deck.plates| && FindMaterialsWell(deck, material, right).well.labware == deck.plates[i].key
    ensures StartsWith(material, "[E]") ==> FindMaterialsWell(deck, material, right).well in deck.enzymes.Values
  {
    if !StartsWith(material, "[E]") {
      var i, j :| FirstMatch(deck.plates, material, i, j) &&
        FindMaterialsWell(deck, material, right) == WellOf(deck.plates[i], deck.plates[i].data[j].0, right);
    }
  }

  /** An "[E]" name resolves through the enzyme positions alone: the plates
      and `right_well` play no part, and a name without a position raises. */
  lemma EnzymeNamesIgnorePlates(d1: Deck, d2: Deck, material: string, right1: bool, right2: bool)
    requires StartsWith(material, "[E]") && d1.enzymes == d2.enzymes
    ensures FindMaterialsWell(d1, material, right1) == FindMaterialsWell(d2, material, right2)
    ensures FindMaterialsWell(d1, material, right1).Found? <==> material in d1.enzymes
    ensures material in d1.enzymes ==> FindMaterialsWell(d1, material, right1) == Found(d1.enzymes[material])
  {
  }

  /** Any other name gives the first well holding it, in plate order then
      well order (or the well eight places later with `right_well`), and
      None exactly when no plate holds it. */
  lemma OtherNamesFirstMatch(deck: Deck, material: string, right: bool)
    requires !StartsWith(material, "[E]")
    ensures FindMaterialsWell(deck, material, right).NotFound? <==>
      forall i, j :: 0 <= i < |deck.plates| && 0 <= j < |deck.plates[i].data| ==> deck.plates[i].data[j].1 != material
    ensures !FindMaterialsWell(deck, material, right).NotFound? ==>
      exists i, j :: FirstMatch(deck.plates, material, i, j) &&
        FindMaterialsWell(deck, material, right) == WellOf(deck.plates[i], deck.plates[i].data[j].0, right)
  {
  }

  /** On standard 96-well plates, `right_well` moves one column to the right. */
  lemma RightWellOnStandardPlate(deck: Deck, material: string, i: int, j: int, r: nat, c: nat)
    requires !StartsWith(material, "[E]") && FirstMatch(deck.plates, material, i, j)
    requires deck.plates[i].wells == StandardWells()
    requires r < 8 && 1 <= c < 12 && deck.plates[i].data[j].0 == WellName(r, c)
    ensures FindMaterialsWell(deck, material, true) == Found(Well(deck.plates[i].key, WellName(r, c + 1)))
  {
    OtherNamesFirstMatch(deck, material, true);
    var i', j' :| FirstMatch(deck.plates, material, i', j') &&
      FindMaterialsWell(deck, material, true) == WellOf(deck.plates[i'], deck.plates[i'].data[j'].0, true);
    FirstMatchUnique(deck.plates, material, i, j, i', j');
    var p := deck.plates[i];
    assert p == Plate(p.key, p.kind, p.data, StandardWells());
    RightWellIsNextColumn(p.key, p.kind, p.data, r, c);
  }

  lemma FirstMatchUnique(plates: seq<Plate>, material: string, i: int, j: int, i': int, j': int)
    requires FirstMatch(plates, material, i, j) && FirstMatch(plates, material, i', j')
    ensures i == i' && j == j'
  {
  }

  // ---------------------------------------------------------------------
  // transfer_materials

  /** `names` gives, for each name it holds, the well `find_materials_well`
      returns for it. The transfer plan is stated over such a map. */
  predicate Resolution(deck: Deck, names: map<string, Well>)
  {
    forall n {:trigger FindMaterialsWell(deck, n, false)} :: n in names ==> FindMaterialsWell(deck, n, false) == Found(names[n])
  }

  /** `find_materials_well(name)` for a name the resolution holds. */
  function WellFor(deck: Deck, ghost names: map<string, Well>, name: string): (w: Well)
    requires Resolution(deck, names) && name in names
    ensures w == names[name]
  {
    FindMaterialsWell(deck, name, false).well
  }

  /** The well of a name in the plan. Under `TableReady` every name the plan
      reads is in `names`; the trash stands in for the others, which keeps
      the plan total. */
  function Located(names: map<string, Well>, name: string): Well
  {
    if name in names then names[name] else TrashWell
  }

  /** `float(volume_dict[column])`; 0 stands in for a missing column. */
  function Volume(vols: map<string, int>, column: string): int
  {
    if column in vols then vols[column] else 0
  }

  /** A cell `transfer_materials` acts on without raising: a Name cell names
      a well, and any other non-empty cell names a well and its column has a
      volume. */
  predicate CellReady(names: map<string, Well>, vols: map<string, int>, column: string, v: string)
  {
    && (column == "Name" ==> v in names)
    && (column != "Name" && v != "" ==> v in names && column in vols)
  }

  /** The table has the Name, DW and A_enzyme columns the protocol reads, and
      every cell it looks up resolves. */
  predicate TableReady(names: map<string, Well>, t: Table, vols: map<string, int>)
  {
    && "Name" in t.columns && "DW" in t.columns && "A_enzyme" in t.columns
    && forall i, c :: 0 <= i < |t.rows| && c in t.columns ==> CellReady(names, vols, c, Cell(t.rows[i], c))
  }

  predicate RowReady(names: map<string, Well>, vols: map<string, int>, cols: seq<string>, row: map<string, string>)
  {
    forall c :: c in cols ==> CellReady(names, vols, c, Cell(row, c))
  }

  predicate RowsReady(names: map<string, Well>, vols: map<string, int>, cols: seq<string>, rows: seq<map<string, string>>)
  {
    "Name" in cols && forall i :: 0 <= i < |rows| ==> RowReady(names, vols, cols, rows[i])
  }

  predicate NamesResolve(names: map<string, Well>, rows: seq<map<string, string>>)
  {
    forall i :: 0 <= i < |rows| ==> Cell(rows[i], "Name") in names
  }

  predicate ValuesReady(names: map<string, Well>, vols: map<string, int>, column: string, vs: seq<string>)
  {
    forall k :: 0 <= k < |vs| && vs[k] != "" ==> vs[k] in names && column in vols
  }

  /** The Name wells of the rows at `idx`. */
  function NameWells(names: map<string, Well>, rows: seq<map<string, string>>, idx: seq<nat>): (ws: seq<Well>)
    requires forall k :: 0 <= k < |idx| ==> idx[k] < |rows|
    ensures |ws| == |idx|
    ensures forall k :: 0 <= k < |idx| ==> ws[k] == Located(names, Cell(rows[idx[k]], "Name"))
  {
    seq(|idx|, k requires 0 <= k < |idx| => Located(names, Cell(rows[idx[k]], "Name")))
  }

  /** The Name wells of the rows at `idx`, looked up one by one. */
  function NameWellsFor(deck: Deck, ghost names: map<string, Well>, rows: seq<map<string, string>>, idx: seq<nat>): (ws: seq<Well>)
    requires Resolution(deck, names) && NamesResolve(names, rows)
    requires forall k :: 0 <= k < |idx| ==> idx[k] < |rows|
    ensures ws == NameWells(names, rows, idx)
  {
    seq(|idx|, k requires 0 <= k < |idx| => WellFor(deck, names, Cell(rows[idx[k]], "Name")))
  }

  /** The grouped distribute for value `v` of column DW or A_enzyme, after
      the flow-rate change that precedes it. */
  function GroupStep(names: map<string, Well>, rows: seq<map<string, string>>, vols: map<string, int>,
                     column: string, v: string): seq<Command>
  {
    var dests := NameWells(names, rows, RowsCarrying(rows, column, v));
    if column == "DW" then
      [FlowRate(P300, Rates(50, 50, 20)),
       Distribute(P300, Volume(vols, column), Located(names, v), dests, false, false, false)]
    else
      [FlowRate(P300, Rates(20, 20, 20)),
       Distribute(P300, Volume(vols, column), Located(names, v), dests, false, true, true)]
  }

  /** The distributes for the values `vs` of a column; empty values are skipped. */
  function GroupPlan(names: map<string, Well>, rows: seq<map<string, string>>, vols: map<string, int>,
                     column: string, vs: seq<string>): seq<Command>
  {
    if vs == [] then []
    else
      var v := vs[|vs| - 1];
      GroupPlan(names, rows, vols, column, vs[..|vs| - 1])
        + (if v == "" then [] else GroupStep(names, rows, vols, column, v))
  }

  /** The destination list of the last distribute issued for `vs`, which is
      what the variable `dest` holds afterwards. */
  function LastDests(names: map<string, Well>, rows: seq<map<string, string>>, column: string, vs: seq<string>): Option<seq<Well>>
  {
    if vs == [] then None
    else if vs[|vs| - 1] != "" then Some(NameWells(names, rows, RowsCarrying(rows, column, vs[|vs| - 1])))
    else LastDests(names, rows, column, vs[..|vs| - 1])
  }

  /** `df.drop(columns=["A_enzyme", "DW"])`. */
  function Dropped(cols: seq<string>): seq<string>
  {
    if cols == [] then []
    else
      var c := cols[|cols| - 1];
      Dropped(cols[..|cols| - 1]) + (if c == "A_enzyme" || c == "DW" then [] else [c])
  }

  /** Dropping keeps every other column, in order. */
  lemma {:induction false} DroppedSpec(cols: seq<string>)
    ensures forall c :: c in Dropped(cols) <==> c in cols && c != "A_enzyme" && c != "DW"
  {
    if cols != [] {
      DroppedSpec(cols[..|cols| - 1]);
      assert forall x :: x in cols <==> x in cols[..|cols| - 1] || x == cols[|cols| - 1];
    }
  }

  /** The commands for the cells of one row, column by column, and the
      destination afterwards. A Name cell sets the destination; an empty cell
      does nothing; any other cell is one p20 transfer of its column's volume
      to the destination in force. */
  function CellsPlan(names: map<string, Well>, vols: map<string, int>, cols: seq<string>, row: map<string, string>,
                     dest: seq<Well>): (r: (seq<Command>, seq<Well>))
    ensures r.1 == if "Name" in cols then [Located(names, Cell(row, "Name"))] else dest
  {
    if cols == [] then ([], dest)
    else
      var c := cols[|cols| - 1];
      assert forall x :: x in cols <==> x in cols[..|cols| - 1] || x == c;
      var (cmds, d) := CellsPlan(names, vols, cols[..|cols| - 1], row, dest);
      if c == "Name" then (cmds, [Located(names, Cell(row, "Name"))])
      else if Cell(row, c) == "" then (cmds, d)
      else (cmds + [FlowRate(P20, Rates(1, 1, 1)), Transfer(P20, Volume(vols, c), Located(names, Cell(row, c)), d, false)], d)
  }

  /** The commands one column of a row adds: none for the Name column or an
      empty cell, a flow-rate change and one transfer to `dest` otherwise. */
  function CellPlan(names: map<string, Well>, vols: map<string, int>, c: string, row: map<string, string>,
                    dest: seq<Well>): seq<Command>
  {
    if c == "Name" || Cell(row, c) == "" then []
    else [FlowRate(P20, Rates(1, 1, 1)), Transfer(P20, Volume(vols, c), Located(names, Cell(row, c)), dest, false)]
  }

  /** One more column extends the plan of the columns before it. */
  lemma CellsPlanStep(names: map<string, Well>, vols: map<string, int>, cols: seq<string>, j: nat, row: map<string, string>,
                      dest: seq<Well>)
    requires j < |cols|
    ensures var prev := CellsPlan(names, vols, cols[..j], row, dest);
      CellsPlan(names, vols, cols[..j + 1], row, dest)
        == (prev.0 + CellPlan(names, vols, cols[j], row, prev.1),
            if cols[j] == "Name" then [Located(names, Cell(row, "Name"))] else prev.1)
  {
    var pre := cols[..j + 1];
    assert pre[..|pre| - 1] == cols[..j] && pre[|pre| - 1] == cols[j];
    var prev := CellsPlan(names, vols, cols[..j], row, dest).0;
    assert prev + [] == prev;
  }

  /** `mix_last[0]` rounds of aspirating and dispensing `mix_last[1]` at
      the product well; `range` of a negative count is empty. */
  function MixPairs(name: string, n: int, volume: int, at: Well): (r: seq<Command>)
    decreases n
    ensures |r| == if n <= 0 then 0 else 2 * n
  {
    if n <= 0 then [] else MixPairs(name, n - 1, volume, at) + [Aspirate(name, volume, at), Dispense(name, volume, at)]
  }

  /** The mix that ends a row, issued when `sum(mix_last)` is not zero. */
  function MixPlan(mix: (int, int), at: Well): seq<Command>
  {
    if mix.0 + mix.1 != 0 then
      [FlowRate(P20, Rates(10, 10, 10)), PickUpTip(P20)] + MixPairs(P20, mix.0, mix.1, at) + [DropTip(P20)]
    else []
  }

  /** One row: the transfers of its cells, then the mix at its Name well. */
  function RowPlan(names: map<string, Well>, vols: map<string, int>, cols: seq<string>, row: map<string, string>,
                   dest: seq<Well>, mix: (int, int)): (r: (seq<Command>, seq<Well>))
  {
    var (cmds, d) := CellsPlan(names, vols, cols, row, dest);
    (cmds + MixPlan(mix, Located(names, Cell(row, "Name"))), d)
  }

  /** The row phase over `rows`, with `dest` carried in from what came before. */
  function RowsPlan(names: map<string, Well>, vols: map<string, int>, cols: seq<string>, rows: seq<map<string, string>>,
                    dest: seq<Well>, mix: (int, int)): (r: (seq<Command>, seq<Well>))
  {
    if rows == [] then ([], dest)
    else
      var (cmds, d) := RowsPlan(names, vols, cols, rows[..|rows| - 1], dest, mix);
      var (step, d') := RowPlan(names, vols, cols, rows[|rows| - 1], d, mix);
      (cmds + step, d')
  }

  /** What `dest` holds when the row phase starts: the destination list of
      the last distribute, if any was issued. */
  function Carried(names: map<string, Well>, t: Table): Option<seq<Well>>
  {
    var enz := LastDests(names, t.rows, "A_enzyme", Unique(ColumnValues(t.rows, "A_enzyme")));
    if enz.Some? then enz else LastDests(names, t.rows, "DW", Unique(ColumnValues(t.rows, "DW")))
  }

  /** The whole plan of `transfer_materials`: the DW distributes, the
      A_enzyme distributes, then the row phase. */
  function TransferPlan(names: map<string, Well>, t: Table, vols: map<string, int>, mix: (int, int)): seq<Command>
  {
    var dest := match Carried(names, t) case Some(ds) => ds case None => [];
    GroupPlan(names, t.rows, vols, "DW", Unique(ColumnValues(t.rows, "DW")))
      + GroupPlan(names, t.rows, vols, "A_enzyme", Unique(ColumnValues(t.rows, "A_enzyme")))
      + RowsPlan(names, vols, Dropped(t.columns), t.rows, dest, mix).0
  }

  /** Some row has a DW or A_enzyme entry, so some distribute is issued. */
  predicate AnyDistribute(t: Table)
  {
    exists i :: 0 <= i < |t.rows| && (Cell(t.rows[i], "DW") != "" || Cell(t.rows[i], "A_enzyme") != "")
  }

  /** `dest` is bound whenever a transfer reads it: some distribute was
      issued, or the first row has no material before its Name cell. */
  predicate RowPhaseBound(t: Table)
  {
    var cols := Dropped(t.columns);
    || AnyDistribute(t) || |t.rows| == 0
    || forall j :: 0 <= j < |cols| && cols[j] != "Name" && Cell(t.rows[0], cols[j]) != "" ==> "Name" in cols[..j]
  }

  lemma TableReadyParts(names: map<string, Well>, t: Table, vols: map<string, int>)
    requires TableReady(names, t, vols)
    ensures NamesResolve(names, t.rows)
    ensures ValuesReady(names, vols, "DW", Unique(ColumnValues(t.rows, "DW")))
    ensures ValuesReady(names, vols, "A_enzyme", Unique(ColumnValues(t.rows, "A_enzyme")))
    ensures RowsReady(names, vols, Dropped(t.columns), t.rows)
  {
    ColumnReady(names, t, vols, "DW");
    ColumnReady(names, t, vols, "A_enzyme");
    RowsReadyFromTable(names, t, vols);
  }

  lemma ColumnReady(names: map<string, Well>, t: Table, vols: map<string, int>, column: string)
    requires TableReady(names, t, vols) && column in t.columns && column != "Name"
    ensures ValuesReady(names, vols, column, Unique(ColumnValues(t.rows, column)))
  {
    var u := Unique(ColumnValues(t.rows, column));
    UniqueSpec(ColumnValues(t.rows, column));
    forall k | 0 <= k < |u| && u[k] != ""
      ensures u[k] in names && column in vols
    {
      ValueOfColumn(names, t, vols, column, u[k]);
    }
  }

  lemma ValueOfColumn(names: map<string, Well>, t: Table, vols: map<string, int>, column: string, v: string)
    requires TableReady(names, t, vols) && column in t.columns && column != "Name"
    requires v in ColumnValues(t.rows, column) && v != ""
    ensures v in names && column in vols
  {
    var vs := ColumnValues(t.rows, column);
    var i :| 0 <= i < |vs| && vs[i] == v;
    CellOfTable(names, t, vols, i, column);
  }

  lemma CellOfTable(names: map<string, Well>, t: Table, vols: map<string, int>, i: int, c: string)
    requires TableReady(names, t, vols) && 0 <= i < |t.rows| && c in t.columns
    ensures CellReady(names, vols, c, Cell(t.rows[i], c))
  {
  }

  lemma RowsReadyFromTable(names: map<string, Well>, t: Table, vols: map<string, int>)
    requires TableReady(names, t, vols)
    ensures RowsReady(names, vols, Dropped(t.columns), t.rows)
  {
    var cols := Dropped(t.columns);
    DroppedSpec(t.columns);
    forall i | 0 <= i < |t.rows|
      ensures RowReady(names, vols, cols, t.rows[i])
    {
      forall c | c in cols
        ensures CellReady(names, vols, c, Cell(t.rows[i], c))
      {
        CellOfTable(names, t, vols, i, c);
      }
    }
  }

  lemma {:induction false} LastDestsSome(names: map<string, Well>, rows: seq<map<string, string>>, column: string, vs: seq<string>)
    ensures LastDests(names, rows, column, vs).Some? <==> exists k :: 0 <= k < |vs| && vs[k] != ""
  {
    if vs != [] && vs[|vs| - 1] == "" {
      var pre := vs[..|vs| - 1];
      LastDestsSome(names, rows, column, pre);
      if exists k :: 0 <= k < |vs| && vs[k] != "" {
        var k :| 0 <= k < |vs| && vs[k] != "";
        assert pre[k] != "";
      }
    }
  }

  lemma NonEmptyValue(rows: seq<map<string, string>>, column: string)
    ensures (exists k :: 0 <= k < |Unique(ColumnValues(rows, column))| && Unique(ColumnValues(rows, column))[k] != "")
        <==> exists i :: 0 <= i < |rows| && Cell(rows[i], column) != ""
  {
    if exists i :: 0 <= i < |rows| && Cell(rows[i], column) != "" {
      NonEmptyValueKept(rows, column);
    }
    if exists k :: 0 <= k < |Unique(ColumnValues(rows, column))| && Unique(ColumnValues(rows, column))[k] != "" {
      NonEmptyValueFrom(rows, column);
    }
  }

  lemma NonEmptyValueKept(rows: seq<map<string, string>>, column: string)
    requires exists i :: 0 <= i < |rows| && Cell(rows[i], column) != ""
    ensures exists k :: 0 <= k < |Unique(ColumnValues(rows, column))| && Unique(ColumnValues(rows, column))[k] != ""
  {
    var vs := ColumnValues(rows, column);
    var u := Unique(vs);
    UniqueSpec(vs);
    var i :| 0 <= i < |rows| && Cell(rows[i], column) != "";
    assert vs[i] in u;
    var k :| 0 <= k < |u| && u[k] == vs[i];
    assert u[k] != "";
  }

  lemma NonEmptyValueFrom(rows: seq<map<string, string>>, column: string)
    requires exists k :: 0 <= k < |Unique(ColumnValues(rows, column))| && Unique(ColumnValues(rows, column))[k] != ""
    ensures exists i :: 0 <= i < |rows| && Cell(rows[i], column) != ""
  {
    var vs := ColumnValues(rows, column);
    var u := Unique(vs);
    UniqueSpec(vs);
    var k :| 0 <= k < |u| && u[k] != "";
    assert u[k] in vs;
    var i :| 0 <= i < |vs| && vs[i] == u[k];
    assert Cell(rows[i], column) != "";
  }

  /** A destination list is carried into the row phase exactly when some
      row has a DW or A_enzyme entry. */
  lemma CarriedIffAnyDistribute(names: map<string, Well>, t: Table)
    ensures Carried(names, t).Some? <==> AnyDistribute(t)
  {
    LastDestsSome(names, t.rows, "DW", Unique(ColumnValues(t.rows, "DW")));
    LastDestsSome(names, t.rows, "A_enzyme", Unique(ColumnValues(t.rows, "A_enzyme")));
    NonEmptyValue(t.rows, "DW");
    NonEmptyValue(t.rows, "A_enzyme");
  }

  /** The grouped phase drives the p300 alone. */
  lemma {:induction false} GroupPlanOnP300(names: map<string, Well>, rows: seq<map<string, string>>, vols: map<string, int>,
                                           column: string, vs: seq<string>)
    ensures Drives(GroupPlan(names, rows, vols, column, vs), P300)
  {
    if vs != [] {
      var v := vs[|vs| - 1];
      GroupPlanOnP300(names, rows, vols, column, vs[..|vs| - 1]);
      if v != "" {
        DrivesAppend(GroupPlan(names, rows, vols, column, vs[..|vs| - 1]), GroupStep(names, rows, vols, column, v), P300);
      }
    }
  }

  // The method

  /** One grouped phase: a distribute per distinct non-empty value of
      `column`, from that value's well to the Name wells of the rows that
      carry it. */
  method DistributeColumn(deck: Deck, ghost names: map<string, Well>, rows: seq<map<string, string>>, vols: map<string, int>, column: string,
                          p300: Pipette, log: Log) returns (dest: Option<seq<Well>>)
    requires Resolution(deck, names)
    requires column == "DW" || column == "A_enzyme"
    requires NamesResolve(names, rows) && ValuesReady(names, vols, column, Unique(ColumnValues(rows, column)))
    requires p300.name == P300
    modifies p300, log
    ensures log.entries == old(log.entries) + GroupPlan(names, rows, vols, column, Unique(ColumnValues(rows, column)))
    ensures dest == LastDests(names, rows, column, Unique(ColumnValues(rows, column)))
    ensures p300.hasTip == old(p300.hasTip) && p300.currentVolume == old(p300.currentVolume)
    ensures p300.rates == RatesAfter(old(p300.rates), GroupPlan(names, rows, vols, column, Unique(ColumnValues(rows, column))), P300)
  {
    var vs := Unique(ColumnValues(rows, column));
    ghost var r0 := p300.rates;
    ghost var log0 := log.entries;
    dest := None;
    for k := 0 to |vs|
      invariant log.entries == log0 + GroupPlan(names, rows, vols, column, vs[..k])
      invariant dest == LastDests(names, rows, column, vs[..k])
      invariant p300.hasTip == old(p300.hasTip) && p300.currentVolume == old(p300.currentVolume)
      invariant p300.rates == RatesAfter(r0, GroupPlan(names, rows, vols, column, vs[..k]), P300)
    {
      var v := vs[k];
      ghost var before := GroupPlan(names, rows, vols, column, vs[..k]);
      GroupPlanStep(names, rows, vols, column, vs, k);
      if v != "" {
        DistributeValue(deck, names, rows, vols, column, v, p300, log);
        dest := Some(NameWellsFor(deck, names, rows, RowsCarrying(rows, column, v)));
        RatesAfterAppend(r0, before, GroupStep(names, rows, vols, column, v), P300);
        AppendAssoc(log0, before, GroupStep(names, rows, vols, column, v));
      }
    }
    assert vs[..|vs|] == vs;
  }

  /** The distribute for one value of a grouped column. */
  method DistributeValue(deck: Deck, ghost names: map<string, Well>, rows: seq<map<string, string>>,
                         vols: map<string, int>, column: string, v: string, p300: Pipette, log: Log)
    requires Resolution(deck, names)
    requires column == "DW" || column == "A_enzyme"
    requires NamesResolve(names, rows) && v in names && column in vols
    requires p300.name == P300
    modifies p300, log
    ensures log.entries == old(log.entries) + GroupStep(names, rows, vols, column, v)
    ensures p300.hasTip == old(p300.hasTip) && p300.currentVolume == old(p300.currentVolume)
    ensures p300.rates == RatesAfter(old(p300.rates), GroupStep(names, rows, vols, column, v), P300)
  {
    var src := WellFor(deck, names, v);
    var ds := NameWellsFor(deck, names, rows, RowsCarrying(rows, column, v));
    if column == "DW" {
      p300.SetFlowRate(Some(50), Some(50), Some(20), log);
      p300.Distribute(vols[column], src, ds, false, false, false, log);
    } else {
      p300.SetFlowRate(Some(20), Some(20), Some(20), log);
      p300.Distribute(vols[column], src, ds, false, true, true, log);
    }
    assert GroupStep(names, rows, vols, column, v)[..1] == [FlowRate(P300, p300.rates)];
  }

  /** One more value of a grouped column. */
  lemma GroupPlanStep(names: map<string, Well>, rows: seq<map<string, string>>, vols: map<string, int>,
                      column: string, vs: seq<string>, k: int)
    requires 0 <= k < |vs|
    ensures GroupPlan(names, rows, vols, column, vs[..k + 1]) ==
      if vs[k] == "" then GroupPlan(names, rows, vols, column, vs[..k])
      else GroupPlan(names, rows, vols, column, vs[..k]) + GroupStep(names, rows, vols, column, vs[k])
    ensures LastDests(names, rows, column, vs[..k + 1]) ==
      if vs[k] == "" then LastDests(names, rows, column, vs[..k])
      else Some(NameWells(names, rows, RowsCarrying(rows, column, vs[k])))
  {
    assert vs[..k + 1][..k] == vs[..k];
    assert GroupPlan(names, rows, vols, column, vs[..k]) + [] == GroupPlan(names, rows, vols, column, vs[..k]);
  }

  method TransferMaterials(deck: Deck, ghost names: map<string, Well>, t: Table, vols: map<string, int>, mix: (int, int),
                           p20: Pipette, p300: Pipette, log: Log)
    requires Resolution(deck, names)
    requires TableReady(names, t, vols) && RowPhaseBound(t)
    requires p20.name == P20 && p300.name == P300 && p20 != p300
    requires p20.Valid() && !p20.hasTip
    requires mix.0 > 0 ==> 0 <= mix.1 <= p20.maxVolume
    modifies p20, p300, log
    ensures log.entries == old(log.entries) + TransferPlan(names, t, vols, mix)
    ensures p20.Valid() && !p20.hasTip
    ensures p20.rates == RatesAfter(old(p20.rates), TransferPlan(names, t, vols, mix), P20)
    ensures p300.hasTip == old(p300.hasTip) && p300.currentVolume == old(p300.currentVolume)
    ensures p300.rates == RatesAfter(old(p300.rates), TransferPlan(names, t, vols, mix), P300)
  {
    TableReadyParts(names, t, vols);
    ghost var log0 := log.entries;
    ghost var dwPlan := GroupPlan(names, t.rows, vols, "DW", Unique(ColumnValues(t.rows, "DW")));
    ghost var enzPlan := GroupPlan(names, t.rows, vols, "A_enzyme", Unique(ColumnValues(t.rows, "A_enzyme")));
    var dw := DistributeColumn(deck, names, t.rows, vols, "DW", p300, log);
    var enz := DistributeColumn(deck, names, t.rows, vols, "A_enzyme", p300, log);
    assert p300.hasTip == old(p300.hasTip) && p300.currentVolume == old(p300.currentVolume);
    var dest := match (if enz.Some? then enz else dw) case Some(ds) => ds case None => [];
    ghost var rows := RowsPlan(names, vols, Dropped(t.columns), t.rows, dest, mix).0;
    ghost var r300 := p300.rates;
    assert r300 == RatesAfter(old(p300.rates), dwPlan + enzPlan, P300) by {
      RatesAfterAppend(old(p300.rates), dwPlan, enzPlan, P300);
    }
    TransferRows(deck, names, vols, Dropped(t.columns), t.rows, dest, mix, p20, log);
    assert p300.rates == r300 && p300.hasTip == old(p300.hasTip) && p300.currentVolume == old(p300.currentVolume);
    AppendAssoc(log0, dwPlan, enzPlan);
    AppendAssoc(log0, dwPlan + enzPlan, rows);
    TransferPlanRates(names, t, vols, mix, dest, old(p20.rates), old(p300.rates));
  }

  /** The p20's rates change only in the row phase, the p300's only in the
      grouped phase. */
  lemma TransferPlanRates(names: map<string, Well>, t: Table, vols: map<string, int>, mix: (int, int),
                          dest: seq<Well>, r20: Rates, r300: Rates)
    requires dest == match Carried(names, t) case Some(ds) => ds case None => []
    ensures RatesAfter(r20, TransferPlan(names, t, vols, mix), P20)
      == RatesAfter(r20, RowsPlan(names, vols, Dropped(t.columns), t.rows, dest, mix).0, P20)
    ensures RatesAfter(r300, TransferPlan(names, t, vols, mix), P300)
      == RatesAfter(r300, GroupPlan(names, t.rows, vols, "DW", Unique(ColumnValues(t.rows, "DW")))
        + GroupPlan(names, t.rows, vols, "A_enzyme", Unique(ColumnValues(t.rows, "A_enzyme"))), P300)
  {
    var groups := GroupPlan(names, t.rows, vols, "DW", Unique(ColumnValues(t.rows, "DW")))
      + GroupPlan(names, t.rows, vols, "A_enzyme", Unique(ColumnValues(t.rows, "A_enzyme")));
    var rows := RowsPlan(names, vols, Dropped(t.columns), t.rows, dest, mix).0;
    GroupPlanOnP300(names, t.rows, vols, "DW", Unique(ColumnValues(t.rows, "DW")));
    GroupPlanOnP300(names, t.rows, vols, "A_enzyme", Unique(ColumnValues(t.rows, "A_enzyme")));
    DrivesAppend(GroupPlan(names, t.rows, vols, "DW", Unique(ColumnValues(t.rows, "DW"))),
      GroupPlan(names, t.rows, vols, "A_enzyme", Unique(ColumnValues(t.rows, "A_enzyme"))), P300);
    RowsPlanOnP20(names, vols, Dropped(t.columns), t.rows, dest, mix);
    RatesAfterElsewhere(r20, groups, P300, P20);
    RatesAfterAppend(r20, groups, rows, P20);
    RatesAfterAppend(r300, groups, rows, P300);
    RatesAfterElsewhere(RatesAfter(r300, groups, P300), rows, P20, P300);
  }

  /** The materials of one row, column by column. */
  method TransferRowCells(deck: Deck, ghost names: map<string, Well>, vols: map<string, int>, cols: seq<string>, row: map<string, string>,
                          dest0: seq<Well>, p20: Pipette, log: Log) returns (dest: seq<Well>)
    requires Resolution(deck, names)
    requires RowReady(names, vols, cols, row)
    requires p20.name == P20
    modifies p20, log
    ensures log.entries == old(log.entries) + CellsPlan(names, vols, cols, row, dest0).0
    ensures dest == CellsPlan(names, vols, cols, row, dest0).1
    ensures p20.hasTip == old(p20.hasTip) && p20.currentVolume == old(p20.currentVolume)
    ensures p20.rates == RatesAfter(old(p20.rates), CellsPlan(names, vols, cols, row, dest0).0, P20)
  {
    ghost var r0 := p20.rates;
    ghost var log0 := log.entries;
    dest := dest0;
    for j := 0 to |cols|
      invariant log.entries == log0 + CellsPlan(names, vols, cols[..j], row, dest0).0
      invariant dest == CellsPlan(names, vols, cols[..j], row, dest0).1
      invariant p20.hasTip == old(p20.hasTip) && p20.currentVolume == old(p20.currentVolume)
      invariant p20.rates == RatesAfter(r0, CellsPlan(names, vols, cols[..j], row, dest0).0, P20)
    {
      ghost var prev := CellsPlan(names, vols, cols[..j], row, dest0).0;
      CellsPlanStep(names, vols, cols, j, row, dest0);
      assert cols[j] in cols;
      ghost var step := CellPlan(names, vols, cols[j], row, dest);
      dest := TransferCell(deck, names, vols, cols[j], row, dest, p20, log);
      AppendAssoc(log0, prev, step);
      RatesAfterAppend(r0, prev, step, P20);
    }
    assert cols[..|cols|] == cols;
  }

  /** One column of a row: the Name column sets the destination, an empty
      cell does nothing, any other cell is one transfer to the destination. */
  method TransferCell(deck: Deck, ghost names: map<string, Well>, vols: map<string, int>, c: string, row: map<string, string>,
                      dest0: seq<Well>, p20: Pipette, log: Log) returns (dest: seq<Well>)
    requires Resolution(deck, names)
    requires CellReady(names, vols, c, Cell(row, c))
    requires p20.name == P20
    modifies p20, log
    ensures log.entries == old(log.entries) + CellPlan(names, vols, c, row, dest0)
    ensures dest == if c == "Name" then [Located(names, Cell(row, "Name"))] else dest0
    ensures p20.hasTip == old(p20.hasTip) && p20.currentVolume == old(p20.currentVolume)
    ensures p20.rates == RatesAfter(old(p20.rates), CellPlan(names, vols, c, row, dest0), P20)
  {
    dest := dest0;
    if c == "Name" {
      dest := [WellFor(deck, names, Cell(row, "Name"))];
    } else if Cell(row, c) != "" {
      p20.SetFlowRate(Some(1), Some(1), Some(1), log);
      p20.Transfer(vols[c], WellFor(deck, names, Cell(row, c)), dest, false, log);
    }
  }

  /** The mix of a finished row at its product well. */
  method MixProduct(mix: (int, int), at: Well, p20: Pipette, log: Log)
    requires p20.name == P20 && p20.Valid() && !p20.hasTip
    requires mix.0 > 0 ==> 0 <= mix.1 <= p20.maxVolume
    modifies p20, log
    ensures log.entries == old(log.entries) + MixPlan(mix, at)
    ensures p20.Valid() && !p20.hasTip
    ensures p20.rates == RatesAfter(old(p20.rates), MixPlan(mix, at), P20)
  {
    MixPlanRates(old(p20.rates), mix, at);
    if mix.0 + mix.1 != 0 {
      p20.SetFlowRate(Some(10), Some(10), Some(10), log);
      p20.PickUpTip(log);
      MixRounds(mix.0, mix.1, at, p20, log);
      p20.DropTip(log);
    }
  }

  /** `for _ in range(n)`: aspirate and dispense `volume` at `at` with pipette `p`. */
  method MixRounds(n: int, volume: int, at: Well, p: Pipette, log: Log)
    requires p.Valid() && p.hasTip && p.currentVolume == 0
    requires n > 0 ==> 0 <= volume <= p.maxVolume
    modifies p, log
    ensures log.entries == old(log.entries) + MixPairs(p.name, n, volume, at)
    ensures p.Valid() && p.hasTip && p.currentVolume == 0 && p.rates == old(p.rates)
  {
    var k := 0;
    while k < n
      invariant k <= n || k == 0
      invariant log.entries == old(log.entries) + MixPairs(p.name, k, volume, at)
      invariant p.Valid() && p.hasTip && p.currentVolume == 0 && p.rates == old(p.rates)
    {
      p.Aspirate(volume, at, log);
      p.Dispense(volume, at, log);
      k := k + 1;
    }
  }

  /** A mix leaves the p20 at 10/10/10 µL/s; no mix leaves its rates alone. */
  lemma MixPlanRates(r0: Rates, mix: (int, int), at: Well)
    ensures RatesAfter(r0, MixPlan(mix, at), P20) == if mix.0 + mix.1 != 0 then Rates(10, 10, 10) else r0
  {
    if mix.0 + mix.1 != 0 {
      var tail := MixPairs(P20, mix.0, mix.1, at) + [DropTip(P20)];
      MixPairsOnP20(mix.0, mix.1, at);
      RatesAfterOther(Rates(10, 10, 10), tail, P20);
      RatesAfterAppend(r0, [FlowRate(P20, Rates(10, 10, 10)), PickUpTip(P20)], tail, P20);
      assert MixPlan(mix, at) == [FlowRate(P20, Rates(10, 10, 10)), PickUpTip(P20)] + tail;
    }
  }

  /** The row phase: every row's materials, then its mix. */
  method TransferRows(deck: Deck, ghost names: map<string, Well>, vols: map<string, int>, cols: seq<string>, rows: seq<map<string, string>>,
                      dest0: seq<Well>, mix: (int, int), p20: Pipette, log: Log)
    requires Resolution(deck, names)
    requires RowsReady(names, vols, cols, rows)
    requires p20.name == P20 && p20.Valid() && !p20.hasTip
    requires mix.0 > 0 ==> 0 <= mix.1 <= p20.maxVolume
    modifies p20, log
    ensures log.entries == old(log.entries) + RowsPlan(names, vols, cols, rows, dest0, mix).0
    ensures p20.Valid() && !p20.hasTip
    ensures p20.rates == RatesAfter(old(p20.rates), RowsPlan(names, vols, cols, rows, dest0, mix).0, P20)
  {
    ghost var r0 := p20.rates;
    ghost var log0 := log.entries;
    var dest := dest0;
    for i := 0 to |rows|
      invariant log.entries == log0 + RowsPlan(names, vols, cols, rows[..i], dest0, mix).0
      invariant dest == RowsPlan(names, vols, cols, rows[..i], dest0, mix).1
      invariant p20.Valid() && !p20.hasTip
      invariant p20.rates == RatesAfter(r0, RowsPlan(names, vols, cols, rows[..i], dest0, mix).0, P20)
    {
      ghost var before := RowsPlan(names, vols, cols, rows[..i], dest0, mix).0;
      ghost var step := RowPlan(names, vols, cols, rows[i], dest, mix).0;
      RowsPlanStep(names, vols, cols, rows, i, dest0, mix);
      dest := TransferRow(deck, names, vols, cols, rows[i], dest, mix, p20, log);
      RatesAfterAppend(r0, before, step, P20);
      AppendAssoc(log0, before, step);
    }
    assert rows[..|rows|] == rows;
  }

  /** One row: its materials, then the mix at its product well. */
  method TransferRow(deck: Deck, ghost names: map<string, Well>, vols: map<string, int>, cols: seq<string>, row: map<string, string>,
                     dest0: seq<Well>, mix: (int, int), p20: Pipette, log: Log) returns (dest: seq<Well>)
    requires Resolution(deck, names)
    requires "Name" in cols && RowReady(names, vols, cols, row)
    requires p20.name == P20 && p20.Valid() && !p20.hasTip
    requires mix.0 > 0 ==> 0 <= mix.1 <= p20.maxVolume
    modifies p20, log
    ensures log.entries == old(log.entries) + RowPlan(names, vols, cols, row, dest0, mix).0
    ensures dest == RowPlan(names, vols, cols, row, dest0, mix).1
    ensures p20.Valid() && !p20.hasTip
    ensures p20.rates == RatesAfter(old(p20.rates), RowPlan(names, vols, cols, row, dest0, mix).0, P20)
  {
    ghost var log0 := log.entries;
    ghost var cells := CellsPlan(names, vols, cols, row, dest0).0;
    dest := TransferRowCells(deck, names, vols, cols, row, dest0, p20, log);
    var at := WellFor(deck, names, Cell(row, "Name"));
    MixProduct(mix, at, p20, log);
    RatesAfterAppend(old(p20.rates), cells, MixPlan(mix, at), P20);
    AppendAssoc(log0, cells, MixPlan(mix, at));
  }

  /** One more row: its cells and mix after the rows before it. */
  lemma RowsPlanStep(names: map<string, Well>, vols: map<string, int>, cols: seq<string>, rows: seq<map<string, string>>,
                     i: int, dest0: seq<Well>, mix: (int, int))
    requires 0 <= i < |rows|
    ensures RowsPlan(names, vols, cols, rows[..i + 1], dest0, mix) ==
      var (before, d) := RowsPlan(names, vols, cols, rows[..i], dest0, mix);
      var (step, d') := RowPlan(names, vols, cols, rows[i], d, mix);
      (before + step, d')
  {
    assert rows[..i + 1][..i] == rows[..i];
  }

  lemma AppendAssoc<T>(a: seq<T>, b: seq<T>, c: seq<T>)
    ensures a + b + c == a + (b + c)
  {
  }

  /** A suffix is its first part followed by the rest. */
  lemma SplitTail<T>(s: seq<T>, i: nat, j: nat)
    requires i <= j <= |s|
    ensures s[i..] == s[i..j] + s[j..]
  {
  }

  lemma {:induction false} MixPairsOnP20(n: int, volume: int, at: Well)
    decreases n
    ensures Drives(MixPairs(P20, n, volume, at), P20)
    ensures forall i :: 0 <= i < |MixPairs(P20, n, volume, at)| ==> !MixPairs(P20, n, volume, at)[i].FlowRate?
  {
    if n > 0 {
      MixPairsOnP20(n - 1, volume, at);
      DrivesAppend(MixPairs(P20, n - 1, volume, at), [Aspirate(P20, volume, at), Dispense(P20, volume, at)], P20);
    }
  }

  lemma MixPlanOnP20(mix: (int, int), at: Well)
    ensures Drives(MixPlan(mix, at), P20)
  {
    if mix.0 + mix.1 != 0 {
      MixPairsOnP20(mix.0, mix.1, at);
      DrivesAppend([FlowRate(P20, Rates(10, 10, 10)), PickUpTip(P20)], MixPairs(P20, mix.0, mix.1, at), P20);
      DrivesAppend([FlowRate(P20, Rates(10, 10, 10)), PickUpTip(P20)] + MixPairs(P20, mix.0, mix.1, at), [DropTip(P20)], P20);
    }
  }

  lemma {:induction false} CellsPlanOnP20(names: map<string, Well>, vols: map<string, int>, cols: seq<string>,
                                          row: map<string, string>, dest: seq<Well>)
    ensures Drives(CellsPlan(names, vols, cols, row, dest).0, P20)
  {
    if cols != [] {
      var pre := CellsPlan(names, vols, cols[..|cols| - 1], row, dest);
      CellsPlanOnP20(names, vols, cols[..|cols| - 1], row, dest);
      var c := cols[|cols| - 1];
      DrivesAppend(pre.0, [FlowRate(P20, Rates(1, 1, 1)),
        Transfer(P20, Volume(vols, c), Located(names, Cell(row, c)), pre.1, false)], P20);
    }
  }

  lemma RowPlanOnP20(names: map<string, Well>, vols: map<string, int>, cols: seq<string>,
                     row: map<string, string>, dest: seq<Well>, mix: (int, int))
    ensures Drives(RowPlan(names, vols, cols, row, dest, mix).0, P20)
  {
    CellsPlanOnP20(names, vols, cols, row, dest);
    MixPlanOnP20(mix, Located(names, Cell(row, "Name")));
    DrivesAppend(CellsPlan(names, vols, cols, row, dest).0, MixPlan(mix, Located(names, Cell(row, "Name"))), P20);
  }

  /** The row phase drives the p20 alone. */
  lemma {:induction false} RowsPlanOnP20(names: map<string, Well>, vols: map<string, int>, cols: seq<string>,
                                         rows: seq<map<string, string>>, dest: seq<Well>, mix: (int, int))
    ensures Drives(RowsPlan(names, vols, cols, rows, dest, mix).0, P20)
  {
    if rows != [] {
      var pre := RowsPlan(names, vols, cols, rows[..|rows| - 1], dest, mix);
      RowsPlanOnP20(names, vols, cols, rows[..|rows| - 1], dest, mix);
      RowPlanOnP20(names, vols, cols, rows[|rows| - 1], pre.1, mix);
      DrivesAppend(pre.0, RowPlan(names, vols, cols, rows[|rows| - 1], pre.1, mix).0, P20);
    }
  }

  // What the plan promises

  /** The values of `vs` other than "", in order. */
  function Filled(vs: seq<string>): seq<string>
  {
    if vs == [] then []
    else Filled(vs[..|vs| - 1]) + (if vs[|vs| - 1] == "" then [] else [vs[|vs| - 1]])
  }

  lemma {:induction false} FilledSpec(vs: seq<string>)
    ensures forall v :: v in Filled(vs) <==> v in vs && v != ""
    ensures (forall i, j :: 0 <= i < j < |vs| ==> vs[i] != vs[j]) ==>
      forall i, j :: 0 <= i < j < |Filled(vs)| ==> Filled(vs)[i] != Filled(vs)[j]
  {
    if vs != [] {
      var pre := vs[..|vs| - 1];
      var v := vs[|vs| - 1];
      FilledSpec(pre);
      assert forall x :: x in vs <==> x in pre || x == v;
      if forall i, j :: 0 <= i < j < |vs| ==> vs[i] != vs[j] {
        assert forall i, j :: 0 <= i < j < |pre| ==> pre[i] != pre[j] by {
          forall i, j | 0 <= i < j < |pre|
            ensures pre[i] != pre[j]
          {
            assert pre[i] == vs[i] && pre[j] == vs[j];
          }
        }
        assert v !in pre;
      }
    }
  }

  /** The grouped plan for `vs` is a flow-rate change and a distribute for
      each non-empty value, in order. */
  lemma {:induction false} GroupPlanShape(names: map<string, Well>, rows: seq<map<string, string>>, vols: map<string, int>,
                                          column: string, vs: seq<string>)
    ensures |GroupPlan(names, rows, vols, column, vs)| == 2 * |Filled(vs)|
    ensures forall k :: 0 <= k < |Filled(vs)| ==>
      && GroupPlan(names, rows, vols, column, vs)[2 * k] == GroupStep(names, rows, vols, column, Filled(vs)[k])[0]
      && GroupPlan(names, rows, vols, column, vs)[2 * k + 1] == GroupStep(names, rows, vols, column, Filled(vs)[k])[1]
  {
    if vs != [] {
      var pre := vs[..|vs| - 1];
      var v := vs[|vs| - 1];
      GroupPlanShape(names, rows, vols, column, pre);
      var g := GroupPlan(names, rows, vols, column, pre);
      var f := Filled(pre);
      if v == "" {
        assert GroupPlan(names, rows, vols, column, vs) == g + [];
        assert Filled(vs) == f + [];
      } else {
        assert GroupPlan(names, rows, vols, column, vs) == g + GroupStep(names, rows, vols, column, v);
        assert Filled(vs) == f + [v];
        GroupShapeExtend(names, rows, vols, column, g, f, v);
      }
    }
  }

  /** One more value's step after a plan of steps, one per value, is again
      a plan of steps, one per value. */
  lemma GroupShapeExtend(names: map<string, Well>, rows: seq<map<string, string>>, vols: map<string, int>, column: string,
                         g: seq<Command>, f: seq<string>, v: string)
    requires |g| == 2 * |f|
    requires forall k :: 0 <= k < |f| ==>
      && g[2 * k] == GroupStep(names, rows, vols, column, f[k])[0]
      && g[2 * k + 1] == GroupStep(names, rows, vols, column, f[k])[1]
    ensures |g + GroupStep(names, rows, vols, column, v)| == 2 * |f + [v]|
    ensures forall k :: 0 <= k < |f + [v]| ==>
      && (g + GroupStep(names, rows, vols, column, v))[2 * k] == GroupStep(names, rows, vols, column, (f + [v])[k])[0]
      && (g + GroupStep(names, rows, vols, column, v))[2 * k + 1] == GroupStep(names, rows, vols, column, (f + [v])[k])[1]
  {
    var whole := g + GroupStep(names, rows, vols, column, v);
    forall k | 0 <= k < |f + [v]|
      ensures whole[2 * k] == GroupStep(names, rows, vols, column, (f + [v])[k])[0]
      ensures whole[2 * k + 1] == GroupStep(names, rows, vols, column, (f + [v])[k])[1]
    {
      if k < |f| {
        assert (f + [v])[k] == f[k];
      } else {
        assert (f + [v])[k] == v;
      }
    }
  }

  /** For the DW and the A_enzyme column alike: one distribute per distinct
      non-empty value of the column, in order of first appearance, each
      moving the column's volume from the value's well to the Name wells of
      the rows carrying that value (RowsCarryingSpec: exactly those rows,
      each once, in row order). */
  lemma GroupedDistributes(names: map<string, Well>, rows: seq<map<string, string>>, vols: map<string, int>, column: string)
    ensures var u := Filled(Unique(ColumnValues(rows, column)));
      var plan := GroupPlan(names, rows, vols, column, Unique(ColumnValues(rows, column)));
      && |plan| == 2 * |u|
      && (forall v :: v in u <==> v != "" && exists i :: 0 <= i < |rows| && Cell(rows[i], column) == v)
      && (forall k, l :: 0 <= k < l < |u| ==> u[k] != u[l])
      && forall k :: 0 <= k < |u| ==>
        && plan[2 * k].FlowRate? && plan[2 * k].pipette == P300
        && plan[2 * k + 1].Distribute? && plan[2 * k + 1].pipette == P300
        && plan[2 * k + 1].volume == Volume(vols, column)
        && plan[2 * k + 1].source == Located(names, u[k])
        && plan[2 * k + 1].dests == NameWells(names, rows, RowsCarrying(rows, column, u[k]))
  {
    var cv := ColumnValues(rows, column);
    var u := Filled(Unique(cv));
    var plan := GroupPlan(names, rows, vols, column, Unique(cv));
    UniqueSpec(cv);
    FilledSpec(Unique(cv));
    ColumnValuesMembers(rows, column);
    GroupPlanShape(names, rows, vols, column, Unique(cv));
    forall k | 0 <= k < |u|
      ensures && plan[2 * k].FlowRate? && plan[2 * k].pipette == P300
              && plan[2 * k + 1].Distribute? && plan[2 * k + 1].pipette == P300
              && plan[2 * k + 1].volume == Volume(vols, column)
              && plan[2 * k + 1].source == Located(names, u[k])
              && plan[2 * k + 1].dests == NameWells(names, rows, RowsCarrying(rows, column, u[k]))
    {
      var step := GroupStep(names, rows, vols, column, u[k]);
      assert plan[2 * k] == step[0] && plan[2 * k + 1] == step[1];
    }
  }

  lemma ColumnValuesMembers(rows: seq<map<string, string>>, column: string)
    ensures forall v :: v in ColumnValues(rows, column) <==> exists i :: 0 <= i < |rows| && Cell(rows[i], column) == v
  {
    var cv := ColumnValues(rows, column);
    forall v
      ensures v in cv <==> exists i :: 0 <= i < |rows| && Cell(rows[i], column) == v
    {
      if v in cv {
        var i :| 0 <= i < |cv| && cv[i] == v;
        assert Cell(rows[i], column) == v;
      }
    }
  }

  /** The columns at which a row issues a transfer: every column other than
      Name whose cell is not empty, in column order. */
  function Active(cols: seq<string>, row: map<string, string>): seq<string>
  {
    if cols == [] then []
    else
      var c := cols[|cols| - 1];
      Active(cols[..|cols| - 1], row) + (if c != "Name" && Cell(row, c) != "" then [c] else [])
  }

  /** The j-th column's transfer sits in `plan` after the transfers of the
      active columns before it: a flow-rate change to 1 µL/s, then the p20
      transfer of the column's volume from the cell's well to the row's Name
      well once the Name column has been passed, and before that to the
      destination carried in. */
  predicate TransferAt(plan: seq<Command>, names: map<string, Well>, vols: map<string, int>, cols: seq<string>,
                       row: map<string, string>, dest: seq<Well>, j: int)
    requires 0 <= j < |cols|
  {
    var k := 2 * |Active(cols[..j], row)|;
    && k + 1 < |plan|
    && plan[k] == FlowRate(P20, Rates(1, 1, 1))
    && plan[k + 1] == Transfer(P20, Volume(vols, cols[j]), Located(names, Cell(row, cols[j])),
                               if "Name" in cols[..j] then [Located(names, Cell(row, "Name"))] else dest, false)
  }

  lemma TransferAtExtend(plan: seq<Command>, plan': seq<Command>, names: map<string, Well>, vols: map<string, int>,
                         cols: seq<string>, row: map<string, string>, dest: seq<Well>, j: int)
    requires 0 <= j < |cols| - 1
    requires TransferAt(plan', names, vols, cols[..|cols| - 1], row, dest, j)
    requires |plan'| <= |plan| && plan[..|plan'|] == plan'
    ensures TransferAt(plan, names, vols, cols, row, dest, j)
  {
    assert cols[..j] == cols[..|cols| - 1][..j];
    var k := 2 * |Active(cols[..j], row)|;
    assert plan[k] == plan'[k] && plan[k + 1] == plan'[k + 1];
  }

  /** In the row phase a Name cell or an empty cell issues nothing, and every
      other cell issues exactly one p20 transfer (with a new tip, the
      library's default), placed as TransferAt says. */
  lemma {:induction false} CellsPlanTransfers(names: map<string, Well>, vols: map<string, int>, cols: seq<string>,
                                              row: map<string, string>, dest: seq<Well>)
    ensures |CellsPlan(names, vols, cols, row, dest).0| == 2 * |Active(cols, row)|
    ensures forall j :: 0 <= j < |cols| && cols[j] != "Name" && Cell(row, cols[j]) != "" ==>
      TransferAt(CellsPlan(names, vols, cols, row, dest).0, names, vols, cols, row, dest, j)
  {
    if cols != [] {
      var pre := cols[..|cols| - 1];
      var c := cols[|cols| - 1];
      CellsPlanTransfers(names, vols, pre, row, dest);
      var plan' := CellsPlan(names, vols, pre, row, dest);
      assert CellsPlan(names, vols, cols, row, dest).0 == plan'.0 + CellPlan(names, vols, c, row, plan'.1);
      CellsTransfersExtend(plan'.0, names, vols, pre, cols, row, dest, plan'.1);
    }
  }

  /** The transfers of the columns before the last, followed by what the last
      column issues, are placed as TransferAt says for every column. */
  lemma CellsTransfersExtend(plan': seq<Command>, names: map<string, Well>, vols: map<string, int>, pre: seq<string>,
                             cols: seq<string>, row: map<string, string>, dest: seq<Well>, d: seq<Well>)
    requires cols != [] && pre == cols[..|cols| - 1]
    requires d == if "Name" in pre then [Located(names, Cell(row, "Name"))] else dest
    requires |plan'| == 2 * |Active(pre, row)|
    requires forall j :: 0 <= j < |pre| && pre[j] != "Name" && Cell(row, pre[j]) != "" ==>
      TransferAt(plan', names, vols, pre, row, dest, j)
    ensures var plan := plan' + CellPlan(names, vols, cols[|cols| - 1], row, d);
      && |plan| == 2 * |Active(cols, row)|
      && forall j :: 0 <= j < |cols| && cols[j] != "Name" && Cell(row, cols[j]) != "" ==>
           TransferAt(plan, names, vols, cols, row, dest, j)
  {
    var plan := plan' + CellPlan(names, vols, cols[|cols| - 1], row, d);
    assert plan[..|plan'|] == plan';
    forall j | 0 <= j < |cols| && cols[j] != "Name" && Cell(row, cols[j]) != ""
      ensures TransferAt(plan, names, vols, cols, row, dest, j)
    {
      if j < |pre| {
        assert pre[j] == cols[j];
        TransferAtExtend(plan, plan', names, vols, cols, row, dest, j);
      } else {
        assert cols[..j] == pre;
      }
    }
  }

  /** After a row the destination is that row's Name well; with no rows it is
      the destination carried in. */
  lemma {:induction false} RowsPlanDest(names: map<string, Well>, vols: map<string, int>, cols: seq<string>,
                                        rows: seq<map<string, string>>, dest: seq<Well>, mix: (int, int))
    requires "Name" in cols
    ensures RowsPlan(names, vols, cols, rows, dest, mix).1
      == if rows == [] then dest else [Located(names, Cell(rows[|rows| - 1], "Name"))]
  {
  }

  /** With the Name column after a material column, the material of every
      row after the first goes to the previous row's Name well: the
      destination is carried over from the row before. */
  lemma CarriedToPreviousRow(names: map<string, Well>, vols: map<string, int>, cols: seq<string>,
                             rows: seq<map<string, string>>, dest: seq<Well>, mix: (int, int), i: int, j: int)
    requires 0 < i < |rows| && 0 <= j < |cols|
    requires "Name" in cols && "Name" !in cols[..j]
    requires cols[j] != "Name" && Cell(rows[i], cols[j]) != ""
    ensures var plan := CellsPlan(names, vols, cols, rows[i], [Located(names, Cell(rows[i - 1], "Name"))]).0;
      var k := 2 * |Active(cols[..j], rows[i])| + 1;
      k < |plan| && plan[k] == Transfer(P20, Volume(vols, cols[j]), Located(names, Cell(rows[i], cols[j])),
                                        [Located(names, Cell(rows[i - 1], "Name"))], false)
    ensures RowsPlan(names, vols, cols, rows[..i], dest, mix).1 == [Located(names, Cell(rows[i - 1], "Name"))]
  {
    CarriedDest(names, vols, cols, rows, dest, mix, i);
    CellTransferBeforeName(names, vols, cols, rows[i], [Located(names, Cell(rows[i - 1], "Name"))], j);
  }

  /** After the rows before `i`, the destination is the Name well of row `i - 1`. */
  lemma CarriedDest(names: map<string, Well>, vols: map<string, int>, cols: seq<string>,
                    rows: seq<map<string, string>>, dest: seq<Well>, mix: (int, int), i: int)
    requires 0 < i < |rows| && "Name" in cols
    ensures RowsPlan(names, vols, cols, rows[..i], dest, mix).1 == [Located(names, Cell(rows[i - 1], "Name"))]
  {
    RowsPlanDest(names, vols, cols, rows[..i], dest, mix);
    assert rows[..i][i - 1] == rows[i - 1];
  }

  /** A cell before the Name column is transferred to the destination the
      row starts with. */
  lemma CellTransferBeforeName(names: map<string, Well>, vols: map<string, int>, cols: seq<string>,
                               row: map<string, string>, dest: seq<Well>, j: int)
    requires 0 <= j < |cols| && cols[j] != "Name" && Cell(row, cols[j]) != "" && "Name" !in cols[..j]
    ensures var plan := CellsPlan(names, vols, cols, row, dest).0;
      var k := 2 * |Active(cols[..j], row)| + 1;
      k < |plan| && plan[k] == Transfer(P20, Volume(vols, cols[j]), Located(names, Cell(row, cols[j])), dest, false)
  {
    CellTransfer(names, vols, cols, row, dest, j);
    TransferBeforeName(CellsPlan(names, vols, cols, row, dest).0, names, vols, cols, row, dest, j);
  }

  lemma TransferBeforeName(plan: seq<Command>, names: map<string, Well>, vols: map<string, int>, cols: seq<string>,
                           row: map<string, string>, dest: seq<Well>, j: int)
    requires 0 <= j < |cols| && "Name" !in cols[..j] && TransferAt(plan, names, vols, cols, row, dest, j)
    ensures var k := 2 * |Active(cols[..j], row)| + 1;
      k < |plan| && plan[k] == Transfer(P20, Volume(vols, cols[j]), Located(names, Cell(row, cols[j])), dest, false)
  {
  }

  /** The transfer of one active cell, as CellsPlanTransfers places it. */
  lemma CellTransfer(names: map<string, Well>, vols: map<string, int>, cols: seq<string>,
                     row: map<string, string>, dest: seq<Well>, j: int)
    requires 0 <= j < |cols| && cols[j] != "Name" && Cell(row, cols[j]) != ""
    ensures TransferAt(CellsPlan(names, vols, cols, row, dest).0, names, vols, cols, row, dest, j)
  {
    CellsPlanTransfers(names, vols, cols, row, dest);
  }

  lemma {:induction false} MixPairsSpec(n: int, volume: int, at: Well)
    decreases n
    ensures forall i :: 0 <= i < n ==>
      MixPairs(P20, n, volume, at)[2 * i] == Aspirate(P20, volume, at) && MixPairs(P20, n, volume, at)[2 * i + 1] == Dispense(P20, volume, at)
  {
    if n > 0 {
      MixPairsSpec(n - 1, volume, at);
      assert MixPairs(P20, n, volume, at)[..2 * (n - 1)] == MixPairs(P20, n - 1, volume, at);
    }
  }

  /** A row's mix, issued exactly when `sum(mix_last)` is not zero: one tip
      pick-up, then `mix_last[0]` aspirate/dispense pairs of `mix_last[1]` at
      the product well, then one drop. */
  lemma MixPlanShape(mix: (int, int), at: Well)
    ensures MixPlan(mix, at) == [] <==> mix.0 + mix.1 == 0
    ensures mix.0 + mix.1 != 0 ==>
      var p := MixPlan(mix, at);
      var n := if mix.0 < 0 then 0 else mix.0;
      && |p| == 2 * n + 3
      && p[1] == PickUpTip(P20) && p[|p| - 1] == DropTip(P20)
      && forall i :: 0 <= i < n ==> p[2 + 2 * i] == Aspirate(P20, mix.1, at) && p[3 + 2 * i] == Dispense(P20, mix.1, at)
  {
    if mix.0 + mix.1 != 0 {
      MixPairsSpec(mix.0, mix.1, at);
      var p := MixPlan(mix, at);
      assert p[2..|p| - 1] == MixPairs(P20, mix.0, mix.1, at);
    }
  }

  // Spotting

  /** How many spots one aspiration of `a` makes: the inner loop dispenses
      a spot while more than a spot is held. */
  function RoundSpots(a: int, s: int): (k: nat)
    requires 0 < s
    decreases a
    ensures a <= s ==> k == 0
    ensures s < a ==> 1 <= k && 0 < a - s * k <= s
  {
    if a <= s then 0 else 1 + RoundSpots(a - s, s)
  }

  /** A positive multiple of a positive spot volume is at least one spot. */
  lemma PositiveFactor(s: int, x: int)
    requires 0 < s
    ensures 0 < s * x ==> 0 < x
    ensures s * x < s ==> x < 1
  {
    if x <= 0 {
      assert s * x <= 0;
    }
  }

  /** A round that keeps some liquid after `k` spots had more than `k`
      spots' worth less the disposal volume to draw on, so `k` spots fit in
      the `m` destinations left. */
  lemma SpotsFit(s: int, m: int, k: int, a: int)
    requires UL <= s && 0 < a - s * k && a <= s * m + UL
    ensures k <= m
  {
    MulSub(s, m + 1, k);
    MulSub(s, m + 1, 1);
    PositiveFactor(s, m + 1 - k);
  }

  /** `k` spots from `dest[from]` on: a dispense of the spot volume, then a
      move down into the well. */
  function SpotPairs(name: string, dest: seq<Well>, s: int, from: nat, k: nat): seq<Command>
    requires from + k <= |dest|
  {
    if k == 0 then []
    else SpotPairs(name, dest, s, from, k - 1) + [Dispense(name, s, dest[from + k - 1]), MoveTo(name, dest[from + k - 1])]
  }

  /** The volume a round aspirates: what is left, at most the capacity. */
  function RoundVolume(maxV: int, whole: int): int
  {
    if maxV < whole then maxV else whole
  }

  /** What `whole_vol` holds once `cnt` of the spots into `n` wells are done,
      with the 1 µL disposal volume on top. */
  function Left(s: int, n: int, cnt: int): int
  {
    s * (n - cnt) + UL
  }

  /** One round of `spotting_dispense` from `cnt` spots done, the tip empty:
      it aspirates what is left, at most the capacity, spots until no more
      than a spot is held, and blows the rest out into the trash. */
  function SpotRoundPlan(name: string, maxV: int, src: Well, dest: seq<Well>, s: int, cnt: nat): seq<Command>
    requires UL <= s < maxV && cnt <= |dest| && s < Left(s, |dest|, cnt)
  {
    var a := RoundVolume(maxV, Left(s, |dest|, cnt));
    SpotsFit(s, |dest| - cnt, RoundSpots(a, s), a);
    [Aspirate(name, a, src)] + SpotPairs(name, dest, s, cnt, RoundSpots(a, s)) + [BlowOut(name, TrashWell)]
  }

  /** The rounds of `spotting_dispense` from `cnt` spots done until no more
      than a spot is left to aspirate. */
  function SpotRounds(name: string, maxV: int, src: Well, dest: seq<Well>, s: int, cnt: nat): seq<Command>
    requires UL <= s < maxV && cnt <= |dest|
    decreases |dest| - cnt
  {
    if Left(s, |dest|, cnt) <= s then []
    else
      var k := RoundSpots(RoundVolume(maxV, Left(s, |dest|, cnt)), s);
      SpotsFit(s, |dest| - cnt, k, RoundVolume(maxV, Left(s, |dest|, cnt)));
      SpotRoundPlan(name, maxV, src, dest, s, cnt) + SpotRounds(name, maxV, src, dest, s, cnt + k)
  }

  lemma RoundTrace(log: seq<Command>, first: Command, middle: seq<Command>, last: Command, rest: seq<Command>)
    ensures log + [first] + middle + [last] + rest == log + ([first] + middle + [last] + rest)
  {
  }

  /** `spotting_dispense(pipette, src, dest, spotting_volume)`, with a 1 µL
      disposal volume: picks up a tip unless one is held, then aspirates and
      spots round by round. */
  method SpottingDispense(p: Pipette, src: Well, dest: seq<Well>, s: int, log: Log)
    requires p.Valid() && p.currentVolume == 0
    requires UL <= s < p.maxVolume
    modifies p, log
    ensures p.Valid() && p.hasTip && p.currentVolume == 0 && p.rates == old(p.rates)
    ensures log.entries == old(log.entries) + (if old(p.hasTip) then [] else [PickUpTip(p.name)])
      + SpotRounds(p.name, p.maxVolume, src, dest, s, 0)
  {
    ghost var pick := if p.hasTip then [] else [PickUpTip(p.name)];
    if !p.hasTip {
      p.PickUpTip(log);
    } else {
      assert log.entries == old(log.entries) + [];
    }
    ghost var log1 := log.entries;
    assert log1 == old(log.entries) + pick;
    ghost var total := SpotRounds(p.name, p.maxVolume, src, dest, s, 0);
    var wholeVol := s * |dest| + UL;
    var cnt := 0;
    while wholeVol > s
      invariant 0 <= cnt <= |dest| && wholeVol == Left(s, |dest|, cnt)
      invariant p.Valid() && p.hasTip && p.currentVolume == 0 && p.rates == old(p.rates)
      invariant log1 + total == log.entries + SpotRounds(p.name, p.maxVolume, src, dest, s, cnt)
      decreases |dest| - cnt
    {
      ghost var logR := log.entries;
      ghost var cnt0 := cnt;
      var a := if p.maxVolume < wholeVol then p.maxVolume else wholeVol;
      p.Aspirate(a, src, log);
      cnt, wholeVol := SpotRound(p, dest, s, cnt, wholeVol, log);
      p.BlowOut(TrashWell, log);
      ghost var rest := SpotRounds(p.name, p.maxVolume, src, dest, s, cnt);
      SpotRoundsUnfold(p.name, p.maxVolume, src, dest, s, cnt0);
      RoundTrace(logR, Aspirate(p.name, a, src), SpotPairs(p.name, dest, s, cnt0, RoundSpots(a, s)), BlowOut(p.name, TrashWell), rest);
    }
    assert log1 + total == log.entries + [];
  }

  /** The inner loop of `spotting_dispense`: while more than a spot is held,
      spot `dest[cnt]` and move down into it. */
  method SpotRound(p: Pipette, dest: seq<Well>, s: int, cnt0: nat, whole0: int, log: Log) returns (cnt: nat, wholeVol: int)
    requires p.Valid() && p.hasTip && UL <= s < p.currentVolume <= whole0
    requires cnt0 <= |dest| && whole0 == Left(s, |dest|, cnt0)
    modifies p, log
    ensures cnt == cnt0 + RoundSpots(old(p.currentVolume), s) && cnt <= |dest|
    ensures wholeVol == Left(s, |dest|, cnt)
    ensures p.Valid() && p.hasTip && p.rates == old(p.rates)
    ensures log.entries == old(log.entries) + SpotPairs(p.name, dest, s, cnt0, RoundSpots(old(p.currentVolume), s))
  {
    cnt, wholeVol := cnt0, whole0;
    ghost var a := p.currentVolume;
    ghost var log0 := log.entries;
    while p.currentVolume > s
      invariant cnt0 <= cnt <= |dest| && wholeVol == Left(s, |dest|, cnt)
      invariant 0 < p.currentVolume <= wholeVol
      invariant RoundSpots(a, s) == cnt - cnt0 + RoundSpots(p.currentVolume, s)
      invariant log.entries == log0 + SpotPairs(p.name, dest, s, cnt0, cnt - cnt0)
      invariant p.Valid() && p.hasTip && p.rates == old(p.rates)
      decreases p.currentVolume
    {
      PositiveFactor(s, |dest| - cnt);
      MulSub(s, |dest| - cnt, 1);
      p.Dispense(s, dest[cnt], log);
      p.MoveTo(dest[cnt], log);
      AppendAssoc(log0, SpotPairs(p.name, dest, s, cnt0, cnt - cnt0), [Dispense(p.name, s, dest[cnt]), MoveTo(p.name, dest[cnt])]);
      cnt := cnt + 1;
      wholeVol := wholeVol - s;
    }
  }

  lemma MulSub(s: int, m: int, k: int)
    ensures s * (m - k) == s * m - s * k
  {
  }

  /** Every aspirate of `cmds` is more than a spot and at most the
      capacity, and every dispense is one spot. */
  predicate SpotVolumes(cmds: seq<Command>, s: int, maxV: int)
  {
    forall i :: 0 <= i < |cmds| ==>
      (cmds[i].Aspirate? ==> s < cmds[i].volume <= maxV) && (cmds[i].Dispense? ==> cmds[i].volume == s)
  }

  lemma SpotVolumesAppend(a: seq<Command>, b: seq<Command>, s: int, maxV: int)
    requires SpotVolumes(a, s, maxV) && SpotVolumes(b, s, maxV)
    ensures SpotVolumes(a + b, s, maxV)
  {
    assert forall i :: |a| <= i < |a + b| ==> (a + b)[i] == b[i - |a|];
  }

  lemma {:induction false} SpotPairsSpec(name: string, dest: seq<Well>, s: int, maxV: int, from: nat, k: nat)
    requires from + k <= |dest|
    ensures Dispensed(SpotPairs(name, dest, s, from, k)) == dest[from..from + k]
    ensures SpotVolumes(SpotPairs(name, dest, s, from, k), s, maxV)
  {
    if k > 0 {
      var w := dest[from + k - 1];
      SpotPairsSpec(name, dest, s, maxV, from, k - 1);
      DispensedAppend(SpotPairs(name, dest, s, from, k - 1), [Dispense(name, s, w), MoveTo(name, w)]);
      assert [Dispense(name, s, w), MoveTo(name, w)][..1] == [Dispense(name, s, w)];
      assert Dispensed([Dispense(name, s, w)]) == [w];
      SpotVolumesAppend(SpotPairs(name, dest, s, from, k - 1), [Dispense(name, s, w), MoveTo(name, w)], s, maxV);
      assert dest[from..from + k] == dest[from..from + k - 1] + [w];
    }
  }

  lemma SpotRoundPlanSpec(name: string, maxV: int, src: Well, dest: seq<Well>, s: int, cnt: nat)
    requires UL <= s < maxV && cnt <= |dest| && s < Left(s, |dest|, cnt)
    ensures cnt + RoundSpots(RoundVolume(maxV, Left(s, |dest|, cnt)), s) <= |dest|
    ensures Dispensed(SpotRoundPlan(name, maxV, src, dest, s, cnt))
      == dest[cnt..cnt + RoundSpots(RoundVolume(maxV, Left(s, |dest|, cnt)), s)]
    ensures SpotVolumes(SpotRoundPlan(name, maxV, src, dest, s, cnt), s, maxV)
  {
    var a := RoundVolume(maxV, Left(s, |dest|, cnt));
    var k := RoundSpots(a, s);
    SpotsFit(s, |dest| - cnt, k, a);
    var pairs := SpotPairs(name, dest, s, cnt, k);
    SpotPairsSpec(name, dest, s, maxV, cnt, k);
    DispensedAppend([Aspirate(name, a, src)], pairs);
    DispensedAppend([Aspirate(name, a, src)] + pairs, [BlowOut(name, TrashWell)]);
    assert Dispensed([Aspirate(name, a, src)]) == [];
    assert Dispensed([BlowOut(name, TrashWell)]) == [];
    SpotVolumesAppend([Aspirate(name, a, src)], pairs, s, maxV);
    SpotVolumesAppend([Aspirate(name, a, src)] + pairs, [BlowOut(name, TrashWell)], s, maxV);
  }

  /** The rounds from `cnt` spots done dispense into each remaining
      destination once, in order: `spotting_dispense` ends after exactly
      `len(dest)` spots, `cnt` never passing `len(dest)`. */
  lemma {:induction false} SpotRoundsDispensed(name: string, maxV: int, src: Well, dest: seq<Well>, s: int, cnt: nat)
    requires UL <= s < maxV && cnt <= |dest|
    decreases |dest| - cnt
    ensures Dispensed(SpotRounds(name, maxV, src, dest, s, cnt)) == dest[cnt..]
  {
    if Left(s, |dest|, cnt) <= s {
      PositiveFactor(s, |dest| - cnt);
      assert cnt == |dest|;
      assert Dispensed([]) == dest[cnt..];
    } else {
      var k := SpotRoundStep(name, maxV, src, dest, s, cnt);
      SpotRoundsDispensed(name, maxV, src, dest, s, cnt + k);
      DispensedSplit(SpotRounds(name, maxV, src, dest, s, cnt), SpotRoundPlan(name, maxV, src, dest, s, cnt),
                     SpotRounds(name, maxV, src, dest, s, cnt + k), dest, cnt, k);
    }
  }

  /** A round from `cnt` spots the next `k` destinations, at least one,
      and the rounds after it start from `cnt + k`. */
  lemma SpotRoundStep(name: string, maxV: int, src: Well, dest: seq<Well>, s: int, cnt: nat) returns (k: nat)
    requires UL <= s < maxV && cnt <= |dest| && s < Left(s, |dest|, cnt)
    ensures 0 < k && cnt + k <= |dest|
    ensures SpotRounds(name, maxV, src, dest, s, cnt)
      == SpotRoundPlan(name, maxV, src, dest, s, cnt) + SpotRounds(name, maxV, src, dest, s, cnt + k)
    ensures Dispensed(SpotRoundPlan(name, maxV, src, dest, s, cnt)) == dest[cnt..cnt + k]
  {
    k := RoundSpots(RoundVolume(maxV, Left(s, |dest|, cnt)), s);
    SpotRoundsUnfold(name, maxV, src, dest, s, cnt);
    SpotRoundPlanSpec(name, maxV, src, dest, s, cnt);
  }

  /** A plan that serves the next `k` destinations from `cnt`, followed by
      one that serves all the rest, serves every destination from `cnt`. */
  lemma DispensedSplit(whole: seq<Command>, plan: seq<Command>, rest: seq<Command>, dest: seq<Well>, cnt: nat, k: nat)
    requires whole == plan + rest && cnt + k <= |dest|
    requires Dispensed(plan) == dest[cnt..cnt + k] && Dispensed(rest) == dest[cnt + k..]
    ensures Dispensed(whole) == dest[cnt..]
  {
    DispensedAppend(plan, rest);
    SplitTail(dest, cnt, cnt + k);
  }

  /** Every spot is `spotting_volume` and no aspirate exceeds the
      pipette's capacity. */
  lemma {:induction false} SpotRoundsVolumes(name: string, maxV: int, src: Well, dest: seq<Well>, s: int, cnt: nat)
    requires UL <= s < maxV && cnt <= |dest|
    decreases |dest| - cnt
    ensures SpotVolumes(SpotRounds(name, maxV, src, dest, s, cnt), s, maxV)
  {
    if s < Left(s, |dest|, cnt) {
      var k := RoundSpots(RoundVolume(maxV, Left(s, |dest|, cnt)), s);
      SpotRoundPlanSpec(name, maxV, src, dest, s, cnt);
      SpotRoundsVolumes(name, maxV, src, dest, s, cnt + k);
      SpotRoundsUnfold(name, maxV, src, dest, s, cnt);
      SpotVolumesAppend(SpotRoundPlan(name, maxV, src, dest, s, cnt), SpotRounds(name, maxV, src, dest, s, cnt + k), s, maxV);
    }
  }

  lemma SpotRoundsUnfold(name: string, maxV: int, src: Well, dest: seq<Well>, s: int, cnt: nat)
    requires UL <= s < maxV && cnt <= |dest| && s < Left(s, |dest|, cnt)
    ensures cnt + RoundSpots(RoundVolume(maxV, Left(s, |dest|, cnt)), s) <= |dest|
    ensures SpotRounds(name, maxV, src, dest, s, cnt)
      == SpotRoundPlan(name, maxV, src, dest, s, cnt)
        + SpotRounds(name, maxV, src, dest, s, cnt + RoundSpots(RoundVolume(maxV, Left(s, |dest|, cnt)), s))
  {
    SpotsFit(s, |dest| - cnt, RoundSpots(RoundVolume(maxV, Left(s, |dest|, cnt)), s), RoundVolume(maxV, Left(s, |dest|, cnt)));
  }
}
