/** The cloning protocol of data/ot2/protocols/cloning/ot2_cloning.py: the
    typed material lookup, the transfer plan of a reaction table (columns
    typed by their name with the digits taken out), spotting with an air
    gap, and the gates of `run` that decide which stages happen. */
module Cloning {
  import opened Robot
  import opened Params
  import V2 = ProtocolV2
  import Run = ProtocolV2Run

  // ---------------------------------------------------------------------
  // find_materials_well(material, type, right_well)

  /** Entry `j` of plate `i` is the first one, over the plates whose type is
      not "TF" in order and then in the plate's own order, whose content is
      `material`. */
  ghost predicate FirstDnaMatch(plates: seq<Plate>, material: string, i: int, j: int)
  {
    && 0 <= i < |plates| && plates[i].kind != "TF" && 0 <= j < |plates[i].data|
    && plates[i].data[j].1 == material
    && (forall j' :: 0 <= j' < j ==> plates[i].data[j'].1 != material)
    && (forall i', j' :: 0 <= i' < i && plates[i'].kind != "TF" && 0 <= j' < |plates[i'].data| ==>
          plates[i'].data[j'].1 != material)
  }

  /** The search of type "DNA": the first well holding `material` on a plate
      whose type is not "TF" (or the well eight places later with `right`);
      NotFound when no such plate holds it. TF plates are never searched. */
  function SearchDnaPlates(plates: seq<Plate>, material: string, right: bool): (r: Lookup)
    ensures r.NotFound? <==>
      forall i, j :: 0 <= i < |plates| && plates[i].kind != "TF" && 0 <= j < |plates[i].data| ==>
        plates[i].data[j].1 != material
    ensures !r.NotFound? ==>
      exists i, j :: FirstDnaMatch(plates, material, i, j) && r == WellOf(plates[i], plates[i].data[j].0, right)
  {
    if plates == [] then NotFound
    else
      var rest := SearchDnaPlates(plates[1..], material, right);
      var first := if plates[0].kind == "TF" then None else FirstEntry(plates[0].data, material);
      match first
      case Some(j) =>
        assert FirstDnaMatch(plates, material, 0, j);
        WellOf(plates[0], plates[0].data[j].0, right)
      case None =>
        NoDnaMatchInFirst(plates, material);
        if rest.NotFound? then rest
        else
          ghost var i, j :| FirstDnaMatch(plates[1..], material, i, j)
            && rest == WellOf(plates[1..][i], plates[1..][i].data[j].0, right);
          FirstDnaMatchShift(plates, material, i, j);
          rest
  }

  /** With nothing to find on the first plate, the plates hold `material`
      exactly where the plates after it do. */
  lemma NoDnaMatchInFirst(plates: seq<Plate>, material: string)
    requires plates != []
    requires plates[0].kind == "TF" || forall j :: 0 <= j < |plates[0].data| ==> plates[0].data[j].1 != material
    ensures (forall i, j :: 0 <= i < |plates| && plates[i].kind != "TF" && 0 <= j < |plates[i].data| ==>
               plates[i].data[j].1 != material)
      <==> (forall i, j :: 0 <= i < |plates[1..]| && plates[1..][i].kind != "TF" && 0 <= j < |plates[1..][i].data| ==>
               plates[1..][i].data[j].1 != material)
  {
    assert forall i :: 1 <= i < |plates| ==> plates[i] == plates[1..][i - 1];
  }

  /** With nothing to find on the first plate, the first match after it
      is the first match of all. */
  lemma FirstDnaMatchShift(plates: seq<Plate>, material: string, i: int, j: int)
    requires plates != []
    requires plates[0].kind == "TF" || forall j :: 0 <= j < |plates[0].data| ==> plates[0].data[j].1 != material
    requires FirstDnaMatch(plates[1..], material, i, j)
    ensures FirstDnaMatch(plates, material, i + 1, j) && plates[i + 1] == plates[1..][i]
  {
    assert forall i :: 1 <= i < |plates| ==> plates[i] == plates[1..][i - 1];
  }

  /** `find_materials_well(material, type, right_well)`: type "DNA" searches
      the plates; a DNA name no plate holds falls through to the type tests
      below, which it fails. Types "Enzyme" and "DW" index the enzyme
      positions (a missing name raises KeyError); any other type gives None. */
  function FindMaterialsWell(deck: Deck, material: string, kind: string, right: bool): Lookup
  {
    var dna := if kind == "DNA" then SearchDnaPlates(deck.plates, material, right) else NotFound;
    if !dna.NotFound? then dna
    else if kind == "Enzyme" || kind == "DW" then
      if material in deck.enzymes then Found(deck.enzymes[material]) else Raised(KeyError)
    else NotFound
  }

  /** Types "Enzyme" and "DW" look a name up in the same table, without
      regard to the plates or `right_well`; every type other than these and
      "DNA" gives None. */
  lemma EnzymeAndDwSharePositions(d1: Deck, d2: Deck, material: string, kind: string, right1: bool, right2: bool)
    requires d1.enzymes == d2.enzymes
    ensures FindMaterialsWell(d1, material, "Enzyme", right1) == FindMaterialsWell(d2, material, "DW", right2)
    ensures FindMaterialsWell(d1, material, "DW", right1)
      == if material in d1.enzymes then Found(d1.enzymes[material]) else Raised(KeyError)
    ensures kind != "DNA" && kind != "Enzyme" && kind != "DW" ==> FindMaterialsWell(d1, material, kind, right1) == NotFound
  {
  }

  /** A DNA name found is on a plate whose type is not "TF", so changing
      what the TF plates hold never changes where DNA is found. */
  lemma {:induction false} DnaIgnoresTFPlates(plates: seq<Plate>, plates': seq<Plate>, material: string, right: bool)
    requires |plates| == |plates'|
    requires forall i :: 0 <= i < |plates| ==> plates[i].kind == plates'[i].kind
    requires forall i :: 0 <= i < |plates| && plates[i].kind != "TF" ==> plates[i] == plates'[i]
    ensures SearchDnaPlates(plates, material, right) == SearchDnaPlates(plates', material, right)
  {
    if plates != [] {
      DnaIgnoresTFPlates(plates[1..], plates'[1..], material, right);
    }
  }

  // ---------------------------------------------------------------------
  // Column types

  /** `re.sub(r"[0-9]+", "", sample_type) == "Enzyme"`: a row-phase transfer
      touches the tip exactly for the enzyme columns. */
  predicate TouchTip(column: string)
  {
    StripDigits(column) == "Enzyme"
  }

  /** A column named by a type and a number is looked up as that type, and
      touches the tip exactly when the type is "Enzyme": "Enzyme2" does,
      "DNA3" and "DW" do not. */
  lemma ColumnType(kind: string, number: string)
    requires forall i :: 0 <= i < |kind| ==> !IsDigit(kind[i])
    requires forall i :: 0 <= i < |number| ==> IsDigit(number[i])
    ensures StripDigits(kind + number) == kind
    ensures TouchTip(kind + number) <==> kind == "Enzyme"
  {
    StripTrailingNumber(kind, number);
  }

  // ---------------------------------------------------------------------
  // The plan of transfer_materials

  /** The type a grouped column's values are looked up as. */
  function GroupKind(column: string): string
  {
    if column == "DW" then "DW" else "Enzyme"
  }

  /** The grouped distribute for value `v` of column DW or Enzyme1, after
      the flow-rate change that precedes it: DW without touching the tip or
      blowing out, Enzyme1 touching the tip, mixing first and blowing out. */
  function GroupStep(names: map<string, Well>, rows: seq<map<string, string>>, vols: map<string, int>,
                     column: string, v: string): seq<Command>
  {
    var dests := V2.NameWells(names, rows, RowsCarrying(rows, column, v));
    if column == "DW" then
      [FlowRate(V2.P300, Rates(50, 50, 20)),
       Distribute(V2.P300, V2.Volume(vols, column), V2.Located(names, v), dests, false, false, false)]
    else
      [FlowRate(V2.P300, Rates(20, 20, 20)),
       Distribute(V2.P300, V2.Volume(vols, column), V2.Located(names, v), dests, true, true, true)]
  }

  /** The distributes for the values `vs` of a column; empty values are skipped. */
  function GroupPlan(names: map<string, Well>, rows: seq<map<string, string>>, vols: map<string, int>,
                     column: string, vs: seq<string>): seq<Command>
  {
    if vs == [] then []
    else
      var v := vs[|vs| - 1];
      GroupPlan(names, rows, vols, column, vs[..|vs| - 1])
        + (if v == "" then [] else GroupStep(names, rows, vols, column, v))
  }

  /** `df.drop(columns=["Enzyme1", "DW"])`. */
  function Dropped(cols: seq<string>): seq<string>
  {
    if cols == [] then []
    else
      var c := cols[|cols| - 1];
      Dropped(cols[..|cols| - 1]) + (if c == "Enzyme1" || c == "DW" then [] else [c])
  }

  /** Dropping keeps every other column, in order. */
  lemma {:induction false} DroppedSpec(cols: seq<string>)
    ensures forall c :: c in Dropped(cols) <==> c in cols && c != "Enzyme1" && c != "DW"
  {
    if cols != [] {
      DroppedSpec(cols[..|cols| - 1]);
      assert forall x :: x in cols <==> x in cols[..|cols| - 1] || x == cols[|cols| - 1];
    }
  }

  /** The transfer of one non-empty material cell: flow rates to 1 µL/s,
      then a p20 transfer of the column's volume, touching the tip for
      enzyme columns. */
  function CellStep(names: map<string, Well>, vols: map<string, int>, c: string, row: map<string, string>,
                    dest: seq<Well>): seq<Command>
  {
    [FlowRate(V2.P20, Rates(1, 1, 1)),
     Transfer(V2.P20, V2.Volume(vols, c), V2.Located(names, Cell(row, c)), dest, TouchTip(c))]
  }

  /** The commands for the cells of one row, column by column, and the
      destination afterwards. A Name cell sets the destination; an empty cell
      does nothing; any other cell is one transfer to the destination in force. */
  function CellsPlan(names: map<string, Well>, vols: map<string, int>, cols: seq<string>, row: map<string, string>,
                     dest: seq<Well>): (r: (seq<Command>, seq<Well>))
    ensures r.1 == if "Name" in cols then [V2.Located(names, Cell(row, "Name"))] else dest
  {
    if cols == [] then ([], dest)
    else
      var c := cols[|cols| - 1];
      assert forall x :: x in cols <==> x in cols[..|cols| - 1] || x == c;
      var (cmds, d) := CellsPlan(names, vols, cols[..|cols| - 1], row, dest);
      if c == "Name" then (cmds, [V2.Located(names, Cell(row, "Name"))])
      else if Cell(row, c) == "" then (cmds, d)
      else (cmds + CellStep(names, vols, c, row, d), d)
  }

  /** The commands one column of a row adds: none for the Name column or an
      empty cell, one transfer to `dest` otherwise. */
  function CellPlan(names: map<string, Well>, vols: map<string, int>, c: string, row: map<string, string>,
                    dest: seq<Well>): seq<Command>
  {
    if c == "Name" || Cell(row, c) == "" then [] else CellStep(names, vols, c, row, dest)
  }

  /** One more column extends the plan of the columns before it. */
  lemma CellsPlanStep(names: map<string, Well>, vols: map<string, int>, cols: seq<string>, j: nat, row: map<string, string>,
                      dest: seq<Well>)
    requires j < |cols|
    ensures var prev := CellsPlan(names, vols, cols[..j], row, dest);
      CellsPlan(names, vols, cols[..j + 1], row, dest)
        == (prev.0 + CellPlan(names, vols, cols[j], row, prev.1),
            if cols[j] == "Name" then [V2.Located(names, Cell(row, "Name"))] else prev.1)
  {
    var pre := cols[..j + 1];
    assert pre[..|pre| - 1] == cols[..j] && pre[|pre| - 1] == cols[j];
    var prev := CellsPlan(names, vols, cols[..j], row, dest).0;
    assert prev + [] == prev;
  }

  /** A trace that ends with the plan of the columns before `j` ends, after
      column `j`'s commands, with the plan of the columns up to `j`. */
  lemma CellsPlanExtend(log0: seq<Command>, names: map<string, Well>, vols: map<string, int>, cols: seq<string>, j: nat,
                        row: map<string, string>, dest: seq<Well>)
    requires j < |cols|
    ensures var prev := CellsPlan(names, vols, cols[..j], row, dest);
      && log0 + prev.0 + CellPlan(names, vols, cols[j], row, prev.1) == log0 + CellsPlan(names, vols, cols[..j + 1], row, dest).0
      && CellsPlan(names, vols, cols[..j + 1], row, dest).1
         == if cols[j] == "Name" then [V2.Located(names, Cell(row, "Name"))] else prev.1
  {
    var prev := CellsPlan(names, vols, cols[..j], row, dest);
    CellsPlanStep(names, vols, cols, j, row, dest);
    V2.AppendAssoc(log0, prev.0, CellPlan(names, vols, cols[j], row, prev.1));
  }

  /** The mix that ends a row, issued when `sum(mix_last)` is not zero. */
  function MixPlan(mix: (int, int), at: Well): seq<Command>
  {
    if mix.0 + mix.1 != 0 then
      [FlowRate(V2.P20, Rates(5, 10, 10)), PickUpTip(V2.P20)] + V2.MixPairs(V2.P20, mix.0, mix.1, at) + [DropTip(V2.P20)]
    else []
  }

  /** One row: the transfers of its cells, then the mix at its Name well. */
  function RowPlan(names: map<string, Well>, vols: map<string, int>, cols: seq<string>, row: map<string, string>,
                   dest: seq<Well>, mix: (int, int)): (r: (seq<Command>, seq<Well>))
  {
    var (cmds, d) := CellsPlan(names, vols, cols, row, dest);
    (cmds + MixPlan(mix, V2.Located(names, Cell(row, "Name"))), d)
  }

  /** The row phase over `rows`, with `dest` carried in from what came before. */
  function RowsPlan(names: map<string, Well>, vols: map<string, int>, cols: seq<string>, rows: seq<map<string, string>>,
                    dest: seq<Well>, mix: (int, int)): (r: (seq<Command>, seq<Well>))
  {
    if rows == [] then ([], dest)
    else
      var (cmds, d) := RowsPlan(names, vols, cols, rows[..|rows| - 1], dest, mix);
      var (step, d') := RowPlan(names, vols, cols, rows[|rows| - 1], d, mix);
      (cmds + step, d')
  }

  /** What `dest` holds when the row phase starts: the destination list of
      the last distribute, if any was issued. */
  function Carried(names: map<string, Well>, t: Table): Option<seq<Well>>
  {
    var enz := V2.LastDests(names, t.rows, "Enzyme1", Unique(ColumnValues(t.rows, "Enzyme1")));
    if enz.Some? then enz else V2.LastDests(names, t.rows, "DW", Unique(ColumnValues(t.rows, "DW")))
  }

  /** The whole plan of `transfer_materials`: the DW distributes, the
      Enzyme1 distributes, then the row phase. */
  function TransferPlan(names: map<string, Well>, t: Table, vols: map<string, int>, mix: (int, int)): seq<Command>
  {
    var dest := match Carried(names, t) case Some(ds) => ds case None => [];
    GroupPlan(names, t.rows, vols, "DW", Unique(ColumnValues(t.rows, "DW")))
      + GroupPlan(names, t.rows, vols, "Enzyme1", Unique(ColumnValues(t.rows, "Enzyme1")))
      + RowsPlan(names, vols, Dropped(t.columns), t.rows, dest, mix).0
  }

  // ---------------------------------------------------------------------
  // When transfer_materials runs without raising

  /** `names[v]` is where `v` is found when looked up as `kind`. */
  predicate Resolves(deck: Deck, names: map<string, Well>, v: string, kind: string)
  {
    v in names && FindMaterialsWell(deck, v, kind, false) == Found(names[v])
  }

  /** The well of `v` as the protocol finds it. */
  function TypedWell(deck: Deck, ghost names: map<string, Well>, v: string, kind: string): (w: Well)
    requires Resolves(deck, names, v, kind)
    ensures w == names[v]
  {
    FindMaterialsWell(deck, v, kind, false).well
  }

  /** The Name wells of the rows at `idx`, each found as DNA. */
  function NameWellsFor(deck: Deck, ghost names: map<string, Well>, rows: seq<map<string, string>>, idx: seq<nat>): (ws: seq<Well>)
    requires NamesResolve(deck, names, rows)
    requires forall k :: 0 <= k < |idx| ==> idx[k] < |rows|
    ensures ws == V2.NameWells(names, rows, idx)
  {
    seq(|idx|, k requires 0 <= k < |idx| => TypedWell(deck, names, Cell(rows[idx[k]], "Name"), "DNA"))
  }

  /** Every Name cell is found as DNA. */
  predicate NamesResolve(deck: Deck, names: map<string, Well>, rows: seq<map<string, string>>)
  {
    forall i :: 0 <= i < |rows| ==> Resolves(deck, names, Cell(rows[i], "Name"), "DNA")
  }

  /** Every non-empty value of a grouped column is found as its group type,
      and the column has a volume. */
  predicate ValuesReady(deck: Deck, names: map<string, Well>, vols: map<string, int>, column: string, vs: seq<string>)
  {
    forall k :: 0 <= k < |vs| && vs[k] != "" ==> Resolves(deck, names, vs[k], GroupKind(column)) && column in vols
  }

  /** Every non-empty cell of a row phase column is found as the column's
      type, and the column has a volume. */
  predicate RowReady(deck: Deck, names: map<string, Well>, vols: map<string, int>, cols: seq<string>, row: map<string, string>)
  {
    forall c :: c in cols && c != "Name" && Cell(row, c) != "" ==>
      Resolves(deck, names, Cell(row, c), StripDigits(c)) && c in vols
  }

  predicate RowsReady(deck: Deck, names: map<string, Well>, vols: map<string, int>, cols: seq<string>,
                      rows: seq<map<string, string>>)
  {
    && "Name" in cols && NamesResolve(deck, names, rows)
    && forall i :: 0 <= i < |rows| ==> RowReady(deck, names, vols, cols, rows[i])
  }

  /** The table has the Name, DW and Enzyme1 columns the protocol reads, and
      every lookup it makes finds a well. */
  predicate TableReady(deck: Deck, names: map<string, Well>, t: Table, vols: map<string, int>)
  {
    && "Name" in t.columns && "DW" in t.columns && "Enzyme1" in t.columns
    && NamesResolve(deck, names, t.rows)
    && ValuesReady(deck, names, vols, "DW", Unique(ColumnValues(t.rows, "DW")))
    && ValuesReady(deck, names, vols, "Enzyme1", Unique(ColumnValues(t.rows, "Enzyme1")))
    && forall i :: 0 <= i < |t.rows| ==> RowReady(deck, names, vols, Dropped(t.columns), t.rows[i])
  }

  /** Some row has a DW or Enzyme1 entry, so some distribute is issued. */
  predicate AnyDistribute(t: Table)
  {
    exists i :: 0 <= i < |t.rows| && (Cell(t.rows[i], "DW") != "" || Cell(t.rows[i], "Enzyme1") != "")
  }

  /** `dest` is bound whenever a transfer reads it: some distribute was
      issued, or the first row has no material before its Name cell. */
  predicate RowPhaseBound(t: Table)
  {
    var cols := Dropped(t.columns);
    || AnyDistribute(t) || |t.rows| == 0
    || forall j :: 0 <= j < |cols| && cols[j] != "Name" && Cell(t.rows[0], cols[j]) != "" ==> "Name" in cols[..j]
  }

  // ---------------------------------------------------------------------
  // transfer_materials

  /** The distribute for one value of a grouped column. */
  method DistributeValue(deck: Deck, ghost names: map<string, Well>, rows: seq<map<string, string>>,
                         vols: map<string, int>, column: string, v: string, p300: Pipette, log: Log)
    requires column == "DW" || column == "Enzyme1"
    requires NamesResolve(deck, names, rows) && Resolves(deck, names, v, GroupKind(column)) && column in vols
    requires p300.name == V2.P300
    modifies p300, log
    ensures log.entries == old(log.entries) + GroupStep(names, rows, vols, column, v)
    ensures p300.hasTip == old(p300.hasTip) && p300.currentVolume == old(p300.currentVolume)
  {
    var src := TypedWell(deck, names, v, GroupKind(column));
    var ds := NameWellsFor(deck, names, rows, RowsCarrying(rows, column, v));
    if column == "DW" {
      p300.SetFlowRate(Some(50), Some(50), Some(20), log);
      p300.Distribute(vols[column], src, ds, false, false, false, log);
    } else {
      p300.SetFlowRate(Some(20), Some(20), Some(20), log);
      p300.Distribute(vols[column], src, ds, true, true, true, log);
    }
  }

  /** One more value of a grouped column. */
  lemma GroupPlanStep(names: map<string, Well>, rows: seq<map<string, string>>, vols: map<string, int>,
                      column: string, vs: seq<string>, k: int)
    requires 0 <= k < |vs|
    ensures GroupPlan(names, rows, vols, column, vs[..k + 1]) ==
      if vs[k] == "" then GroupPlan(names, rows, vols, column, vs[..k])
      else GroupPlan(names, rows, vols, column, vs[..k]) + GroupStep(names, rows, vols, column, vs[k])
    ensures V2.LastDests(names, rows, column, vs[..k + 1]) ==
      if vs[k] == "" then V2.LastDests(names, rows, column, vs[..k])
      else Some(V2.NameWells(names, rows, RowsCarrying(rows, column, vs[k])))
  {
    assert vs[..k + 1][..k] == vs[..k];
    assert GroupPlan(names, rows, vols, column, vs[..k]) + [] == GroupPlan(names, rows, vols, column, vs[..k]);
  }

  /** One grouped phase: a distribute per distinct non-empty value of
      `column`, from that value's well to the Name wells of the rows that
      carry it. */
  method DistributeColumn(deck: Deck, ghost names: map<string, Well>, rows: seq<map<string, string>>, vols: map<string, int>,
                          column: string, p300: Pipette, log: Log) returns (dest: Option<seq<Well>>)
    requires column == "DW" || column == "Enzyme1"
    requires NamesResolve(deck, names, rows) && ValuesReady(deck, names, vols, column, Unique(ColumnValues(rows, column)))
    requires p300.name == V2.P300
    modifies p300, log
    ensures log.entries == old(log.entries) + GroupPlan(names, rows, vols, column, Unique(ColumnValues(rows, column)))
    ensures dest == V2.LastDests(names, rows, column, Unique(ColumnValues(rows, column)))
    ensures p300.hasTip == old(p300.hasTip) && p300.currentVolume == old(p300.currentVolume)
  {
    var vs := Unique(ColumnValues(rows, column));
    ghost var log0 := log.entries;
    dest := None;
    for k := 0 to |vs|
      invariant log.entries == log0 + GroupPlan(names, rows, vols, column, vs[..k])
      invariant dest == V2.LastDests(names, rows, column, vs[..k])
      invariant p300.hasTip == old(p300.hasTip) && p300.currentVolume == old(p300.currentVolume)
    {
      var v := vs[k];
      ghost var before := GroupPlan(names, rows, vols, column, vs[..k]);
      GroupPlanStep(names, rows, vols, column, vs, k);
      if v != "" {
        DistributeValue(deck, names, rows, vols, column, v, p300, log);
        dest := Some(NameWellsFor(deck, names, rows, RowsCarrying(rows, column, v)));
        V2.AppendAssoc(log0, before, GroupStep(names, rows, vols, column, v));
      }
    }
    assert vs[..|vs|] == vs;
  }

  /** `transfer_materials(key, p20, p300, mix_last)` for a table whose
      lookups all find a well: the DW distributes, the Enzyme1 distributes,
      then row by row the material transfers and the mix. */
  method TransferMaterials(deck: Deck, ghost names: map<string, Well>, t: Table, vols: map<string, int>, mix: (int, int),
                           p20: Pipette, p300: Pipette, log: Log)
    requires TableReady(deck, names, t, vols) && RowPhaseBound(t)
    requires p20.name == V2.P20 && p300.name == V2.P300 && p20 != p300
    requires p20.Valid() && !p20.hasTip
    requires mix.0 > 0 ==> 0 <= mix.1 <= p20.maxVolume
    modifies p20, p300, log
    ensures log.entries == old(log.entries) + TransferPlan(names, t, vols, mix)
    ensures p20.Valid() && !p20.hasTip
    ensures p300.hasTip == old(p300.hasTip) && p300.currentVolume == old(p300.currentVolume)
  {
    ghost var log0 := log.entries;
    ghost var dwPlan := GroupPlan(names, t.rows, vols, "DW", Unique(ColumnValues(t.rows, "DW")));
    ghost var enzPlan := GroupPlan(names, t.rows, vols, "Enzyme1", Unique(ColumnValues(t.rows, "Enzyme1")));
    var dw := DistributeColumn(deck, names, t.rows, vols, "DW", p300, log);
    var enz := DistributeColumn(deck, names, t.rows, vols, "Enzyme1", p300, log);
    var dest := match (if enz.Some? then enz else dw) case Some(ds) => ds case None => [];
    ghost var rows := RowsPlan(names, vols, Dropped(t.columns), t.rows, dest, mix).0;
    DroppedSpec(t.columns);
    TransferRows(deck, names, vols, Dropped(t.columns), t.rows, dest, mix, p20, log);
    V2.AppendAssoc(log0, dwPlan, enzPlan);
    V2.AppendAssoc(log0, dwPlan + enzPlan, rows);
  }

  /** The materials of one row, column by column. */
  method TransferRowCells(deck: Deck, ghost names: map<string, Well>, vols: map<string, int>, cols: seq<string>,
                          row: map<string, string>, dest0: seq<Well>, p20: Pipette, log: Log) returns (dest: seq<Well>)
    requires Resolves(deck, names, Cell(row, "Name"), "DNA") && RowReady(deck, names, vols, cols, row)
    requires p20.name == V2.P20
    modifies p20, log
    ensures log.entries == old(log.entries) + CellsPlan(names, vols, cols, row, dest0).0
    ensures dest == CellsPlan(names, vols, cols, row, dest0).1
    ensures p20.hasTip == old(p20.hasTip) && p20.currentVolume == old(p20.currentVolume)
  {
    ghost var log0 := log.entries;
    dest := dest0;
    for j := 0 to |cols|
      invariant log.entries == log0 + CellsPlan(names, vols, cols[..j], row, dest0).0
      invariant dest == CellsPlan(names, vols, cols[..j], row, dest0).1
      invariant p20.hasTip == old(p20.hasTip) && p20.currentVolume == old(p20.currentVolume)
    {
      CellsPlanExtend(log0, names, vols, cols, j, row, dest0);
      RowReadyAt(deck, names, vols, cols, row, j);
      dest := TransferCell(deck, names, vols, cols[j], row, dest, p20, log);
    }
    assert cols[..|cols|] == cols;
  }

  /** What a ready row promises about one of its columns. */
  lemma RowReadyAt(deck: Deck, names: map<string, Well>, vols: map<string, int>, cols: seq<string>, row: map<string, string>,
                   j: nat)
    requires j < |cols| && RowReady(deck, names, vols, cols, row)
    ensures cols[j] != "Name" && Cell(row, cols[j]) != "" ==>
      Resolves(deck, names, Cell(row, cols[j]), StripDigits(cols[j])) && cols[j] in vols
  {
    assert cols[j] in cols;
  }

  /** One column of a row: the Name column sets the destination, an empty
      cell does nothing, any other cell is one transfer to the destination. */
  method TransferCell(deck: Deck, ghost names: map<string, Well>, vols: map<string, int>, c: string,
                      row: map<string, string>, dest0: seq<Well>, p20: Pipette, log: Log) returns (dest: seq<Well>)
    requires c == "Name" ==> Resolves(deck, names, Cell(row, "Name"), "DNA")
    requires c != "Name" && Cell(row, c) != "" ==> Resolves(deck, names, Cell(row, c), StripDigits(c)) && c in vols
    requires p20.name == V2.P20
    modifies p20, log
    ensures log.entries == old(log.entries) + CellPlan(names, vols, c, row, dest0)
    ensures dest == if c == "Name" then [V2.Located(names, Cell(row, "Name"))] else dest0
    ensures p20.hasTip == old(p20.hasTip) && p20.currentVolume == old(p20.currentVolume)
  {
    dest := dest0;
    if c == "Name" {
      dest := [TypedWell(deck, names, Cell(row, "Name"), "DNA")];
    } else if Cell(row, c) != "" {
      var src := TypedWell(deck, names, Cell(row, c), StripDigits(c));
      var touchTip := StripDigits(c) == "Enzyme";
      p20.SetFlowRate(Some(1), Some(1), Some(1), log);
      p20.Transfer(vols[c], src, dest, touchTip, log);
    }
  }

  /** The mix of a finished row at its product well. */
  method MixProduct(mix: (int, int), at: Well, p20: Pipette, log: Log)
    requires p20.name == V2.P20 && p20.Valid() && !p20.hasTip
    requires mix.0 > 0 ==> 0 <= mix.1 <= p20.maxVolume
    modifies p20, log
    ensures log.entries == old(log.entries) + MixPlan(mix, at)
    ensures p20.Valid() && !p20.hasTip
  {
    if mix.0 + mix.1 != 0 {
      p20.SetFlowRate(Some(5), Some(10), Some(10), log);
      p20.PickUpTip(log);
      V2.MixRounds(mix.0, mix.1, at, p20, log);
      p20.DropTip(log);
    }
  }

  /** One row: its materials, then the mix at its product well. */
  method TransferRow(deck: Deck, ghost names: map<string, Well>, vols: map<string, int>, cols: seq<string>,
                     row: map<string, string>, dest0: seq<Well>, mix: (int, int), p20: Pipette, log: Log) returns (dest: seq<Well>)
    requires Resolves(deck, names, Cell(row, "Name"), "DNA") && RowReady(deck, names, vols, cols, row)
    requires p20.name == V2.P20 && p20.Valid() && !p20.hasTip
    requires mix.0 > 0 ==> 0 <= mix.1 <= p20.maxVolume
    modifies p20, log
    ensures log.entries == old(log.entries) + RowPlan(names, vols, cols, row, dest0, mix).0
    ensures dest == RowPlan(names, vols, cols, row, dest0, mix).1
    ensures p20.Valid() && !p20.hasTip
  {
    ghost var log0 := log.entries;
    ghost var cells := CellsPlan(names, vols, cols, row, dest0).0;
    dest := TransferRowCells(deck, names, vols, cols, row, dest0, p20, log);
    var at := TypedWell(deck, names, Cell(row, "Name"), "DNA");
    MixProduct(mix, at, p20, log);
    V2.AppendAssoc(log0, cells, MixPlan(mix, at));
  }

  /** One more row: its cells and mix after the rows before it. */
  lemma RowsPlanStep(names: map<string, Well>, vols: map<string, int>, cols: seq<string>, rows: seq<map<string, string>>,
                     i: int, dest0: seq<Well>, mix: (int, int))
    requires 0 <= i < |rows|
    ensures RowsPlan(names, vols, cols, rows[..i + 1], dest0, mix) ==
      var (before, d) := RowsPlan(names, vols, cols, rows[..i], dest0, mix);
      var (step, d') := RowPlan(names, vols, cols, rows[i], d, mix);
      (before + step, d')
  {
    assert rows[..i + 1][..i] == rows[..i];
  }

  /** The row phase: every row's materials, then its mix. */
  method TransferRows(deck: Deck, ghost names: map<string, Well>, vols: map<string, int>, cols: seq<string>,
                      rows: seq<map<string, string>>, dest0: seq<Well>, mix: (int, int), p20: Pipette, log: Log)
    requires NamesResolve(deck, names, rows)
    requires forall i :: 0 <= i < |rows| ==> RowReady(deck, names, vols, cols, rows[i])
    requires p20.name == V2.P20 && p20.Valid() && !p20.hasTip
    requires mix.0 > 0 ==> 0 <= mix.1 <= p20.maxVolume
    modifies p20, log
    ensures log.entries == old(log.entries) + RowsPlan(names, vols, cols, rows, dest0, mix).0
    ensures p20.Valid() && !p20.hasTip
  {
    ghost var log0 := log.entries;
    var dest := dest0;
    for i := 0 to |rows|
      invariant log.entries == log0 + RowsPlan(names, vols, cols, rows[..i], dest0, mix).0
      invariant dest == RowsPlan(names, vols, cols, rows[..i], dest0, mix).1
      invariant p20.Valid() && !p20.hasTip
    {
      ghost var before := RowsPlan(names, vols, cols, rows[..i], dest0, mix).0;
      ghost var step := RowPlan(names, vols, cols, rows[i], dest, mix).0;
      RowsPlanStep(names, vols, cols, rows, i, dest0, mix);
      dest := TransferRow(deck, names, vols, cols, rows[i], dest, mix, p20, log);
      V2.AppendAssoc(log0, before, step);
    }
    assert rows[..|rows|] == rows;
  }

  // ---------------------------------------------------------------------
  // What the plan promises

  /** The grouped plan for `vs` is a flow-rate change and a distribute for
      each non-empty value, in order. */
  lemma {:induction false} GroupPlanShape(names: map<string, Well>, rows: seq<map<string, string>>, vols: map<string, int>,
                                          column: string, vs: seq<string>)
    ensures |GroupPlan(names, rows, vols, column, vs)| == 2 * |V2.Filled(vs)|
    ensures forall k :: 0 <= k < |V2.Filled(vs)| ==>
      && GroupPlan(names, rows, vols, column, vs)[2 * k] == GroupStep(names, rows, vols, column, V2.Filled(vs)[k])[0]
      && GroupPlan(names, rows, vols, column, vs)[2 * k + 1] == GroupStep(names, rows, vols, column, V2.Filled(vs)[k])[1]
  {
    if vs != [] {
      var pre := vs[..|vs| - 1];
      var v := vs[|vs| - 1];
      GroupPlanShape(names, rows, vols, column, pre);
      var g := GroupPlan(names, rows, vols, column, pre);
      var f := V2.Filled(pre);
      if v == "" {
        assert GroupPlan(names, rows, vols, column, vs) == g + [];
        assert V2.Filled(vs) == f + [];
      } else {
        assert GroupPlan(names, rows, vols, column, vs) == g + GroupStep(names, rows, vols, column, v);
        assert V2.Filled(vs) == f + [v];
        GroupShapeExtend(names, rows, vols, column, g, f, v);
      }
    }
  }

  /** One more value's step after a plan of steps, one per value, is again
      a plan of steps, one per value. */
  lemma GroupShapeExtend(names: map<string, Well>, rows: seq<map<string, string>>, vols: map<string, int>, column: string,
                         g: seq<Command>, f: seq<string>, v: string)
    requires |g| == 2 * |f|
    requires forall k :: 0 <= k < |f| ==>
      && g[2 * k] == GroupStep(names, rows, vols, column, f[k])[0]
      && g[2 * k + 1] == GroupStep(names, rows, vols, column, f[k])[1]
    ensures |g + GroupStep(names, rows, vols, column, v)| == 2 * |f + [v]|
    ensures forall k :: 0 <= k < |f + [v]| ==>
      && (g + GroupStep(names, rows, vols, column, v))[2 * k] == GroupStep(names, rows, vols, column, (f + [v])[k])[0]
      && (g + GroupStep(names, rows, vols, column, v))[2 * k + 1] == GroupStep(names, rows, vols, column, (f + [v])[k])[1]
  {
    var whole := g + GroupStep(names, rows, vols, column, v);
    forall k | 0 <= k < |f + [v]|
      ensures whole[2 * k] == GroupStep(names, rows, vols, column, (f + [v])[k])[0]
      ensures whole[2 * k + 1] == GroupStep(names, rows, vols, column, (f + [v])[k])[1]
    {
      if k < |f| {
        assert (f + [v])[k] == f[k];
      } else {
        assert (f + [v])[k] == v;
      }
    }
  }

  /** For the DW and the Enzyme1 column alike: one distribute per distinct
      non-empty value of the column, in order of first appearance, each
      moving the column's volume from the value's well to the Name wells of
      the rows carrying that value; the Enzyme1 distributes touch the tip,
      mix first and blow out, the DW ones do none of these. */
  lemma GroupedDistributes(names: map<string, Well>, rows: seq<map<string, string>>, vols: map<string, int>, column: string)
    requires column == "DW" || column == "Enzyme1"
    ensures var u := V2.Filled(Unique(ColumnValues(rows, column)));
      var plan := GroupPlan(names, rows, vols, column, Unique(ColumnValues(rows, column)));
      && |plan| == 2 * |u|
      && (forall v :: v in u <==> v != "" && exists i :: 0 <= i < |rows| && Cell(rows[i], column) == v)
      && (forall k, l :: 0 <= k < l < |u| ==> u[k] != u[l])
      && forall k :: 0 <= k < |u| ==>
        && plan[2 * k].FlowRate? && plan[2 * k].pipette == V2.P300
        && plan[2 * k + 1] == Distribute(V2.P300, V2.Volume(vols, column), V2.Located(names, u[k]),
                                         V2.NameWells(names, rows, RowsCarrying(rows, column, u[k])),
                                         column == "Enzyme1", column == "Enzyme1", column == "Enzyme1")
  {
    var cv := ColumnValues(rows, column);
    UniqueSpec(cv);
    V2.FilledSpec(Unique(cv));
    GroupPlanShape(names, rows, vols, column, Unique(cv));
    forall v
      ensures v in cv <==> exists i :: 0 <= i < |rows| && Cell(rows[i], column) == v
    {
      if v in cv {
        var i :| 0 <= i < |cv| && cv[i] == v;
        assert Cell(rows[i], column) == v;
      }
    }
  }

  /** The j-th column's transfer sits in `plan` after the transfers of the
      active columns before it: a flow-rate change to 1 µL/s, then the p20
      transfer of the column's volume from the cell's well to the row's Name
      well once the Name column has been passed (before that, to the
      destination carried in), touching the tip exactly for enzyme columns. */
  predicate TransferAt(plan: seq<Command>, names: map<string, Well>, vols: map<string, int>, cols: seq<string>,
                       row: map<string, string>, dest: seq<Well>, j: int)
    requires 0 <= j < |cols|
  {
    var k := 2 * |V2.Active(cols[..j], row)|;
    && k + 1 < |plan|
    && plan[k] == FlowRate(V2.P20, Rates(1, 1, 1))
    && plan[k + 1] == Transfer(V2.P20, V2.Volume(vols, cols[j]), V2.Located(names, Cell(row, cols[j])),
                               if "Name" in cols[..j] then [V2.Located(names, Cell(row, "Name"))] else dest,
                               StripDigits(cols[j]) == "Enzyme")
  }

  lemma TransferAtExtend(plan: seq<Command>, plan': seq<Command>, names: map<string, Well>, vols: map<string, int>,
                         cols: seq<string>, row: map<string, string>, dest: seq<Well>, j: int)
    requires 0 <= j < |cols| - 1
    requires TransferAt(plan', names, vols, cols[..|cols| - 1], row, dest, j)
    requires |plan'| <= |plan| && plan[..|plan'|] == plan'
    ensures TransferAt(plan, names, vols, cols, row, dest, j)
  {
    assert cols[..j] == cols[..|cols| - 1][..j];
    var k := 2 * |V2.Active(cols[..j], row)|;
    assert plan[k] == plan'[k] && plan[k + 1] == plan'[k + 1];
  }

  /** In the row phase a Name cell or an empty cell issues nothing, and every
      other cell issues exactly one p20 transfer, placed as TransferAt says. */
  lemma {:induction false} CellsPlanTransfers(names: map<string, Well>, vols: map<string, int>, cols: seq<string>,
                                              row: map<string, string>, dest: seq<Well>)
    ensures |CellsPlan(names, vols, cols, row, dest).0| == 2 * |V2.Active(cols, row)|
    ensures forall j :: 0 <= j < |cols| && cols[j] != "Name" && Cell(row, cols[j]) != "" ==>
      TransferAt(CellsPlan(names, vols, cols, row, dest).0, names, vols, cols, row, dest, j)
  {
    if cols != [] {
      var pre := cols[..|cols| - 1];
      var c := cols[|cols| - 1];
      CellsPlanTransfers(names, vols, pre, row, dest);
      var plan := CellsPlan(names, vols, cols, row, dest).0;
      var plan' := CellsPlan(names, vols, pre, row, dest).0;
      assert plan[..|plan'|] == plan';
      forall j | 0 <= j < |cols| && cols[j] != "Name" && Cell(row, cols[j]) != ""
        ensures TransferAt(plan, names, vols, cols, row, dest, j)
      {
        if j < |pre| {
          assert pre[j] == cols[j];
          TransferAtExtend(plan, plan', names, vols, cols, row, dest, j);
        } else {
          assert cols[..j] == pre;
        }
      }
    }
  }

  /** A row's mix, issued exactly when `sum(mix_last)` is not zero: flow
      rates 5/10/10 µL/s, one tip pick-up, then `mix_last[0]`
      aspirate/dispense pairs of `mix_last[1]` at the product well, then one
      drop. */
  lemma MixPlanShape(mix: (int, int), at: Well)
    ensures MixPlan(mix, at) == [] <==> mix.0 + mix.1 == 0
    ensures mix.0 + mix.1 != 0 ==>
      var p := MixPlan(mix, at);
      var n := if mix.0 < 0 then 0 else mix.0;
      && |p| == 2 * n + 3
      && p[0] == FlowRate(V2.P20, Rates(5, 10, 10))
      && p[1] == PickUpTip(V2.P20) && p[|p| - 1] == DropTip(V2.P20)
      && forall i :: 0 <= i < n ==> p[2 * i + 2] == Aspirate(V2.P20, mix.1, at) && p[2 * i + 3] == Dispense(V2.P20, mix.1, at)
  {
    if mix.0 + mix.1 != 0 {
      V2.MixPairsSpec(mix.0, mix.1, at);
      var p := MixPlan(mix, at);
      assert p[2..|p| - 1] == V2.MixPairs(V2.P20, mix.0, mix.1, at);
    }
  }

  // ---------------------------------------------------------------------
  // spotting_dispense with an air gap

  /** What `whole_vol` holds once `cnt` of the spots into `n` wells are
      done: `s·n + s − 1` at the start, one spot less after each spot. */
  function Left(s: int, n: int, cnt: int): int
  {
    s * (n - cnt + 1) - UL
  }

  /** The volume a round aspirates as the protocol is written: `max_volume
      − 1` when more than the capacity is left, otherwise all that is left,
      whatever the tip already holds. */
  function DrawAsWritten(maxV: int, whole: int): int
  {
    if maxV < whole then maxV - UL else whole
  }

  /** The volume a round aspirates on top of the `held` microlitre of air
      gap: `max_volume − 1` when what is left does not fit beside what is
      held, otherwise all that is left. */
  function Draw(maxV: int, held: int, whole: int): int
  {
    if maxV - held < whole then maxV - UL else whole
  }

  /** A round that keeps some liquid after `k` spots drew at most `m + 1`
      spots' worth, so the `k` spots fit in the `m` destinations left. */
  lemma SpotsFit(s: int, m: int, k: int, v: int)
    requires 0 < s && 0 < v - s * k && v <= s * (m + 1)
    ensures k <= m
  {
    V2.MulSub(s, m + 1, k);
    V2.PositiveFactor(s, m + 1 - k);
  }

  /** The first round draws on no air gap, later rounds on 1 µL. A round
      draws more than a spot and fills the tip at most to its capacity, and
      the spots it makes fit the wells left. */
  lemma DrawFits(s: int, maxV: int, n: int, cnt: int, held: int)
    requires UL < s && s + UL < maxV && 0 <= cnt <= n && s < Left(s, n, cnt) && (held == 0 || held == UL)
    ensures s < Draw(maxV, held, Left(s, n, cnt)) && held + Draw(maxV, held, Left(s, n, cnt)) <= maxV
    ensures held + Draw(maxV, held, Left(s, n, cnt)) <= s * (n - cnt + 1)
    ensures cnt + V2.RoundSpots(held + Draw(maxV, held, Left(s, n, cnt)), s) <= n
  {
    var v := held + Draw(maxV, held, Left(s, n, cnt));
    SpotsFit(s, n - cnt, V2.RoundSpots(v, s), v);
  }

  /** One round from `cnt` spots done with `held` in the tip: it aspirates,
      spots while more than a spot is held, blows the rest out into the
      trash and takes up a 1 µL air gap. */
  function SpotRoundPlan(name: string, maxV: int, src: Well, dest: seq<Well>, s: int, cnt: nat, held: int): seq<Command>
    requires UL < s && s + UL < maxV && cnt <= |dest| && s < Left(s, |dest|, cnt) && (held == 0 || held == UL)
  {
    var a := Draw(maxV, held, Left(s, |dest|, cnt));
    DrawFits(s, maxV, |dest|, cnt, held);
    [Aspirate(name, a, src)] + V2.SpotPairs(name, dest, s, cnt, V2.RoundSpots(held + a, s))
      + [BlowOut(name, TrashWell), AirGap(name, UL)]
  }

  /** The spots one round makes. */
  function RoundSpotsAt(maxV: int, dest: seq<Well>, s: int, cnt: nat, held: int): nat
    requires UL < s
  {
    V2.RoundSpots(held + Draw(maxV, held, Left(s, |dest|, cnt)), s)
  }

  /** The rounds from `cnt` spots done until no more than a spot is left. */
  function SpotRounds(name: string, maxV: int, src: Well, dest: seq<Well>, s: int, cnt: nat, held: int): seq<Command>
    requires UL < s && s + UL < maxV && cnt <= |dest| && (held == 0 || held == UL)
    decreases |dest| - cnt
  {
    if Left(s, |dest|, cnt) <= s then []
    else
      DrawFits(s, maxV, |dest|, cnt, held);
      SpotRoundPlan(name, maxV, src, dest, s, cnt, held)
        + SpotRounds(name, maxV, src, dest, s, cnt + RoundSpotsAt(maxV, dest, s, cnt, held), UL)
  }

  /** The loop stops only once every destination has had its spot. */
  lemma AllSpotted(s: int, n: int, cnt: int)
    requires UL < s && 0 <= cnt <= n
    ensures Left(s, n, cnt) <= s <==> cnt == n
  {
    V2.MulSub(s, n - cnt + 1, 1);
    if cnt < n {
      V2.PositiveFactor(s, n - cnt);
      assert s * (n - cnt) >= s;
    }
  }

  /** `spotting_dispense(pipette, src, dest, spotting_volume)` with the
      round volume corrected to leave room for the air gap: picks up a tip
      unless one is held, then round by round aspirates, spots and blows
      out, taking up a 1 µL air gap after every blow-out. */
  method SpottingDispense(p: Pipette, src: Well, dest: seq<Well>, s: int, log: Log)
    requires p.Valid() && p.currentVolume == 0
    requires UL < s && s + UL < p.maxVolume
    modifies p, log
    ensures p.Valid() && p.hasTip && p.rates == old(p.rates)
    ensures p.currentVolume == if |dest| == 0 then 0 else UL
    ensures log.entries == old(log.entries) + (if old(p.hasTip) then [] else [PickUpTip(p.name)])
      + SpotRounds(p.name, p.maxVolume, src, dest, s, 0, 0)
  {
    ghost var pick := if p.hasTip then [] else [PickUpTip(p.name)];
    if !p.hasTip {
      p.PickUpTip(log);
    } else {
      assert log.entries == old(log.entries) + [];
    }
    ghost var log1 := log.entries;
    ghost var total := SpotRounds(p.name, p.maxVolume, src, dest, s, 0, 0);
    var wholeVol := s * |dest| + s - UL;
    var cnt := 0;
    while wholeVol > s
      invariant 0 <= cnt <= |dest| && wholeVol == Left(s, |dest|, cnt)
      invariant p.Valid() && p.hasTip && p.rates == old(p.rates)
      invariant p.currentVolume == if cnt == 0 then 0 else UL
      invariant log1 + total == log.entries + SpotRounds(p.name, p.maxVolume, src, dest, s, cnt, p.currentVolume)
      decreases |dest| - cnt
    {
      ghost var logR := log.entries;
      ghost var cnt0 := cnt;
      ghost var held := p.currentVolume;
      SpotRoundsUnfold(p.name, p.maxVolume, src, dest, s, cnt, held);
      cnt, wholeVol := SpotOneRound(p, src, dest, s, cnt, wholeVol, log);
      V2.AppendAssoc(logR, SpotRoundPlan(p.name, p.maxVolume, src, dest, s, cnt0, held),
        SpotRounds(p.name, p.maxVolume, src, dest, s, cnt, UL));
    }
    AllSpotted(s, |dest|, cnt);
    assert log1 + total == log.entries + [];
  }

  lemma SpotRoundsUnfold(name: string, maxV: int, src: Well, dest: seq<Well>, s: int, cnt: nat, held: int)
    requires UL < s && s + UL < maxV && cnt <= |dest| && (held == 0 || held == UL) && s < Left(s, |dest|, cnt)
    ensures cnt + RoundSpotsAt(maxV, dest, s, cnt, held) <= |dest|
    ensures SpotRounds(name, maxV, src, dest, s, cnt, held)
      == SpotRoundPlan(name, maxV, src, dest, s, cnt, held)
        + SpotRounds(name, maxV, src, dest, s, cnt + RoundSpotsAt(maxV, dest, s, cnt, held), UL)
  {
    DrawFits(s, maxV, |dest|, cnt, held);
  }

  /** One round of the outer loop: aspirate, spot, blow out, air gap. */
  method SpotOneRound(p: Pipette, src: Well, dest: seq<Well>, s: int, cnt0: nat, whole0: int, log: Log)
    returns (cnt: nat, wholeVol: int)
    requires p.Valid() && p.hasTip && (p.currentVolume == 0 || p.currentVolume == UL)
    requires UL < s && s + UL < p.maxVolume
    requires cnt0 <= |dest| && whole0 == Left(s, |dest|, cnt0) && s < whole0
    modifies p, log
    ensures cnt == cnt0 + RoundSpotsAt(p.maxVolume, dest, s, cnt0, old(p.currentVolume)) && cnt <= |dest|
    ensures wholeVol == Left(s, |dest|, cnt)
    ensures p.Valid() && p.hasTip && p.rates == old(p.rates) && p.currentVolume == UL
    ensures log.entries == old(log.entries) + SpotRoundPlan(p.name, p.maxVolume, src, dest, s, cnt0, old(p.currentVolume))
  {
    ghost var held := p.currentVolume;
    var a := if p.maxVolume - p.currentVolume < whole0 then p.maxVolume - UL else whole0;
    DrawFits(s, p.maxVolume, |dest|, cnt0, held);
    V2.MulSub(s, |dest| - cnt0 + 1, 1);
    p.Aspirate(a, src, log);
    cnt, wholeVol := SpotRound(p, dest, s, cnt0, whole0, log);
    p.BlowOut(TrashWell, log);
    p.AirGap(UL, log);
  }

  /** The inner loop of `spotting_dispense`: while more than a spot is held,
      spot `dest[cnt]` and move down into it. */
  method SpotRound(p: Pipette, dest: seq<Well>, s: int, cnt0: nat, whole0: int, log: Log) returns (cnt: nat, wholeVol: int)
    requires p.Valid() && p.hasTip && UL < s < p.currentVolume <= whole0 + UL
    requires cnt0 <= |dest| && whole0 == Left(s, |dest|, cnt0)
    modifies p, log
    ensures cnt == cnt0 + V2.RoundSpots(old(p.currentVolume), s) && cnt <= |dest|
    ensures wholeVol == Left(s, |dest|, cnt)
    ensures p.Valid() && p.hasTip && p.rates == old(p.rates) && 0 < p.currentVolume <= s
    ensures log.entries == old(log.entries) + V2.SpotPairs(p.name, dest, s, cnt0, V2.RoundSpots(old(p.currentVolume), s))
  {
    cnt, wholeVol := cnt0, whole0;
    ghost var a := p.currentVolume;
    ghost var log0 := log.entries;
    while p.currentVolume > s
      invariant cnt0 <= cnt <= |dest| && wholeVol == Left(s, |dest|, cnt)
      invariant 0 < p.currentVolume <= wholeVol + UL
      invariant V2.RoundSpots(a, s) == cnt - cnt0 + V2.RoundSpots(p.currentVolume, s)
      invariant log.entries == log0 + V2.SpotPairs(p.name, dest, s, cnt0, cnt - cnt0)
      invariant p.Valid() && p.hasTip && p.rates == old(p.rates)
      decreases p.currentVolume
    {
      V2.MulSub(s, |dest| - cnt + 1, 1);
      V2.PositiveFactor(s, |dest| - cnt);
      p.Dispense(s, dest[cnt], log);
      p.MoveTo(dest[cnt], log);
      V2.AppendAssoc(log0, V2.SpotPairs(p.name, dest, s, cnt0, cnt - cnt0), [Dispense(p.name, s, dest[cnt]), MoveTo(p.name, dest[cnt])]);
      cnt := cnt + 1;
      wholeVol := wholeVol - s;
    }
  }

  lemma SpotRoundPlanSpec(name: string, maxV: int, src: Well, dest: seq<Well>, s: int, cnt: nat, held: int)
    requires UL < s && s + UL < maxV && cnt <= |dest| && s < Left(s, |dest|, cnt) && (held == 0 || held == UL)
    ensures 1 <= RoundSpotsAt(maxV, dest, s, cnt, held) && cnt + RoundSpotsAt(maxV, dest, s, cnt, held) <= |dest|
    ensures Dispensed(SpotRoundPlan(name, maxV, src, dest, s, cnt, held))
      == dest[cnt..cnt + RoundSpotsAt(maxV, dest, s, cnt, held)]
    ensures V2.SpotVolumes(SpotRoundPlan(name, maxV, src, dest, s, cnt, held), s, maxV)
  {
    var a := Draw(maxV, held, Left(s, |dest|, cnt));
    var k := RoundSpotsAt(maxV, dest, s, cnt, held);
    DrawFits(s, maxV, |dest|, cnt, held);
    var head := [Aspirate(name, a, src)];
    var pairs := V2.SpotPairs(name, dest, s, cnt, k);
    var tail := [BlowOut(name, TrashWell), AirGap(name, UL)];
    V2.SpotPairsSpec(name, dest, s, maxV, cnt, k);
    QuietCommand(Aspirate(name, a, src));
    QuietPair(BlowOut(name, TrashWell), AirGap(name, UL));
    QuietAround(head, pairs, tail);
    V2.SpotVolumesAppend(head, pairs, s, maxV);
    V2.SpotVolumesAppend(head + pairs, tail, s, maxV);
  }

  /** Two commands, neither a dispense, dispense nothing. */
  lemma QuietPair(c: Command, d: Command)
    requires !c.Dispense? && !d.Dispense?
    ensures Dispensed([c, d]) == []
  {
    assert [c, d][..1] == [c];
    QuietCommand(c);
  }

  /** Commands that dispense nothing around a plan add nothing to what it
      dispenses. */
  lemma QuietAround(head: seq<Command>, mid: seq<Command>, tail: seq<Command>)
    requires Dispensed(head) == [] && Dispensed(tail) == []
    ensures Dispensed(head + mid + tail) == Dispensed(mid)
  {
    DispensedAppend(head, mid);
    DispensedAppend(head + mid, tail);
  }

  /** From `cnt` spots done, the rounds dispense into each remaining
      destination once, in order: the loop ends after exactly `len(dest)`
      spots, `cnt` never passing `len(dest)`. */
  lemma {:induction false} SpotRoundsDispensed(name: string, maxV: int, src: Well, dest: seq<Well>, s: int, cnt: nat, held: int)
    requires UL < s && s + UL < maxV && cnt <= |dest| && (held == 0 || held == UL)
    decreases |dest| - cnt
    ensures Dispensed(SpotRounds(name, maxV, src, dest, s, cnt, held)) == dest[cnt..]
  {
    if Left(s, |dest|, cnt) <= s {
      NoRoundsLeft(name, maxV, src, dest, s, cnt, held);
    } else {
      var k := RoundSpotsAt(maxV, dest, s, cnt, held);
      SpotRoundPlanSpec(name, maxV, src, dest, s, cnt, held);
      SpotRoundsDispensed(name, maxV, src, dest, s, cnt + k, UL);
      DispensedStep(name, maxV, src, dest, s, cnt, held);
    }
  }

  /** A round's spots followed by the spots of the rounds after it. */
  lemma DispensedStep(name: string, maxV: int, src: Well, dest: seq<Well>, s: int, cnt: nat, held: int)
    requires UL < s && s + UL < maxV && cnt <= |dest| && (held == 0 || held == UL) && s < Left(s, |dest|, cnt)
    requires cnt + RoundSpotsAt(maxV, dest, s, cnt, held) <= |dest|
    requires Dispensed(SpotRounds(name, maxV, src, dest, s, cnt + RoundSpotsAt(maxV, dest, s, cnt, held), UL))
      == dest[cnt + RoundSpotsAt(maxV, dest, s, cnt, held)..]
    ensures Dispensed(SpotRounds(name, maxV, src, dest, s, cnt, held)) == dest[cnt..]
  {
    var k := RoundSpotsAt(maxV, dest, s, cnt, held);
    SpotRoundPlanSpec(name, maxV, src, dest, s, cnt, held);
    SpotRoundsUnfold(name, maxV, src, dest, s, cnt, held);
    V2.DispensedSplit(SpotRounds(name, maxV, src, dest, s, cnt, held), SpotRoundPlan(name, maxV, src, dest, s, cnt, held),
                      SpotRounds(name, maxV, src, dest, s, cnt + k, UL), dest, cnt, k);
  }

  lemma NoRoundsLeft(name: string, maxV: int, src: Well, dest: seq<Well>, s: int, cnt: nat, held: int)
    requires UL < s && s + UL < maxV && cnt <= |dest| && (held == 0 || held == UL)
    requires Left(s, |dest|, cnt) <= s
    ensures Dispensed(SpotRounds(name, maxV, src, dest, s, cnt, held)) == dest[cnt..] == []
  {
    AllSpotted(s, |dest|, cnt);
  }

  /** Every spot is `spotting_volume`, and every aspirate is more than a
      spot and at most the capacity. */
  lemma {:induction false} SpotRoundsVolumes(name: string, maxV: int, src: Well, dest: seq<Well>, s: int, cnt: nat, held: int)
    requires UL < s && s + UL < maxV && cnt <= |dest| && (held == 0 || held == UL)
    decreases |dest| - cnt
    ensures V2.SpotVolumes(SpotRounds(name, maxV, src, dest, s, cnt, held), s, maxV)
  {
    if s < Left(s, |dest|, cnt) {
      var k := RoundSpotsAt(maxV, dest, s, cnt, held);
      SpotRoundPlanSpec(name, maxV, src, dest, s, cnt, held);
      SpotRoundsVolumes(name, maxV, src, dest, s, cnt + k, UL);
      SpotRoundsUnfold(name, maxV, src, dest, s, cnt, held);
      V2.SpotVolumesAppend(SpotRoundPlan(name, maxV, src, dest, s, cnt, held), SpotRounds(name, maxV, src, dest, s, cnt + k, UL), s, maxV);
    }
  }

  /** As written (`if pipette.max_volume < whole_vol`), a round after the
      first can draw on top of the 1 µL air gap more than the tip holds:
      with 3 µL spots into 12 wells on the 20 µL pipette, the first round
      draws 19 µL and makes 6 spots, leaving 20 µL to go; the second draws
      all 20 µL beside the air gap, 21 µL in a 20 µL tip. The corrected
      rule draws 19 µL instead. */
  lemma AsWrittenOverfills()
    ensures var s, maxV, n := 3 * UL, 20 * UL, 12;
      var first := DrawAsWritten(maxV, Left(s, n, 0));
      && first == 19 * UL && V2.RoundSpots(first, s) == 6
      && s < Left(s, n, 6)
      && UL + DrawAsWritten(maxV, Left(s, n, 6)) == 21 * UL
      && UL + Draw(maxV, UL, Left(s, n, 6)) == maxV
  {
    var s := 3 * UL;
    assert V2.RoundSpots(UL, s) == 0;
    assert V2.RoundSpots(4 * UL, s) == 1;
    assert V2.RoundSpots(7 * UL, s) == 2;
    assert V2.RoundSpots(10 * UL, s) == 3;
    assert V2.RoundSpots(13 * UL, s) == 4;
    assert V2.RoundSpots(16 * UL, s) == 5;
    assert V2.RoundSpots(19 * UL, s) == 6;
  }

  /** The first round draws the same under both rules, since no air gap is
      held yet; a later round draws differently only when what is left is
      more than the capacity less the air gap but no more than the capacity. */
  lemma DrawDiffers(maxV: int, whole: int)
    ensures Draw(maxV, 0, whole) == DrawAsWritten(maxV, whole)
    ensures Draw(maxV, UL, whole) != DrawAsWritten(maxV, whole) <==> maxV - UL < whole <= maxV
  {
  }

  /** The protocol's own call, 4 µL spots on the 20 µL pipette, never meets
      that case: what is left is always 3 more than a multiple of 4 µL, never
      between 19 and 20 µL, so both rules draw the same in every round. */
  lemma ProtocolSpottingUnaffected(n: int, cnt: int, held: int)
    requires 0 <= cnt <= n && (held == 0 || held == UL)
    ensures Draw(20 * UL, held, Left(4 * UL, n, cnt)) == DrawAsWritten(20 * UL, Left(4 * UL, n, cnt))
  {
    var j := n - cnt + 1;
    assert Left(4 * UL, n, cnt) == 400 * j - 100;
    if j >= 6 {
      assert 400 * j >= 2400;
    }
  }

  // ---------------------------------------------------------------------
  // The drives of the plan

  lemma {:induction false} GroupPlanOnP300(names: map<string, Well>, rows: seq<map<string, string>>, vols: map<string, int>,
                                           column: string, vs: seq<string>)
    ensures Drives(GroupPlan(names, rows, vols, column, vs), V2.P300)
  {
    if vs != [] {
      var v := vs[|vs| - 1];
      GroupPlanOnP300(names, rows, vols, column, vs[..|vs| - 1]);
      if v != "" {
        DrivesAppend(GroupPlan(names, rows, vols, column, vs[..|vs| - 1]), GroupStep(names, rows, vols, column, v), V2.P300);
      }
    }
  }

  lemma {:induction false} CellsPlanOnP20(names: map<string, Well>, vols: map<string, int>, cols: seq<string>,
                                          row: map<string, string>, dest: seq<Well>)
    ensures Drives(CellsPlan(names, vols, cols, row, dest).0, V2.P20)
  {
    if cols != [] {
      var pre := CellsPlan(names, vols, cols[..|cols| - 1], row, dest);
      CellsPlanOnP20(names, vols, cols[..|cols| - 1], row, dest);
      DrivesAppend(pre.0, CellStep(names, vols, cols[|cols| - 1], row, pre.1), V2.P20);
    }
  }

  lemma MixPlanOnP20(mix: (int, int), at: Well)
    ensures Drives(MixPlan(mix, at), V2.P20)
  {
    if mix.0 + mix.1 != 0 {
      var head := [FlowRate(V2.P20, Rates(5, 10, 10)), PickUpTip(V2.P20)];
      V2.MixPairsOnP20(mix.0, mix.1, at);
      DrivesAppend(head, V2.MixPairs(V2.P20, mix.0, mix.1, at), V2.P20);
      DrivesAppend(head + V2.MixPairs(V2.P20, mix.0, mix.1, at), [DropTip(V2.P20)], V2.P20);
    }
  }

  /** The row phase drives the p20 alone. */
  lemma {:induction false} RowsPlanOnP20(names: map<string, Well>, vols: map<string, int>, cols: seq<string>,
                                         rows: seq<map<string, string>>, dest: seq<Well>, mix: (int, int))
    ensures Drives(RowsPlan(names, vols, cols, rows, dest, mix).0, V2.P20)
  {
    if rows != [] {
      var pre := RowsPlan(names, vols, cols, rows[..|rows| - 1], dest, mix);
      var row := rows[|rows| - 1];
      RowsPlanOnP20(names, vols, cols, rows[..|rows| - 1], dest, mix);
      CellsPlanOnP20(names, vols, cols, row, pre.1);
      MixPlanOnP20(mix, V2.Located(names, Cell(row, "Name")));
      DrivesAppend(CellsPlan(names, vols, cols, row, pre.1).0, MixPlan(mix, V2.Located(names, Cell(row, "Name"))), V2.P20);
      DrivesAppend(pre.0, RowPlan(names, vols, cols, row, pre.1, mix).0, V2.P20);
    }
  }

  /** `transfer_materials` is pipetting alone: its grouped phase drives the
      p300 only and its row phase the p20 only. */
  lemma TransferPlanDrives(names: map<string, Well>, t: Table, vols: map<string, int>, mix: (int, int))
    ensures var dest := match Carried(names, t) case Some(ds) => ds case None => [];
      var groups := GroupPlan(names, t.rows, vols, "DW", Unique(ColumnValues(t.rows, "DW")))
        + GroupPlan(names, t.rows, vols, "Enzyme1", Unique(ColumnValues(t.rows, "Enzyme1")));
      var rows := RowsPlan(names, vols, Dropped(t.columns), t.rows, dest, mix).0;
      && TransferPlan(names, t, vols, mix) == groups + rows
      && Drives(groups, V2.P300) && Drives(rows, V2.P20)
  {
    var dest := match Carried(names, t) case Some(ds) => ds case None => [];
    GroupPlanOnP300(names, t.rows, vols, "DW", Unique(ColumnValues(t.rows, "DW")));
    GroupPlanOnP300(names, t.rows, vols, "Enzyme1", Unique(ColumnValues(t.rows, "Enzyme1")));
    DrivesAppend(GroupPlan(names, t.rows, vols, "DW", Unique(ColumnValues(t.rows, "DW"))),
      GroupPlan(names, t.rows, vols, "Enzyme1", Unique(ColumnValues(t.rows, "Enzyme1"))), V2.P300);
    RowsPlanOnP20(names, vols, Dropped(t.columns), t.rows, dest, mix);
  }

  /** `transfer_materials` never pauses the run. */
  lemma TransferPlanNoPause(names: map<string, Well>, t: Table, vols: map<string, int>, mix: (int, int))
    ensures Run.NoPause(TransferPlan(names, t, vols, mix))
  {
    var dest := match Carried(names, t) case Some(ds) => ds case None => [];
    var groups := GroupPlan(names, t.rows, vols, "DW", Unique(ColumnValues(t.rows, "DW")))
      + GroupPlan(names, t.rows, vols, "Enzyme1", Unique(ColumnValues(t.rows, "Enzyme1")));
    var rows := RowsPlan(names, vols, Dropped(t.columns), t.rows, dest, mix).0;
    TransferPlanDrives(names, t, vols, mix);
    Run.DrivesNoPause(groups, V2.P300);
    Run.DrivesNoPause(rows, V2.P20);
    Run.NoPauseAppend(groups, rows);
  }

  // ---------------------------------------------------------------------
  // run: the two reactions

  /** A reaction of the parameter table: its key, its type (which selects
      its volumes) and its table. */
  datatype Reaction = Reaction(key: string, kind: string, table: Table)

  /** What `run` reads besides the deck: the reactions in order, the volumes
      per reaction type, `Stop_between_reactions`, `PCR_extension_time` and
      `TF_recovery_time` (minutes, as `int()` leaves it). */
  datatype Setup = Setup(reactions: seq<Reaction>, volumes: map<string, map<string, int>>, stop: bool, extension: int,
                         recovery: int)

  const PcrMix: (int, int) := (2, 15 * UL)
  const AssemblyMix: (int, int) := (2, 10 * UL)

  /** `[i for i in data["Name"].values() if i]` is not empty: some row names
      a product. */
  predicate HasProducts(t: Table)
  {
    exists i :: 0 <= i < |t.rows| && Cell(t.rows[i], "Name") != ""
  }

  function VolumesOf(cfg: Setup, r: Reaction): map<string, int>
  {
    if r.kind in cfg.volumes then cfg.volumes[r.kind] else map[]
  }

  /** The PCR cycling: 30 rounds of 94/55/68 degrees under a 100-degree lid,
      a 68-degree final extension, a five-minute 8-degree hold, then the lid
      off and opened. */
  function PcrProgram(extension: int): seq<Command>
  {
    [Thermo(CloseLid), Thermo(LidTemperature(100)), Thermo(BlockTemperature(94, 30)),
     Thermo(Profile([(94, 15), (55, 10), (68, extension)], 30)), Thermo(BlockTemperature(68, 60)),
     Thermo(BlockTemperature(8, 300)), Thermo(DeactivateLid), Thermo(BlockTemperature(8, 0)), Thermo(OpenLid)]
  }

  /** The assembly incubation: 40 minutes at 50 degrees under a 100-degree
      lid, a five-minute 8-degree hold, then the lid off and opened. */
  function AssemblyProgram(): seq<Command>
  {
    [Thermo(CloseLid), Thermo(LidTemperature(100)), Thermo(BlockTemperature(50, 2400)),
     Thermo(BlockTemperature(8, 300)), Thermo(DeactivateLid), Thermo(BlockTemperature(8, 0)), Thermo(OpenLid)]
  }

  /** The first reaction, run as PCR when it names a product. */
  function PcrStage(names: map<string, Well>, cfg: Setup, r: Reaction): seq<Command>
  {
    if HasProducts(r.table) then TransferPlan(names, r.table, VolumesOf(cfg, r), PcrMix) + PcrProgram(cfg.extension)
    else []
  }

  function PlaceDown(r: Reaction): string
  {
    "Place down " + r.key + " enzyme"
  }

  /** The second reaction, run as an assembly when it names a product, after
      a pause for the operator when `Stop_between_reactions` is set. */
  function AssemblyStage(names: map<string, Well>, cfg: Setup, r: Reaction): seq<Command>
  {
    if HasProducts(r.table) then
      (if cfg.stop then [Pause(PlaceDown(r))] else []) + TransferPlan(names, r.table, VolumesOf(cfg, r), AssemblyMix)
        + AssemblyProgram()
    else []
  }

  /** The reaction part of `run`: the commands and the exception that ends
      it, if any. `list(Reactions.keys())[0]` and `[1]` raise IndexError
      when there are too few reactions, the PCR volumes must exist for
      `final_volume`, and a reaction without a Name column raises KeyError
      when its products are listed. */
  function ReactionsPlan(names: map<string, Well>, cfg: Setup): (r: (seq<Command>, Option<Fault>))
  {
    if |cfg.reactions| == 0 then ([], Some(IndexError))
    else if "PCR" !in cfg.volumes || "Name" !in cfg.reactions[0].table.columns then ([], Some(KeyError))
    else
      var pcr := PcrStage(names, cfg, cfg.reactions[0]);
      if |cfg.reactions| == 1 then (pcr, Some(IndexError))
      else if "Name" !in cfg.reactions[1].table.columns then (pcr, Some(KeyError))
      else (pcr + AssemblyStage(names, cfg, cfg.reactions[1]), None)
  }

  /** A reaction that is run finds every material and volume it looks up. */
  predicate ReactionReady(deck: Deck, names: map<string, Well>, cfg: Setup, r: Reaction)
  {
    HasProducts(r.table) ==>
      r.kind in cfg.volumes && TableReady(deck, names, r.table, cfg.volumes[r.kind]) && RowPhaseBound(r.table)
  }

  /** The PCR and assembly part of `run`. */
  method RunReactions(deck: Deck, ghost names: map<string, Well>, cfg: Setup, p20: Pipette, p300: Pipette, log: Log)
    returns (fault: Option<Fault>)
    requires forall k :: 0 <= k < |cfg.reactions| && k < 2 ==> ReactionReady(deck, names, cfg, cfg.reactions[k])
    requires p20.name == V2.P20 && p300.name == V2.P300 && p20 != p300
    requires p20.Valid() && !p20.hasTip && 15 * UL <= p20.maxVolume
    modifies p20, p300, log
    ensures log.entries == old(log.entries) + ReactionsPlan(names, cfg).0
    ensures fault == ReactionsPlan(names, cfg).1
    ensures p20.Valid() && !p20.hasTip
    ensures p300.hasTip == old(p300.hasTip) && p300.currentVolume == old(p300.currentVolume)
  {
    if |cfg.reactions| == 0 {
      return Some(IndexError);
    }
    if "PCR" !in cfg.volumes || "Name" !in cfg.reactions[0].table.columns {
      return Some(KeyError);
    }
    ghost var log0 := log.entries;
    RunPcr(deck, names, cfg, cfg.reactions[0], p20, p300, log);
    if |cfg.reactions| == 1 {
      return Some(IndexError);
    }
    if "Name" !in cfg.reactions[1].table.columns {
      return Some(KeyError);
    }
    ghost var pcr := PcrStage(names, cfg, cfg.reactions[0]);
    RunAssembly(deck, names, cfg, cfg.reactions[1], p20, p300, log);
    V2.AppendAssoc(log0, pcr, AssemblyStage(names, cfg, cfg.reactions[1]));
    fault := None;
  }

  /** The first reaction: when it names a product, its transfers with a
      final mix of 2 × 15 µL, then the PCR program. */
  method RunPcr(deck: Deck, ghost names: map<string, Well>, cfg: Setup, r: Reaction, p20: Pipette, p300: Pipette, log: Log)
    requires ReactionReady(deck, names, cfg, r)
    requires p20.name == V2.P20 && p300.name == V2.P300 && p20 != p300
    requires p20.Valid() && !p20.hasTip && 15 * UL <= p20.maxVolume
    modifies p20, p300, log
    ensures log.entries == old(log.entries) + PcrStage(names, cfg, r)
    ensures p20.Valid() && !p20.hasTip
    ensures p300.hasTip == old(p300.hasTip) && p300.currentVolume == old(p300.currentVolume)
  {
    var products := exists i :: 0 <= i < |r.table.rows| && Cell(r.table.rows[i], "Name") != "";
    if !products {
      assert log.entries == old(log.entries) + [];
      return;
    }
    ghost var log0 := log.entries;
    var vols := cfg.volumes[r.kind];
    TransferMaterials(deck, names, r.table, vols, PcrMix, p20, p300, log);
    RunPcrProgram(cfg.extension, log);
    V2.AppendAssoc(log0, TransferPlan(names, r.table, vols, PcrMix), PcrProgram(cfg.extension));
  }

  /** The second reaction: when it names a product, the pause if the run
      stops between reactions, its transfers with a final mix of 2 × 10 µL,
      then the assembly program. */
  method RunAssembly(deck: Deck, ghost names: map<string, Well>, cfg: Setup, r: Reaction, p20: Pipette, p300: Pipette, log: Log)
    requires ReactionReady(deck, names, cfg, r)
    requires p20.name == V2.P20 && p300.name == V2.P300 && p20 != p300
    requires p20.Valid() && !p20.hasTip && 15 * UL <= p20.maxVolume
    modifies p20, p300, log
    ensures log.entries == old(log.entries) + AssemblyStage(names, cfg, r)
    ensures p20.Valid() && !p20.hasTip
    ensures p300.hasTip == old(p300.hasTip) && p300.currentVolume == old(p300.currentVolume)
  {
    var products := exists i :: 0 <= i < |r.table.rows| && Cell(r.table.rows[i], "Name") != "";
    if !products {
      assert log.entries == old(log.entries) + [];
      return;
    }
    ghost var log0 := log.entries;
    var vols := cfg.volumes[r.kind];
    ghost var pause := if cfg.stop then [Pause(PlaceDown(r))] else [];
    if cfg.stop {
      log.PauseRun(PlaceDown(r));
    } else {
      assert log.entries == log0 + [];
    }
    ghost var plan := TransferPlan(names, r.table, vols, AssemblyMix);
    TransferMaterials(deck, names, r.table, vols, AssemblyMix, p20, p300, log);
    RunAssemblyProgram(log);
    V2.AppendAssoc(log0, pause, plan);
    V2.AppendAssoc(log0, pause + plan, AssemblyProgram());
  }

  method RunPcrProgram(extension: int, log: Log)
    modifies log
    ensures log.entries == old(log.entries) + PcrProgram(extension)
  {
    log.Thermocycler(CloseLid);
    log.Thermocycler(LidTemperature(100));
    log.Thermocycler(BlockTemperature(94, 30));
    log.Thermocycler(Profile([(94, 15), (55, 10), (68, extension)], 30));
    log.Thermocycler(BlockTemperature(68, 60));
    log.Thermocycler(BlockTemperature(8, 300));
    log.Thermocycler(DeactivateLid);
    log.Thermocycler(BlockTemperature(8, 0));
    log.Thermocycler(OpenLid);
  }

  method RunAssemblyProgram(log: Log)
    modifies log
    ensures log.entries == old(log.entries) + AssemblyProgram()
  {
    log.Thermocycler(CloseLid);
    log.Thermocycler(LidTemperature(100));
    log.Thermocycler(BlockTemperature(50, 2400));
    log.Thermocycler(BlockTemperature(8, 300));
    log.Thermocycler(DeactivateLid);
    log.Thermocycler(BlockTemperature(8, 0));
    log.Thermocycler(OpenLid);
  }

  lemma ProgramsNoPause(extension: int)
    ensures Run.NoPause(PcrProgram(extension)) && Run.NoPause(AssemblyProgram())
  {
  }

  /** The PCR stage runs exactly when its reaction names a product, and
      never pauses. */
  lemma PcrStageGate(names: map<string, Well>, cfg: Setup, r: Reaction)
    ensures PcrStage(names, cfg, r) != [] <==> HasProducts(r.table)
    ensures Run.NoPause(PcrStage(names, cfg, r))
  {
    ProgramsNoPause(cfg.extension);
    if HasProducts(r.table) {
      var vols := VolumesOf(cfg, r);
      TransferPlanNoPause(names, r.table, vols, PcrMix);
      Run.NoPauseAppend(TransferPlan(names, r.table, vols, PcrMix), PcrProgram(cfg.extension));
    }
  }

  /** The assembly stage runs exactly when its reaction names a product; it
      pauses exactly when it runs with `Stop_between_reactions` set, once,
      before anything else. */
  lemma AssemblyStageGate(names: map<string, Well>, cfg: Setup, r: Reaction)
    ensures AssemblyStage(names, cfg, r) != [] <==> HasProducts(r.table)
    ensures cfg.stop && HasProducts(r.table) ==> AssemblyStage(names, cfg, r)[0] == Pause(PlaceDown(r))
    ensures forall k :: 0 < k < |AssemblyStage(names, cfg, r)| ==> !AssemblyStage(names, cfg, r)[k].Pause?
    ensures Run.NoPause(AssemblyStage(names, cfg, r)) <==> !(cfg.stop && HasProducts(r.table))
  {
    if HasProducts(r.table) {
      var vols := VolumesOf(cfg, r);
      var plan := TransferPlan(names, r.table, vols, AssemblyMix);
      ProgramsNoPause(cfg.extension);
      TransferPlanNoPause(names, r.table, vols, AssemblyMix);
      var pause := if cfg.stop then [Pause(PlaceDown(r))] else [];
      QuietAfterPause(pause, plan, AssemblyProgram());
    }
  }

  /** Two runs that do not pause, after at most one command, pause nowhere
      but at that command. */
  lemma QuietAfterPause(pause: seq<Command>, plan: seq<Command>, program: seq<Command>)
    requires |pause| <= 1 && Run.NoPause(plan) && Run.NoPause(program)
    ensures |pause| == 1 ==> (pause + plan + program)[0] == pause[0]
    ensures forall k :: 0 < k < |pause + plan + program| ==> !(pause + plan + program)[k].Pause?
    ensures Run.NoPause(pause) ==> Run.NoPause(pause + plan + program)
  {
    var rest := plan + program;
    Run.NoPauseAppend(plan, program);
    assert pause + plan + program == pause + rest;
    assert forall k :: |pause| <= k < |pause + rest| ==> (pause + rest)[k] == rest[k - |pause|];
  }

  /** With two reactions to run, `run` issues the PCR stage then the
      assembly stage and raises nothing; it pauses exactly when the
      assembly runs with `Stop_between_reactions` set, and then right
      after the PCR stage, asking for the second reaction's enzyme. */
  lemma ReactionGates(names: map<string, Well>, cfg: Setup)
    requires |cfg.reactions| >= 2 && "PCR" in cfg.volumes
    requires "Name" in cfg.reactions[0].table.columns && "Name" in cfg.reactions[1].table.columns
    ensures var pcr := PcrStage(names, cfg, cfg.reactions[0]);
      var plan := ReactionsPlan(names, cfg);
      && plan == (pcr + AssemblyStage(names, cfg, cfg.reactions[1]), None)
      && (Run.NoPause(plan.0) <==> !(cfg.stop && HasProducts(cfg.reactions[1].table)))
      && (cfg.stop && HasProducts(cfg.reactions[1].table) ==>
            |pcr| < |plan.0| && plan.0[|pcr|] == Pause(PlaceDown(cfg.reactions[1])))
  {
    var pcr := PcrStage(names, cfg, cfg.reactions[0]);
    var asm := AssemblyStage(names, cfg, cfg.reactions[1]);
    PcrStageGate(names, cfg, cfg.reactions[0]);
    AssemblyStageGate(names, cfg, cfg.reactions[1]);
    if Run.NoPause(asm) {
      Run.NoPauseAppend(pcr, asm);
    } else {
      assert (pcr + asm)[|pcr|] == asm[0];
    }
  }

  // ---------------------------------------------------------------------
  // Transformation

  /** `Run_TF`: some plate of type "TF" has data. */
  predicate TransformationWanted(plates: seq<Plate>)
  {
    exists i :: 0 <= i < |plates| && plates[i].kind == "TF" && plates[i].data != []
  }

  /** The plate loop that sets `Run_TF`, leaving at the first TF plate
      with data. */
  method DecideTransformation(plates: seq<Plate>) returns (run: bool)
    ensures run <==> TransformationWanted(plates)
  {
    run := false;
    var i := 0;
    while i < |plates|
      invariant 0 <= i <= |plates|
      invariant forall k :: 0 <= k < i ==> !(plates[k].kind == "TF" && plates[k].data != [])
    {
      if plates[i].kind == "TF" && plates[i].data != [] {
        run := true;
        break;
      }
      i := i + 1;
    }
  }

  /** `v` is a sample of the transformation: the content, other than "",
      of a well of some TF plate. */
  ghost predicate HoldsSample(plates: seq<Plate>, v: string)
  {
    v != "" && exists i, j :: 0 <= i < |plates| && plates[i].kind == "TF" && 0 <= j < |plates[i].data| && plates[i].data[j].1 == v
  }

  /** `unique_sample`: the values of the TF plates gathered plate by plate,
      made a set, with "" taken out. */
  method CollectSamples(plates: seq<Plate>) returns (samples: set<string>)
    ensures forall v :: v in samples <==> HoldsSample(plates, v)
  {
    var all: seq<string> := [];
    for i := 0 to |plates|
      invariant forall v :: v in all <==>
        exists k, j :: 0 <= k < i && plates[k].kind == "TF" && 0 <= j < |plates[k].data| && plates[k].data[j].1 == v
    {
      if plates[i].kind == "TF" {
        all := all + Run.DataValues(plates[i].data);
      }
    }
    samples := (set v | v in all) - {""};
  }

  /** No entry of `order` repeats. */
  predicate Distinct(order: seq<string>)
  {
    forall k, l :: 0 <= k < l < |order| ==> order[k] != order[l]
  }

  /** `order` is the sample list `list(set(unique_sample))` leaves, "" taken
      out: every sample once, in the order the set yields. */
  ghost predicate SampleOrder(order: seq<string>, plates: seq<Plate>)
  {
    Distinct(order) && forall v :: v in order <==> HoldsSample(plates, v)
  }

  /** `order` is the sample list of one TF plate at spotting time: each
      value of its data other than "", once. */
  ghost predicate PlateOrder(order: seq<string>, p: Plate)
  {
    Distinct(order) && forall v :: v in order <==> v != "" && exists j :: 0 <= j < |p.data| && p.data[j].1 == v
  }

  /** `orders[i]` is the sample list of plate `i` when that plate is a TF plate. */
  ghost predicate PlateOrders(orders: seq<seq<string>>, plates: seq<Plate>)
  {
    |orders| == |plates| && forall i :: 0 <= i < |plates| && plates[i].kind == "TF" ==> PlateOrder(orders[i], plates[i])
  }

  /** `find_materials_well(sample, "DNA", ...)` does not give None: some
      plate whose type is not "TF" holds the sample. */
  predicate SampleLocated(deck: Deck, v: string)
  {
    !FindMaterialsWell(deck, v, "DNA", true).NotFound?
  }

  /** Every sample of the TF plates is held by some other plate. With no
      TF plate data there is no sample, and this holds. */
  ghost predicate SamplesLocated(deck: Deck)
  {
    forall v :: HoldsSample(deck.plates, v) ==> SampleLocated(deck, v)
  }

  /** A sample's right-hand well is found: where its cells go and where it
      is spotted from. */
  predicate SampleFound(deck: Deck, v: string)
  {
    FindMaterialsWell(deck, v, "DNA", true).Found?
  }

  /** Every sample's right-hand well is found. */
  ghost predicate SamplesFound(deck: Deck)
  {
    forall v :: HoldsSample(deck.plates, v) ==> SampleFound(deck, v)
  }

  /** Whether a DNA name is found at all does not depend on `right_well`,
      and a name whose right-hand well is found has its own well found too. */
  lemma RightFoundLeftFound(deck: Deck, v: string)
    ensures FindMaterialsWell(deck, v, "DNA", true).NotFound? == FindMaterialsWell(deck, v, "DNA", false).NotFound?
    ensures FindMaterialsWell(deck, v, "DNA", true).Found? ==> FindMaterialsWell(deck, v, "DNA", false).Found?
  {
  }

  /** A right-hand well lookup raises only ValueError (the well is not on the
      labware) or IndexError (nothing eight places later). */
  lemma RightWellFaults(deck: Deck, v: string)
    ensures FindMaterialsWell(deck, v, "DNA", true).Raised? ==>
      FindMaterialsWell(deck, v, "DNA", true).fault in {ValueError, IndexError}
  {
  }

  /** Every sample in the order is found on some plate, with or without
      `right_well`. */
  lemma OrderLocated(deck: Deck, order: seq<string>)
    requires SamplesLocated(deck) && SampleOrder(order, deck.plates)
    ensures forall k :: 0 <= k < |order| ==>
      !FindMaterialsWell(deck, order[k], "DNA", true).NotFound? && !FindMaterialsWell(deck, order[k], "DNA", false).NotFound?
  {
    forall k | 0 <= k < |order|
      ensures !FindMaterialsWell(deck, order[k], "DNA", true).NotFound?
      ensures !FindMaterialsWell(deck, order[k], "DNA", false).NotFound?
    {
      assert order[k] in order;
      RightFoundLeftFound(deck, order[k]);
    }
  }

  /** Every sample each TF plate lists has its right-hand well found. */
  ghost predicate OrdersFound(deck: Deck, orders: seq<seq<string>>)
  {
    && |orders| == |deck.plates|
    && forall i, k :: 0 <= i < |deck.plates| && deck.plates[i].kind == "TF" && 0 <= k < |orders[i]| ==>
         SampleFound(deck, orders[i][k])
  }

  lemma OrdersFoundFrom(deck: Deck, orders: seq<seq<string>>)
    requires SamplesFound(deck) && PlateOrders(orders, deck.plates)
    ensures OrdersFound(deck, orders)
  {
    forall i, k | 0 <= i < |deck.plates| && deck.plates[i].kind == "TF" && 0 <= k < |orders[i]|
      ensures SampleFound(deck, orders[i][k])
    {
      var v := orders[i][k];
      assert v in orders[i];
      var j :| 0 <= j < |deck.plates[i].data| && deck.plates[i].data[j].1 == v;
      assert HoldsSample(deck.plates, v);
    }
  }

  /** Lookups made one after another: their wells, in order, or the
      exception of the first that raises. */
  function Collect(ls: seq<Lookup>): (r: Outcome<seq<Well>>)
    requires forall k :: 0 <= k < |ls| ==> !ls[k].NotFound?
    ensures r.Done? <==> forall k :: 0 <= k < |ls| ==> ls[k].Found?
    ensures r.Done? ==> |r.value| == |ls| && forall k :: 0 <= k < |ls| ==> ls[k] == Found(r.value[k])
    ensures r.Failed? ==>
      exists k :: 0 <= k < |ls| && ls[k] == Raised(r.fault) && forall l :: 0 <= l < k ==> ls[l].Found?
  {
    if ls == [] then Done([])
    else if ls[0].Raised? then Failed(ls[0].fault)
    else
      var rest := Collect(ls[1..]);
      assert forall k :: 1 <= k < |ls| ==> ls[k] == ls[1..][k - 1];
      if rest.Failed? then
        ghost var k :| 0 <= k < |ls[1..]| && ls[1..][k] == Raised(rest.fault) && forall l :: 0 <= l < k ==> ls[1..][l].Found?;
        assert ls[k + 1] == Raised(rest.fault);
        rest
      else Done([ls[0].well] + rest.value)
  }

  /** `[find_materials_well(name, "DNA", right_well=right) for name in order]`:
      the wells in order, or the exception of the first lookup that raises. */
  function SampleWells(deck: Deck, order: seq<string>, right: bool): (r: Outcome<seq<Well>>)
    requires forall k :: 0 <= k < |order| ==> !FindMaterialsWell(deck, order[k], "DNA", right).NotFound?
    ensures r.Done? <==> forall k :: 0 <= k < |order| ==> FindMaterialsWell(deck, order[k], "DNA", right).Found?
    ensures r.Done? ==> |r.value| == |order|
    ensures r.Done? ==> forall k :: 0 <= k < |order| ==> FindMaterialsWell(deck, order[k], "DNA", right) == Found(r.value[k])
    ensures r.Failed? ==> exists k :: (0 <= k < |order| && FindMaterialsWell(deck, order[k], "DNA", right) == Raised(r.fault)
      && forall l :: 0 <= l < k ==> FindMaterialsWell(deck, order[l], "DNA", right).Found?)
  {
    var ls := seq(|order|, k requires 0 <= k < |order| => FindMaterialsWell(deck, order[k], "DNA", right));
    assert forall k :: 0 <= k < |order| ==> ls[k] == FindMaterialsWell(deck, order[k], "DNA", right);
    Collect(ls)
  }

  /** `[plate['Deck'][well] for well, value in data.items() if value == sample]`:
      indexing the labware with a well it does not have raises KeyError. */
  function SpotDests(p: Plate, data: seq<(string, string)>, sample: string): (r: Outcome<seq<Well>>)
    ensures r.Failed? <==> exists j :: 0 <= j < |data| && data[j].1 == sample && data[j].0 !in p.wells
    ensures r.Failed? ==> r.fault == KeyError
  {
    if data == [] then Done([])
    else
      var rest := SpotDests(p, data[1..], sample);
      assert forall j :: 1 <= j < |data| ==> data[j] == data[1..][j - 1];
      if data[0].1 == sample && data[0].0 !in p.wells then Failed(KeyError)
      else if rest.Failed? then rest
      else Done((if data[0].1 == sample then [Well(p.key, data[0].0)] else []) + rest.value)
  }

  /** A sample's destinations are exactly the wells of the plate whose
      value is the sample. */
  lemma {:induction false} SpotDestsSpec(p: Plate, data: seq<(string, string)>, sample: string)
    requires SpotDests(p, data, sample).Done?
    ensures forall w :: w in SpotDests(p, data, sample).value <==>
      exists j :: 0 <= j < |data| && data[j].1 == sample && w == Well(p.key, data[j].0)
  {
    if data != [] {
      SpotDestsSpec(p, data[1..], sample);
      assert forall j :: 1 <= j < |data| ==> data[j] == data[1..][j - 1];
      forall w | exists j :: 0 <= j < |data| && data[j].1 == sample && w == Well(p.key, data[j].0)
        ensures w in SpotDests(p, data, sample).value
      {
        var j :| 0 <= j < |data| && data[j].1 == sample && w == Well(p.key, data[j].0);
        if j > 0 {
          assert data[1..][j - 1].1 == sample && w == Well(p.key, data[1..][j - 1].0);
        }
      }
    }
  }

  /** One sample of a TF plate: a tip, two 20 µL mixes in the product's
      right-hand well, the 4 µL spots, and the tip dropped. */
  function SampleSpotPlan(maxV: int, src: Well, dests: seq<Well>): seq<Command>
    requires 5 * UL < maxV
  {
    [PickUpTip(V2.P20)] + V2.MixPairs(V2.P20, 2, 20 * UL, src) + SpotRounds(V2.P20, maxV, src, dests, 4 * UL, 0, 0)
      + [DropTip(V2.P20)]
  }

  /** The commands for one sample, or the KeyError its destinations raise
      before any command. */
  function SampleSpot(deck: Deck, maxV: int, p: Plate, sample: string): (seq<Command>, Option<Fault>)
    requires 5 * UL < maxV && SampleFound(deck, sample)
  {
    match SpotDests(p, p.data, sample)
    case Failed(f) => ([], Some(f))
    case Done(dests) => (SampleSpotPlan(maxV, FindMaterialsWell(deck, sample, "DNA", true).well, dests), None)
  }

  /** A sample's plan dispenses twice back into its source while mixing,
      then spots each destination once, in order. */
  lemma SampleSpotDispensed(maxV: int, src: Well, dests: seq<Well>)
    requires 5 * UL < maxV
    ensures Dispensed(SampleSpotPlan(maxV, src, dests)) == [src, src] + dests
  {
    var head := [PickUpTip(V2.P20)];
    var mix := V2.MixPairs(V2.P20, 2, 20 * UL, src);
    var spots := SpotRounds(V2.P20, maxV, src, dests, 4 * UL, 0, 0);
    var tail := [DropTip(V2.P20)];
    TwoMixesDispensed(src);
    SpotRoundsDispensed(V2.P20, maxV, src, dests, 4 * UL, 0, 0);
    assert dests[0..] == dests;
    QuietCommand(PickUpTip(V2.P20));
    QuietCommand(DropTip(V2.P20));
    QuietEnds(head, mix, spots, tail);
  }

  /** A command other than a dispense dispenses nothing. */
  lemma QuietCommand(c: Command)
    requires !c.Dispense?
    ensures Dispensed([c]) == []
  {
    assert [c][..0] == [];
  }

  /** Commands that dispense nothing, before and after, add nothing to what
      a plan dispenses. */
  lemma QuietEnds(head: seq<Command>, mix: seq<Command>, spots: seq<Command>, tail: seq<Command>)
    requires Dispensed(head) == [] && Dispensed(tail) == []
    ensures Dispensed(head + mix + spots + tail) == Dispensed(mix) + Dispensed(spots)
  {
    DispensedAppend(head, mix);
    DispensedAppend(head + mix, spots);
    DispensedAppend(head + mix + spots, tail);
  }

  /** Two mixing rounds dispense twice, into the well mixed. */
  lemma TwoMixesDispensed(src: Well)
    ensures Dispensed(V2.MixPairs(V2.P20, 2, 20 * UL, src)) == [src, src]
  {
    var a, d := Aspirate(V2.P20, 20 * UL, src), Dispense(V2.P20, 20 * UL, src);
    assert V2.MixPairs(V2.P20, 2, 20 * UL, src) == [a, d, a, d] by {
      assert V2.MixPairs(V2.P20, 1, 20 * UL, src) == [a, d];
    }
    assert Dispensed([a]) == [] by { assert [a][..0] == []; }
    assert Dispensed([a, d]) == [src] by { assert [a, d][..1] == [a]; }
    assert Dispensed([a, d, a]) == [src] by { assert [a, d, a][..2] == [a, d]; }
    assert [a, d, a, d][..3] == [a, d, a];
  }

  /** Steps run one after another, up to and including the first that
      raises. */
  function Chain(parts: seq<(seq<Command>, Option<Fault>)>): (r: (seq<Command>, Option<Fault>))
    ensures r.1.None? <==> forall k :: 0 <= k < |parts| ==> parts[k].1.None?
    ensures r.1.Some? ==> exists k :: 0 <= k < |parts| && r.1 == parts[k].1
  {
    if parts == [] then ([], None)
    else
      var init := Chain(parts[..|parts| - 1]);
      if init.1.Some? then init
      else (init.0 + parts[|parts| - 1].0, parts[|parts| - 1].1)
  }

  lemma ChainStep(parts: seq<(seq<Command>, Option<Fault>)>, k: nat)
    requires k < |parts| && Chain(parts[..k]).1.None?
    ensures Chain(parts[..k + 1]) == (Chain(parts[..k]).0 + parts[k].0, parts[k].1)
  {
    assert parts[..k + 1][..k] == parts[..k];
  }

  /** Once a step raises, nothing after it runs. */
  lemma {:induction false} ChainStops(parts: seq<(seq<Command>, Option<Fault>)>, k: nat)
    requires k <= |parts| && Chain(parts[..k]).1.Some?
    ensures Chain(parts) == Chain(parts[..k])
    decreases |parts|
  {
    if k == |parts| {
      assert parts[..k] == parts;
    } else {
      var n := |parts| - 1;
      assert parts[..n][..k] == parts[..k];
      ChainStops(parts[..n], k);
    }
  }

  /** The samples of one TF plate, one step each. */
  function SampleParts(deck: Deck, maxV: int, p: Plate, order: seq<string>): (parts: seq<(seq<Command>, Option<Fault>)>)
    requires 5 * UL < maxV && forall k :: 0 <= k < |order| ==> SampleFound(deck, order[k])
    ensures |parts| == |order|
  {
    seq(|order|, k requires 0 <= k < |order| => SampleSpot(deck, maxV, p, order[k]))
  }

  /** The plates, one step each: nothing for a plate that is not a TF
      plate, its samples for one that is. */
  function PlateParts(deck: Deck, maxV: int, orders: seq<seq<string>>): (parts: seq<(seq<Command>, Option<Fault>)>)
    requires 5 * UL < maxV && OrdersFound(deck, orders)
    ensures |parts| == |deck.plates|
  {
    seq(|deck.plates|, i requires 0 <= i < |deck.plates| =>
      if deck.plates[i].kind != "TF" then ([], None) else Chain(SampleParts(deck, maxV, deck.plates[i], orders[i])))
  }

  method SpotSample(deck: Deck, p: Plate, sample: string, p20: Pipette, log: Log) returns (fault: Option<Fault>)
    requires p20.name == V2.P20 && p20.Valid() && !p20.hasTip && 20 * UL <= p20.maxVolume
    requires SampleFound(deck, sample)
    modifies p20, log
    ensures log.entries == old(log.entries) + SampleSpot(deck, p20.maxVolume, p, sample).0
    ensures fault == SampleSpot(deck, p20.maxVolume, p, sample).1
    ensures p20.Valid() && !p20.hasTip
  {
    var src := FindMaterialsWell(deck, sample, "DNA", true).well;
    var dests := SpotDests(p, p.data, sample);
    if dests.Failed? {
      assert log.entries == old(log.entries) + [];
      return Some(dests.fault);
    }
    SpotSampleAt(src, dests.value, p20, log);
    fault := None;
  }

  /** Mixing and spotting one sample once its wells are known. */
  method SpotSampleAt(src: Well, dests: seq<Well>, p20: Pipette, log: Log)
    requires p20.name == V2.P20 && p20.Valid() && !p20.hasTip && 20 * UL <= p20.maxVolume
    modifies p20, log
    ensures log.entries == old(log.entries) + SampleSpotPlan(p20.maxVolume, src, dests)
    ensures p20.Valid() && !p20.hasTip
  {
    ghost var log0 := log.entries;
    p20.PickUpTip(log);
    V2.MixRounds(2, 20 * UL, src, p20, log);
    ghost var log1 := log.entries;
    SpottingDispense(p20, src, dests, 4 * UL, log);
    assert log.entries == log1 + SpotRounds(V2.P20, p20.maxVolume, src, dests, 4 * UL, 0, 0);
    ghost var log2 := log.entries;
    p20.DropTip(log);
    ghost var head := [PickUpTip(V2.P20)] + V2.MixPairs(V2.P20, 2, 20 * UL, src);
    assert log1 == log0 + head;
    V2.AppendAssoc(log0, head, SpotRounds(V2.P20, p20.maxVolume, src, dests, 4 * UL, 0, 0));
    V2.AppendAssoc(log0, head + SpotRounds(V2.P20, p20.maxVolume, src, dests, 4 * UL, 0, 0), [DropTip(V2.P20)]);
  }

  method SpotPlate(deck: Deck, p: Plate, order: seq<string>, p20: Pipette, log: Log) returns (fault: Option<Fault>)
    requires p20.name == V2.P20 && p20.Valid() && !p20.hasTip && 20 * UL <= p20.maxVolume
    requires forall k :: 0 <= k < |order| ==> SampleFound(deck, order[k])
    modifies p20, log
    ensures log.entries == old(log.entries) + Chain(SampleParts(deck, p20.maxVolume, p, order)).0
    ensures fault == Chain(SampleParts(deck, p20.maxVolume, p, order)).1
    ensures p20.Valid() && !p20.hasTip
  {
    ghost var parts := SampleParts(deck, p20.maxVolume, p, order);
    for k := 0 to |order|
      invariant log.entries == old(log.entries) + Chain(parts[..k]).0 && Chain(parts[..k]).1 == None
      invariant p20.Valid() && !p20.hasTip
    {
      ghost var logK := log.entries;
      var f := SpotSample(deck, p, order[k], p20, log);
      ChainStep(parts, k);
      V2.AppendAssoc(old(log.entries), Chain(parts[..k]).0, parts[k].0);
      if f.Some? {
        ChainStops(parts, k + 1);
        return f;
      }
    }
    assert parts[..|order|] == parts;
    fault := None;
  }

  /** The spotting loop over the plates: every TF plate, sample by sample. */
  method SpotPlates(deck: Deck, orders: seq<seq<string>>, p20: Pipette, log: Log) returns (fault: Option<Fault>)
    requires p20.name == V2.P20 && p20.Valid() && !p20.hasTip && 20 * UL <= p20.maxVolume
    requires OrdersFound(deck, orders)
    modifies p20, log
    ensures log.entries == old(log.entries) + Chain(PlateParts(deck, p20.maxVolume, orders)).0
    ensures fault == Chain(PlateParts(deck, p20.maxVolume, orders)).1
    ensures p20.Valid() && !p20.hasTip
  {
    ghost var parts := PlateParts(deck, p20.maxVolume, orders);
    for i := 0 to |deck.plates|
      invariant log.entries == old(log.entries) + Chain(parts[..i]).0 && Chain(parts[..i]).1 == None
      invariant p20.Valid() && !p20.hasTip
    {
      var f: Option<Fault> := None;
      if deck.plates[i].kind == "TF" {
        f := SpotPlate(deck, deck.plates[i], orders[i], p20, log);
      } else {
        assert log.entries == log.entries + [];
      }
      ChainStep(parts, i);
      V2.AppendAssoc(old(log.entries), Chain(parts[..i]).0, parts[i].0);
      if f.Some? {
        ChainStops(parts, i + 1);
        return f;
      }
    }
    assert parts[..|deck.plates|] == parts;
    fault := None;
  }

  const TFMaterials: string := "Place down TF-associated materials"

  /** The pause when `Stop_between_reactions` is set, and the p300 set to
      20/20/100 µL/s: what the transformation issues before its first
      lookup. It opens with the pause exactly when the pause is asked for. */
  function PreludeHead(cfg: Setup): (head: seq<Command>)
    ensures head != [] && (head[0] == Pause(TFMaterials) <==> cfg.stop)
    ensures head[|head| - 1] == FlowRate(V2.P300, Rates(20, 20, 100))
  {
    (if cfg.stop then [Pause(TFMaterials)] else []) + [FlowRate(V2.P300, Rates(20, 20, 100))]
  }

  /** The competent cells: mixed twice with 25 µL, then 40 µL distributed
      to the right-hand well of every product. */
  function CompetentCellsPlan(cp: Well, dest: seq<Well>): seq<Command>
  {
    [PickUpTip(V2.P300)] + V2.MixPairs(V2.P300, 2, 25 * UL, cp)
      + [Distribute(V2.P300, 40 * UL, cp, dest, false, false, false), DropTip(V2.P300)]
  }

  /** 5 µL of each product onto its cells, and the heat shock: 42 degrees
      for a minute, then 8 degrees for 100 s. */
  function HeatShockPlan(src: seq<Well>, dest: seq<Well>): seq<Command>
  {
    [TransferPairs(V2.P20, 5 * UL, src, dest), Thermo(CloseLid), Thermo(Profile([(42, 60), (8, 100)], 1)),
     Thermo(OpenLid), Thermo(DeactivateBlock)]
  }

  /** 40 µL of LB to every well, the recovery hold at 37 degrees, and the
      p20 set to 5/5/5 µL/s for spotting. */
  function RecoveryPlan(lb: Well, dest: seq<Well>, recovery: int): seq<Command>
  {
    [Transfer(V2.P300, 40 * UL, lb, dest, false), Thermo(BlockTemperature(37, recovery * 60)),
     FlowRate(V2.P20, Rates(5, 5, 5))]
  }

  /** What the transformation does after its pause and flow rate and before
      spotting, up to the first lookup that raises: the competent cells
      among the tubes, the right-hand well of each sample, the well of each
      sample, and the LB among the tubes. */
  function PreludeSteps(deck: Deck, order: seq<string>, recovery: int): (r: (seq<Command>, Option<Fault>))
    requires SamplesLocated(deck) && SampleOrder(order, deck.plates)
  {
    var cp := FindMaterialsWell(deck, "CPcell", "DW", false);
    if cp.Raised? then ([], Some(cp.fault))
    else
      OrderLocated(deck, order);
      var dest := SampleWells(deck, order, true);
      if dest.Failed? then ([], Some(dest.fault))
      else
        var cells := CompetentCellsPlan(cp.well, dest.value);
        var src := SampleWells(deck, order, false);
        if src.Failed? then (cells, Some(src.fault))
        else
          var shock := cells + HeatShockPlan(src.value, dest.value);
          var lb := FindMaterialsWell(deck, "LB", "DW", false);
          if lb.Raised? then (shock, Some(lb.fault))
          else (shock + RecoveryPlan(lb.well, dest.value, recovery), None)
  }

  /** What the transformation does before spotting. */
  function TransformationPrelude(deck: Deck, cfg: Setup, order: seq<string>): (seq<Command>, Option<Fault>)
    requires SamplesLocated(deck) && SampleOrder(order, deck.plates)
  {
    var steps := PreludeSteps(deck, order, cfg.recovery);
    (PreludeHead(cfg) + steps.0, steps.1)
  }

  /** Whatever it raises, the prelude opens with the pause and flow rate. */
  lemma PreludeOpens(deck: Deck, cfg: Setup, order: seq<string>)
    requires SamplesLocated(deck) && SampleOrder(order, deck.plates)
    ensures var r := TransformationPrelude(deck, cfg, order).0;
      |PreludeHead(cfg)| <= |r| && r[..|PreludeHead(cfg)|] == PreludeHead(cfg)
  {
  }

  /** The transformation gets past its lookups exactly when the competent
      cells and the LB are among the tubes and every sample's right-hand
      well is found. */
  lemma PreludeSucceeds(deck: Deck, cfg: Setup, order: seq<string>)
    requires SamplesLocated(deck) && SampleOrder(order, deck.plates)
    ensures TransformationPrelude(deck, cfg, order).1.None? <==>
      "CPcell" in deck.enzymes && "LB" in deck.enzymes && SamplesFound(deck)
  {
    OrderLocated(deck, order);
    var dest := SampleWells(deck, order, true);
    if dest.Done? {
      forall k | 0 <= k < |order|
        ensures FindMaterialsWell(deck, order[k], "DNA", false).Found?
      {
        RightFoundLeftFound(deck, order[k]);
      }
      forall v | HoldsSample(deck.plates, v)
        ensures SampleFound(deck, v)
      {
        assert v in order;
        var k :| 0 <= k < |order| && order[k] == v;
      }
    } else {
      var k :| 0 <= k < |order| && !FindMaterialsWell(deck, order[k], "DNA", true).Found?;
      assert order[k] in order;
      assert !SampleFound(deck, order[k]);
    }
  }

  /** Competent cells missing from the tubes stop the transformation with
      KeyError before any tip is taken. */
  lemma MissingCellsStop(deck: Deck, cfg: Setup, order: seq<string>)
    requires SamplesLocated(deck) && SampleOrder(order, deck.plates) && "CPcell" !in deck.enzymes
    ensures TransformationPrelude(deck, cfg, order) == (PreludeHead(cfg), Some(KeyError))
  {
    assert PreludeSteps(deck, order, cfg.recovery) == ([], Some(KeyError));
    assert PreludeHead(cfg) + [] == PreludeHead(cfg);
  }

  /** A sample whose right-hand well is not found (ValueError: its well is
      not on the labware; IndexError: it sits in the last column) stops the
      transformation before any tip is taken. */
  lemma UnfoundSampleStops(deck: Deck, cfg: Setup, order: seq<string>, v: string)
    requires SamplesLocated(deck) && SampleOrder(order, deck.plates) && "CPcell" in deck.enzymes
    requires HoldsSample(deck.plates, v) && FindMaterialsWell(deck, v, "DNA", true).Raised?
    ensures var r := TransformationPrelude(deck, cfg, order);
      r.0 == PreludeHead(cfg) && r.1.Some? && r.1.value in {ValueError, IndexError}
  {
    OrderLocated(deck, order);
    assert v in order;
    var dest := SampleWells(deck, order, true);
    assert dest.Failed?;
    var k :| 0 <= k < |order| && FindMaterialsWell(deck, order[k], "DNA", true) == Raised(dest.fault);
    RightWellFaults(deck, order[k]);
  }

  /** LB missing from the tubes stops the transformation with KeyError once
      the products are heat-shocked, before any LB is moved. */
  lemma MissingLBStops(deck: Deck, cfg: Setup, order: seq<string>)
    requires SamplesLocated(deck) && SampleOrder(order, deck.plates)
    requires "CPcell" in deck.enzymes && SamplesFound(deck) && "LB" !in deck.enzymes
    ensures var r := TransformationPrelude(deck, cfg, order);
      r.1 == Some(KeyError) && r.0 != [] && r.0[|r.0| - 1] == Thermo(DeactivateBlock)
  {
    OrderLocated(deck, order);
    forall k | 0 <= k < |order|
      ensures FindMaterialsWell(deck, order[k], "DNA", true).Found?
      ensures FindMaterialsWell(deck, order[k], "DNA", false).Found?
    {
      assert order[k] in order;
      RightFoundLeftFound(deck, order[k]);
    }
    var dest := SampleWells(deck, order, true);
    var src := SampleWells(deck, order, false);
    var cp := FindMaterialsWell(deck, "CPcell", "DW", false);
    var shock := CompetentCellsPlan(cp.well, dest.value) + HeatShockPlan(src.value, dest.value);
    assert PreludeSteps(deck, order, cfg.recovery) == (shock, Some(KeyError));
    var r := PreludeHead(cfg) + shock;
    assert r[|r| - 1] == shock[|shock| - 1];
  }

  /** The transformation part of `run`, for the sample order `order` and
      the per-plate sample orders `orders`: nothing when no TF plate has
      data; otherwise the prelude up to the first lookup that raises, then
      the spotting, and the thermocycler switched off unless a spotting
      step raised. */
  function TransformationPlan(deck: Deck, cfg: Setup, order: seq<string>, orders: seq<seq<string>>, maxV: int)
    : (seq<Command>, Option<Fault>)
    requires 5 * UL < maxV && SamplesLocated(deck) && SampleOrder(order, deck.plates) && PlateOrders(orders, deck.plates)
  {
    if !TransformationWanted(deck.plates) then ([], None)
    else
      var pre := TransformationPrelude(deck, cfg, order);
      if pre.1.Some? then pre
      else
        PreludeSucceeds(deck, cfg, order);
        OrdersFoundFrom(deck, orders);
        var spots := Chain(PlateParts(deck, maxV, orders));
        (pre.0 + spots.0 + (if spots.1.None? then [Thermo(Deactivate)] else []), spots.1)
  }

  method RunTransformation(deck: Deck, cfg: Setup, order: seq<string>, orders: seq<seq<string>>,
                           p20: Pipette, p300: Pipette, log: Log) returns (fault: Option<Fault>)
    requires SamplesLocated(deck) && SampleOrder(order, deck.plates) && PlateOrders(orders, deck.plates)
    requires p20.name == V2.P20 && p300.name == V2.P300 && p20 != p300
    requires p20.Valid() && !p20.hasTip && 20 * UL <= p20.maxVolume
    requires p300.Valid() && !p300.hasTip && 25 * UL <= p300.maxVolume
    modifies p20, p300, log
    ensures log.entries == old(log.entries) + TransformationPlan(deck, cfg, order, orders, p20.maxVolume).0
    ensures fault == TransformationPlan(deck, cfg, order, orders, p20.maxVolume).1
    ensures p20.Valid() && !p20.hasTip && p300.Valid() && !p300.hasTip
  {
    var run := DecideTransformation(deck.plates);
    if !run {
      assert log.entries == old(log.entries) + [];
      return None;
    }
    ghost var log0 := log.entries;
    fault := RunPrelude(deck, cfg, order, p20, p300, log);
    if fault.Some? {
      return;
    }
    PreludeSucceeds(deck, cfg, order);
    OrdersFoundFrom(deck, orders);
    fault := SpotPlates(deck, orders, p20, log);
    ghost var spots := Chain(PlateParts(deck, p20.maxVolume, orders));
    ghost var mid := log.entries;
    if fault.None? {
      log.Thermocycler(Deactivate);
    } else {
      assert log.entries == mid + [];
    }
    ghost var tail := if spots.1.None? then [Thermo(Deactivate)] else [];
    V2.AppendAssoc(log0, TransformationPrelude(deck, cfg, order).0, spots.0);
    V2.AppendAssoc(log0, TransformationPrelude(deck, cfg, order).0 + spots.0, tail);
  }

  method RunPrelude(deck: Deck, cfg: Setup, order: seq<string>, p20: Pipette, p300: Pipette, log: Log)
    returns (fault: Option<Fault>)
    requires SamplesLocated(deck) && SampleOrder(order, deck.plates)
    requires p20.name == V2.P20 && p300.name == V2.P300 && p20 != p300
    requires p20.Valid() && !p20.hasTip
    requires p300.Valid() && !p300.hasTip && 25 * UL <= p300.maxVolume
    modifies p20, p300, log
    ensures log.entries == old(log.entries) + TransformationPrelude(deck, cfg, order).0
    ensures fault == TransformationPrelude(deck, cfg, order).1
    ensures p20.Valid() && !p20.hasTip && p300.Valid() && !p300.hasTip
  {
    ghost var log0 := log.entries;
    RunPreludeHead(cfg, p300, log);
    fault := RunPreludeSteps(deck, order, cfg.recovery, p20, p300, log);
    V2.AppendAssoc(log0, PreludeHead(cfg), PreludeSteps(deck, order, cfg.recovery).0);
  }

  method RunPreludeSteps(deck: Deck, order: seq<string>, recovery: int, p20: Pipette, p300: Pipette, log: Log)
    returns (fault: Option<Fault>)
    requires SamplesLocated(deck) && SampleOrder(order, deck.plates)
    requires p20.name == V2.P20 && p300.name == V2.P300 && p20 != p300
    requires p20.Valid() && !p20.hasTip
    requires p300.Valid() && !p300.hasTip && 25 * UL <= p300.maxVolume
    modifies p20, p300, log
    ensures log.entries == old(log.entries) + PreludeSteps(deck, order, recovery).0
    ensures fault == PreludeSteps(deck, order, recovery).1
    ensures p20.Valid() && !p20.hasTip && p300.Valid() && !p300.hasTip
  {
    ghost var log0 := log.entries;
    var cp := FindMaterialsWell(deck, "CPcell", "DW", false);
    if cp.Raised? {
      assert log.entries == log0 + [];
      return Some(cp.fault);
    }
    var samples := CollectSamples(deck.plates);
    assert forall v :: v in order <==> v in samples;
    OrderLocated(deck, order);
    var dest := SampleWells(deck, order, true);
    if dest.Failed? {
      assert log.entries == log0 + [];
      return Some(dest.fault);
    }
    RunCompetentCells(cp.well, dest.value, p300, log);
    ghost var cells := CompetentCellsPlan(cp.well, dest.value);
    var src := SampleWells(deck, order, false);
    if src.Failed? {
      return Some(src.fault);
    }
    RunHeatShock(src.value, dest.value, p20, log);
    V2.AppendAssoc(log0, cells, HeatShockPlan(src.value, dest.value));
    ghost var shock := cells + HeatShockPlan(src.value, dest.value);
    var lb := FindMaterialsWell(deck, "LB", "DW", false);
    if lb.Raised? {
      return Some(lb.fault);
    }
    RunRecovery(lb.well, dest.value, recovery, p20, p300, log);
    V2.AppendAssoc(log0, shock, RecoveryPlan(lb.well, dest.value, recovery));
    fault := None;
  }

  method RunPreludeHead(cfg: Setup, p300: Pipette, log: Log)
    requires p300.name == V2.P300 && p300.Valid()
    modifies p300, log
    ensures log.entries == old(log.entries) + PreludeHead(cfg)
    ensures p300.Valid() && p300.hasTip == old(p300.hasTip)
  {
    ghost var log0 := log.entries;
    if cfg.stop {
      log.PauseRun(TFMaterials);
    } else {
      assert log.entries == log0 + [];
    }
    ghost var pause := log.entries;
    p300.SetFlowRate(Some(20), Some(20), Some(100), log);
    V2.AppendAssoc(log0, if cfg.stop then [Pause(TFMaterials)] else [], [FlowRate(V2.P300, Rates(20, 20, 100))]);
  }

  method RunCompetentCells(cp: Well, dest: seq<Well>, p300: Pipette, log: Log)
    requires p300.name == V2.P300 && p300.Valid() && !p300.hasTip && 25 * UL <= p300.maxVolume
    modifies p300, log
    ensures log.entries == old(log.entries) + CompetentCellsPlan(cp, dest)
    ensures p300.Valid() && !p300.hasTip
  {
    ghost var log0 := log.entries;
    p300.PickUpTip(log);
    V2.MixRounds(2, 25 * UL, cp, p300, log);
    ghost var mix := V2.MixPairs(V2.P300, 2, 25 * UL, cp);
    p300.Distribute(40 * UL, cp, dest, false, false, false, log);
    p300.DropTip(log);
    V2.AppendAssoc(log0, [PickUpTip(V2.P300)], mix);
    V2.AppendAssoc(log0, [PickUpTip(V2.P300)] + mix, [Distribute(V2.P300, 40 * UL, cp, dest, false, false, false), DropTip(V2.P300)]);
  }

  method RunHeatShock(src: seq<Well>, dest: seq<Well>, p20: Pipette, log: Log)
    requires p20.name == V2.P20
    modifies log
    ensures log.entries == old(log.entries) + HeatShockPlan(src, dest)
  {
    p20.TransferEach(5 * UL, src, dest, log);
    log.Thermocycler(CloseLid);
    log.Thermocycler(Profile([(42, 60), (8, 100)], 1));
    log.Thermocycler(OpenLid);
    log.Thermocycler(DeactivateBlock);
  }

  method RunRecovery(lb: Well, dest: seq<Well>, recovery: int, p20: Pipette, p300: Pipette, log: Log)
    requires p20.name == V2.P20 && p300.name == V2.P300 && p20 != p300 && p20.Valid()
    modifies p20, log
    ensures log.entries == old(log.entries) + RecoveryPlan(lb, dest, recovery)
    ensures p20.Valid() && p20.hasTip == old(p20.hasTip)
  {
    p300.Transfer(40 * UL, lb, dest, false, log);
    log.Thermocycler(BlockTemperature(37, recovery * 60));
    p20.SetFlowRate(Some(5), Some(5), Some(5), log);
  }

  /** The transformation issues nothing exactly when no TF plate has data;
      when it runs, it opens with the pause for the TF materials exactly
      when `Stop_between_reactions` is set, whatever it raises later. */
  lemma TransformationGate(deck: Deck, cfg: Setup, order: seq<string>, orders: seq<seq<string>>, maxV: int)
    requires 5 * UL < maxV && SamplesLocated(deck) && SampleOrder(order, deck.plates) && PlateOrders(orders, deck.plates)
    ensures TransformationPlan(deck, cfg, order, orders, maxV).0 == [] <==> !TransformationWanted(deck.plates)
    ensures TransformationWanted(deck.plates) ==>
      (TransformationPlan(deck, cfg, order, orders, maxV).0[0] == Pause(TFMaterials) <==> cfg.stop)
  {
    if TransformationWanted(deck.plates) {
      var pre := TransformationPrelude(deck, cfg, order).0;
      PreludeOpens(deck, cfg, order);
      assert pre[0] == pre[..|PreludeHead(cfg)|][0];
      var plan := TransformationPlan(deck, cfg, order, orders, maxV).0;
      assert plan[0] == pre[0];
    }
  }

  /** `run`: the reactions, then, unless they raised, the transformation. */
  function ProtocolPlan(names: map<string, Well>, deck: Deck, cfg: Setup, order: seq<string>, orders: seq<seq<string>>,
                        maxV: int): (seq<Command>, Option<Fault>)
    requires 5 * UL < maxV && SamplesLocated(deck) && SampleOrder(order, deck.plates) && PlateOrders(orders, deck.plates)
  {
    var r := ReactionsPlan(names, cfg);
    if r.1.Some? then r
    else
      var t := TransformationPlan(deck, cfg, order, orders, maxV);
      (r.0 + t.0, t.1)
  }

  method RunProtocol(deck: Deck, ghost names: map<string, Well>, cfg: Setup, order: seq<string>, orders: seq<seq<string>>,
                     p20: Pipette, p300: Pipette, log: Log) returns (fault: Option<Fault>)
    requires forall k :: 0 <= k < |cfg.reactions| && k < 2 ==> ReactionReady(deck, names, cfg, cfg.reactions[k])
    requires SamplesLocated(deck) && SampleOrder(order, deck.plates) && PlateOrders(orders, deck.plates)
    requires p20.name == V2.P20 && p300.name == V2.P300 && p20 != p300
    requires p20.Valid() && !p20.hasTip && 20 * UL <= p20.maxVolume
    requires p300.Valid() && !p300.hasTip && 25 * UL <= p300.maxVolume
    modifies p20, p300, log
    ensures log.entries == old(log.entries) + ProtocolPlan(names, deck, cfg, order, orders, p20.maxVolume).0
    ensures fault == ProtocolPlan(names, deck, cfg, order, orders, p20.maxVolume).1
  {
    fault := RunReactions(deck, names, cfg, p20, p300, log);
    if fault.Some? {
      return;
    }
    ghost var mid := log.entries;
    fault := RunTransformation(deck, cfg, order, orders, p20, p300, log);
    V2.AppendAssoc(old(log.entries), ReactionsPlan(names, cfg).0, TransformationPlan(deck, cfg, order, orders, p20.maxVolume).0);
  }
}
