/** The Golden Gate assembly template of protocol/tes2.py: the assembly list
    it is generated with, the number of wells one enzyme draw serves, the
    chunked enzyme distribution, the `enzyme_transfer` helper, and the loop
    that moves every part into its assembly well. */
module GoldenGate {
  import opened Robot
  import opened Params
  import V2 = ProtocolV2

  /** The labware the assemblies are built in, on the thermocycler. */
  const AssemblyPlate: string := "assemble_plate"

  /** `enz_mix = EXT['D1']`. */
  const EnzymeMix: Well := Well("EXT", "D1")

  // ---------------------------------------------------------------------
  // meta_data and well_data

  /** A part of an assembly: the well and labware it sits in and the volume
      to take. */
  datatype Part = Part(well: string, vol: int, dil: int, plate: string)

  /** One assembly of the generated list: its parts, keyed by the number
      in their keys "part0", "part1", ..., beside a "meta" entry naming the
      construct (so `len(data) - 1` is the number of parts). */
  datatype Assembly = Assembly(parts: map<nat, Part>, name: string)

  /** An item of `meta_data`: an assembly, or the final list of plate names. */
  datatype MetaItem = AssemblyItem(assembly: Assembly) | PlateNames(names: seq<string>)

  /** `well_data = meta_data[:-1]`: the list without its last item. */
  function WellData(meta: seq<MetaItem>): (r: seq<MetaItem>)
    ensures |meta| == 0 ==> r == []
    ensures |meta| > 0 ==> |r| == |meta| - 1 && meta == r + [meta[|meta| - 1]]
  {
    if |meta| == 0 then [] else meta[..|meta| - 1]
  }

  /** When the list ends with the plate names and holds assemblies before
      them, `well_data` is exactly the assemblies. */
  lemma WellDataIsAssemblies(meta: seq<MetaItem>)
    requires |meta| > 0 && meta[|meta| - 1].PlateNames?
    requires forall i :: 0 <= i < |meta| - 1 ==> meta[i].AssemblyItem?
    ensures forall x :: x in WellData(meta) <==> x in meta && x.AssemblyItem?
  {
    forall x | x in meta && x.AssemblyItem?
      ensures x in WellData(meta)
    {
      var i :| 0 <= i < |meta| && meta[i] == x;
      assert i < |meta| - 1;
      assert WellData(meta)[i] == x;
    }
  }

  // ---------------------------------------------------------------------
  // enz_dis_num

  /** `enz_dis_num`: 4 when 19.5 µL holds more than four doses of
      `enzVol`, otherwise as many whole doses as it holds. */
  function EnzDisNum(enzVol: int): (k: int)
    requires 0 < enzVol
    ensures 0 <= k <= 4
    ensures k * enzVol <= 1950
    ensures k < 4 ==> 1950 < (k + 1) * enzVol
    ensures 1 <= k <==> enzVol <= 1950
  {
    if 1950 > 4 * enzVol then 4 else 1950 / enzVol
  }

  /** The template's own dose, 4 µL, serves four wells per draw, and a draw
      with its 0.5 µL excess fits the 20 µL pipette. */
  lemma ProtocolDisNum()
    ensures EnzDisNum(4 * UL) == 4 && 4 * UL * EnzDisNum(4 * UL) + 50 <= 20 * UL
  {
  }

  // ---------------------------------------------------------------------
  // The enzyme distribution loop

  function Min(a: nat, b: nat): nat
  {
    if a < b then a else b
  }

  /** `s[lo:hi]` with Python's clamping of both ends. */
  function Slice<T>(s: seq<T>, lo: nat, hi: nat): (r: seq<T>)
    ensures |r| == if lo < |s| && lo <= hi then Min(hi, |s|) - lo else 0
    ensures forall i :: 0 <= i < |r| ==> lo + i < |s| && r[i] == s[lo + i]
  {
    var a := Min(lo, |s|);
    var b := Min(hi, |s|);
    if a <= b then s[a..b] else []
  }

  lemma SliceSplit<T>(s: seq<T>, lo: nat, mid: nat, hi: nat)
    requires lo <= mid <= hi
    ensures Slice(s, lo, hi) == Slice(s, lo, mid) + Slice(s, mid, hi)
  {
    var a, b, c := Min(lo, |s|), Min(mid, |s|), Min(hi, |s|);
    assert s[a..c] == s[a..b] + s[b..c];
  }

  /** The rest of a list is its next `k` items and what follows them. */
  lemma SliceRest<T>(s: seq<T>, n: nat, k: nat)
    ensures Slice(s, n, |s|) == Slice(s, n, n + k) + Slice(s, n + k, |s|)
  {
    if n + k <= |s| {
      SliceSplit(s, n, n + k, |s|);
    } else {
      assert Slice(s, n + k, |s|) == [];
      assert Slice(s, n, |s|) == Slice(s, n, n + k);
    }
  }

  /** The wells of the assembly plate in the library's order. */
  function PlateWells(): (ws: seq<Well>)
    ensures |ws| == 96
  {
    seq(96, i requires 0 <= i < 96 => Well(AssemblyPlate, StandardWells()[i]))
  }

  /** `dest_wells = assemble_plate.wells()[:len(well_data)]`. */
  function DestWells(count: nat): (ws: seq<Well>)
    ensures |ws| == Min(count, 96)
  {
    Slice(PlateWells(), 0, count)
  }

  /** The wells the pass from `n` serves: `dest_wells[n:]` when a whole
      chunk would run past `len(well_data)`, else `dest_wells[n:n+k]`;
      either way the next `k` wells that there are. */
  function Chunk(dest: seq<Well>, count: nat, n: nat, k: nat): (c: seq<Well>)
    ensures |dest| <= count ==> c == Slice(dest, n, n + k)
  {
    if n + k > count then Slice(dest, n, |dest|) else Slice(dest, n, n + k)
  }

  /** One dispense of `vol` into each well, in order. */
  function Dispenses(name: string, vol: int, wells: seq<Well>): (r: seq<Command>)
    ensures |r| == |wells|
  {
    seq(|wells|, i requires 0 <= i < |wells| => Dispense(name, vol, wells[i]))
  }

  /** One pass of the loop: a tip unless one is held, aspirate and dispense
      rates of 3 µL/s, a draw of `k` doses and 0.5 µL, a move to the top of
      the tube, one dose per well of the chunk, and the tip dropped. */
  function PassPlan(name: string, chunk: seq<Well>, enzVol: int, k: int, r: Rates, held: bool): seq<Command>
  {
    (if held then [] else [PickUpTip(name)])
      + [FlowRate(name, Rates(3, r.dispense, r.blowOut)), FlowRate(name, Rates(3, 3, r.blowOut)),
         Aspirate(name, enzVol * k + 50, EnzymeMix), MoveTo(name, EnzymeMix)]
      + Dispenses(name, enzVol, chunk) + [DropTip(name)]
  }

  /** The rates every pass leaves behind. */
  function PassRates(r: Rates): Rates
  {
    Rates(3, 3, r.blowOut)
  }

  /** The loop as written: `n` goes 0, `k`, `2k`, and the test `n > k`
      stops it after the second pass. */
  function DistributionAsWritten(name: string, dest: seq<Well>, count: nat, enzVol: int, k: nat, r: Rates, held: bool)
    : seq<Command>
  {
    PassPlan(name, Chunk(dest, count, 0, k), enzVol, k, r, held)
      + PassPlan(name, Chunk(dest, count, k, k), enzVol, k, PassRates(r), false)
  }

  /** The loop stopped once `n` reaches `len(well_data)` instead: passes
      from `n` on, `k` wells apart. */
  function DistributionFrom(name: string, dest: seq<Well>, count: nat, enzVol: int, k: nat, n: nat, r: Rates, held: bool)
    : seq<Command>
    requires 0 < k
    decreases count - n
  {
    PassPlan(name, Chunk(dest, count, n, k), enzVol, k, r, held)
      + (if n + k >= count then [] else DistributionFrom(name, dest, count, enzVol, k, n + k, PassRates(r), false))
  }

  lemma DistributionFromStep(name: string, dest: seq<Well>, count: nat, enzVol: int, k: nat, n: nat, r: Rates, held: bool)
    requires 0 < k
    ensures DistributionFrom(name, dest, count, enzVol, k, n, r, held)
      == PassPlan(name, Chunk(dest, count, n, k), enzVol, k, r, held)
         + (if n + k >= count then [] else DistributionFrom(name, dest, count, enzVol, k, n + k, PassRates(r), false))
  {
  }

  lemma DoseLeft(dose: int, i: int, k: int)
    requires 0 < dose && 0 <= i < k
    ensures dose <= dose * (k - i)
  {
    var m := k - i - 1;
    assert dose * (k - i) == dose * m + dose;
  }

  /** One pass: the body of the `while(1)` loop up to `n += enz_dis_num`. */
  method RunPass(p: Pipette, chunk: seq<Well>, enzVol: int, k: int, log: Log)
    requires p.Valid() && p.currentVolume == 0 && 0 < enzVol && 0 <= k && enzVol * k + 50 <= p.maxVolume
    requires |chunk| <= k
    modifies p, log
    ensures log.entries == old(log.entries) + PassPlan(p.name, chunk, enzVol, k, old(p.rates), old(p.hasTip))
    ensures p.Valid() && !p.hasTip && p.currentVolume == 0 && p.rates == PassRates(old(p.rates))
  {
    ghost var r0 := p.rates;
    ghost var log0 := log.entries;
    if !p.hasTip {
      p.PickUpTip(log);
    }
    ghost var pick := if old(p.hasTip) then [] else [PickUpTip(p.name)];
    assert log.entries == log0 + pick;
    p.SetFlowRate(Some(3), None, None, log);
    p.SetFlowRate(None, Some(3), None, log);
    p.Aspirate(enzVol * k + 50, EnzymeMix, log);
    p.MoveTo(EnzymeMix, log);
    ghost var head := [FlowRate(p.name, Rates(3, r0.dispense, r0.blowOut)), FlowRate(p.name, Rates(3, 3, r0.blowOut)),
                       Aspirate(p.name, enzVol * k + 50, EnzymeMix), MoveTo(p.name, EnzymeMix)];
    assert log.entries == log0 + pick + head;
    DispenseChunk(p, chunk, enzVol, k, log);
    p.DropTip(log);
    V2.AppendAssoc(log0, pick, head);
    V2.AppendAssoc(log0 + pick, head, Dispenses(p.name, enzVol, chunk));
  }

  /** `for well in dest_wells[n : n + enz_dis_num]`: one dose into each
      well of the chunk, from the tip filled for the whole pass. */
  method DispenseChunk(p: Pipette, chunk: seq<Well>, enzVol: int, k: int, log: Log)
    requires p.Valid() && p.hasTip && 0 < enzVol && |chunk| <= k && p.currentVolume == enzVol * k + 50
    modifies p, log
    ensures log.entries == old(log.entries) + Dispenses(p.name, enzVol, chunk)
    ensures p.Valid() && p.hasTip && p.rates == old(p.rates) && p.currentVolume == enzVol * (k - |chunk|) + 50
  {
    ghost var log1 := log.entries;
    for i := 0 to |chunk|
      invariant p.Valid() && p.hasTip && p.rates == old(p.rates)
      invariant p.currentVolume == enzVol * (k - i) + 50
      invariant log.entries == log1 + Dispenses(p.name, enzVol, chunk[..i])
    {
      DoseLeft(enzVol, i, k);
      p.Dispense(enzVol, chunk[i], log);
      assert Dispenses(p.name, enzVol, chunk[..i + 1]) == Dispenses(p.name, enzVol, chunk[..i]) + [Dispense(p.name, enzVol, chunk[i])];
    }
    assert chunk[..|chunk|] == chunk;
  }

  /** The enzyme distribution as written: `while(1)` over chunks of
      `enz_dis_num` wells, leaving once `n > enz_dis_num`. */
  method DistributeEnzymeAsWritten(p: Pipette, dest: seq<Well>, count: nat, enzVol: int, log: Log)
    requires p.Valid() && p.currentVolume == 0 && 20 * UL <= p.maxVolume
    requires 0 < enzVol <= 1950 && |dest| <= count
    modifies p, log
    ensures log.entries == old(log.entries)
      + DistributionAsWritten(p.name, dest, count, enzVol, EnzDisNum(enzVol), old(p.rates), old(p.hasTip))
    ensures p.Valid() && !p.hasTip && p.currentVolume == 0 && p.rates == PassRates(old(p.rates))
  {
    var k := EnzDisNum(enzVol);
    ghost var r0, held0, log0 := p.rates, p.hasTip, log.entries;
    ghost var first := PassPlan(p.name, Chunk(dest, count, 0, k), enzVol, k, r0, held0);
    var n := 0;
    while true
      invariant n == 0 || n == k
      invariant p.Valid() && p.currentVolume == 0
      invariant n == 0 ==> log.entries == log0 && p.rates == r0 && p.hasTip == held0
      invariant n == k ==> log.entries == log0 + first && !p.hasTip && p.rates == PassRates(r0)
      decreases 2 * k - n
    {
      var chunk := Chunk(dest, count, n, k);
      RunPass(p, chunk, enzVol, k, log);
      n := n + k;
      if n > k {
        V2.AppendAssoc(log0, first, PassPlan(p.name, chunk, enzVol, k, PassRates(r0), false));
        break;
      }
    }
  }

  /** The enzyme distribution with the loop left once `n` reaches
      `len(well_data)`. */
  method DistributeEnzyme(p: Pipette, dest: seq<Well>, count: nat, enzVol: int, log: Log)
    requires p.Valid() && p.currentVolume == 0 && 20 * UL <= p.maxVolume
    requires 0 < enzVol <= 1950 && |dest| <= count
    modifies p, log
    ensures log.entries == old(log.entries)
      + DistributionFrom(p.name, dest, count, enzVol, EnzDisNum(enzVol), 0, old(p.rates), old(p.hasTip))
    ensures p.Valid() && !p.hasTip && p.currentVolume == 0 && p.rates == PassRates(old(p.rates))
  {
    var k := EnzDisNum(enzVol);
    ghost var r0, log0 := p.rates, log.entries;
    ghost var total := DistributionFrom(p.name, dest, count, enzVol, k, 0, r0, p.hasTip);
    var n := 0;
    while true
      invariant n == 0 || n < count
      invariant p.Valid() && p.currentVolume == 0
      invariant n == 0 ==> log.entries == log0 && p.rates == r0 && p.hasTip == old(p.hasTip)
      invariant n > 0 ==> !p.hasTip && p.rates == PassRates(r0)
      invariant log0 + total == log.entries + DistributionFrom(p.name, dest, count, enzVol, k, n, p.rates, p.hasTip)
      decreases count - n
    {
      var chunk := Chunk(dest, count, n, k);
      ghost var logN, rN, heldN, m := log.entries, p.rates, p.hasTip, n;
      ghost var left := DistributionFrom(p.name, dest, count, enzVol, k, m, rN, heldN);
      assert log0 + total == logN + left;
      DistributionPass(p, dest, count, enzVol, k, n, chunk, log);
      n := n + k;
      if n >= count {
        break;
      }
      assert logN + left == log.entries + DistributionFrom(p.name, dest, count, enzVol, k, n, p.rates, false);
    }
  }

  /** One pass of the corrected loop, against what is left of the plan. */
  method DistributionPass(p: Pipette, dest: seq<Well>, count: nat, enzVol: int, k: nat, n: nat, chunk: seq<Well>, log: Log)
    requires p.Valid() && p.currentVolume == 0 && 0 < enzVol && 0 < k && enzVol * k + 50 <= p.maxVolume
    requires |dest| <= count && chunk == Chunk(dest, count, n, k)
    modifies p, log
    ensures old(log.entries) + DistributionFrom(p.name, dest, count, enzVol, k, n, old(p.rates), old(p.hasTip))
      == log.entries + (if n + k >= count then [] else DistributionFrom(p.name, dest, count, enzVol, k, n + k, p.rates, false))
    ensures p.Valid() && !p.hasTip && p.currentVolume == 0 && p.rates == PassRates(old(p.rates))
  {
    ghost var logN, r, held := log.entries, p.rates, p.hasTip;
    ghost var rest := if n + k >= count then [] else DistributionFrom(p.name, dest, count, enzVol, k, n + k, PassRates(r), false);
    DistributionFromStep(p.name, dest, count, enzVol, k, n, r, held);
    RunPass(p, chunk, enzVol, k, log);
    V2.AppendAssoc(logN, PassPlan(p.name, chunk, enzVol, k, r, held), rest);
  }

  /** A pass dispenses into its chunk, in order. */
  lemma PassDispensed(name: string, chunk: seq<Well>, enzVol: int, k: int, r: Rates, held: bool)
    ensures Dispensed(PassPlan(name, chunk, enzVol, k, r, held)) == chunk
  {
    var pick: seq<Command> := if held then [] else [PickUpTip(name)];
    var head := [FlowRate(name, Rates(3, r.dispense, r.blowOut)), FlowRate(name, Rates(3, 3, r.blowOut)),
                 Aspirate(name, enzVol * k + 50, EnzymeMix), MoveTo(name, EnzymeMix)];
    DispensesDispensed(name, enzVol, chunk);
    NoDispenses(pick);
    NoDispenses(head);
    NoDispenses([DropTip(name)]);
    DispensedAppend(pick, head);
    DispensedAppend(pick + head, Dispenses(name, enzVol, chunk));
    DispensedAppend(pick + head + Dispenses(name, enzVol, chunk), [DropTip(name)]);
  }

  /** A pass picks up a tip exactly when none is held, always ends by
      dropping it, and leaves aspirate and dispense rates of 3 µL/s. */
  lemma PassTips(name: string, chunk: seq<Well>, enzVol: int, k: int, r: Rates, held: bool)
    ensures var plan := PassPlan(name, chunk, enzVol, k, r, held);
      && (PickUpTip(name) in plan <==> !held)
      && plan[|plan| - 1] == DropTip(name)
      && RatesAfter(r, plan, name) == PassRates(r)
  {
    var pick: seq<Command> := if held then [] else [PickUpTip(name)];
    var rates := [FlowRate(name, Rates(3, r.dispense, r.blowOut)), FlowRate(name, Rates(3, 3, r.blowOut))];
    var disp := Dispenses(name, enzVol, chunk);
    var after := [Aspirate(name, enzVol * k + 50, EnzymeMix), MoveTo(name, EnzymeMix)] + disp + [DropTip(name)];
    var plan := PassPlan(name, chunk, enzVol, k, r, held);
    assert plan == (pick + rates) + after;
    RatesAfterAppend(r, pick + rates, after, name);
    RatesAfterOther(RatesAfter(r, pick + rates, name), after, name);
  }

  lemma {:induction false} DispensesDispensed(name: string, vol: int, wells: seq<Well>)
    ensures Dispensed(Dispenses(name, vol, wells)) == wells
  {
    if wells != [] {
      var n := |wells| - 1;
      DispensesDispensed(name, vol, wells[..n]);
      assert Dispenses(name, vol, wells)[..n] == Dispenses(name, vol, wells[..n]);
    }
  }

  /** A list of commands none of which is a dispense dispenses nowhere. */
  lemma {:induction false} NoDispenses(cmds: seq<Command>)
    requires forall i :: 0 <= i < |cmds| ==> !cmds[i].Dispense?
    ensures Dispensed(cmds) == []
  {
    if cmds != [] {
      NoDispenses(cmds[..|cmds| - 1]);
    }
  }

  /** As written, the enzyme reaches the first `2·enz_dis_num` wells and
      no more, each once and in order. */
  lemma DistributionAsWrittenServes(name: string, dest: seq<Well>, count: nat, enzVol: int, k: nat, r: Rates, held: bool)
    requires |dest| <= count
    ensures Dispensed(DistributionAsWritten(name, dest, count, enzVol, k, r, held)) == Slice(dest, 0, 2 * k)
  {
    PassDispensed(name, Chunk(dest, count, 0, k), enzVol, k, r, held);
    PassDispensed(name, Chunk(dest, count, k, k), enzVol, k, PassRates(r), false);
    DispensedAppend(PassPlan(name, Chunk(dest, count, 0, k), enzVol, k, r, held),
      PassPlan(name, Chunk(dest, count, k, k), enzVol, k, PassRates(r), false));
    SliceSplit(dest, 0, k, 2 * k);
  }

  /** The chunks the passes from `n` on serve, one after the other. */
  ghost function ChunksFrom(dest: seq<Well>, count: nat, k: nat, n: nat): seq<Well>
    requires 0 < k
    decreases count - n
  {
    Chunk(dest, count, n, k) + (if n + k >= count then [] else ChunksFrom(dest, count, k, n + k))
  }

  /** What the passes from `n` on dispense into: their chunks, in order. */
  ghost function DistributionDispensed(name: string, dest: seq<Well>, count: nat, enzVol: int, k: nat, n: nat, r: Rates,
                                       held: bool): (w: seq<Well>)
    requires 0 < k
    decreases count - n
    ensures w == ChunksFrom(dest, count, k, n)
    ensures Dispensed(DistributionFrom(name, dest, count, enzVol, k, n, r, held)) == w
  {
    var chunk := Chunk(dest, count, n, k);
    var pass := PassPlan(name, chunk, enzVol, k, r, held);
    DistributionFromStep(name, dest, count, enzVol, k, n, r, held);
    PassDispensed(name, chunk, enzVol, k, r, held);
    if n + k >= count then
      assert DistributionFrom(name, dest, count, enzVol, k, n, r, held) == pass + [] == pass;
      chunk
    else
      var w := DistributionDispensed(name, dest, count, enzVol, k, n + k, PassRates(r), false);
      DispensedAppend(pass, DistributionFrom(name, dest, count, enzVol, k, n + k, PassRates(r), false));
      chunk + w
  }

  /** When no more than `len(well_data)` wells are given, the chunks from
      `n` on are exactly the wells from `n` on. */
  lemma {:induction false} ChunksCoverRest(dest: seq<Well>, count: nat, k: nat, n: nat)
    requires 0 < k && |dest| <= count
    decreases count - n
    ensures ChunksFrom(dest, count, k, n) == Slice(dest, n, |dest|)
  {
    SliceRest(dest, n, k);
    if n + k >= count {
      assert Slice(dest, n + k, |dest|) == [];
    } else {
      ChunksCoverRest(dest, count, k, n + k);
    }
  }

  /** With the loop stopped when `n` reaches `len(well_data)`, every
      destination well from `n` on gets the enzyme once, in order. */
  lemma DistributionServesAll(name: string, dest: seq<Well>, count: nat, enzVol: int, k: nat, n: nat, r: Rates, held: bool)
    requires 0 < k && |dest| <= count
    ensures Dispensed(DistributionFrom(name, dest, count, enzVol, k, n, r, held)) == Slice(dest, n, |dest|)
  {
    var w := DistributionDispensed(name, dest, count, enzVol, k, n, r, held);
    ChunksCoverRest(dest, count, k, n);
  }

  /** The template's own run: 20 assemblies at 4 µL of enzyme. As written
      only the first 8 wells get enzyme; stopped at `len(well_data)`, all 20. */
  lemma TemplateDistribution(name: string, r: Rates, held: bool)
    ensures |DestWells(20)| == 20
    ensures Dispensed(DistributionAsWritten(name, DestWells(20), 20, 4 * UL, EnzDisNum(4 * UL), r, held))
      == DestWells(20)[..8]
    ensures Dispensed(DistributionFrom(name, DestWells(20), 20, 4 * UL, EnzDisNum(4 * UL), 0, r, held)) == DestWells(20)
  {
    var dest := DestWells(20);
    DistributionAsWrittenServes(name, dest, 20, 4 * UL, 4, r, held);
    DistributionServesAll(name, dest, 20, 4 * UL, 4, 0, r, held);
    assert Slice(dest, 0, 8) == dest[..8];
    assert Slice(dest, 0, |dest|) == dest;
  }

  // ---------------------------------------------------------------------
  // enzyme_transfer

  /** Python's truth test of an optional rate: None and 0 are false. */
  predicate Given(rate: Option<int>)
  {
    rate.Some? && rate.value != 0
  }

  /** The `mix_after` argument: not a list, or a list of repetitions,
      volume and, when it has a third item, the rate to mix at. */
  datatype MixAfter = NoMix | MixList(repetitions: int, volume: int, rate: Option<int>)

  /** The rates once the given `asp_rate` and `dis_rate` are applied. */
  function TransferRates(r: Rates, aspRate: Option<int>, disRate: Option<int>): Rates
  {
    Rates(if Given(aspRate) then aspRate.value else r.aspirate, if Given(disRate) then disRate.value else r.dispense,
          r.blowOut)
  }

  /** One entry per rate that is given. */
  function RateCommands(name: string, aspRate: Option<int>, disRate: Option<int>, r: Rates): seq<Command>
  {
    (if Given(aspRate) then [FlowRate(name, TransferRates(r, aspRate, None))] else [])
      + (if Given(disRate) then [FlowRate(name, TransferRates(r, aspRate, disRate))] else [])
  }

  /** The mix after the transfer, at the list's rate when it has one. */
  function MixCommands(name: string, mix: MixAfter, r: Rates): seq<Command>
  {
    match mix
    case NoMix => []
    case MixList(reps, vol, rate) =>
      (if rate.Some? then [FlowRate(name, Rates(rate.value, r.dispense, r.blowOut)),
                           FlowRate(name, Rates(rate.value, rate.value, r.blowOut))] else [])
        + [Mix(name, reps, vol)]
  }

  /** The move to the top of the source when `top_delay` is set. */
  function TopMove(name: string, src: Well, topDelay: bool): seq<Command>
  {
    if topDelay then [MoveTo(name, src)] else []
  }

  /** Aspirate, the dispense and the extra 1 µL, the mix and the moves. */
  function TransferBodyPlan(name: string, volume: int, src: Well, dest: Well, topDelay: bool, mix: MixAfter, r: Rates)
    : seq<Command>
  {
    [Aspirate(name, volume, src)] + TopMove(name, src, topDelay) + [Dispense(name, volume, dest), Dispense(name, UL, dest)]
      + MixCommands(name, mix, r) + TopMove(name, src, topDelay)
  }

  /** `enzyme_transfer(pipette, volume, src, dest, ...)` from rates `r`,
      with or without a tip held. */
  function EnzymeTransferPlan(name: string, volume: int, src: Well, dest: Well, topDelay: bool,
                              aspRate: Option<int>, disRate: Option<int>, mix: MixAfter, dropTip: bool,
                              r: Rates, held: bool): seq<Command>
  {
    RateCommands(name, aspRate, disRate, r)
      + (if held then [] else [PickUpTip(name)])
      + TransferBodyPlan(name, volume, src, dest, topDelay, mix, TransferRates(r, aspRate, disRate))
      + (if dropTip then [DropTip(name)] else [])
  }

  /** The rates `enzyme_transfer` leaves behind. */
  function RatesAfterTransfer(r: Rates, aspRate: Option<int>, disRate: Option<int>, mix: MixAfter): Rates
  {
    var r2 := TransferRates(r, aspRate, disRate);
    if mix.MixList? && mix.rate.Some? then Rates(mix.rate.value, mix.rate.value, r2.blowOut) else r2
  }

  method EnzymeTransfer(p: Pipette, volume: int, src: Well, dest: Well, topDelay: bool,
                        aspRate: Option<int>, disRate: Option<int>, mix: MixAfter, dropTip: bool, log: Log)
    requires p.Valid() && 0 <= volume && p.currentVolume + volume <= p.maxVolume
    modifies p, log
    ensures log.entries == old(log.entries)
      + EnzymeTransferPlan(p.name, volume, src, dest, topDelay, aspRate, disRate, mix, dropTip, old(p.rates), old(p.hasTip))
    ensures p.Valid() && p.hasTip == !dropTip && p.rates == RatesAfterTransfer(old(p.rates), aspRate, disRate, mix)
    ensures p.currentVolume == if dropTip || old(p.currentVolume) < UL then 0 else old(p.currentVolume) - UL
  {
    ghost var log0, r0 := log.entries, p.rates;
    SetTransferRates(p, aspRate, disRate, log);
    ghost var rates := RateCommands(p.name, aspRate, disRate, r0);
    ghost var pick: seq<Command> := if p.hasTip then [] else [PickUpTip(p.name)];
    if !p.hasTip {
      p.PickUpTip(log);
    }
    assert log.entries == log0 + rates + pick;
    ghost var log1 := log.entries;
    ghost var body := TransferBodyPlan(p.name, volume, src, dest, topDelay, mix, p.rates);
    TransferBody(p, volume, src, dest, topDelay, mix, log);
    ghost var log2 := log.entries;
    ghost var drop: seq<Command> := if dropTip then [DropTip(p.name)] else [];
    if dropTip {
      p.DropTip(log);
    }
    assert log.entries == log2 + drop;
    V2.AppendAssoc(log0, rates, pick);
    V2.AppendAssoc(log0, rates + pick, body);
    V2.AppendAssoc(log0, rates + pick + body, drop);
  }

  /** The `asp_rate` and `dis_rate` arguments, each applied when given. */
  method SetTransferRates(p: Pipette, aspRate: Option<int>, disRate: Option<int>, log: Log)
    requires p.Valid()
    modifies p, log
    ensures log.entries == old(log.entries) + RateCommands(p.name, aspRate, disRate, old(p.rates))
    ensures p.Valid() && p.hasTip == old(p.hasTip) && p.currentVolume == old(p.currentVolume)
    ensures p.rates == TransferRates(old(p.rates), aspRate, disRate)
  {
    if aspRate.Some? && aspRate.value != 0 {
      p.SetFlowRate(aspRate, None, None, log);
    }
    if disRate.Some? && disRate.value != 0 {
      p.SetFlowRate(None, disRate, None, log);
    }
  }

  /** The part of `enzyme_transfer` between picking up and dropping the tip. */
  method TransferBody(p: Pipette, volume: int, src: Well, dest: Well, topDelay: bool, mix: MixAfter, log: Log)
    requires p.Valid() && p.hasTip && 0 <= volume && p.currentVolume + volume <= p.maxVolume
    modifies p, log
    ensures log.entries == old(log.entries) + TransferBodyPlan(p.name, volume, src, dest, topDelay, mix, old(p.rates))
    ensures p.Valid() && p.hasTip
    ensures p.rates == if mix.MixList? && mix.rate.Some? then Rates(mix.rate.value, mix.rate.value, old(p.rates).blowOut)
                       else old(p.rates)
    ensures p.currentVolume == if old(p.currentVolume) < UL then 0 else old(p.currentVolume) - UL
  {
    ghost var r0, log0 := p.rates, log.entries;
    ghost var top := TopMove(p.name, src, topDelay);
    p.Aspirate(volume, src, log);
    if topDelay {
      p.MoveTo(src, log);
    }
    assert log.entries == log0 + ([Aspirate(p.name, volume, src)] + top);
    ghost var log1 := log.entries;
    p.Dispense(volume, dest, log);
    p.Dispense(UL, dest, log);
    ghost var log2 := log.entries;
    assert log2 == log1 + [Dispense(p.name, volume, dest), Dispense(p.name, UL, dest)];
    RunMix(p, mix, log);
    ghost var log3 := log.entries;
    if topDelay {
      p.MoveTo(src, log);
    }
    assert log.entries == log3 + top;
    ghost var front := [Aspirate(p.name, volume, src)] + top + [Dispense(p.name, volume, dest), Dispense(p.name, UL, dest)];
    V2.AppendAssoc(log0, [Aspirate(p.name, volume, src)] + top, [Dispense(p.name, volume, dest), Dispense(p.name, UL, dest)]);
    V2.AppendAssoc(log0, front, MixCommands(p.name, mix, r0));
    V2.AppendAssoc(log0, front + MixCommands(p.name, mix, r0), top);
  }

  /** `mix_after`: when it is a list, its rate (if it has one) for both
      directions, then the mix. */
  method RunMix(p: Pipette, mix: MixAfter, log: Log)
    requires p.Valid() && p.hasTip
    modifies p, log
    ensures log.entries == old(log.entries) + MixCommands(p.name, mix, old(p.rates))
    ensures p.Valid() && p.hasTip && p.currentVolume == old(p.currentVolume)
    ensures p.rates == if mix.MixList? && mix.rate.Some? then Rates(mix.rate.value, mix.rate.value, old(p.rates).blowOut)
                       else old(p.rates)
  {
    if mix.MixList? {
      if mix.rate.Some? {
        p.SetFlowRate(mix.rate, None, None, log);
        p.SetFlowRate(None, mix.rate, None, log);
      }
      p.Mix(mix.repetitions, mix.volume, log);
    }
  }

  /** `enzyme_transfer` dispenses twice into `dest` (the volume, then 1 µL
      more) and nowhere else, whatever its options. */
  lemma EnzymeTransferDispensed(name: string, volume: int, src: Well, dest: Well, topDelay: bool,
                                aspRate: Option<int>, disRate: Option<int>, mix: MixAfter, dropTip: bool, r: Rates, held: bool)
    ensures Dispensed(EnzymeTransferPlan(name, volume, src, dest, topDelay, aspRate, disRate, mix, dropTip, r, held))
      == [dest, dest]
  {
    var rates := RateCommands(name, aspRate, disRate, r);
    var pick: seq<Command> := if held then [] else [PickUpTip(name)];
    var drop: seq<Command> := if dropTip then [DropTip(name)] else [];
    var body := TransferBodyPlan(name, volume, src, dest, topDelay, mix, TransferRates(r, aspRate, disRate));
    HeadDispensesNothing(name, aspRate, disRate, r, held);
    DropDispensesNothing(name, dropTip);
    BodyDispensed(name, volume, src, dest, topDelay, mix, TransferRates(r, aspRate, disRate));
    DispensedAppend(rates + pick, body);
    DispensedAppend(rates + pick + body, drop);
  }

  lemma HeadDispensesNothing(name: string, aspRate: Option<int>, disRate: Option<int>, r: Rates, held: bool)
    ensures Dispensed(RateCommands(name, aspRate, disRate, r) + (if held then [] else [PickUpTip(name)])) == []
  {
    NoDispenses(RateCommands(name, aspRate, disRate, r) + (if held then [] else [PickUpTip(name)]));
  }

  lemma DropDispensesNothing(name: string, dropTip: bool)
    ensures Dispensed(if dropTip then [DropTip(name)] else []) == []
  {
    NoDispenses(if dropTip then [DropTip(name)] else []);
  }

  lemma BodyDispensed(name: string, volume: int, src: Well, dest: Well, topDelay: bool, mix: MixAfter, r: Rates)
    ensures Dispensed(TransferBodyPlan(name, volume, src, dest, topDelay, mix, r)) == [dest, dest]
  {
    var front := [Aspirate(name, volume, src)] + TopMove(name, src, topDelay);
    var disp := [Dispense(name, volume, dest), Dispense(name, UL, dest)];
    var mixes := MixCommands(name, mix, r);
    var top := TopMove(name, src, topDelay);
    QuietPieces(name, volume, src, topDelay, mix, r);
    TwoDispenses(name, volume, dest);
    DispensedAppend(front, disp);
    DispensedAppend(front + disp, mixes);
    DispensedAppend(front + disp + mixes, top);
  }

  /** The parts of a transfer around its two dispenses dispense nothing. */
  lemma QuietPieces(name: string, volume: int, src: Well, topDelay: bool, mix: MixAfter, r: Rates)
    ensures Dispensed([Aspirate(name, volume, src)] + TopMove(name, src, topDelay)) == []
    ensures Dispensed(MixCommands(name, mix, r)) == []
    ensures Dispensed(TopMove(name, src, topDelay)) == []
  {
    var top := TopMove(name, src, topDelay);
    assert forall i :: 0 <= i < |top| ==> top[i] == MoveTo(name, src);
    NoDispenses([Aspirate(name, volume, src)] + top);
    NoDispenses(top);
    MixQuiet(name, mix, r);
  }

  lemma MixQuiet(name: string, mix: MixAfter, r: Rates)
    ensures Dispensed(MixCommands(name, mix, r)) == []
  {
    var mixes := MixCommands(name, mix, r);
    assert forall i :: 0 <= i < |mixes| ==> mixes[i].FlowRate? || mixes[i].Mix?;
    NoDispenses(mixes);
  }

  lemma TwoDispenses(name: string, volume: int, dest: Well)
    ensures Dispensed([Dispense(name, volume, dest), Dispense(name, UL, dest)]) == [dest, dest]
  {
    var disp := [Dispense(name, volume, dest), Dispense(name, UL, dest)];
    assert disp[..1] == [Dispense(name, volume, dest)];
    assert disp[..1][..0] == [];
    assert Dispensed(disp[..1]) == [dest];
  }

  /** `enzyme_transfer` picks up a tip exactly when none is held. */
  lemma EnzymeTransferPicksUp(name: string, volume: int, src: Well, dest: Well, topDelay: bool,
                              aspRate: Option<int>, disRate: Option<int>, mix: MixAfter, dropTip: bool, r: Rates, held: bool)
    ensures PickUpTip(name) in EnzymeTransferPlan(name, volume, src, dest, topDelay, aspRate, disRate, mix, dropTip, r, held)
      <==> !held
  {
    var rates := RateCommands(name, aspRate, disRate, r);
    var pick: seq<Command> := if held then [] else [PickUpTip(name)];
    var body := TransferBodyPlan(name, volume, src, dest, topDelay, mix, TransferRates(r, aspRate, disRate));
    var drop: seq<Command> := if dropTip then [DropTip(name)] else [];
    RateCommandsOnlyRates(name, aspRate, disRate, r);
    BodyKeepsTip(name, volume, src, dest, topDelay, mix, TransferRates(r, aspRate, disRate));
    InConcat(rates, pick, body, drop);
  }

  /** `enzyme_transfer` ends by dropping its tip exactly when `drop_tip` is
      set. */
  lemma EnzymeTransferDrops(name: string, volume: int, src: Well, dest: Well, topDelay: bool,
                            aspRate: Option<int>, disRate: Option<int>, mix: MixAfter, dropTip: bool, r: Rates, held: bool)
    ensures var plan := EnzymeTransferPlan(name, volume, src, dest, topDelay, aspRate, disRate, mix, dropTip, r, held);
      plan[|plan| - 1] == DropTip(name) <==> dropTip
  {
    var rates := RateCommands(name, aspRate, disRate, r);
    var pick: seq<Command> := if held then [] else [PickUpTip(name)];
    var body := TransferBodyPlan(name, volume, src, dest, topDelay, mix, TransferRates(r, aspRate, disRate));
    var drop: seq<Command> := if dropTip then [DropTip(name)] else [];
    BodyKeepsTip(name, volume, src, dest, topDelay, mix, TransferRates(r, aspRate, disRate));
    LastOfConcat(rates + pick, body, drop);
  }

  /** `enzyme_transfer` aspirates only `volume`, and only from `src`. */
  lemma EnzymeTransferAspirates(name: string, volume: int, src: Well, dest: Well, topDelay: bool,
                                aspRate: Option<int>, disRate: Option<int>, mix: MixAfter, dropTip: bool, r: Rates, held: bool)
    ensures forall c :: (c in EnzymeTransferPlan(name, volume, src, dest, topDelay, aspRate, disRate, mix, dropTip, r, held)
      && c.Aspirate?) ==> c == Aspirate(name, volume, src)
  {
    var rates := RateCommands(name, aspRate, disRate, r);
    var pick: seq<Command> := if held then [] else [PickUpTip(name)];
    var body := TransferBodyPlan(name, volume, src, dest, topDelay, mix, TransferRates(r, aspRate, disRate));
    var drop: seq<Command> := if dropTip then [DropTip(name)] else [];
    RateCommandsOnlyRates(name, aspRate, disRate, r);
    BodyKeepsTip(name, volume, src, dest, topDelay, mix, TransferRates(r, aspRate, disRate));
    InConcat(rates, pick, body, drop);
  }

  /** The last item of `a + b + c`, with `b` non-empty and `c` empty or
      one item. */
  lemma LastOfConcat<T>(a: seq<T>, b: seq<T>, c: seq<T>)
    requires |b| > 0 && |c| <= 1
    ensures (a + b + c)[|a + b + c| - 1] == if c == [] then b[|b| - 1] else c[0]
  {
  }

  lemma RateCommandsOnlyRates(name: string, aspRate: Option<int>, disRate: Option<int>, r: Rates)
    ensures forall c :: c in RateCommands(name, aspRate, disRate, r) ==> c.FlowRate?
  {
  }

  /** The body of a transfer neither takes nor drops a tip, ends on neither,
      and aspirates only `volume` from `src`. */
  lemma BodyKeepsTip(name: string, volume: int, src: Well, dest: Well, topDelay: bool, mix: MixAfter, r: Rates)
    ensures var body := TransferBodyPlan(name, volume, src, dest, topDelay, mix, r);
      && |body| > 0
      && (forall c :: c in body ==> !c.PickUpTip? && !c.DropTip? && (c.Aspirate? ==> c == Aspirate(name, volume, src)))
  {
    var front := [Aspirate(name, volume, src)] + TopMove(name, src, topDelay);
    var disp := [Dispense(name, volume, dest), Dispense(name, UL, dest)];
    var mixes := MixCommands(name, mix, r);
    var top := TopMove(name, src, topDelay);
    assert forall c :: c in mixes ==> c.FlowRate? || c.Mix?;
    assert forall c :: c in front + disp + mixes + top <==> c in front || c in disp || c in mixes || c in top;
  }

  /** Membership in four lists joined together. */
  lemma InConcat<T>(a: seq<T>, b: seq<T>, c: seq<T>, d: seq<T>)
    ensures forall x :: x in a + b + c + d <==> x in a || x in b || x in c || x in d
  {
  }

  /** The rates the plan's own entries leave are the rates the pipette is
      left with. */
  lemma EnzymeTransferRates(name: string, volume: int, src: Well, dest: Well, topDelay: bool,
                            aspRate: Option<int>, disRate: Option<int>, mix: MixAfter, dropTip: bool, r: Rates, held: bool)
    ensures RatesAfter(r, EnzymeTransferPlan(name, volume, src, dest, topDelay, aspRate, disRate, mix, dropTip, r, held), name)
      == RatesAfterTransfer(r, aspRate, disRate, mix)
  {
    var rates := RateCommands(name, aspRate, disRate, r);
    var pick: seq<Command> := if held then [] else [PickUpTip(name)];
    var drop: seq<Command> := if dropTip then [DropTip(name)] else [];
    var r2 := TransferRates(r, aspRate, disRate);
    var body := TransferBodyPlan(name, volume, src, dest, topDelay, mix, r2);
    RateCommandsRates(name, aspRate, disRate, r);
    RatesAfterAppend(r, rates, pick, name);
    RatesAfterOther(r2, pick, name);
    RatesAfterAppend(r, rates + pick, body, name);
    BodyRates(name, volume, src, dest, topDelay, mix, r2);
    RatesAfterAppend(r, rates + pick + body, drop, name);
    RatesAfterOther(RatesAfterTransfer(r, aspRate, disRate, mix), drop, name);
  }

  lemma RateCommandsRates(name: string, aspRate: Option<int>, disRate: Option<int>, r: Rates)
    ensures RatesAfter(r, RateCommands(name, aspRate, disRate, r), name) == TransferRates(r, aspRate, disRate)
  {
    var rates := RateCommands(name, aspRate, disRate, r);
    if Given(disRate) {
      assert rates[|rates| - 1] == FlowRate(name, TransferRates(r, aspRate, disRate));
    } else if Given(aspRate) {
      assert rates == [FlowRate(name, TransferRates(r, aspRate, disRate))];
    } else {
      assert rates == [];
    }
  }

  lemma BodyRates(name: string, volume: int, src: Well, dest: Well, topDelay: bool, mix: MixAfter, r: Rates)
    ensures RatesAfter(r, TransferBodyPlan(name, volume, src, dest, topDelay, mix, r), name)
      == if mix.MixList? && mix.rate.Some? then Rates(mix.rate.value, mix.rate.value, r.blowOut) else r
  {
    var front := [Aspirate(name, volume, src)] + TopMove(name, src, topDelay)
      + [Dispense(name, volume, dest), Dispense(name, UL, dest)];
    var mixes := MixCommands(name, mix, r);
    var top := TopMove(name, src, topDelay);
    assert TransferBodyPlan(name, volume, src, dest, topDelay, mix, r) == front + mixes + top;
    RatesAfterOther(r, front, name);
    RatesAfterAppend(r, front, mixes, name);
    MixRates(name, mix, r);
    RatesAfterAppend(r, front + mixes, top, name);
    RatesAfterOther(RatesAfter(r, front + mixes, name), top, name);
  }

  lemma MixRates(name: string, mix: MixAfter, r: Rates)
    ensures RatesAfter(r, MixCommands(name, mix, r), name)
      == if mix.MixList? && mix.rate.Some? then Rates(mix.rate.value, mix.rate.value, r.blowOut) else r
  {
    var mixes := MixCommands(name, mix, r);
    if mix.MixList? {
      assert mixes[..|mixes| - 1] == (if mix.rate.Some? then [FlowRate(name, Rates(mix.rate.value, r.dispense, r.blowOut)),
                                                            FlowRate(name, Rates(mix.rate.value, mix.rate.value, r.blowOut))]
                                      else []);
    }
  }

  // ---------------------------------------------------------------------
  // Part transfer

  /** The argument of `range`: `range(well_data)` passes the list itself,
      `range(len(well_data))` its length. */
  datatype PyArg = IntArg(n: nat) | ListArg(length: nat)

  /** Python's `range`: a list is not an integer. */
  function Range(arg: PyArg): (r: Outcome<seq<nat>>)
    ensures r.Failed? <==> arg.ListArg?
    ensures r.Failed? ==> r.fault == TypeError
    ensures r.Done? ==> |r.value| == arg.n && forall i :: 0 <= i < |r.value| ==> r.value[i] == i
  {
    match arg
    case IntArg(n) => Done(seq(n, i requires 0 <= i < n => i as nat))
    case ListArg(_) => Failed(TypeError)
  }

  /** One part moved: `vol` from `src` into the assembly's well. */
  datatype Move = Move(src: Well, vol: int, dest: Well)

  /** Part `i2` of an assembly: its key `part{i2}` may be missing (the
      lookup gives None, and subscripting it raises TypeError), its plate
      name may not evaluate to a labware (NameError; a name bound to
      something other than labware is reported the same way), and its well
      may not be on that labware (KeyError). */
  function MoveOf(a: Assembly, i2: nat, racks: map<string, seq<string>>, dest: Well): Outcome<Move>
  {
    if i2 !in a.parts then Failed(TypeError)
    else
      var part := a.parts[i2];
      if part.plate !in racks then Failed(NameError)
      else if part.well !in racks[part.plate] then Failed(KeyError)
      else Done(Move(Well(part.plate, part.well), part.vol, dest))
  }

  /** Assembly `i`: IndexError when the plate has no well `i`, else one
      move per part, `range(len(data) - 1)`. */
  function AssemblyMoves(a: Assembly, i: nat, racks: map<string, seq<string>>): Outcome<seq<Outcome<Move>>>
  {
    if i >= 96 then Failed(IndexError)
    else
      var dest := PlateWells()[i];
      Done(seq(|a.parts|, i2 requires 0 <= i2 < |a.parts| => MoveOf(a, i2, racks, dest)))
  }

  function AllMoves(wellData: seq<Assembly>, racks: map<string, seq<string>>): (ms: seq<Outcome<seq<Outcome<Move>>>>)
    ensures |ms| == |wellData|
  {
    seq(|wellData|, i requires 0 <= i < |wellData| => AssemblyMoves(wellData[i], i, racks))
  }

  /** The rates the part transfer leaves: 5 µL/s both ways. */
  function PartRates(r: Rates): Rates
  {
    Rates(5, 5, r.blowOut)
  }

  /** `enzyme_transfer(p20_sin, vol, src, dest, asp_rate = 5, dis_rate = 5,
      drop_tip = True)` with no tip held. */
  function MovePlan(name: string, m: Move, r: Rates): seq<Command>
  {
    EnzymeTransferPlan(name, m.vol, m.src, m.dest, false, Some(5), Some(5), NoMix, true, r, false)
  }

  /** The moves of the current assembly, then the assemblies after it, up
      to the first that raises. */
  function MovesPlan(name: string, moves: seq<Outcome<Move>>, rest: seq<Outcome<seq<Outcome<Move>>>>, r: Rates)
    : (seq<Command>, Option<Fault>)
    decreases |rest|, |moves| + 1
  {
    if moves == [] then AssembliesPlan(name, rest, r)
    else
      match moves[0]
      case Failed(f) => ([], Some(f))
      case Done(m) =>
        var after := MovesPlan(name, moves[1..], rest, PartRates(r));
        (MovePlan(name, m, r) + after.0, after.1)
  }

  function AssembliesPlan(name: string, rest: seq<Outcome<seq<Outcome<Move>>>>, r: Rates): (seq<Command>, Option<Fault>)
    decreases |rest|, 0
  {
    if rest == [] then ([], None)
    else
      match rest[0]
      case Failed(f) => ([], Some(f))
      case Done(moves) => MovesPlan(name, moves, rest[1..], r)
  }

  /** Every part volume fits the pipette. */
  ghost predicate VolumesFit(wellData: seq<Assembly>, maxV: int)
  {
    forall i, k :: 0 <= i < |wellData| && k in wellData[i].parts ==> 0 <= wellData[i].parts[k].vol <= maxV
  }

  /** The inner loop of the part transfer for one assembly. */
  method TransferAssembly(a: Assembly, racks: map<string, seq<string>>, dest: Well, p: Pipette, log: Log,
                          ghost rest: seq<Outcome<seq<Outcome<Move>>>>) returns (fault: Option<Fault>)
    requires p.Valid() && !p.hasTip && forall k :: k in a.parts ==> 0 <= a.parts[k].vol <= p.maxVolume
    modifies p, log
    ensures var moves := seq(|a.parts|, i2 requires 0 <= i2 < |a.parts| => MoveOf(a, i2, racks, dest));
      var plan := MovesPlan(p.name, moves, rest, old(p.rates));
      if fault.None? then old(log.entries) + plan.0 == log.entries + AssembliesPlan(p.name, rest, p.rates).0
                          && plan.1 == AssembliesPlan(p.name, rest, p.rates).1
      else old(log.entries) + plan.0 == log.entries && plan.1 == fault
    ensures p.Valid() && !p.hasTip
  {
    ghost var moves := seq(|a.parts|, i2 requires 0 <= i2 < |a.parts| => MoveOf(a, i2, racks, dest));
    ghost var total := MovesPlan(p.name, moves, rest, p.rates);
    for i2 := 0 to |a.parts|
      invariant p.Valid() && !p.hasTip
      invariant old(log.entries) + total.0 == log.entries + MovesPlan(p.name, moves[i2..], rest, p.rates).0
      invariant total.1 == MovesPlan(p.name, moves[i2..], rest, p.rates).1
    {
      var m := MoveOf(a, i2, racks, dest);
      assert moves[i2..][0] == m;
      if m.Failed? {
        assert log.entries + [] == log.entries;
        return Some(m.fault);
      }
      ghost var logI, r := log.entries, p.rates;
      assert moves[i2..][1..] == moves[i2 + 1..];
      EnzymeTransfer(p, m.value.vol, m.value.src, m.value.dest, false, Some(5), Some(5), NoMix, true, log);
      V2.AppendAssoc(logI, MovePlan(p.name, m.value, r), MovesPlan(p.name, moves[i2 + 1..], rest, PartRates(r)).0);
    }
    assert moves[|a.parts|..] == [];
    fault := None;
  }

  /** The part transfer loop, `for i in range(arg)`: as written `arg` is
      the list `well_data` itself, and `range` raises TypeError before any
      part is moved; with `len(well_data)` every part of every assembly
      goes into the assembly's well. */
  method TransferParts(arg: PyArg, wellData: seq<Assembly>, racks: map<string, seq<string>>, p: Pipette, log: Log)
    returns (fault: Option<Fault>)
    requires arg == ListArg(|wellData|) || arg == IntArg(|wellData|)
    requires p.Valid() && !p.hasTip && VolumesFit(wellData, p.maxVolume)
    modifies p, log
    ensures arg.ListArg? ==> log.entries == old(log.entries) && fault == Some(TypeError)
    ensures arg.IntArg? ==> log.entries == old(log.entries) + AssembliesPlan(p.name, AllMoves(wellData, racks), old(p.rates)).0
    ensures arg.IntArg? ==> fault == AssembliesPlan(p.name, AllMoves(wellData, racks), old(p.rates)).1
    ensures p.Valid() && !p.hasTip
  {
    var range := Range(arg);
    if range.Failed? {
      return Some(range.fault);
    }
    var indices := range.value;
    ghost var all := AllMoves(wellData, racks);
    ghost var total := AssembliesPlan(p.name, all, p.rates);
    for j := 0 to |indices|
      invariant p.Valid() && !p.hasTip
      invariant old(log.entries) + total.0 == log.entries + AssembliesPlan(p.name, all[j..], p.rates).0
      invariant total.1 == AssembliesPlan(p.name, all[j..], p.rates).1
    {
      var i := indices[j];
      assert all[j..][0] == all[i];
      if i >= 96 {
        assert log.entries + [] == log.entries;
        return Some(IndexError);
      }
      var dest := PlateWells()[i];
      assert all[j..][1..] == all[j + 1..];
      fault := TransferAssembly(wellData[i], racks, dest, p, log, all[j + 1..]);
      if fault.Some? {
        return;
      }
    }
    assert all[|indices|..] == [];
    fault := None;
  }

  /** Every move of a list resolves. */
  predicate InnerDone(moves: seq<Outcome<Move>>)
  {
    forall j :: 0 <= j < |moves| ==> moves[j].Done?
  }

  /** Every assembly of a list has its well, and every move of it resolves. */
  predicate OuterDone(rest: seq<Outcome<seq<Outcome<Move>>>>)
  {
    forall j :: 0 <= j < |rest| ==> rest[j].Done? && InnerDone(rest[j].value)
  }

  /** The part transfer raises exactly when some step of it does. */
  lemma {:induction false} MovesPlanFault(name: string, moves: seq<Outcome<Move>>, rest: seq<Outcome<seq<Outcome<Move>>>>,
                                          r: Rates)
    ensures MovesPlan(name, moves, rest, r).1.None? <==> InnerDone(moves) && OuterDone(rest)
    decreases |rest|, |moves| + 1
  {
    if moves == [] {
      AssembliesPlanFault(name, rest, r);
    } else if moves[0].Done? {
      MovesPlanFault(name, moves[1..], rest, PartRates(r));
      assert InnerDone(moves) <==> InnerDone(moves[1..]) by {
        if InnerDone(moves[1..]) {
          forall j | 0 <= j < |moves|
            ensures moves[j].Done?
          {
            if j > 0 {
              assert moves[j] == moves[1..][j - 1];
            }
          }
        }
      }
    }
  }

  lemma {:induction false} AssembliesPlanFault(name: string, rest: seq<Outcome<seq<Outcome<Move>>>>, r: Rates)
    ensures AssembliesPlan(name, rest, r).1.None? <==> OuterDone(rest)
    decreases |rest|, 0
  {
    if rest != [] && rest[0].Done? {
      MovesPlanFault(name, rest[0].value, rest[1..], r);
      assert OuterDone(rest) <==> InnerDone(rest[0].value) && OuterDone(rest[1..]) by {
        if InnerDone(rest[0].value) && OuterDone(rest[1..]) {
          forall j | 0 <= j < |rest|
            ensures rest[j].Done? && InnerDone(rest[j].value)
          {
            if j > 0 {
              assert rest[j] == rest[1..][j - 1];
            }
          }
        }
      }
    }
  }

  /** Part `i2` of an assembly can be moved: its key is there, its plate
      names a labware and its well is on it. */
  predicate PartResolves(a: Assembly, i2: nat, racks: map<string, seq<string>>)
  {
    i2 in a.parts && a.parts[i2].plate in racks && a.parts[i2].well in racks[a.parts[i2].plate]
  }

  /** Every assembly has a well on the plate and every part of it resolves. */
  predicate PartsResolve(wellData: seq<Assembly>, racks: map<string, seq<string>>)
  {
    && |wellData| <= 96
    && forall i, i2 :: 0 <= i < |wellData| && 0 <= i2 < |wellData[i].parts| ==> PartResolves(wellData[i], i2, racks)
  }

  /** The corrected part transfer runs to the end exactly when there are
      at most 96 assemblies and every part of every one resolves. */
  lemma PartsFaultFree(name: string, wellData: seq<Assembly>, racks: map<string, seq<string>>, r: Rates)
    ensures AssembliesPlan(name, AllMoves(wellData, racks), r).1.None? <==> PartsResolve(wellData, racks)
  {
    var all := AllMoves(wellData, racks);
    AssembliesPlanFault(name, all, r);
    if OuterDone(all) {
      if |all| > 0 {
        assert all[|all| - 1].Done?;
      }
      forall i, i2 | 0 <= i < |wellData| && 0 <= i2 < |wellData[i].parts|
        ensures PartResolves(wellData[i], i2, racks)
      {
        assert all[i].value[i2].Done?;
      }
    }
    if PartsResolve(wellData, racks) {
      forall j | 0 <= j < |all|
        ensures all[j].Done? && InnerDone(all[j].value)
      {
        forall i2 | 0 <= i2 < |all[j].value|
          ensures all[j].value[i2].Done?
        {
          assert PartResolves(wellData[j], i2, racks);
        }
      }
    }
  }

  /** The wells resolved moves dispense into: each destination twice. */
  function Twice(moves: seq<Outcome<Move>>): (ws: seq<Well>)
    requires InnerDone(moves)
    ensures |ws| == 2 * |moves|
  {
    if moves == [] then [] else [moves[0].value.dest, moves[0].value.dest] + Twice(moves[1..])
  }

  function TwiceAll(rest: seq<Outcome<seq<Outcome<Move>>>>): seq<Well>
    requires OuterDone(rest)
  {
    if rest == [] then [] else Twice(rest[0].value) + TwiceAll(rest[1..])
  }

  lemma {:induction false} MovesPlanDispensed(name: string, moves: seq<Outcome<Move>>, rest: seq<Outcome<seq<Outcome<Move>>>>,
                                              r: Rates)
    requires InnerDone(moves) && OuterDone(rest)
    ensures Dispensed(MovesPlan(name, moves, rest, r).0) == Twice(moves) + TwiceAll(rest)
    decreases |rest|, |moves| + 1
  {
    if moves == [] {
      AssembliesPlanDispensed(name, rest, r);
    } else {
      var d := moves[0].value.dest;
      MovesPlanDispensed(name, moves[1..], rest, PartRates(r));
      MoveDispensed(name, moves, rest, r);
      V2.AppendAssoc([d, d], Twice(moves[1..]), TwiceAll(rest));
    }
  }

  /** A resolved move dispenses twice into its destination, before the
      moves after it. */
  lemma MoveDispensed(name: string, moves: seq<Outcome<Move>>, rest: seq<Outcome<seq<Outcome<Move>>>>, r: Rates)
    requires moves != [] && InnerDone(moves) && OuterDone(rest)
    ensures Dispensed(MovesPlan(name, moves, rest, r).0)
      == [moves[0].value.dest, moves[0].value.dest] + Dispensed(MovesPlan(name, moves[1..], rest, PartRates(r)).0)
    ensures Twice(moves) == [moves[0].value.dest, moves[0].value.dest] + Twice(moves[1..])
  {
    var m := moves[0].value;
    var after := MovesPlan(name, moves[1..], rest, PartRates(r)).0;
    EnzymeTransferDispensed(name, m.vol, m.src, m.dest, false, Some(5), Some(5), NoMix, true, r, false);
    DispensedAppend(MovePlan(name, m, r), after);
  }

  lemma {:induction false} AssembliesPlanDispensed(name: string, rest: seq<Outcome<seq<Outcome<Move>>>>, r: Rates)
    requires OuterDone(rest)
    ensures Dispensed(AssembliesPlan(name, rest, r).0) == TwiceAll(rest)
    decreases |rest|, 0
  {
    if rest != [] {
      assert OuterDone(rest[1..]) by {
        forall j | 0 <= j < |rest[1..]|
          ensures rest[1..][j].Done? && InnerDone(rest[1..][j].value)
        {
          assert rest[1..][j] == rest[j + 1];
        }
      }
      MovesPlanDispensed(name, rest[0].value, rest[1..], r);
    }
  }

  /** `n` copies of a well. */
  function Repeat(w: Well, n: nat): (ws: seq<Well>)
    ensures |ws| == n && forall j :: 0 <= j < n ==> ws[j] == w
  {
    seq(n, _ => w)
  }

  /** Where the parts of the assemblies from the `from`-th on should go:
      the assembly's well on the plate, twice per part (the part's volume,
      then the extra 1 µL). */
  function Targets(wellData: seq<Assembly>, from: nat): seq<Well>
    requires from + |wellData| <= 96
  {
    if wellData == [] then []
    else Repeat(PlateWells()[from], 2 * |wellData[0].parts|) + Targets(wellData[1..], from + 1)
  }

  lemma {:induction false} TwiceToOneWell(moves: seq<Outcome<Move>>, d: Well)
    requires InnerDone(moves) && forall j :: 0 <= j < |moves| ==> moves[j].value.dest == d
    ensures Twice(moves) == Repeat(d, 2 * |moves|)
  {
    if moves != [] {
      TwiceToOneWell(moves[1..], d);
    }
  }

  lemma {:induction false} AllMovesTargets(wellData: seq<Assembly>, racks: map<string, seq<string>>, j: nat)
    requires PartsResolve(wellData, racks) && j <= |wellData|
    ensures OuterDone(AllMoves(wellData, racks)[j..])
    ensures TwiceAll(AllMoves(wellData, racks)[j..]) == Targets(wellData[j..], j)
    decreases |wellData| - j
  {
    var all := AllMoves(wellData, racks);
    PartsFaultFree("", wellData, racks, Rates(0, 0, 0));
    AssembliesPlanFault("", all, Rates(0, 0, 0));
    assert OuterDone(all[j..]) by {
      forall t | 0 <= t < |all[j..]|
        ensures all[j..][t].Done? && InnerDone(all[j..][t].value)
      {
        assert all[j..][t] == all[j + t];
      }
    }
    if j < |wellData| {
      AllMovesTargets(wellData, racks, j + 1);
      assert all[j..][1..] == all[j + 1..];
      assert wellData[j..][1..] == wellData[j + 1..];
      TwiceToOneWell(all[j].value, PlateWells()[j]);
    } else {
      assert all[j..] == [];
      assert wellData[j..] == [];
    }
  }

  /** With `range(len(well_data))` and every part resolving, the part
      transfer dispenses into each assembly's well twice per part, in the
      order of the assemblies, and into no other well. */
  lemma PartsReachTheirWells(name: string, wellData: seq<Assembly>, racks: map<string, seq<string>>, r: Rates)
    requires PartsResolve(wellData, racks)
    ensures Dispensed(AssembliesPlan(name, AllMoves(wellData, racks), r).0) == Targets(wellData, 0)
  {
    var all := AllMoves(wellData, racks);
    AllMovesTargets(wellData, racks, 0);
    assert all[0..] == all && wellData[0..] == wellData;
    AssembliesPlanDispensed(name, all, r);
  }

  // ---------------------------------------------------------------------
  // The protocol

  /** The assemblies of `meta_data`, every item before the last being one. */
  ghost predicate AssembliesFirst(meta: seq<MetaItem>)
  {
    forall i :: 0 <= i < |WellData(meta)| ==> WellData(meta)[i].AssemblyItem?
  }

  function Assemblies(meta: seq<MetaItem>): (ws: seq<Assembly>)
    requires AssembliesFirst(meta)
    ensures |ws| == |WellData(meta)|
  {
    seq(|WellData(meta)|, i requires 0 <= i < |WellData(meta)| => WellData(meta)[i].assembly)
  }

  /** The run with 4 µL of enzyme: the enzyme into every destination well,
      then every part into its assembly's well. */
  function GoldenGatePlan(name: string, meta: seq<MetaItem>, racks: map<string, seq<string>>, r: Rates, held: bool)
    : (seq<Command>, Option<Fault>)
    requires AssembliesFirst(meta)
  {
    var wellData := Assemblies(meta);
    var count := |wellData|;
    var parts := AssembliesPlan(name, AllMoves(wellData, racks), PassRates(r));
    (DistributionFrom(name, DestWells(count), count, 4 * UL, EnzDisNum(4 * UL), 0, r, held) + parts.0, parts.1)
  }

  /** `run(protocol)` up to the thermocycling, with the enzyme loop and the
      part loop corrected. */
  method RunGoldenGate(meta: seq<MetaItem>, racks: map<string, seq<string>>, p: Pipette, log: Log) returns (fault: Option<Fault>)
    requires AssembliesFirst(meta)
    requires p.Valid() && p.currentVolume == 0 && 20 * UL <= p.maxVolume && VolumesFit(Assemblies(meta), p.maxVolume)
    modifies p, log
    ensures log.entries == old(log.entries) + GoldenGatePlan(p.name, meta, racks, old(p.rates), old(p.hasTip)).0
    ensures fault == GoldenGatePlan(p.name, meta, racks, old(p.rates), old(p.hasTip)).1
    ensures p.Valid() && !p.hasTip
  {
    var wellData := Assemblies(meta);
    var count := |wellData|;
    var dest := DestWells(count);
    ghost var log0 := log.entries;
    DistributeEnzyme(p, dest, count, 4 * UL, log);
    ghost var log1 := log.entries;
    fault := TransferParts(IntArg(count), wellData, racks, p, log);
    V2.AppendAssoc(log0, DistributionFrom(p.name, dest, count, 4 * UL, EnzDisNum(4 * UL), 0, old(p.rates), old(p.hasTip)),
      AssembliesPlan(p.name, AllMoves(wellData, racks), PassRates(old(p.rates))).0);
  }

  /** The corrected run gives every assembly's well the enzyme and then
      its parts; it finishes exactly when every part resolves. */
  lemma GoldenGateDispensed(name: string, meta: seq<MetaItem>, racks: map<string, seq<string>>, r: Rates, held: bool)
    requires AssembliesFirst(meta)
    ensures GoldenGatePlan(name, meta, racks, r, held).1.None? <==> PartsResolve(Assemblies(meta), racks)
    ensures PartsResolve(Assemblies(meta), racks) ==>
      Dispensed(GoldenGatePlan(name, meta, racks, r, held).0) == DestWells(|Assemblies(meta)|) + Targets(Assemblies(meta), 0)
  {
    var wellData := Assemblies(meta);
    var count := |wellData|;
    var dist := DistributionFrom(name, DestWells(count), count, 4 * UL, EnzDisNum(4 * UL), 0, r, held);
    var parts := AssembliesPlan(name, AllMoves(wellData, racks), PassRates(r));
    PartsFaultFree(name, wellData, racks, PassRates(r));
    if PartsResolve(wellData, racks) {
      DistributionServesAll(name, DestWells(count), count, 4 * UL, EnzDisNum(4 * UL), 0, r, held);
      assert Slice(DestWells(count), 0, |DestWells(count)|) == DestWells(count);
      PartsReachTheirWells(name, wellData, racks, PassRates(r));
      DispensedAppend(dist, parts.0);
    }
  }
}
