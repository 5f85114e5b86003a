/** The run of data/ot2_cloning/protocol_v2.py around the transfer plans: the
    thermocycler programs of `run_PCR`, `run_GGA` and `run_Gibson`, the
    Gibson cool-down ramp, the enzyme positions `run` loads, the sample set
    of `run_Transformation`, and the workflow loop of `run`. */
module ProtocolV2Run {
  import opened Robot
  import opened Params
  import opened ProtocolV2

  // ---------------------------------------------------------------------
  // Reactions

  /** The final mix every reaction asks of `transfer_materials`: two rounds
      of 15 µL. */
  const ReactionMix: (int, int) := (2, 15 * UL)

  /** The thermocycler calls of `run_PCR` after the transfers: 30 cycles of
      94/annealing/68 degrees, a final extension, a hold at 12. */
  function PcrProgram(annealing: int, extension: int): seq<Command>
  {
    [Thermo(CloseLid), Thermo(LidTemperature(95)), Thermo(BlockTemperature(94, 30)),
     Thermo(Profile([(94, 20), (annealing, 20), (68, extension)], 30)),
     Thermo(BlockTemperature(68, 60)), Thermo(BlockTemperature(12, 300)),
     Thermo(DeactivateLid), Thermo(BlockTemperature(12, 0))]
  }

  /** The thermocycler calls of `run_GGA`: 30 cycles of 37/16 degrees. */
  function GgaProgram(): seq<Command>
  {
    [Thermo(CloseLid), Thermo(LidTemperature(90)), Thermo(Profile([(37, 20), (16, 20)], 30)),
     Thermo(BlockTemperature(12, 300)), Thermo(DeactivateLid), Thermo(BlockTemperature(12, 0))]
  }

  /** The thermocycler calls of `run_Gibson`: DpnI at 37, denaturation at
      65, assembly at 50 for 40 minutes, then the cool-down ramp. */
  function GibsonProgram(): seq<Command>
  {
    [Thermo(CloseLid), Thermo(LidTemperature(80)), Thermo(BlockTemperature(37, 300)),
     Thermo(BlockTemperature(65, 20)), Thermo(BlockTemperature(50, 2400))] + CoolDown(50)
  }

  /** The ramp down from `current`: 45 s holds 5 degrees apart while above
      12, then the lid off and the block at 12. */
  function CoolDown(current: int): seq<Command>
    decreases current
  {
    var t := current - 5;
    if t <= 12 then [Thermo(DeactivateLid), Thermo(BlockTemperature(12, 0))]
    else [Thermo(BlockTemperature(t, 45))] + CoolDown(t)
  }

  /** The ramp holds at `c - 5`, `c - 10`, ... while that is above 12, each
      for 45 s, then ends at 12 with the lid off; from 50 that is 45, 40,
      ..., 15. */
  lemma CoolDownSpec(c: int)
    requires 12 < c
    ensures |CoolDown(c)| == (c - 13) / 5 + 2
    ensures forall i :: 0 <= i < |CoolDown(c)| - 2 ==>
      CoolDown(c)[i] == Thermo(BlockTemperature(c - 5 * (i + 1), 45)) && 12 < c - 5 * (i + 1)
    ensures CoolDown(c)[|CoolDown(c)| - 2..] == [Thermo(DeactivateLid), Thermo(BlockTemperature(12, 0))]
  {
    CoolDownLength(c);
    CoolDownHolds(c);
    CoolDownEnd(c);
  }

  lemma {:induction false} CoolDownLength(c: int)
    requires 12 < c
    decreases c
    ensures |CoolDown(c)| == (c - 13) / 5 + 2
  {
    if 12 < c - 5 {
      CoolDownLength(c - 5);
    }
  }

  lemma {:induction false} CoolDownHolds(c: int)
    requires 12 < c
    decreases c
    ensures forall i :: 0 <= i < |CoolDown(c)| - 2 ==>
      CoolDown(c)[i] == Thermo(BlockTemperature(c - 5 * (i + 1), 45)) && 12 < c - 5 * (i + 1)
  {
    var t := c - 5;
    if 12 < t {
      CoolDownHolds(t);
      var r := CoolDown(t);
      assert CoolDown(c) == [Thermo(BlockTemperature(t, 45))] + r;
      forall i | 1 <= i < |CoolDown(c)| - 2
        ensures CoolDown(c)[i] == Thermo(BlockTemperature(c - 5 * (i + 1), 45)) && 12 < c - 5 * (i + 1)
      {
        assert CoolDown(c)[i] == r[i - 1];
      }
    }
  }

  lemma {:induction false} CoolDownEnd(c: int)
    requires 12 < c
    decreases c
    ensures |CoolDown(c)| >= 2
    ensures CoolDown(c)[|CoolDown(c)| - 2..] == [Thermo(DeactivateLid), Thermo(BlockTemperature(12, 0))]
  {
    var t := c - 5;
    if 12 < t {
      CoolDownEnd(t);
      var r := CoolDown(t);
      assert CoolDown(c) == [Thermo(BlockTemperature(t, 45))] + r;
      assert CoolDown(c)[|CoolDown(c)| - 2..] == r[|r| - 2..];
    }
  }

  /** The `current_tmp` loop of `run_Gibson`. */
  method GibsonCoolDown(log: Log)
    modifies log
    ensures log.entries == old(log.entries) + CoolDown(50)
  {
    ghost var log0 := log.entries;
    var currentTmp := 50;
    while true
      invariant 12 < currentTmp
      invariant log0 + CoolDown(50) == log.entries + CoolDown(currentTmp)
      decreases currentTmp
    {
      ghost var before := log.entries;
      currentTmp := currentTmp - 5;
      if currentTmp <= 12 {
        log.Thermocycler(DeactivateLid);
        log.Thermocycler(BlockTemperature(12, 0));
        assert log.entries == before + [Thermo(DeactivateLid), Thermo(BlockTemperature(12, 0))];
        break;
      }
      log.Thermocycler(BlockTemperature(currentTmp, 45));
      assert before + CoolDown(currentTmp + 5) == log.entries + CoolDown(currentTmp);
    }
  }

  /** `run_PCR`: the transfer plan, then the PCR program. */
  method RunPCR(deck: Deck, ghost names: map<string, Well>, t: Table, vols: map<string, int>,
                annealing: int, extension: int, p20: Pipette, p300: Pipette, log: Log)
    requires Resolution(deck, names) && TableReady(names, t, vols) && RowPhaseBound(t)
    requires p20.name == P20 && p300.name == P300 && p20 != p300
    requires p20.Valid() && !p20.hasTip && ReactionMix.1 <= p20.maxVolume
    modifies p20, p300, log
    ensures log.entries == old(log.entries) + TransferPlan(names, t, vols, ReactionMix) + PcrProgram(annealing, extension)
    ensures p20.Valid() && !p20.hasTip
  {
    TransferMaterials(deck, names, t, vols, ReactionMix, p20, p300, log);
    ghost var l1 := log.entries;
    log.Thermocycler(CloseLid);
    log.Thermocycler(LidTemperature(95));
    log.Thermocycler(BlockTemperature(94, 30));
    log.Thermocycler(Profile([(94, 20), (annealing, 20), (68, extension)], 30));
    log.Thermocycler(BlockTemperature(68, 60));
    log.Thermocycler(BlockTemperature(12, 300));
    log.Thermocycler(DeactivateLid);
    log.Thermocycler(BlockTemperature(12, 0));
    assert log.entries == l1 + PcrProgram(annealing, extension);
  }

  /** `run_GGA`: the transfer plan, then the Golden Gate program. */
  method RunGGA(deck: Deck, ghost names: map<string, Well>, t: Table, vols: map<string, int>,
                p20: Pipette, p300: Pipette, log: Log)
    requires Resolution(deck, names) && TableReady(names, t, vols) && RowPhaseBound(t)
    requires p20.name == P20 && p300.name == P300 && p20 != p300
    requires p20.Valid() && !p20.hasTip && ReactionMix.1 <= p20.maxVolume
    modifies p20, p300, log
    ensures log.entries == old(log.entries) + TransferPlan(names, t, vols, ReactionMix) + GgaProgram()
    ensures p20.Valid() && !p20.hasTip
  {
    TransferMaterials(deck, names, t, vols, ReactionMix, p20, p300, log);
    ghost var l1 := log.entries;
    log.Thermocycler(CloseLid);
    log.Thermocycler(LidTemperature(90));
    log.Thermocycler(Profile([(37, 20), (16, 20)], 30));
    log.Thermocycler(BlockTemperature(12, 300));
    log.Thermocycler(DeactivateLid);
    log.Thermocycler(BlockTemperature(12, 0));
    assert log.entries == l1 + GgaProgram();
  }

  /** `run_Gibson`: the transfer plan, the Gibson program and its ramp. */
  method RunGibson(deck: Deck, ghost names: map<string, Well>, t: Table, vols: map<string, int>,
                   p20: Pipette, p300: Pipette, log: Log)
    requires Resolution(deck, names) && TableReady(names, t, vols) && RowPhaseBound(t)
    requires p20.name == P20 && p300.name == P300 && p20 != p300
    requires p20.Valid() && !p20.hasTip && ReactionMix.1 <= p20.maxVolume
    modifies p20, p300, log
    ensures log.entries == old(log.entries) + TransferPlan(names, t, vols, ReactionMix) + GibsonProgram()
    ensures p20.Valid() && !p20.hasTip
  {
    TransferMaterials(deck, names, t, vols, ReactionMix, p20, p300, log);
    ghost var l1 := log.entries;
    log.Thermocycler(CloseLid);
    log.Thermocycler(LidTemperature(80));
    log.Thermocycler(BlockTemperature(37, 300));
    log.Thermocycler(BlockTemperature(65, 20));
    log.Thermocycler(BlockTemperature(50, 2400));
    ghost var l2 := log.entries;
    GibsonCoolDown(log);
    assert l2 == l1 + GibsonProgram()[..5];
    AppendAssoc(l1, GibsonProgram()[..5], CoolDown(50));
    assert GibsonProgram()[..5] + CoolDown(50) == GibsonProgram();
  }

  // ---------------------------------------------------------------------
  // Workflows

  datatype Reaction = PCR | GGA | Gibson | Transformation

  /** `workflow.split('_')[0]`: the workflow name up to its first
      underscore. */
  function KeyOf(workflow: string): (key: string)
    ensures key <= workflow && '_' !in key
    ensures |key| < |workflow| ==> workflow[|key|] == '_'
  {
    if workflow == [] || workflow[0] == '_' then []
    else [workflow[0]] + KeyOf(workflow[1..])
  }

  /** The keys `run` accepts, and the reaction each one runs. */
  function ReactionOf(key: string): Option<Reaction>
  {
    if key == "PCR" then Some(PCR)
    else if key == "GGA" then Some(GGA)
    else if key == "Gibson" then Some(Gibson)
    else if key == "Transformation" then Some(Transformation)
    else None
  }

  function PauseMessage(workflow: string): string
  {
    workflow + ": will be start Place down enzyme"
  }

  /** What `run` reads from the parameters: the workflow names in order,
      `stop_reaction`, the PCR annealing temperature and extension time,
      and the reaction table of each workflow. */
  datatype Config = Config(workflows: seq<string>, stopReaction: bool, annealing: int, extension: int,
                           tables: map<string, Table>)

  /** One cell of a workflow's volume table: the per-row dictionary the
      parameters hold, or the single value `run` has put in its place. */
  datatype VolumeCell = Nested(values: seq<int>) | Flat(value: int)

  /** A workflow's volume table, as a dictionary in key order. */
  type VolumeTable = seq<(string, VolumeCell)>

  /** A value, or the exception the flattening raised. */
  function Prepend(e: (string, int), o: Outcome<seq<(string, int)>>): Outcome<seq<(string, int)>>
  {
    match o
    case Done(r) => Done([e] + r)
    case Failed(f) => Failed(f)
  }

  /** `volume_dict[i] = next(volume_dict[i].values().__iter__())` for each
      key in order: the first value of each cell, AttributeError at a cell
      that has no `values()`, StopIteration at one that is empty. */
  function Flatten(cells: VolumeTable): Outcome<seq<(string, int)>>
  {
    if cells == [] then Done([])
    else match cells[0].1
      case Flat(_) => Failed(AttributeError)
      case Nested(vs) => if vs == [] then Failed(StopIteration) else Prepend((cells[0].0, vs[0]), Flatten(cells[1..]))
  }

  /** A cell the flattening stops at. */
  predicate Stuck(c: VolumeCell)
  {
    c.Flat? || c.values == []
  }

  /** Cell `k` is the first one the flattening stops at. */
  predicate FirstStuck(cells: VolumeTable, k: int)
  {
    0 <= k < |cells| && Stuck(cells[k].1) && forall j :: 0 <= j < k ==> !Stuck(cells[j].1)
  }

  /** The flattening succeeds exactly when no cell is stuck, and then keeps
      every key with its first value; otherwise it raises at the first
      stuck cell, AttributeError for a single value and StopIteration for
      an empty dictionary. */
  lemma {:induction false} FlattenSpec(cells: VolumeTable)
    ensures Flatten(cells).Done? <==> forall k :: 0 <= k < |cells| ==> !Stuck(cells[k].1)
    ensures Flatten(cells).Done? ==>
      && |Flatten(cells).value| == |cells|
      && forall k :: 0 <= k < |cells| ==> Flatten(cells).value[k] == (cells[k].0, cells[k].1.values[0])
    ensures Flatten(cells).Failed? ==>
      exists k :: FirstStuck(cells, k) && Flatten(cells).fault == (if cells[k].1.Flat? then AttributeError else StopIteration)
  {
    if cells != [] {
      FlattenSpec(cells[1..]);
      if !Stuck(cells[0].1) {
        assert forall k :: 1 <= k < |cells| ==> cells[k] == cells[1..][k - 1];
        if Flatten(cells).Failed? {
          var k :| FirstStuck(cells[1..], k) &&
            Flatten(cells[1..]).fault == (if cells[1..][k].1.Flat? then AttributeError else StopIteration);
          assert FirstStuck(cells, k + 1);
        }
      }
    }
  }

  /** The table after flattening: each key with its single value. */
  function FlatCells(flat: seq<(string, int)>): (cells: VolumeTable)
  {
    seq(|flat|, k requires 0 <= k < |flat| => (flat[k].0, Flat(flat[k].1)))
  }

  /** The flattened table as the dictionary `transfer_materials` reads. */
  function VolumeMap(flat: seq<(string, int)>): map<string, int>
  {
    if flat == [] then map[] else VolumeMap(flat[..|flat| - 1])[flat[|flat| - 1].0 := flat[|flat| - 1].1]
  }

  /** A table flattened once cannot be flattened again: the second pass
      raises AttributeError unless the table is empty. */
  lemma FlattenAgain(flat: seq<(string, int)>)
    ensures Flatten(FlatCells(flat)) == if flat == [] then Done([]) else Failed(AttributeError)
  {
    if flat != [] {
      assert FlatCells(flat)[0].1 == Flat(flat[0].1);
    }
  }

  /** The parameters `run` reads, with the volume tables it rewrites in
      place. */
  class Parameters {
    const config: Config
    var volumes: map<string, VolumeTable>

    constructor (config: Config, volumes: map<string, VolumeTable>)
      ensures this.config == config && this.volumes == volumes
    {
      this.config := config;
      this.volumes := volumes;
    }

    /** The flattening loop of `run` on the volume table of workflow `w`,
        which replaces each cell by its first value as it goes; it touches
        no other table. */
    method FlattenVolumes(w: string) returns (r: Outcome<seq<(string, int)>>)
      requires w in volumes
      modifies this
      ensures r == Flatten(old(volumes[w]))
      ensures r.Done? ==> volumes == old(volumes)[w := FlatCells(r.value)]
      ensures r.Failed? ==> w in volumes && volumes == old(volumes)[w := volumes[w]]
    {
      var cells := volumes[w];
      var flat: seq<(string, int)> := [];
      var i := 0;
      assert FlatCells(flat) + cells[i..] == cells;
      GlueEmpty(Flatten(cells));
      while i < |cells|
        invariant 0 <= i <= |cells| && |flat| == i
        invariant volumes == old(volumes)[w := FlatCells(flat) + cells[i..]]
        invariant Flatten(cells) == Glue(flat, Flatten(cells[i..]))
        decreases |cells| - i
      {
        assert cells[i..][1..] == cells[i + 1..] && cells[i..][0] == cells[i];
        match cells[i].1
        case Flat(_) =>
          return Failed(AttributeError);
        case Nested(vs) =>
          if vs == [] {
            return Failed(StopIteration);
          }
          var e := (cells[i].0, vs[0]);
          GluePrepend(flat, e, Flatten(cells[i + 1..]));
          assert (FlatCells(flat) + cells[i..])[i := (e.0, Flat(e.1))] == FlatCells(flat + [e]) + cells[i + 1..];
          volumes := volumes[w := volumes[w][i := (e.0, Flat(e.1))]];
          flat := flat + [e];
          i := i + 1;
      }
      assert cells[i..] == [];
      assert FlatCells(flat) + cells[i..] == FlatCells(flat);
      GlueEmpty(Done(flat));
      return Done(flat);
    }
  }

  function Glue(pre: seq<(string, int)>, o: Outcome<seq<(string, int)>>): Outcome<seq<(string, int)>>
  {
    match o
    case Done(r) => Done(pre + r)
    case Failed(f) => Failed(f)
  }

  lemma GlueEmpty(o: Outcome<seq<(string, int)>>)
    ensures Glue([], o) == o && (o.Done? ==> Glue(o.value, Done([])) == o)
  {
    if o.Done? {
      assert [] + o.value == o.value + [] == o.value;
    }
  }

  lemma GluePrepend(pre: seq<(string, int)>, e: (string, int), o: Outcome<seq<(string, int)>>)
    ensures Glue(pre, Prepend(e, o)) == Glue(pre + [e], o)
  {
    if o.Done? {
      assert pre + ([e] + o.value) == pre + [e] + o.value;
    }
  }

  /** The reaction tables and their volumes resolve wherever `run` would
      reach a transfer plan. */
  predicate Ready(names: map<string, Well>, cfg: Config, volumes: map<string, VolumeTable>)
  {
    forall w :: w in cfg.tables && w in volumes && Flatten(volumes[w]).Done? ==>
      TableReady(names, cfg.tables[w], VolumeMap(Flatten(volumes[w]).value)) && RowPhaseBound(cfg.tables[w])
  }

  lemma FlattenKeepsReady(names: map<string, Well>, cfg: Config, volumes: map<string, VolumeTable>,
                          w: string, flat: seq<(string, int)>)
    requires Ready(names, cfg, volumes) && w in volumes && Flatten(volumes[w]) == Done(flat)
    ensures Ready(names, cfg, volumes[w := FlatCells(flat)])
  {
    FlattenAgain(flat);
  }

  /** The commands of one reaction. */
  function ReactionPlan(r: Reaction, names: map<string, Well>, cfg: Config, t: Table, vols: map<string, int>): seq<Command>
  {
    match r
    case PCR => TransferPlan(names, t, vols, ReactionMix) + PcrProgram(cfg.annealing, cfg.extension)
    case GGA => TransferPlan(names, t, vols, ReactionMix) + GgaProgram()
    case Gibson => TransferPlan(names, t, vols, ReactionMix) + GibsonProgram()
    case Transformation => []
  }

  /** What a run has issued, the exception it stopped at if any, and the
      volume tables it leaves. */
  datatype Stage = Stage(cmds: seq<Command>, fault: Option<Fault>, volumes: map<string, VolumeTable>)

  /** The pause before workflow `i`, when `stop_reaction` is set and the
      workflow's name is not the first one's. */
  function PauseOf(cfg: Config, i: nat): seq<Command>
    requires i < |cfg.workflows|
  {
    if cfg.stopReaction && cfg.workflows[i] != cfg.workflows[0] then [Pause(PauseMessage(cfg.workflows[i]))] else []
  }

  /** Workflow `i` of the loop in `run`: the key check, the pause, the
      table lookups, the flattening, the reaction and the lid opening. */
  function WorkflowPass(cfg: Config, volumes: map<string, VolumeTable>, names: map<string, Well>, i: nat): Stage
    requires i < |cfg.workflows|
  {
    var w := cfg.workflows[i];
    var pause := PauseOf(cfg, i);
    match ReactionOf(KeyOf(w))
    case None => Stage([], Some(AssertionError), volumes)
    case Some(r) =>
      if w !in cfg.tables || w !in volumes then Stage(pause, Some(KeyError), volumes)
      else if r == Transformation then Stage(pause, Some(TypeError), volumes)
      else match Flatten(volumes[w])
        case Failed(f) => Stage(pause, Some(f), volumes)
        case Done(flat) =>
          Stage(pause + ReactionPlan(r, names, cfg, cfg.tables[w], VolumeMap(flat)) + [Thermo(OpenLid)],
                None, volumes[w := FlatCells(flat)])
  }

  /** The workflows from `i` on, up to the first exception. */
  function RunFrom(cfg: Config, volumes: map<string, VolumeTable>, names: map<string, Well>, i: nat): Stage
    decreases |cfg.workflows| - i
  {
    if |cfg.workflows| <= i then Stage([], None, volumes)
    else
      var p := WorkflowPass(cfg, volumes, names, i);
      if p.fault.Some? then p
      else
        var rest := RunFrom(cfg, p.volumes, names, i + 1);
        Stage(p.cmds + rest.cmds, rest.fault, rest.volumes)
  }

  /** The call `eval` makes for a reaction key other than Transformation. */
  method RunReaction(r: Reaction, deck: Deck, ghost names: map<string, Well>, cfg: Config, t: Table, vols: map<string, int>,
                     p20: Pipette, p300: Pipette, log: Log)
    requires r != Transformation
    requires Resolution(deck, names) && TableReady(names, t, vols) && RowPhaseBound(t)
    requires p20.name == P20 && p300.name == P300 && p20 != p300
    requires p20.Valid() && !p20.hasTip && ReactionMix.1 <= p20.maxVolume
    modifies p20, p300, log
    ensures log.entries == old(log.entries) + ReactionPlan(r, names, cfg, t, vols)
    ensures p20.Valid() && !p20.hasTip
  {
    ghost var log0 := log.entries;
    ghost var plan := TransferPlan(names, t, vols, ReactionMix);
    if r == PCR {
      RunPCR(deck, names, t, vols, cfg.annealing, cfg.extension, p20, p300, log);
      AppendAssoc(log0, plan, PcrProgram(cfg.annealing, cfg.extension));
    } else if r == GGA {
      RunGGA(deck, names, t, vols, p20, p300, log);
      AppendAssoc(log0, plan, GgaProgram());
    } else {
      RunGibson(deck, names, t, vols, p20, p300, log);
      AppendAssoc(log0, plan, GibsonProgram());
    }
  }

  /** A workflow that gets past its checks runs its reaction and opens the
      lid. */
  lemma PassRunsReaction(cfg: Config, volumes: map<string, VolumeTable>, names: map<string, Well>, i: nat,
                         r: Reaction, flat: seq<(string, int)>)
    requires i < |cfg.workflows| && ReactionOf(KeyOf(cfg.workflows[i])) == Some(r) && r != Transformation
    requires cfg.workflows[i] in cfg.tables && cfg.workflows[i] in volumes && Flatten(volumes[cfg.workflows[i]]) == Done(flat)
    ensures var w := cfg.workflows[i];
      WorkflowPass(cfg, volumes, names, i)
        == Stage(PauseOf(cfg, i) + ReactionPlan(r, names, cfg, cfg.tables[w], VolumeMap(flat)) + [Thermo(OpenLid)], None, volumes[w := FlatCells(flat)])
  {
  }

  /** One pass of the workflow loop. */
  method RunWorkflow(deck: Deck, ghost names: map<string, Well>, params: Parameters, i: nat,
                     p20: Pipette, p300: Pipette, log: Log) returns (fault: Option<Fault>)
    requires i < |params.config.workflows|
    requires Resolution(deck, names) && Ready(names, params.config, params.volumes)
    requires p20.name == P20 && p300.name == P300 && p20 != p300
    requires p20.Valid() && !p20.hasTip && ReactionMix.1 <= p20.maxVolume
    modifies params, p20, p300, log
    ensures var s := WorkflowPass(params.config, old(params.volumes), names, i);
      log.entries == old(log.entries) + s.cmds && fault == s.fault && (fault.None? ==> params.volumes == s.volumes)
    ensures p20.Valid() && !p20.hasTip
    ensures fault.None? ==> Ready(names, params.config, params.volumes)
  {
    var cfg := params.config;
    var w := cfg.workflows[i];
    ghost var start := log.entries;
    ghost var v0 := params.volumes;
    ghost var pause := PauseOf(cfg, i);
    var reaction := ReactionOf(KeyOf(w));
    if reaction.None? {
      return Some(AssertionError);
    }
    if cfg.stopReaction && w != cfg.workflows[0] {
      log.PauseRun(PauseMessage(w));
    }
    assert log.entries == start + pause;
    if w !in cfg.tables || w !in params.volumes {
      return Some(KeyError);
    }
    if reaction.value == Transformation {
      return Some(TypeError);
    }
    var t := cfg.tables[w];
    var flat := params.FlattenVolumes(w);
    if flat.Failed? {
      return Some(flat.fault);
    }
    assert TableReady(names, t, VolumeMap(flat.value)) && RowPhaseBound(t);
    FlattenKeepsReady(names, cfg, v0, w, flat.value);
    var vols := VolumeMap(flat.value);
    ghost var plan := ReactionPlan(reaction.value, names, cfg, t, vols);
    RunReaction(reaction.value, deck, names, cfg, t, vols, p20, p300, log);
    log.Thermocycler(OpenLid);
    PassRunsReaction(cfg, v0, names, i, reaction.value, flat.value);
    assert log.entries == start + pause + plan + [Thermo(OpenLid)];
    AppendAssoc(start, pause, plan);
    AppendAssoc(start, pause + plan, [Thermo(OpenLid)]);
    return None;
  }

  /** The workflow loop of `run`: each workflow in order until one raises. */
  method RunWorkflows(deck: Deck, ghost names: map<string, Well>, params: Parameters,
                      p20: Pipette, p300: Pipette, log: Log) returns (fault: Option<Fault>)
    requires Resolution(deck, names) && Ready(names, params.config, params.volumes)
    requires p20.name == P20 && p300.name == P300 && p20 != p300
    requires p20.Valid() && !p20.hasTip && ReactionMix.1 <= p20.maxVolume
    modifies params, p20, p300, log
    ensures var s := RunFrom(params.config, old(params.volumes), names, 0);
      log.entries == old(log.entries) + s.cmds && fault == s.fault && (fault.None? ==> params.volumes == s.volumes)
  {
    ghost var log0 := log.entries;
    ghost var whole := RunFrom(params.config, params.volumes, names, 0);
    var i := 0;
    while i < |params.config.workflows|
      invariant 0 <= i <= |params.config.workflows|
      invariant p20.Valid() && !p20.hasTip
      invariant Ready(names, params.config, params.volumes)
      invariant log0 + whole.cmds == log.entries + RunFrom(params.config, params.volumes, names, i).cmds
      invariant whole.fault == RunFrom(params.config, params.volumes, names, i).fault
      invariant whole.volumes == RunFrom(params.config, params.volumes, names, i).volumes
      decreases |params.config.workflows| - i
    {
      ghost var l1 := log.entries;
      ghost var p := WorkflowPass(params.config, params.volumes, names, i);
      ghost var rest := RunFrom(params.config, p.volumes, names, i + 1);
      fault := RunWorkflow(deck, names, params, i, p20, p300, log);
      if fault.Some? {
        assert log.entries == log0 + whole.cmds;
        return;
      }
      AppendAssoc(l1, p.cmds, rest.cmds);
      i := i + 1;
    }
    fault := None;
    assert log.entries + [] == log0 + whole.cmds;
  }

  /** The run pauses before a workflow exactly when `stop_reaction` is set,
      the workflow's key is accepted and its name differs from the first
      workflow's; the pause comes before anything else the workflow does,
      and nothing else in it pauses. */
  lemma PausesBeforeWorkflow(cfg: Config, volumes: map<string, VolumeTable>, names: map<string, Well>, i: nat)
    requires i < |cfg.workflows|
    ensures var p := WorkflowPass(cfg, volumes, names, i);
      (exists k :: 0 <= k < |p.cmds| && p.cmds[k].Pause?) <==>
        cfg.stopReaction && cfg.workflows[i] != cfg.workflows[0] && ReactionOf(KeyOf(cfg.workflows[i])).Some?
    ensures var p := WorkflowPass(cfg, volumes, names, i);
      forall k :: 0 <= k < |p.cmds| && p.cmds[k].Pause? ==> k == 0 && p.cmds[k] == Pause(PauseMessage(cfg.workflows[i]))
  {
    var p := WorkflowPass(cfg, volumes, names, i);
    PassShape(cfg, volumes, names, i);
    if ReactionOf(KeyOf(cfg.workflows[i])).Some? {
      PausePrefix(p.cmds, PauseOf(cfg, i));
    }
  }

  lemma PausePrefix(cmds: seq<Command>, pause: seq<Command>)
    requires |pause| <= |cmds| && cmds[..|pause|] == pause && NoPause(cmds[|pause|..])
    requires pause == [] || (|pause| == 1 && pause[0].Pause?)
    ensures (exists k :: 0 <= k < |cmds| && cmds[k].Pause?) <==> pause != []
    ensures forall k :: 0 <= k < |cmds| && cmds[k].Pause? ==> k == 0 && cmds[k] == pause[0]
  {
    var tail := cmds[|pause|..];
    assert forall k :: |pause| <= k < |cmds| ==> cmds[k] == tail[k - |pause|];
    if pause != [] {
      assert cmds[0] == pause[0];
    }
  }

  /** A pass issues nothing when its key is refused, and otherwise its
      pause and then only calls that are not pauses. */
  lemma PassShape(cfg: Config, volumes: map<string, VolumeTable>, names: map<string, Well>, i: nat)
    requires i < |cfg.workflows|
    ensures ReactionOf(KeyOf(cfg.workflows[i])).None? ==> WorkflowPass(cfg, volumes, names, i).cmds == []
    ensures ReactionOf(KeyOf(cfg.workflows[i])).Some? ==>
      var p := WorkflowPass(cfg, volumes, names, i);
      && |PauseOf(cfg, i)| <= |p.cmds| && p.cmds[..|PauseOf(cfg, i)|] == PauseOf(cfg, i)
      && NoPause(p.cmds[|PauseOf(cfg, i)|..])
  {
    var w := cfg.workflows[i];
    var p := WorkflowPass(cfg, volumes, names, i);
    var pause := PauseOf(cfg, i);
    if ReactionOf(KeyOf(w)).Some? {
      var r := ReactionOf(KeyOf(w)).value;
      if w in cfg.tables && w in volumes && r != Transformation && Flatten(volumes[w]).Done? {
        var flat := Flatten(volumes[w]).value;
        var plan := ReactionPlan(r, names, cfg, cfg.tables[w], VolumeMap(flat));
        PassRunsReaction(cfg, volumes, names, i, r, flat);
        ReactionPlanNoPause(r, names, cfg, cfg.tables[w], VolumeMap(flat));
        NoPauseAppend(plan, [Thermo(OpenLid)]);
        assert p.cmds == pause + (plan + [Thermo(OpenLid)]);
        assert p.cmds[|pause|..] == plan + [Thermo(OpenLid)];
      } else {
        assert p.cmds == pause;
        assert p.cmds[|pause|..] == [];
      }
    }
  }

  /** No entry of `cmds` is a pause. */
  predicate NoPause(cmds: seq<Command>)
  {
    forall k :: 0 <= k < |cmds| ==> !cmds[k].Pause?
  }

  lemma NoPauseAppend(a: seq<Command>, b: seq<Command>)
    requires NoPause(a) && NoPause(b)
    ensures NoPause(a + b)
  {
    assert forall k :: |a| <= k < |a + b| ==> (a + b)[k] == b[k - |a|];
  }

  /** `transfer_materials` issues pipette calls only. */
  lemma TransferPlanNoPause(names: map<string, Well>, t: Table, vols: map<string, int>, mix: (int, int))
    ensures NoPause(TransferPlan(names, t, vols, mix))
  {
    var dest := match Carried(names, t) case Some(ds) => ds case None => [];
    var dw := GroupPlan(names, t.rows, vols, "DW", Unique(ColumnValues(t.rows, "DW")));
    var enz := GroupPlan(names, t.rows, vols, "A_enzyme", Unique(ColumnValues(t.rows, "A_enzyme")));
    var rows := RowsPlan(names, vols, Dropped(t.columns), t.rows, dest, mix).0;
    GroupPlanOnP300(names, t.rows, vols, "DW", Unique(ColumnValues(t.rows, "DW")));
    GroupPlanOnP300(names, t.rows, vols, "A_enzyme", Unique(ColumnValues(t.rows, "A_enzyme")));
    RowsPlanOnP20(names, vols, Dropped(t.columns), t.rows, dest, mix);
    DrivesNoPause(dw, P300);
    DrivesNoPause(enz, P300);
    DrivesNoPause(rows, P20);
    NoPauseAppend(dw, enz);
    NoPauseAppend(dw + enz, rows);
  }

  lemma DrivesNoPause(cmds: seq<Command>, name: string)
    requires Drives(cmds, name)
    ensures NoPause(cmds)
  {
  }

  /** The PCR and Golden Gate programs are thermocycler calls only. */
  lemma ProgramsNoPause(annealing: int, extension: int)
    ensures NoPause(PcrProgram(annealing, extension)) && NoPause(GgaProgram())
  {
  }

  /** The Gibson program is thermocycler calls only. */
  lemma GibsonProgramNoPause()
    ensures NoPause(GibsonProgram())
  {
    CoolDownSpec(50);
    var ramp := CoolDown(50);
    assert NoPause(ramp) by {
      assert forall k :: 0 <= k < |ramp| ==> ramp[k].Thermo? by {
        assert forall k :: |ramp| - 2 <= k < |ramp| ==> ramp[k] == ramp[|ramp| - 2..][k - (|ramp| - 2)];
      }
    }
    NoPauseAppend(GibsonProgram()[..5], ramp);
    assert GibsonProgram()[..5] + ramp == GibsonProgram();
  }

  /** A reaction issues pipette and thermocycler calls only. */
  lemma ReactionPlanNoPause(r: Reaction, names: map<string, Well>, cfg: Config, t: Table, vols: map<string, int>)
    ensures NoPause(ReactionPlan(r, names, cfg, t, vols))
  {
    var plan := TransferPlan(names, t, vols, ReactionMix);
    if r == PCR {
      TransferPlanNoPause(names, t, vols, ReactionMix);
      ProgramsNoPause(cfg.annealing, cfg.extension);
      NoPauseAppend(plan, PcrProgram(cfg.annealing, cfg.extension));
      assert ReactionPlan(r, names, cfg, t, vols) == plan + PcrProgram(cfg.annealing, cfg.extension);
    } else if r == GGA {
      TransferPlanNoPause(names, t, vols, ReactionMix);
      ProgramsNoPause(cfg.annealing, cfg.extension);
      NoPauseAppend(plan, GgaProgram());
      assert ReactionPlan(r, names, cfg, t, vols) == plan + GgaProgram();
    } else if r == Gibson {
      TransferPlanNoPause(names, t, vols, ReactionMix);
      GibsonProgramNoPause();
      NoPauseAppend(plan, GibsonProgram());
      assert ReactionPlan(r, names, cfg, t, vols) == plan + GibsonProgram();
    }
  }

  /** A workflow name that comes round again finds its volume table
      already flattened and raises AttributeError, unless that table is
      empty. */
  lemma RepeatedWorkflowRaises(cfg: Config, volumes: map<string, VolumeTable>, names: map<string, Well>, i: nat, j: nat)
    requires i < |cfg.workflows| && j < |cfg.workflows| && cfg.workflows[j] == cfg.workflows[i]
    requires WorkflowPass(cfg, volumes, names, i).fault.None?
    requires volumes[cfg.workflows[i]] != []
    ensures WorkflowPass(cfg, WorkflowPass(cfg, volumes, names, i).volumes, names, j).fault == Some(AttributeError)
  {
    var w := cfg.workflows[i];
    var flat := Flatten(volumes[w]).value;
    FlattenSpec(volumes[w]);
    FlattenAgain(flat);
  }

  /** A workflow whose key is not one of PCR, GGA, Gibson and
      Transformation stops the run with an exception: the key is checked
      when the loop reaches it, after the workflows before it have run. */
  lemma UnknownKeyStops(cfg: Config, volumes: map<string, VolumeTable>, names: map<string, Well>, i: nat, j: nat)
    requires i <= j < |cfg.workflows| && ReactionOf(KeyOf(cfg.workflows[j])).None?
    ensures RunFrom(cfg, volumes, names, i).fault.Some?
  {
    var f := UnknownKeyFault(cfg, volumes, names, i, j);
  }

  /** The exception the run from `i` stops with when workflow `j` has an
      unknown key: raised by workflow `j` itself or by one before it. */
  ghost function UnknownKeyFault(cfg: Config, volumes: map<string, VolumeTable>, names: map<string, Well>, i: nat, j: nat): (f: Fault)
    requires i <= j < |cfg.workflows| && ReactionOf(KeyOf(cfg.workflows[j])).None?
    decreases j - i
    ensures RunFrom(cfg, volumes, names, i).fault == Some(f)
  {
    RunFromFault(cfg, volumes, names, i);
    var p := WorkflowPass(cfg, volumes, names, i);
    if i == j then UnknownKeyPass(cfg, volumes, names, i); AssertionError
    else if p.fault.Some? then p.fault.value
    else UnknownKeyFault(cfg, p.volumes, names, i + 1, j)
  }

  lemma RunFromFault(cfg: Config, volumes: map<string, VolumeTable>, names: map<string, Well>, i: nat)
    requires i < |cfg.workflows|
    ensures var p := WorkflowPass(cfg, volumes, names, i);
      RunFrom(cfg, volumes, names, i).fault == if p.fault.Some? then p.fault else RunFrom(cfg, p.volumes, names, i + 1).fault
  {
  }

  lemma UnknownKeyPass(cfg: Config, volumes: map<string, VolumeTable>, names: map<string, Well>, i: nat)
    requires i < |cfg.workflows| && ReactionOf(KeyOf(cfg.workflows[i])).None?
    ensures WorkflowPass(cfg, volumes, names, i) == Stage([], Some(AssertionError), volumes)
  {
  }

  // ---------------------------------------------------------------------
  // Enzyme positions

  /** The labware the enzyme tubes sit in: a 24-tube rack. */
  const EnzymeRack: string := "opentrons_24_tuberack_nest_1.5ml_screwcap"

  /** The wells of the 24-tube rack: rows A to D, columns 1 to 6. */
  function RackWells(): set<string>
  {
    set r: nat, c: nat | r < 4 && 1 <= c <= 6 :: WellName(r, c)
  }

  /** The positions as the rack's wells, or KeyError when one names no
      well of the rack. */
  function EnzymeWells(positions: map<string, string>): Outcome<map<string, Well>>
  {
    if exists k :: k in positions && positions[k] !in RackWells() then Failed(KeyError)
    else Done(map k | k in positions :: Well(EnzymeRack, positions[k]))
  }

  /** The enzyme loop of `run`: each position in turn becomes the rack's
      well of that name. */
  method LoadEnzymes(positions: map<string, string>) returns (r: Outcome<map<string, Well>>)
    ensures r == EnzymeWells(positions)
  {
    var todo := positions.Keys;
    var wells: map<string, Well> := map[];
    while todo != {}
      invariant todo <= positions.Keys
      invariant wells.Keys == positions.Keys - todo
      invariant forall k :: k in wells ==> wells[k] == Well(EnzymeRack, positions[k]) && positions[k] in RackWells()
      decreases |todo|
    {
      var k :| k in todo;
      if positions[k] !in RackWells() {
        return Failed(KeyError);
      }
      wells := wells[k := Well(EnzymeRack, positions[k])];
      todo := todo - {k};
    }
    assert wells == map k | k in positions :: Well(EnzymeRack, positions[k]);
    return Done(wells);
  }

  /** Once the positions are loaded, an "[E]" name resolves to the rack
      well its position names, or raises KeyError when it has none. */
  lemma LoadedEnzymeResolves(positions: map<string, string>, plates: seq<Plate>, name: string, right: bool)
    requires EnzymeWells(positions).Done? && StartsWith(name, "[E]")
    ensures FindMaterialsWell(Deck(EnzymeWells(positions).value, plates), name, right)
      == if name in positions then Found(Well(EnzymeRack, positions[name])) else Raised(KeyError)
  {
  }

  // ---------------------------------------------------------------------
  // Transformation samples

  /** A plate `run_Transformation` takes samples from. */
  predicate TransformationPlate(p: Plate)
  {
    StartsWith(p.key, "Transformation") && p.kind == "Transformation"
  }

  /** The values of a plate's data, in well order. */
  function DataValues(data: seq<(string, string)>): (vs: seq<string>)
    ensures |vs| == |data| && forall j :: 0 <= j < |data| ==> vs[j] == data[j].1
  {
    seq(|data|, j requires 0 <= j < |data| => data[j].1)
  }

  /** `unique_sample` before it becomes a set: the data values of the
      transformation plates, plate after plate. */
  function SampleList(plates: seq<Plate>): seq<string>
  {
    if plates == [] then []
    else
      var p := plates[|plates| - 1];
      SampleList(plates[..|plates| - 1]) + (if TransformationPlate(p) then DataValues(p.data) else [])
  }

  /** `list(set(unique_sample))` with "" removed. */
  function TransformationSamples(plates: seq<Plate>): set<string>
  {
    (set v | v in SampleList(plates)) - {""}
  }

  /** The samples are exactly the non-empty values some transformation
      plate holds. */
  lemma {:induction false} TransformationSamplesSpec(plates: seq<Plate>, v: string)
    ensures v in TransformationSamples(plates) <==>
      v != "" && exists i, j :: 0 <= i < |plates| && TransformationPlate(plates[i]) && 0 <= j < |plates[i].data| && plates[i].data[j].1 == v
  {
    SampleListSpec(plates, v);
  }

  lemma {:induction false} SampleListSpec(plates: seq<Plate>, v: string)
    ensures v in SampleList(plates) <==>
      exists i, j :: 0 <= i < |plates| && TransformationPlate(plates[i]) && 0 <= j < |plates[i].data| && plates[i].data[j].1 == v
  {
    if plates != [] {
      var n := |plates| - 1;
      var init := plates[..n];
      SampleListSpec(init, v);
      assert forall i :: 0 <= i < n ==> init[i] == plates[i];
      if v in SampleList(plates) && v !in SampleList(init) {
        var j :| 0 <= j < |plates[n].data| && plates[n].data[j].1 == v;
      }
    }
  }
}
