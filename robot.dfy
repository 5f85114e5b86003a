/** The part of the liquid-handling robot's programming interface that the
    protocols drive. Every call into the vendor library becomes an entry
    appended to a command trace (class Log); the one piece of library state the
    protocols reason about, the pipette's tip, liquid volume and flow rates, is
    kept in class Pipette. Labware geometry (heights above the well bottom,
    `top()` offsets) is not modelled: a location is a well. */
module Robot {

  /** Volumes are counted in hundredths of a microlitre, so that every volume
      the protocols use (19.5, 0.5, 3.29 ...) is an integer. */
  const UL: int := 100

  /** A well of a piece of labware, named the way the library names it ("A1"). */
  datatype Well = Well(labware: string, name: string)

  /** The first well of the fixed trash container. */
  const TrashWell: Well := Well("trash", "A1")

  /** Aspirate, dispense and blow-out speeds in microlitres per second. */
  datatype Rates = Rates(aspirate: int, dispense: int, blowOut: int)

  /** One call into the robot library. Distribute, Transfer and Mix are the
      library's compound operations and stay opaque. */
  datatype Command =
    | FlowRate(pipette: string, rates: Rates)
    | PickUpTip(pipette: string)
    | DropTip(pipette: string)
    | Aspirate(pipette: string, volume: int, at: Well)
    | Dispense(pipette: string, volume: int, at: Well)
    | BlowOut(pipette: string, at: Well)
    | AirGap(pipette: string, volume: int)
    | MoveTo(pipette: string, at: Well)
    | Mix(pipette: string, repetitions: int, volume: int)
    | Distribute(pipette: string, volume: int, source: Well, dests: seq<Well>,
                 touchTip: bool, mixBefore: bool, blowOut: bool)
    | Transfer(pipette: string, volume: int, source: Well, dests: seq<Well>, touchTip: bool)
    | TransferPairs(pipette: string, volume: int, sources: seq<Well>, dests: seq<Well>)
    | Thermo(step: TcStep)
    | Pause(message: string)

  /** A call on the thermocycler module. Temperatures are in degrees
      Celsius, holds in seconds (0: no hold); a profile is a list of
      (temperature, hold) steps run `repetitions` times. */
  datatype TcStep =
    | OpenLid
    | CloseLid
    | LidTemperature(celsius: int)
    | DeactivateLid
    | BlockTemperature(celsius: int, holdSeconds: int)
    | Profile(steps: seq<(int, int)>, repetitions: int)
    | DeactivateBlock
    | Deactivate

  /** The flow rates in force after `cmds`, for the pipette called `name`,
      when they were `r0` before. */
  function RatesAfter(r0: Rates, cmds: seq<Command>, name: string): Rates
  {
    if cmds == [] then r0
    else
      var last := cmds[|cmds| - 1];
      if last.FlowRate? && last.pipette == name then last.rates
      else RatesAfter(r0, cmds[..|cmds| - 1], name)
  }

  lemma {:induction false} RatesAfterAppend(r0: Rates, a: seq<Command>, b: seq<Command>, name: string)
    ensures RatesAfter(r0, a + b, name) == RatesAfter(RatesAfter(r0, a, name), b, name)
  {
    if b == [] {
      assert a + b == a;
    } else {
      assert (a + b)[..|a + b| - 1] == a + b[..|b| - 1];
      RatesAfterAppend(r0, a, b[..|b| - 1], name);
    }
  }

  /** Only a FlowRate entry for the same pipette changes its rates. */
  lemma {:induction false} RatesAfterOther(r0: Rates, cmds: seq<Command>, name: string)
    requires forall i :: 0 <= i < |cmds| ==> !(cmds[i].FlowRate? && cmds[i].pipette == name)
    ensures RatesAfter(r0, cmds, name) == r0
  {
    if cmds != [] {
      RatesAfterOther(r0, cmds[..|cmds| - 1], name);
    }
  }

  /** Every entry of `cmds` is a call on the pipette called `name`. */
  predicate Drives(cmds: seq<Command>, name: string)
  {
    forall i :: 0 <= i < |cmds| ==> !cmds[i].Thermo? && !cmds[i].Pause? && cmds[i].pipette == name
  }

  lemma DrivesAppend(a: seq<Command>, b: seq<Command>, name: string)
    requires Drives(a, name) && Drives(b, name)
    ensures Drives(a + b, name)
  {
    assert forall i :: |a| <= i < |a + b| ==> (a + b)[i] == b[i - |a|];
  }

  /** Calls on one pipette leave another pipette's rates alone. */
  lemma RatesAfterElsewhere(r0: Rates, cmds: seq<Command>, other: string, name: string)
    requires Drives(cmds, other) && other != name
    ensures RatesAfter(r0, cmds, name) == r0
  {
    RatesAfterOther(r0, cmds, name);
  }

  /** The wells `cmds` dispenses into, in order. */
  function Dispensed(cmds: seq<Command>): seq<Well>
  {
    if cmds == [] then []
    else
      var last := cmds[|cmds| - 1];
      Dispensed(cmds[..|cmds| - 1]) + (if last.Dispense? then [last.at] else [])
  }

  lemma {:induction false} DispensedAppend(a: seq<Command>, b: seq<Command>)
    ensures Dispensed(a + b) == Dispensed(a) + Dispensed(b)
  {
    if b == [] {
      assert a + b == a;
    } else {
      assert (a + b)[..|a + b| - 1] == a + b[..|b| - 1];
      DispensedAppend(a, b[..|b| - 1]);
    }
  }

  /** The trace of library calls, in the order the protocol issues them. */
  class Log {
    var entries: seq<Command>

    constructor ()
      ensures entries == []
    {
      entries := [];
    }

    /** A call on the thermocycler module. */
    method Thermocycler(step: TcStep)
      modifies this
      ensures entries == old(entries) + [Thermo(step)]
    {
      entries := entries + [Thermo(step)];
    }

    /** `protocol.pause(message)`: the run waits for the operator. */
    method PauseRun(message: string)
      modifies this
      ensures entries == old(entries) + [Pause(message)]
    {
      entries := entries + [Pause(message)];
    }
  }

  /** A pipette as the protocols see it. */
  class Pipette {
    const name: string
    const maxVolume: int
    var hasTip: bool
    var currentVolume: int
    var rates: Rates

    /** The volume held never goes below zero or above the pipette's capacity,
        and a pipette without a tip holds nothing. */
    ghost predicate Valid()
      reads this
    {
      0 < maxVolume && 0 <= currentVolume <= maxVolume && (!hasTip ==> currentVolume == 0)
    }

    constructor (name: string, maxVolume: int, rates: Rates)
      requires 0 < maxVolume
      ensures Valid() && this.name == name && this.maxVolume == maxVolume
      ensures !hasTip && currentVolume == 0 && this.rates == rates
    {
      this.name := name;
      this.maxVolume := maxVolume;
      hasTip := false;
      currentVolume := 0;
      this.rates := rates;
    }

    /** `flow_rate(pipette, aspirate=.., dispense=.., blow_out=..)`: sets
        exactly the rates that are given. */
    method SetFlowRate(aspirate: Option<int>, dispense: Option<int>, blowOut: Option<int>, log: Log)
      modifies this, log
      ensures hasTip == old(hasTip) && currentVolume == old(currentVolume)
      ensures rates.aspirate == (if aspirate.Some? then aspirate.value else old(rates.aspirate))
      ensures rates.dispense == (if dispense.Some? then dispense.value else old(rates.dispense))
      ensures rates.blowOut == (if blowOut.Some? then blowOut.value else old(rates.blowOut))
      ensures log.entries == old(log.entries) + [Command.FlowRate(name, rates)]
    {
      var r := rates;
      if aspirate.Some? { r := r.(aspirate := aspirate.value); }
      if dispense.Some? { r := r.(dispense := dispense.value); }
      if blowOut.Some? { r := r.(blowOut := blowOut.value); }
      rates := r;
      log.entries := log.entries + [Command.FlowRate(name, r)];
    }

    /** The library refuses to pick up a second tip. */
    method PickUpTip(log: Log)
      requires Valid() && !hasTip
      modifies this, log
      ensures Valid() && hasTip && currentVolume == 0 && rates == old(rates)
      ensures log.entries == old(log.entries) + [Command.PickUpTip(name)]
    {
      hasTip := true;
      currentVolume := 0;
      log.entries := log.entries + [Command.PickUpTip(name)];
    }

    /** Dropping the tip discards whatever it held. */
    method DropTip(log: Log)
      requires Valid() && hasTip
      modifies this, log
      ensures Valid() && !hasTip && currentVolume == 0 && rates == old(rates)
      ensures log.entries == old(log.entries) + [Command.DropTip(name)]
    {
      hasTip := false;
      currentVolume := 0;
      log.entries := log.entries + [Command.DropTip(name)];
    }

    /** The library refuses to aspirate without a tip or beyond capacity. */
    method Aspirate(volume: int, at: Well, log: Log)
      requires Valid() && hasTip && 0 <= volume && currentVolume + volume <= maxVolume
      modifies this, log
      ensures Valid() && hasTip && rates == old(rates)
      ensures currentVolume == old(currentVolume) + volume
      ensures log.entries == old(log.entries) + [Command.Aspirate(name, volume, at)]
    {
      currentVolume := currentVolume + volume;
      log.entries := log.entries + [Command.Aspirate(name, volume, at)];
    }

    /** A dispense of more than is held dispenses what is held. */
    method Dispense(volume: int, at: Well, log: Log)
      requires Valid() && hasTip && 0 <= volume
      modifies this, log
      ensures Valid() && hasTip && rates == old(rates)
      ensures currentVolume == if volume <= old(currentVolume) then old(currentVolume) - volume else 0
      ensures log.entries == old(log.entries) + [Command.Dispense(name, volume, at)]
    {
      currentVolume := if volume <= currentVolume then currentVolume - volume else 0;
      log.entries := log.entries + [Command.Dispense(name, volume, at)];
    }

    /** A blow-out empties the tip. */
    method BlowOut(at: Well, log: Log)
      requires Valid() && hasTip
      modifies this, log
      ensures Valid() && hasTip && currentVolume == 0 && rates == old(rates)
      ensures log.entries == old(log.entries) + [Command.BlowOut(name, at)]
    {
      currentVolume := 0;
      log.entries := log.entries + [Command.BlowOut(name, at)];
    }

    /** An air gap occupies tip volume like liquid does. */
    method AirGap(volume: int, log: Log)
      requires Valid() && hasTip && 0 <= volume && currentVolume + volume <= maxVolume
      modifies this, log
      ensures Valid() && hasTip && rates == old(rates)
      ensures currentVolume == old(currentVolume) + volume
      ensures log.entries == old(log.entries) + [Command.AirGap(name, volume)]
    {
      currentVolume := currentVolume + volume;
      log.entries := log.entries + [Command.AirGap(name, volume)];
    }

    method MoveTo(at: Well, log: Log)
      modifies log
      ensures log.entries == old(log.entries) + [Command.MoveTo(name, at)]
    {
      log.entries := log.entries + [Command.MoveTo(name, at)];
    }

    /** The library's own mix: aspirates and dispenses in place, so the
        volume held is unchanged. */
    method Mix(repetitions: int, volume: int, log: Log)
      requires hasTip
      modifies log
      ensures log.entries == old(log.entries) + [Command.Mix(name, repetitions, volume)]
    {
      log.entries := log.entries + [Command.Mix(name, repetitions, volume)];
    }

    /** The library's `distribute`; it takes and returns its own tips. */
    method Distribute(volume: int, source: Well, dests: seq<Well>, touchTip: bool, mixBefore: bool,
                      blowOut: bool, log: Log)
      modifies log
      ensures log.entries == old(log.entries) + [Command.Distribute(name, volume, source, dests, touchTip, mixBefore, blowOut)]
    {
      log.entries := log.entries + [Command.Distribute(name, volume, source, dests, touchTip, mixBefore, blowOut)];
    }

    /** The library's `transfer` with a new tip for every move. */
    method Transfer(volume: int, source: Well, dests: seq<Well>, touchTip: bool, log: Log)
      modifies log
      ensures log.entries == old(log.entries) + [Command.Transfer(name, volume, source, dests, touchTip)]
    {
      log.entries := log.entries + [Command.Transfer(name, volume, source, dests, touchTip)];
    }

    /** The library's `transfer` from a list of sources to a list of
        destinations, pair by pair, with a new tip for every move. */
    method TransferEach(volume: int, sources: seq<Well>, dests: seq<Well>, log: Log)
      modifies log
      ensures log.entries == old(log.entries) + [Command.TransferPairs(name, volume, sources, dests)]
    {
      log.entries := log.entries + [Command.TransferPairs(name, volume, sources, dests)];
    }
  }

  datatype Option<+T> = None | Some(value: T)
}
