# OT-2 cloning protocols: command planning, modelled and verified in Dafny

This project models the planning layer of three Opentrons OT-2 protocols for
DNA cloning. That layer sits under the calls into the robot's Python library
and is written by the repository itself. It reads a parameter table and
decides which library calls are made and in what order:

- `data/ot2_cloning/protocol_v2.py`: the workflow-driven protocol (PCR,
  Golden Gate, Gibson, transformation). Modelled in `protocol_v2.dfy` (module
  `ProtocolV2`: material lookup, transfer plan, spotting) and
  `protocol_v2_run.dfy` (module `ProtocolV2Run`: thermocycler programs,
  Gibson cool-down ramp, enzyme loading, volume flattening, the workflow
  loop, the transformation sample set).
- `data/ot2/protocols/cloning/ot2_cloning.py`: the two-reaction protocol with
  transformation and spotting. Modelled in `cloning.dfy` (module `Cloning`).
- `protocol/tes2.py`: the Golden Gate assembly template. Modelled in
  `golden_gate.dfy` (module `GoldenGate`).

Shared pieces:

- `robot.dfy` (module `Robot`) models the library.
  - Every library call is a `Command` appended to the trace held by class
    `Log`.
  - The pipette is class `Pipette`, with its tip, the volume it holds, its
    capacity and its flow rates.
- `params.dfy` (module `Params`) holds the parameter tables and the lookups
  both cloning protocols share.
  - A reaction table is a sequence of rows, each a map from column name to
    cell.
  - pandas' `unique()` is first-occurrence order.
  - The 96-well order runs down each column.
  - The first-match plate search is here too.

Volumes are integers in hundredths of a microlitre (`Robot.UL == 100`), so
19.5 µL is 1950 and 0.5 µL is 50. Temperatures are whole degrees and holds
are seconds. Every loop that changes state in the source is a `method` with
a `while` or `for` loop. Each such method is proved against a function that
states its whole trace (`log.entries == old(log.entries) + Plan(...)`), and
the lemmas beside each plan function state what the plan does: which wells
are served, in what order, when the tip is taken and dropped, when the run
pauses, and which exception stops it.

## Model

| member | source | states |
|---|---|---|
| Robot.Pipette.SetFlowRate | data/ot2_cloning/protocol_v2.py:159-166 | `flow_rate(pipette, **kwargs)` sets exactly the rates that are given and leaves the others, the tip and the volume alone; it logs the new rates |
| Robot.Pipette.PickUpTip | protocol/tes2.py:105-106 | picking up a tip needs no tip held and leaves an empty tip |
| Robot.Pipette.Aspirate | protocol/tes2.py:109 | aspirating needs a tip and room for the volume, and adds the volume to what is held |
| Robot.Pipette.Dispense | protocol/tes2.py:116-117 | a dispense takes the volume from what is held, or empties the tip when less is held |
| Robot.Pipette.BlowOut | data/ot2/protocols/cloning/ot2_cloning.py:176 | a blow-out empties the tip and keeps it |
| Robot.Pipette.AirGap | data/ot2/protocols/cloning/ot2_cloning.py:177 | an air gap takes tip volume as liquid does, within the capacity |
| Robot.Pipette.DropTip | protocol/tes2.py:121 | dropping the tip leaves no tip and nothing held |
| Robot.RatesAfterAppend | data/ot2_cloning/protocol_v2.py:159-166 | the rates after two runs of commands are the rates after the second, started from the rates after the first |
| Robot.RatesAfterOther | data/ot2_cloning/protocol_v2.py:159-166 | commands that set no rates on a pipette leave its rates as they were |
| Robot.RatesAfterElsewhere | data/ot2_cloning/protocol_v2.py:159-166 | calls on one pipette never change another pipette's rates (a corollary of `Robot.RatesAfterOther`) |
| Robot.DispensedAppend | data/ot2_cloning/protocol_v2.py:293-294 | the wells dispensed into by two runs of commands are those of the first, then those of the second |
| Params.ColumnValues | data/ot2_cloning/protocol_v2.py:190 | the column has one value per row, and value `i` is row `i`'s cell |
| Params.UniqueSpec | data/ot2_cloning/protocol_v2.py:190 | `unique()` holds exactly the values of the column, repeats none, and lists them in order of first occurrence (by `IndexOf`) |
| Params.IndexOfAppend | data/ot2_cloning/protocol_v2.py:190 | what follows a sequence does not move the first index of a value in it |
| Params.RowsCarryingSpec | data/ot2_cloning/protocol_v2.py:191 | `df[df[column] == v]` selects exactly the rows whose cell is `v`, each once, in row order |
| Params.StripDigits | data/ot2/protocols/cloning/ot2_cloning.py:127 | `re.sub(r"[0-9]+", "", s)` leaves no digit, keeps every non-digit of `s`, adds nothing and is no longer than `s`; its exact result is fixed by `StripDigitsAppend` and `StripDigitsChar` |
| Params.StripDigitsChar | data/ot2/protocols/cloning/ot2_cloning.py:127 | one character is kept exactly when it is not a digit |
| Params.StripDigitsSnoc | data/ot2/protocols/cloning/ot2_cloning.py:127 | a character added at the end is kept unless it is a digit |
| Params.StripDigitsAppend | data/ot2/protocols/cloning/ot2_cloning.py:127 | stripping a concatenation strips each part and keeps their order, so with `StripDigitsChar` the result is the non-digits of `s` in order |
| Params.StripTrailingNumber | data/ot2/protocols/cloning/ot2_cloning.py:127-131 | a digit-free type followed by a number, such as "Enzyme2", strips to the type |
| Params.StripNoDigits | data/ot2/protocols/cloning/ot2_cloning.py:127-131 | a name without digits strips to itself |
| Params.StripDigitsIdempotent | data/ot2/protocols/cloning/ot2_cloning.py:127 | stripping digits twice gives what stripping once gives |
| Params.StandardWells | data/ot2_cloning/protocol_v2.py:178-181 | a 96-well plate has 96 wells in its order |
| Params.WellNameInjective | data/ot2_cloning/protocol_v2.py:178-181 | different rows or columns give different well names, so every well name is in the order once |
| Params.IndexOf | data/ot2_cloning/protocol_v2.py:180 | `list.index` gives the first position holding the value |
| Params.WellOf | data/ot2_cloning/protocol_v2.py:178-183 | the matched well is returned unless `right_well` is set; a found well belongs to the plate's labware |
| Params.RightWellIsNextColumn | data/ot2_cloning/protocol_v2.py:179-181 | on a 96-well plate, `right_well` gives the same row one column to the right, and raises IndexError in column 12 |
| Params.StandardPosition | data/ot2_cloning/protocol_v2.py:180 | the well in row `r` of column `c` sits at position `(c-1)·8+r` of the order |
| Params.NextColumnPosition | data/ot2_cloning/protocol_v2.py:181 | eight positions after a well of columns 1-11 comes the same row in the next column |
| Params.FirstEntry | data/ot2_cloning/protocol_v2.py:176-177 | the first entry of a plate whose content is the material, and none exactly when no entry holds it |
| Params.SearchPlates | data/ot2_cloning/protocol_v2.py:175-183 | the plate search gives None exactly when no plate holds the material, and otherwise the well of the first match in plate order, then well order |
| Params.NoMatchInFirst | data/ot2_cloning/protocol_v2.py:175-177 | when the first plate has no match, the material is missing everywhere exactly when it is missing from the later plates |
| Params.FirstMatchShift | data/ot2_cloning/protocol_v2.py:175-177 | when the first plate has no match, the first match among the later plates is the first match of all |
| ProtocolV2.EnzymeNamesIgnorePlates | data/ot2_cloning/protocol_v2.py:172-173 | an "[E]" name resolves through the enzyme positions alone. The plates and `right_well` make no difference. It is found exactly when it has a position, and then it is that position's well (follows from the definition of `FindMaterialsWell`) |
| ProtocolV2.OtherNamesFirstMatch | data/ot2_cloning/protocol_v2.py:175-183 | any other name gives None exactly when no plate holds it, and otherwise the first match in plate order then well order, or the well 8 places later with `right_well` |
| ProtocolV2.RightWellOnStandardPlate | data/ot2_cloning/protocol_v2.py:179-181 | on a standard plate, `right_well` returns the matched row one column to the right |
| ProtocolV2.FirstMatchUnique | data/ot2_cloning/protocol_v2.py:175-183 | there is only one first match (follows from the definition of `FirstMatch`) |
| ProtocolV2.FoundWellOnDeck | data/ot2_cloning/protocol_v2.py:169-183 | a well that is found is an enzyme position for an "[E]" name, and otherwise a well of a plate on the deck |
| ProtocolV2.WellFor | data/ot2_cloning/protocol_v2.py:169-183 | every lookup the plan makes returns the well the resolution records for the name |
| ProtocolV2.NameWells | data/ot2_cloning/protocol_v2.py:198 | the destination list has one well per selected row: that row's Name well |
| ProtocolV2.NameWellsFor | data/ot2_cloning/protocol_v2.py:198 | looking up the Name wells one by one gives the destination list of the plan |
| ProtocolV2.DroppedSpec | data/ot2_cloning/protocol_v2.py:235 | dropping "A_enzyme" and "DW" keeps every other column |
| ProtocolV2.CellsPlan | data/ot2_cloning/protocol_v2.py:240-242 | after a row's cells, the destination is the row's Name well when the Name column is there, and otherwise the destination carried in |
| ProtocolV2.CellsPlanStep | data/ot2_cloning/protocol_v2.py:238-265 | one more column adds that column's commands to the row's plan and updates the destination only at the Name column |
| ProtocolV2.MixPairs | data/ot2_cloning/protocol_v2.py:271-273 | `range(n)` aspirate/dispense rounds make `2·n` commands, or none for `n <= 0` |
| ProtocolV2.LastDestsSome | data/ot2_cloning/protocol_v2.py:190-195 | some distribute sets `dest` exactly when some value of the column is not empty |
| ProtocolV2.NonEmptyValue | data/ot2_cloning/protocol_v2.py:190-195 | `unique()` has a non-empty value exactly when some row has a non-empty cell |
| ProtocolV2.CarriedIffAnyDistribute | data/ot2_cloning/protocol_v2.py:190-241 | a destination is carried into the row phase exactly when some row has a DW or A_enzyme entry |
| ProtocolV2.GroupPlanOnP300 | data/ot2_cloning/protocol_v2.py:201-233 | the grouped distributes drive the p300 alone |
| ProtocolV2.DistributeValue | data/ot2_cloning/protocol_v2.py:196-210 | the loop body for one value: its flow-rate change and its distribute. The p300's tip and volume are unchanged, and its rates are those the logged commands set |
| ProtocolV2.GroupPlanStep | data/ot2_cloning/protocol_v2.py:190-233 | one more value adds its distribute unless it is empty, and sets `dest` to the Name wells of the rows carrying it |
| ProtocolV2.DistributeColumn | data/ot2_cloning/protocol_v2.py:190-233 | the loop over `unique()` of DW or A_enzyme logs the grouped plan and leaves `dest` as the last distribute's destination list. The p300's rates are those the plan sets |
| ProtocolV2.TransferMaterials | data/ot2_cloning/protocol_v2.py:186-274 | `transfer_materials` logs the DW distributes, then the A_enzyme distributes, then the row phase. It leaves the p20 without a tip, and each pipette's rates are those its commands set |
| ProtocolV2.TransferPlanRates | data/ot2_cloning/protocol_v2.py:201-269 | the p20's rates change only in the row phase and the p300's only in the grouped phase |
| ProtocolV2.TransferRowCells | data/ot2_cloning/protocol_v2.py:238-265 | the column loop of one row logs the row's cell plan and returns the destination it leaves |
| ProtocolV2.TransferCell | data/ot2_cloning/protocol_v2.py:239-265 | one column of the loop logs that cell's plan, and the destination changes only at the Name column, to the row's Name well; the p20's tip and volume are unchanged |
| ProtocolV2.MixProduct | data/ot2_cloning/protocol_v2.py:267-274 | the final mix logs the mix plan and leaves the p20 without a tip |
| ProtocolV2.MixRounds | data/ot2_cloning/protocol_v2.py:271-273 | the `range(mix_last[0])` loop logs that many aspirate/dispense pairs and leaves the tip empty |
| ProtocolV2.MixPlanRates | data/ot2_cloning/protocol_v2.py:268-269 | a mix leaves the p20 at 10/10/10 µL/s; no mix leaves its rates alone |
| ProtocolV2.TransferRows | data/ot2_cloning/protocol_v2.py:237-274 | the row loop logs the row phase, with `dest` carried from row to row |
| ProtocolV2.TransferRow | data/ot2_cloning/protocol_v2.py:237-274 | one row logs its cells, then its mix, and leaves its Name well as the destination |
| ProtocolV2.RowsPlanStep | data/ot2_cloning/protocol_v2.py:237 | one more row appends that row's plan, started from the destination the rows before it left |
| ProtocolV2.MixPlanOnP20 | data/ot2_cloning/protocol_v2.py:267-274 | the final mix drives the p20 alone |
| ProtocolV2.RowsPlanOnP20 | data/ot2_cloning/protocol_v2.py:237-274 | the row phase drives the p20 alone |
| ProtocolV2.FilledSpec | data/ot2_cloning/protocol_v2.py:193-195 | removing empty values keeps exactly the non-empty ones, and keeps them distinct when they were |
| ProtocolV2.GroupPlanShape | data/ot2_cloning/protocol_v2.py:190-233 | the grouped plan is one rate change and one distribute per non-empty value, in order |
| ProtocolV2.GroupedDistributes | data/ot2_cloning/protocol_v2.py:190-233 | each distinct non-empty DW (or A_enzyme) value gets exactly one p300 distribute, in first-appearance order. It moves the column's volume from the value's well to the Name wells of exactly the rows carrying it |
| ProtocolV2.CellsPlanTransfers | data/ot2_cloning/protocol_v2.py:237-265 | Name cells and empty cells issue nothing; every other cell issues exactly one p20 transfer of its column's volume from its well to the destination in force, in column order |
| ProtocolV2.RowsPlanDest | data/ot2_cloning/protocol_v2.py:240-242 | after the rows, `dest` is the last row's Name well (follows from the definition of `RowsPlan`) |
| ProtocolV2.CarriedToPreviousRow | data/ot2_cloning/protocol_v2.py:237-265 | a material column before the Name column sends every row after the first to the previous row's Name well |
| ProtocolV2.CarriedDest | data/ot2_cloning/protocol_v2.py:240-242 | after the rows before row `i`, `dest` is row `i-1`'s Name well |
| ProtocolV2.CellTransferBeforeName | data/ot2_cloning/protocol_v2.py:243-265 | a cell before the Name column is transferred to the destination the row starts with |
| ProtocolV2.CellTransfer | data/ot2_cloning/protocol_v2.py:243-265 | every non-empty cell outside the Name column has, at its place in the row's plan, a 1 µL/s rate change and then one p20 transfer of its column's volume. The transfer goes to the row's Name well when the Name column came before it, and otherwise to the destination carried in |
| ProtocolV2.MixPairsSpec | data/ot2_cloning/protocol_v2.py:271-273 | round `i` aspirates `mix_last[1]` at the product well, then dispenses it there |
| ProtocolV2.MixPlanShape | data/ot2_cloning/protocol_v2.py:267-274 | the mix happens exactly when `sum(mix_last)` is not zero: one pick-up, `mix_last[0]` aspirate/dispense pairs of `mix_last[1]`, then one drop |
| ProtocolV2.RoundSpots | data/ot2_cloning/protocol_v2.py:293-297 | the inner loop spots while more than a spot is held, and leaves more than 0 and at most one spot |
| ProtocolV2.SpotsFit | data/ot2_cloning/protocol_v2.py:285-297 | the spots of a round fit in the destinations left |
| ProtocolV2.SpottingDispense | data/ot2_cloning/protocol_v2.py:277-299 | `spotting_dispense` takes a tip only when none is held, then logs its rounds, and ends with a tip and nothing held |
| ProtocolV2.SpotRound | data/ot2_cloning/protocol_v2.py:293-297 | the inner loop spots `dest[cnt..]` in order and keeps `whole_vol == s·(len(dest)−cnt)+1`, with `cnt <= len(dest)` |
| ProtocolV2.SpotPairsSpec | data/ot2_cloning/protocol_v2.py:293-297 | `k` spots from `cnt` dispense into `dest[cnt..cnt+k]`, one spot each |
| ProtocolV2.SpotRoundPlanSpec | data/ot2_cloning/protocol_v2.py:287-299 | one round serves the next destinations in order and never passes the end; its aspirate is more than a spot and at most the capacity |
| ProtocolV2.SpotRoundStep | data/ot2_cloning/protocol_v2.py:287-299 | a round serves at least one destination, so the outer loop makes progress |
| ProtocolV2.SpotRoundsDispensed | data/ot2_cloning/protocol_v2.py:284-299 | the rounds dispense into each destination exactly once, in order, so the loop ends after exactly `len(dest)` spots |
| ProtocolV2.SpotRoundsVolumes | data/ot2_cloning/protocol_v2.py:287-294 | every spot is `spotting_volume` and no aspirate exceeds `max_volume` |
| ProtocolV2.SpotRoundsUnfold | data/ot2_cloning/protocol_v2.py:287-299 | the rounds are one round, then the rounds from where it stopped |
| ProtocolV2Run.CoolDownSpec | data/ot2_cloning/protocol_v2.py:362-375 | from 50 degrees the ramp holds at 45, 40, …, 15 for 45 s each, every hold above 12, then turns the lid off and sets 12 |
| ProtocolV2Run.CoolDownLength | data/ot2_cloning/protocol_v2.py:362-375 | the ramp from `c` has `(c−13)/5` holds before its two closing calls |
| ProtocolV2Run.CoolDownHolds | data/ot2_cloning/protocol_v2.py:364-375 | hold `i` is at `c−5·(i+1)` degrees for 45 s, above 12 |
| ProtocolV2Run.CoolDownEnd | data/ot2_cloning/protocol_v2.py:366-369 | the ramp ends with the lid turned off and the block at 12 |
| ProtocolV2Run.GibsonCoolDown | data/ot2_cloning/protocol_v2.py:362-375 | the `current_tmp` loop logs the ramp from 50 degrees |
| ProtocolV2Run.RunPCR | data/ot2_cloning/protocol_v2.py:302-332 | `run_PCR` logs the transfer plan with a 2 × 15 µL mix, then the PCR program |
| ProtocolV2Run.RunGGA | data/ot2_cloning/protocol_v2.py:378-398 | `run_GGA` logs the transfer plan, then 30 cycles of 37/16 degrees and a hold at 12 |
| ProtocolV2Run.RunGibson | data/ot2_cloning/protocol_v2.py:335-375 | `run_Gibson` logs the transfer plan, then the 37/65/50-degree steps and the ramp |
| ProtocolV2Run.KeyOf | data/ot2_cloning/protocol_v2.py:568 | the key is a prefix of the workflow name with no underscore, and the name continues with an underscore when it is longer |
| ProtocolV2Run.FlattenSpec | data/ot2_cloning/protocol_v2.py:591-592 | the flattening succeeds exactly when no cell is stuck, and then keeps each key with its first value. Otherwise it raises at the first stuck cell: AttributeError for a plain value, StopIteration for an empty dictionary |
| ProtocolV2Run.FlattenAgain | data/ot2_cloning/protocol_v2.py:591-592 | a table flattened once raises AttributeError when flattened again, unless it is empty |
| ProtocolV2Run.Parameters.FlattenVolumes | data/ot2_cloning/protocol_v2.py:591-592 | the in-place loop gives the flattening's result, and on success replaces that workflow's table alone by the flat one |
| ProtocolV2Run.FlattenKeepsReady | data/ot2_cloning/protocol_v2.py:591-592 | flattening a table keeps every table the run reads resolvable |
| ProtocolV2Run.RunReaction | data/ot2_cloning/protocol_v2.py:594-596 | the call `eval` makes runs the reaction the key names |
| ProtocolV2Run.PassRunsReaction | data/ot2_cloning/protocol_v2.py:583-597 | a workflow that passes its checks logs its pause, its reaction and the lid opening, and flattens its own table |
| ProtocolV2Run.RunWorkflow | data/ot2_cloning/protocol_v2.py:567-597 | one pass of the loop logs what the pass function gives and raises what it gives |
| ProtocolV2Run.RunWorkflows | data/ot2_cloning/protocol_v2.py:567-597 | the loop runs the workflows in order until the first one that raises |
| ProtocolV2Run.PausesBeforeWorkflow | data/ot2_cloning/protocol_v2.py:577-581 | a workflow pauses exactly when `stop_reaction` is set, its key is accepted and its name differs from the first workflow's. The pause comes first and is the only one |
| ProtocolV2Run.PassShape | data/ot2_cloning/protocol_v2.py:567-597 | a refused key issues nothing; an accepted one issues its pause, then no other pause |
| ProtocolV2Run.TransferPlanNoPause | data/ot2_cloning/protocol_v2.py:186-274 | `transfer_materials` never pauses |
| ProtocolV2Run.ProgramsNoPause | data/ot2_cloning/protocol_v2.py:302-332 | the PCR and Golden Gate programs never pause (follows from the program definitions) |
| ProtocolV2Run.GibsonProgramNoPause | data/ot2_cloning/protocol_v2.py:341-375 | the Gibson program never pauses |
| ProtocolV2Run.ReactionPlanNoPause | data/ot2_cloning/protocol_v2.py:594-596 | no reaction pauses |
| ProtocolV2Run.RepeatedWorkflowRaises | data/ot2_cloning/protocol_v2.py:587-592 | a workflow name that comes round again raises AttributeError, because its table was already flattened, unless the table is empty |
| ProtocolV2Run.UnknownKeyStops | data/ot2_cloning/protocol_v2.py:567-574 | a workflow whose key is not PCR, GGA, Gibson or Transformation stops the run with an exception |
| ProtocolV2Run.UnknownKeyFault | data/ot2_cloning/protocol_v2.py:567-574 | gives the exception the run stops with, reached at that workflow or at an earlier one |
| ProtocolV2Run.UnknownKeyPass | data/ot2_cloning/protocol_v2.py:569-574 | an unknown key raises AssertionError before the pass issues anything |
| ProtocolV2Run.LoadEnzymes | data/ot2_cloning/protocol_v2.py:549-552 | the enzyme loop gives every position its rack well, or KeyError for a position the rack lacks |
| ProtocolV2Run.LoadedEnzymeResolves | data/ot2_cloning/protocol_v2.py:549-552 | after loading, an "[E]" name resolves to the rack well its position names, or raises KeyError (follows from the definitions of `EnzymeWells` and `FindMaterialsWell`) |
| ProtocolV2Run.DataValues | data/ot2_cloning/protocol_v2.py:412 | `plate["data"].values()` in order |
| ProtocolV2Run.TransformationSamplesSpec | data/ot2_cloning/protocol_v2.py:405-415 | the sample set is exactly the non-empty values of the plates whose key starts with "Transformation" and whose type is "Transformation" |
| ProtocolV2Run.SampleListSpec | data/ot2_cloning/protocol_v2.py:405-412 | the gathered list holds exactly the values of those plates |
| Cloning.SearchDnaPlates | data/ot2/protocols/cloning/ot2_cloning.py:50-61 | type "DNA" gives None exactly when no non-TF plate holds the name. Otherwise it gives the first match over the non-TF plates, or the well 8 places later with `right_well` |
| Cloning.NoDnaMatchInFirst | data/ot2/protocols/cloning/ot2_cloning.py:51-55 | a TF plate or one without a match leaves the result to the later plates |
| Cloning.FirstDnaMatchShift | data/ot2/protocols/cloning/ot2_cloning.py:51-55 | then the first match among the later plates is the first match of all |
| Cloning.EnzymeAndDwSharePositions | data/ot2/protocols/cloning/ot2_cloning.py:62-65 | types "Enzyme" and "DW" both look the name up in the enzyme positions and ignore the plates and `right_well`; any other type gives None (follows from the definition of `FindMaterialsWell`) |
| Cloning.DnaIgnoresTFPlates | data/ot2/protocols/cloning/ot2_cloning.py:53 | changing what TF plates hold never changes where DNA is found |
| Cloning.ColumnType | data/ot2/protocols/cloning/ot2_cloning.py:127-136 | a column is looked up as its name with the digits removed, and it touches the tip exactly when that type is "Enzyme" |
| Cloning.DroppedSpec | data/ot2/protocols/cloning/ot2_cloning.py:116 | dropping "Enzyme1" and "DW" keeps every other column |
| Cloning.CellsPlan | data/ot2/protocols/cloning/ot2_cloning.py:121-123 | after a row's cells, the destination is its Name well when the Name column is there |
| Cloning.CellsPlanStep | data/ot2/protocols/cloning/ot2_cloning.py:119-143 | one more column adds its commands and moves the destination only at the Name column |
| Cloning.CellsPlanExtend | data/ot2/protocols/cloning/ot2_cloning.py:119-143 | the trace after column `j` is the trace of the columns up to `j` |
| Cloning.TypedWell | data/ot2/protocols/cloning/ot2_cloning.py:127 | a typed lookup returns the well the resolution records |
| Cloning.NameWellsFor | data/ot2/protocols/cloning/ot2_cloning.py:86 | the Name wells looked up as DNA are the plan's destination list |
| Cloning.DistributeValue | data/ot2/protocols/cloning/ot2_cloning.py:84-114 | one value logs its rate change and its distribute, and the p300's tip and volume are unchanged |
| Cloning.GroupPlanStep | data/ot2/protocols/cloning/ot2_cloning.py:78-114 | one more value adds its distribute unless empty, and sets `dest` to the Name wells of the rows carrying it |
| Cloning.DistributeColumn | data/ot2/protocols/cloning/ot2_cloning.py:78-114 | the loop over `unique()` of DW or Enzyme1 logs the grouped plan and leaves `dest` as the last destination list |
| Cloning.TransferMaterials | data/ot2/protocols/cloning/ot2_cloning.py:68-152 | `transfer_materials` logs the DW distributes, the Enzyme1 distributes, then the row phase, and leaves the p20 without a tip |
| Cloning.TransferRowCells | data/ot2/protocols/cloning/ot2_cloning.py:119-143 | the column loop logs the row's cell plan and returns the destination it leaves |
| Cloning.TransferCell | data/ot2/protocols/cloning/ot2_cloning.py:119-143 | a Name cell sets the destination; an empty cell does nothing; any other cell logs one typed p20 transfer |
| Cloning.MixProduct | data/ot2/protocols/cloning/ot2_cloning.py:145-152 | the final mix logs the mix plan and leaves the p20 without a tip |
| Cloning.TransferRow | data/ot2/protocols/cloning/ot2_cloning.py:118-152 | a row logs its cells, then its mix |
| Cloning.RowsPlanStep | data/ot2/protocols/cloning/ot2_cloning.py:118 | one more row appends its plan, started from the destination left before it |
| Cloning.TransferRows | data/ot2/protocols/cloning/ot2_cloning.py:118-152 | the row loop logs the row phase with `dest` carried from row to row |
| Cloning.GroupPlanShape | data/ot2/protocols/cloning/ot2_cloning.py:78-114 | the grouped plan is one rate change and one distribute per non-empty value, in order |
| Cloning.GroupedDistributes | data/ot2/protocols/cloning/ot2_cloning.py:78-114 | each distinct non-empty DW (or Enzyme1) value gets exactly one p300 distribute of the column's volume, to exactly the rows carrying it. Enzyme1 distributes touch the tip, mix first and blow out; DW distributes do none of these |
| Cloning.CellsPlanTransfers | data/ot2/protocols/cloning/ot2_cloning.py:118-143 | Name and empty cells issue nothing; every other cell issues exactly one p20 transfer of its column's volume, touching the tip exactly for enzyme columns |
| Cloning.MixPlanShape | data/ot2/protocols/cloning/ot2_cloning.py:145-152 | the mix happens exactly when `sum(mix_last)` is not zero: rates 5/10/10, one pick-up, `mix_last[0]` aspirate/dispense pairs, one drop |
| Cloning.SpotsFit | data/ot2/protocols/cloning/ot2_cloning.py:164-174 | the spots of a round fit in the destinations left |
| Cloning.DrawFits | data/ot2/protocols/cloning/ot2_cloning.py:164-168 | every draw is more than a spot, fits beside the air gap held, and serves no more wells than are left |
| Cloning.AllSpotted | data/ot2/protocols/cloning/ot2_cloning.py:162-164 | the outer loop stops exactly when every destination has had its spot |
| Cloning.SpottingDispense | data/ot2/protocols/cloning/ot2_cloning.py:155-177 | `spotting_dispense` (draw corrected, see Findings) takes a tip only when none is held, then logs its rounds, and ends holding only the 1 µL air gap, or nothing when there are no destinations |
| Cloning.SpotRoundsUnfold | data/ot2/protocols/cloning/ot2_cloning.py:164-177 | the rounds are one round, then the rounds from where it stopped, on a 1 µL air gap |
| Cloning.SpotOneRound | data/ot2/protocols/cloning/ot2_cloning.py:164-177 | one outer round aspirates, spots, blows out and takes a 1 µL air gap, keeping `whole_vol == s·(n−cnt)+s−1` |
| Cloning.SpotRound | data/ot2/protocols/cloning/ot2_cloning.py:170-174 | the inner loop spots `dest[cnt..]` in order, never passing the end, and keeps the `whole_vol` invariant |
| Cloning.SpotRoundPlanSpec | data/ot2/protocols/cloning/ot2_cloning.py:164-177 | a round serves at least one destination, the next ones in order, and never passes the end |
| Cloning.SpotRoundsDispensed | data/ot2/protocols/cloning/ot2_cloning.py:162-177 | the rounds spot each destination exactly once, in order, so `cnt` ends at `len(dest)` |
| Cloning.NoRoundsLeft | data/ot2/protocols/cloning/ot2_cloning.py:164 | when no more than a spot is left, no destination is left |
| Cloning.SpotRoundsVolumes | data/ot2/protocols/cloning/ot2_cloning.py:164-171 | every spot is `spotting_volume` and every aspirate is more than a spot and within the capacity |
| Cloning.AsWrittenOverfills | data/ot2/protocols/cloning/ot2_cloning.py:165-177 | with 3 µL spots into 12 wells on the 20 µL pipette, the rule as written draws 20 µL beside the 1 µL air gap; the corrected rule draws 19 µL |
| Cloning.DrawDiffers | data/ot2/protocols/cloning/ot2_cloning.py:165-168 | the two rules agree on the first round, and later differ exactly when what is left is between the capacity less 1 µL and the capacity |
| Cloning.ProtocolSpottingUnaffected | data/ot2/protocols/cloning/ot2_cloning.py:162-168 | the protocol's own 4 µL spots on the 20 µL pipette never meet that case |
| Cloning.RowsPlanOnP20 | data/ot2/protocols/cloning/ot2_cloning.py:118-152 | the row phase drives the p20 alone |
| Cloning.TransferPlanDrives | data/ot2/protocols/cloning/ot2_cloning.py:68-152 | the plan is the grouped phase on the p300, then the row phase on the p20 |
| Cloning.TransferPlanNoPause | data/ot2/protocols/cloning/ot2_cloning.py:68-152 | `transfer_materials` never pauses |
| Cloning.RunReactions | data/ot2/protocols/cloning/ot2_cloning.py:212-284 | the reaction part of `run` logs the reactions plan and raises what it raises |
| Cloning.RunPcr | data/ot2/protocols/cloning/ot2_cloning.py:212-252 | the first reaction logs the PCR stage |
| Cloning.RunAssembly | data/ot2/protocols/cloning/ot2_cloning.py:254-284 | the second reaction logs the assembly stage |
| Cloning.RunPcrProgram | data/ot2/protocols/cloning/ot2_cloning.py:222-252 | the PCR thermocycler calls |
| Cloning.RunAssemblyProgram | data/ot2/protocols/cloning/ot2_cloning.py:266-284 | the assembly thermocycler calls |
| Cloning.ProgramsNoPause | data/ot2/protocols/cloning/ot2_cloning.py:222-284 | neither program pauses (follows from the program definitions) |
| Cloning.PcrStageGate | data/ot2/protocols/cloning/ot2_cloning.py:214-218 | PCR runs exactly when the first reaction names a product, and never pauses |
| Cloning.AssemblyStageGate | data/ot2/protocols/cloning/ot2_cloning.py:257-262 | assembly runs exactly when the second reaction names a product. It pauses exactly when it runs with `Stop_between_reactions` set, once and first |
| Cloning.ReactionGates | data/ot2/protocols/cloning/ot2_cloning.py:212-284 | with two reactions, the run issues the PCR stage then the assembly stage and raises nothing. It pauses exactly when the assembly runs with the stop flag set, right after the PCR stage |
| Cloning.DecideTransformation | data/ot2/protocols/cloning/ot2_cloning.py:288-294 | `Run_TF` is true exactly when some TF plate has data |
| Cloning.CollectSamples | data/ot2/protocols/cloning/ot2_cloning.py:304-311 | the sample set is exactly the non-empty values of the TF plates |
| Cloning.RightFoundLeftFound | data/ot2/protocols/cloning/ot2_cloning.py:50-61 | whether a DNA name is found at all does not depend on `right_well`, and a name whose right-hand well is found has its own well found too (follows from the contract of `SearchDnaPlates`) |
| Cloning.RightWellFaults | data/ot2/protocols/cloning/ot2_cloning.py:57-59 | a right-hand well lookup raises only ValueError (`list.index` of a well not on the labware) or IndexError (no well eight places later) (follows from the definition of `WellOf`) |
| Cloning.Collect | data/ot2/protocols/cloning/ot2_cloning.py:313-316 | lookups made one after another give their wells in order, or the exception of the first that raises, all before it having found their well |
| Cloning.SampleWells | data/ot2/protocols/cloning/ot2_cloning.py:313-316 | the list comprehension gives one well per sample, each the one its lookup finds, or raises exactly when some lookup raises, with the first such lookup's exception |
| Cloning.SpotDests | data/ot2/protocols/cloning/ot2_cloning.py:378 | the destination list raises KeyError exactly when a matching well is not on the labware |
| Cloning.SpotDestsSpec | data/ot2/protocols/cloning/ot2_cloning.py:378 | a sample's destinations are exactly the wells of the plate whose value is the sample |
| Cloning.SampleSpotDispensed | data/ot2/protocols/cloning/ot2_cloning.py:379-387 | a sample dispenses twice into its source while mixing, then once into each destination, in order |
| Cloning.TwoMixesDispensed | data/ot2/protocols/cloning/ot2_cloning.py:381-383 | the two 20 µL mixes dispense back into the source twice |
| Cloning.Chain | data/ot2/protocols/cloning/ot2_cloning.py:368-387 | steps run up to the first that raises; the run raises exactly when some step does, and then with that step's exception |
| Cloning.ChainStops | data/ot2/protocols/cloning/ot2_cloning.py:368-387 | once a step raises, nothing after it runs |
| Cloning.SpotSample | data/ot2/protocols/cloning/ot2_cloning.py:376-387 | one sample logs its plan, or raises before any command |
| Cloning.SpotSampleAt | data/ot2/protocols/cloning/ot2_cloning.py:379-387 | pick-up, two mixes, spotting, drop |
| Cloning.SpotPlate | data/ot2/protocols/cloning/ot2_cloning.py:373-387 | a TF plate's samples, one after another, up to the first that raises |
| Cloning.SpotPlates | data/ot2/protocols/cloning/ot2_cloning.py:368-387 | every TF plate in plate order |
| Cloning.PreludeHead | data/ot2/protocols/cloning/ot2_cloning.py:298-301 | the transformation opens with the pause exactly when `Stop_between_reactions` is set, and then sets the p300 to 20/20/100 µL/s |
| Cloning.PreludeOpens | data/ot2/protocols/cloning/ot2_cloning.py:298-301 | whatever the lookups after it raise, the transformation's commands begin with the pause and the flow rate (follows from the definition of `TransformationPrelude`) |
| Cloning.PreludeSucceeds | data/ot2/protocols/cloning/ot2_cloning.py:302-363 | the steps before spotting raise nothing exactly when "CPcell" and "LB" are among the tubes and every sample's right-hand well is found |
| Cloning.MissingCellsStop | data/ot2/protocols/cloning/ot2_cloning.py:301-302 | with no "CPcell" tube the transformation raises KeyError after the pause and the flow rate, before any tip is taken |
| Cloning.UnfoundSampleStops | data/ot2/protocols/cloning/ot2_cloning.py:313-316 | a sample whose right-hand well is not found (its well off the labware, or in the last column) stops the transformation with ValueError or IndexError before any tip is taken |
| Cloning.MissingLBStops | data/ot2/protocols/cloning/ot2_cloning.py:355-357 | with no "LB" tube, and everything before it found, the transformation raises KeyError right after the heat shock ends with `deactivate_block`, before any LB moves |
| Cloning.RunTransformation | data/ot2/protocols/cloning/ot2_cloning.py:296-388 | the transformation logs the plan: nothing when no TF plate has data, else the steps before spotting up to the first lookup that raises, then the spotting and `deactivate` unless a spotting step raised; both pipettes end without a tip |
| Cloning.RunPrelude | data/ot2/protocols/cloning/ot2_cloning.py:298-367 | the pause and flow rate, then the steps before spotting, raising what their lookups raise |
| Cloning.RunPreludeHead | data/ot2/protocols/cloning/ot2_cloning.py:298-301 | logs the pause when asked for, then the p300 flow rate |
| Cloning.RunPreludeSteps | data/ot2/protocols/cloning/ot2_cloning.py:302-367 | the tube and sample lookups in source order, each raising before the commands that need it, with the cells, the heat shock and the recovery between them |
| Cloning.RunCompetentCells | data/ot2/protocols/cloning/ot2_cloning.py:318-329 | the competent-cell mix and distribute, ending without a tip |
| Cloning.RunHeatShock | data/ot2/protocols/cloning/ot2_cloning.py:336-355 | product transfer and the heat shock |
| Cloning.RunRecovery | data/ot2/protocols/cloning/ot2_cloning.py:357-367 | LB to every well, the recovery hold, and the p20 set for spotting |
| Cloning.TransformationGate | data/ot2/protocols/cloning/ot2_cloning.py:288-299 | the transformation issues nothing exactly when no TF plate has data. When it runs, it starts with the pause exactly when `Stop_between_reactions` is set, whatever it raises later |
| Cloning.RunProtocol | data/ot2/protocols/cloning/ot2_cloning.py:212-388 | `run`: the reactions, then, unless they raised, the transformation, with its lookup failures; the tubes are needed only when the transformation runs |
| GoldenGate.WellData | protocol/tes2.py:21 | `meta_data[:-1]` is the list without its last item |
| GoldenGate.WellDataIsAssemblies | protocol/tes2.py:16-21 | when the list ends with the plate names, `well_data` is exactly the assemblies |
| GoldenGate.EnzDisNum | protocol/tes2.py:88-92 | `enz_dis_num` is between 0 and 4 and its doses fit in 19.5 µL. It is below 4 only when one more dose would not fit, and it is at least 1 exactly when one dose fits |
| GoldenGate.ProtocolDisNum | protocol/tes2.py:88-92 | with 4 µL it is 4, and one draw with its 0.5 µL excess fits the 20 µL pipette |
| GoldenGate.Slice | protocol/tes2.py:101-103 | Python slicing with both ends clamped |
| GoldenGate.SliceSplit | protocol/tes2.py:101-103 | a slice is the slice up to a midpoint, then the rest |
| GoldenGate.DestWells | protocol/tes2.py:96 | `dest_wells` has `min(len(well_data), 96)` wells |
| GoldenGate.Chunk | protocol/tes2.py:100-103 | both branches are the next `k` wells that there are |
| GoldenGate.Dispenses | protocol/tes2.py:116-117 | one dispense per well |
| GoldenGate.DistributionFromStep | protocol/tes2.py:98-124 | the corrected loop is one pass, then the passes from `n+k` while `n+k` is short of `len(well_data)` |
| GoldenGate.RunPass | protocol/tes2.py:100-122 | one pass logs its plan and leaves no tip, nothing held, and aspirate and dispense rates of 3 µL/s |
| GoldenGate.DispenseChunk | protocol/tes2.py:116-119 | the chunk loop logs one dose per well of the chunk, in order, and leaves `k − len(chunk)` doses plus the 0.5 µL excess in the tip |
| GoldenGate.DistributeEnzymeAsWritten | protocol/tes2.py:98-124 | the loop as written logs its two passes |
| GoldenGate.DistributeEnzyme | protocol/tes2.py:98-124 | the corrected loop logs its passes until `n` reaches `len(well_data)` |
| GoldenGate.DistributionPass | protocol/tes2.py:100-122 | one pass consumes the first pass of what is left of the plan |
| GoldenGate.PassDispensed | protocol/tes2.py:100-119 | a pass dispenses into its chunk, in order |
| GoldenGate.PassTips | protocol/tes2.py:105-121 | a pass picks up a tip exactly when none is held, always ends by dropping it, and leaves rates of 3 µL/s |
| GoldenGate.DispensesDispensed | protocol/tes2.py:116-117 | the doses go into the chunk's wells, in order |
| GoldenGate.DistributionAsWrittenServes | protocol/tes2.py:98-124 | as written, the enzyme reaches the first `2·enz_dis_num` wells and no more |
| GoldenGate.DistributionDispensed | protocol/tes2.py:98-124 | the corrected passes from `n` dispense into their chunks, in order |
| GoldenGate.ChunksCoverRest | protocol/tes2.py:100-103 | the chunks from `n` are exactly the wells from `n` |
| GoldenGate.DistributionServesAll | protocol/tes2.py:98-124 | corrected, every destination well from `n` gets the enzyme once, in order |
| GoldenGate.TemplateDistribution | protocol/tes2.py:88-124 | for the template's 20 assemblies at 4 µL, as written only the first 8 wells get enzyme; corrected, all 20 do |
| GoldenGate.EnzymeTransfer | protocol/tes2.py:52-84 | `enzyme_transfer` logs its plan, holds a tip exactly when `drop_tip` is unset, and leaves the given rates |
| GoldenGate.SetTransferRates | protocol/tes2.py:57-60 | each rate changes only when its argument is given |
| GoldenGate.TransferBody | protocol/tes2.py:65-82 | the body keeps the tip and leaves 1 µL less held (or nothing); only a `mix_after` list with a rate changes the rates, setting both directions to it |
| GoldenGate.RunMix | protocol/tes2.py:73-79 | a list `mix_after` sets its rate when it has one, then mixes |
| GoldenGate.EnzymeTransferDispensed | protocol/tes2.py:65-72 | the transfer dispenses twice into `dest` and nowhere else |
| GoldenGate.BodyDispensed | protocol/tes2.py:65-82 | the body dispenses twice into `dest` |
| GoldenGate.EnzymeTransferPicksUp | protocol/tes2.py:62-63 | a tip is picked up exactly when none is held |
| GoldenGate.EnzymeTransferDrops | protocol/tes2.py:83-84 | the transfer ends by dropping its tip exactly when `drop_tip` is set |
| GoldenGate.EnzymeTransferAspirates | protocol/tes2.py:65 | it aspirates only `volume`, and only from `src` |
| GoldenGate.BodyKeepsTip | protocol/tes2.py:65-82 | the body neither takes nor drops a tip |
| GoldenGate.EnzymeTransferRates | protocol/tes2.py:57-79 | the rates after the logged plan are the rates the pipette is left with |
| GoldenGate.RateCommandsRates | protocol/tes2.py:57-60 | the rate entries set exactly the given rates |
| GoldenGate.BodyRates | protocol/tes2.py:73-79 | only a `mix_after` with a rate changes the rates in the body |
| GoldenGate.MixRates | protocol/tes2.py:73-79 | a mix with a rate sets both directions to it |
| GoldenGate.Range | protocol/tes2.py:127 | `range` of a list raises TypeError; `range(n)` is `0..n-1` |
| GoldenGate.AllMoves | protocol/tes2.py:127-137 | one entry per assembly |
| GoldenGate.TransferAssembly | protocol/tes2.py:131-137 | the inner loop consumes one assembly's part of the plan, or stops at the exception |
| GoldenGate.TransferParts | protocol/tes2.py:127-137 | `range(well_data)` raises TypeError before any move; `range(len(well_data))` logs the part plan |
| GoldenGate.MovesPlanFault | protocol/tes2.py:127-137 | the part transfer raises exactly when some step of it does |
| GoldenGate.AssembliesPlanFault | protocol/tes2.py:127-137 | over the assemblies left, the same holds |
| GoldenGate.PartsFaultFree | protocol/tes2.py:127-137 | the corrected part transfer finishes exactly when every assembly has a well and every part resolves |
| GoldenGate.MovesPlanDispensed | protocol/tes2.py:131-137 | resolved moves dispense into their destinations twice each, in order |
| GoldenGate.MoveDispensed | protocol/tes2.py:136-137 | one move dispenses twice into its destination, before the moves after it |
| GoldenGate.AssembliesPlanDispensed | protocol/tes2.py:127-137 | the assemblies dispense as their moves do |
| GoldenGate.TwiceToOneWell | protocol/tes2.py:129-137 | moves into one well dispense into it twice per move |
| GoldenGate.AllMovesTargets | protocol/tes2.py:127-137 | assembly `i` dispenses into plate well `i`, twice per part |
| GoldenGate.PartsReachTheirWells | protocol/tes2.py:127-137 | corrected, each part goes into its assembly's well, in assembly order, and nowhere else |
| GoldenGate.Assemblies | protocol/tes2.py:21 | one assembly per item of `well_data` |
| GoldenGate.RunGoldenGate | protocol/tes2.py:18-137 | `run` up to the thermocycling, with both loops corrected |
| GoldenGate.GoldenGateDispensed | protocol/tes2.py:96-137 | the corrected run finishes exactly when every part resolves. It gives every assembly's well the enzyme, then its parts |

## Left out

- The robot library itself is not modelled.
  - Labware definitions, well geometry (`.bottom(z=)`, `.top()`), deck slots and labware loading are left out.
  - The internals of `distribute`, `transfer` and `mix` are left out; each is one opaque trace entry.
  - Pipette state is kept only where the protocols reason about it: tip, volume held, capacity and flow rates.
- Plate loading (`protocol_v2.py` lines 555-564, `ot2_cloning.py` lines 202-210) is a parameter: a plate arrives already loaded, with its well order.
- Enzyme loading (`ot2_cloning.py` lines 196-199) is a parameter too: `deck.enzymes` maps each tube name to its well already, where the source rewrites `Enzyme_position` in place and raises KeyError for a tube position the enzyme rack lacks.
- Thermocycler calls are trace entries with a temperature and a hold, with no physics.
  - `block_max_volume` and `ramp_rate` are dropped.
  - The lid-position test and the final `set_temperature`/`pause`/`disconnect` calls of `protocol/tes2.py` (lines 140-149) are left out.
- Network and time are left out: `discord_message` (an HTTP request), `logging`, `time.strftime` and `protocol.delay`.
- Library options with no effect on the plan are dropped: `disposal_volume`, `new_tip`, `trash`, `blowout_location`, `touch_tip` on `p20.transfer` in `protocol_v2.py` (always false there), and `starting_tip`.
- The transfer plans require every name they look up to resolve and every volume they read to exist. The source would raise, or hand None to the library, part-way through otherwise. Those paths are left out.
  - `ProtocolV2.TransferMaterials` and `Cloning.TransferMaterials`: they do not model a missing name or volume.
  - `ProtocolV2.TransferMaterials` and `Cloning.TransferMaterials`: they require `dest` to be bound before the first transfer reads it (`RowPhaseBound`). The source raises UnboundLocalError otherwise.
- `ProtocolV2Run.RunPCR`, `ProtocolV2Run.RunGGA`, `ProtocolV2Run.RunGibson` and `ProtocolV2Run.RunReaction`: they carry the transfer plan's requirements (`TableReady`, `RowPhaseBound`), so they too do not model a missing name or volume, or an unbound `dest`.
- `ProtocolV2Run.RunWorkflow` and `ProtocolV2Run.RunWorkflows`: they do not model a lookup failing inside a reaction; `Ready` requires every table to resolve.
- The `eval` dispatch (`protocol_v2.py` line 596) is a match on the key.
- `run_Transformation` of `protocol_v2.py` is modelled only as its sample-set collection (lines 405-415). Its call at line 584 passes keyword arguments the function does not accept, so the call raises TypeError before the body runs. Its keyword arguments `PARAMETERS["Workflow"][workflow]` and `PARAMETERS["Workflow_volume"][workflow]` are evaluated first, so the model raises KeyError for a Transformation workflow with no Workflow or Workflow_volume entry (as for "Transformation_4", which only the workflow list at line 24 names), and TypeError otherwise. The rest of the body is left out.
- Set order is a parameter. `list(set(...))` has no order the program controls, so the sample orders of `ot2_cloning.py` (lines 309 and 373) are parameters constrained to be exactly the set.
- A name that is not on any labware in `eval(tmp['plate'])` (`protocol/tes2.py` line 135) is a NameError; the racks the model knows are a parameter map.
- `GoldenGate.MoveOf`: it reports every plate name outside the racks as NameError. A name `run` binds to something that is not labware (`trash`, `p20_sin`, `DW`, `src`, `dest`; `protocol/tes2.py` lines 35, 39, 47, 95 and 129) raises AttributeError at `.wells_by_name()` in the source instead.
- `GoldenGate.DistributeEnzyme` and `GoldenGate.DistributeEnzymeAsWritten`: they require 0 < `enz_vol` ≤ 19.5 µL. Above 19.5 µL, `enz_dis_num` is 0 and `n` never grows. Each pass then takes a new tip (`tes2.py` lines 105-106), until the two tip racks (`tes2.py` lines 37-39) run out and the library raises OutOfTipsError; the model has no tip supply. At 0, `19.5 / enz_vol` (`tes2.py` line 88) raises ZeroDivisionError; below 0, `aspirate` is handed a negative volume, and what the library does then is not modelled. The template's `enz_vol` is the constant 4 (`tes2.py` line 22).
- `GoldenGate.TransferParts`: it requires every part volume to fit the pipette (`VolumesFit`). The library would refuse the aspirate otherwise.
- `ProtocolV2.SpottingDispense`: it requires a spot of at least 1 µL below the capacity, and starts from an empty tip. It models a blow-out as emptying the tip.
- `Cloning.SpottingDispense`: it requires a spot of more than 1 µL with room for the air gap. It models the corrected draw; the draw as written is `Cloning.DrawAsWritten` (see Findings).
- `Cloning.TransferMaterials`, `Cloning.RunPcr`, `Cloning.RunAssembly`, `Cloning.RunReactions` and `Cloning.RunProtocol`: one map `names` records the well of each looked-up string for every lookup type. `find_materials_well` (`ot2_cloning.py` lines 50-65) resolves each (string, type) pair on its own, so a table that looks the same string up both as DNA (a Name cell or a DNA column) and as Enzyme or DW, and finds two different wells, is outside their contracts.
- `Cloning.RunTransformation`, `Cloning.RunPrelude`, `Cloning.RunPreludeSteps` and `Cloning.RunProtocol`: they require every sample of the TF plates to be held by some other plate (`SamplesLocated`; this always holds when no TF plate has data). For a sample no other plate holds, `find_materials_well` returns None (`ot2_cloning.py` lines 313-316 and 332-335), and the source hands that None to `distribute`, `transfer` and `aspirate`; what the library then does is not modelled. The missing tubes (KeyError) and the right-hand wells that cannot be found (ValueError, IndexError) are modelled.
- Floating point is left out: volumes are exact hundredths of a microlitre, with no rounding modelled.
- The pause test in `protocol_v2.py` (line 579) compares workflow names, not positions. A later workflow with the same name as the first does not pause; the model keeps this.

## Findings

| source | as written | input that shows it | evidently intended | confidence | as-written member | corrected member |
|---|---|---|---|---|---|---|
| data/ot2/protocols/cloning/ot2_cloning.py:165-177 | a later round draws `whole_vol` when it does not exceed `max_volume`, ignoring the 1 µL air gap already in the tip | 3 µL spots into 12 wells on the 20 µL pipette: the second round draws 20 µL on top of the 1 µL air gap | draw `max_volume − 1` whenever what is left does not fit beside the air gap | not executed | Cloning.AsWrittenOverfills | Cloning.SpottingDispense |
| protocol/tes2.py:98-124 | the loop leaves once `n > enz_dis_num`, that is after its second pass | the template's 20 assemblies at 4 µL: only the first 8 wells get enzyme | leave once `n` reaches `len(well_data)`; the corrected loop keeps the source's do-while shape, so with no assemblies it still makes one pass | not executed | GoldenGate.DistributionAsWrittenServes | GoldenGate.DistributionServesAll |
| protocol/tes2.py:127 | `for i in range(well_data)` passes the list to `range` | any `well_data`: TypeError before the first part is moved | `range(len(well_data))` | not executed | GoldenGate.TransferParts | GoldenGate.PartsReachTheirWells |
