# evcc charger drivers and tariff lookup in Dafny

A Dafny 4.11 model of the evcc components that carry real logic: the FoxESS power setpoint controller,
the Easee observation store, the OCPP charging profile machine, the tariff rate lookup, and four smaller
controllers (heat pump compressor, Alpitronic power limit, my-PV relay stages, SG Ready relays), with
proofs about every input and every run. `dafny verify dfyconfig.toml` checks all of it.

## How it is modelled

- A driver object is a class with the source's fields. Its methods follow the source statement by
  statement, and each is proved to compute a step function of the state before the call. `Run` repeats
  steps over a sequence of events; what the source promises is proved about `Run`, mostly against a
  description read off the event sequence alone ("the last accepted current", "the latest observation").
- A method that holds its mutex throughout is one step. Where the source takes the lock several times (the
  compressor's `Enable`, `MaxCurrent`, event handler and background loop), every goroutine has a state of
  its own: it checks the intent, decides, sends, records and starts the loop in separate steps, any number
  of goroutines run at once, and the proofs cover every interleaving of these steps.
- A device or network access is a parameter of the step: it succeeds or fails, and a failed write leaves
  the register as it was. For the SG Ready relays a failed call may or may not have switched. What the
  OCPP connector reports is an arbitrary value at each read.
- Floats are reals and `math.Round` rounds halves away from zero. Register widths are explicit; a
  conversion that does not fit wraps, and is proved not to happen where the source relies on that.
- Times are integers. Current time, decoded messages and remote answers are inputs.

Files: `FoxSetpoint`, `FoxController`, `EaseeStore`, `EaseeRuns`, `EaseeOrder`, `OcppProfile`, `OcppController`,
`OcppChargePoint`, `Rates`, `Ohpcf`, `Alpitronic`, `MyPvHea`, `SgReadyRelay`; `Numeric` and `Wrappers` are
shared helpers.

## What the code does not promise

Some properties one would expect fail for inputs the code accepts. Each has a lemma with the exact
condition, and nearly all one with a failing case:

- FoxESS: a three-phase setpoint survives a restart except on a switchable charger whose maximum power
  lies strictly between 1.4 and 4.2 kW (`RestartRoundTripExact`, `RestartRoundTripFails`).
- FoxESS: the advertised currents are encoded as they are except where the largest one does not reach the
  band, or the band is empty: a switchable 4.1 kW device advertises 7 A on three phases and is then told to
  use one (`AdvertisedRangeExact`, `AdvertisedRangeFails`).
- FoxESS: the heartbeat re-asserts the last setpoint against changes by the device, but only if it comes
  first; a change that is read before is adopted and then kept up (`DeviceChangeExact`).
- Rates: the comment asks for rates sorted by start time and promises the rate for a time or an error. Sorting
  is not enough: a rate that outlasts a later one can be passed over, and the lookup fails (`OutlastingHides`).
  On any slice the lookup succeeds at exactly the times some rate contains, if and only if the search ends
  well on the span of every rate (`LookupExact`); when it returns the same as a linear scan is
  `SearchIsScanExact`, and when it returns the leftmost position on a sorted slice is `SearchExact`. That no
  rate outlasts the next is sufficient for all three, not necessary (`SearchFindsLeftmost`,
  `OutlastingMayBeHarmless`, `SkippedMayBeFound`).
- Easee: of two observations with the same time the later arrival wins, so for the plainly stored values
  delivery order matters exactly when the latest observations disagree (`ConvergenceExact`). The session id is
  different: a session start and the mode that begins a session end with the id or without it, depending on
  which arrives first. Order does not matter for it exactly when no announcement that can come last names a
  session, or the latest ones name the same and no connecting mode is among the observations
  (`SessionIdConvergenceExact`, `SessionIdDependsOnOrder`). Total energy depends on order exactly when some
  reading exceeds the start value and all latest readings (`TotalConvergesExact`).
- Easee: after a new session begins, the record of an old one is still taken over exactly when its id is the
  one announced last: if it has no id and nothing was announced, or if its announcement arrives late as well
  (`RecordTakenExact`, `RecordWithoutIdLeaks`, `LateAnnouncementLeaks`).
- OCPP: an active transaction without an id is waited for only while the last accepted request named none;
  after an earlier transaction a default profile is sent to it (`UnidentifiedTransactionWaits`,
  `EarlierTransactionLiftsWait`).
- OCPP: default and transaction profile are sent with one profile id, so each replaces the other. Once
  the transaction named last has ended nothing is in force, and the car may charge without a limit, until
  the next status poll; otherwise the confirmed current is in force (`InForceExact`,
  `EndedTransactionLosesLimit`). On a charge point that keeps both in spite of the id, an older limit may rule after an end or while a transaction is lost
  (`InForceKeepingBothExact`, `LostTransactionLimit`).
- OCPP: without a switched phase count an ampere limit means three phases, a watt limit those the loadpoint
  reports; the two agree exactly when these are the same (`UnitsAgreeExact`).
- Compressor: whatever checked the intent before an `Enable` call changed it (an event handler, a
  `MaxCurrent` call or a turn of the loop) may send its command after it and undo it
  (`CommandsFollowIntent`, `InFlightContradicts`).
- Compressor: an `Enable` call that comes while the loop is between its check and the reset of its flag
  leaves the charger on without a loop (`StartLoopExact`, `LoopWhileOnExact`, `LoopLost`).
- Compressor: of two concurrent `Enable` calls one may command last and the other record last; the compressor
  is then not as recorded (`CompressorFollowsExact`, `ConcurrentEnablesContradict`).
- Alpitronic and my-PV: setting a current on a disabled charger enables it (`CurrentCommandEnables` and
  `DisabledIsEnabledByCurrent` in both).

## Model

| member | source | states |
|---|---|---|
| FoxSetpoint.DeriveLimits | charger/foxess-evc.go:176-215 | limits are accepted exactly when both ranges are non-empty and positive, are the register values in A and 0.1 kW, satisfy everything the encoding relies on, and switch phases exactly on three phases with the automatic on |
| FoxSetpoint.HardwarePhasesExact | charger/foxess-evc.go:203-207 | a device has three phases exactly when its power is that of at least two and a half |
| FoxSetpoint.RequestFits | charger/foxess-evc.go:363-366 | the clamped current is within the limits and the rounded power fits 16 bits for up to three phases |
| FoxSetpoint.SetpointMonotone | charger/foxess-evc.go:357-367 | more current never gives a smaller setpoint |
| FoxSetpoint.ZeroMeansDisabled | charger/foxess-evc.go:357-367 | the setpoint is zero exactly when disabled |
| FoxSetpoint.SetpointBand | charger/foxess-evc.go:338-367 | every setpoint lies in the band of the requested phase count and, on three phases, under the device maximum |
| FoxSetpoint.SetpointIsNearest | charger/foxess-evc.go:357-367 | the setpoint is the value of its band closest to the requested power |
| FoxSetpoint.PhaseBandExact | charger/foxess-evc.go:338-384 | for every current the charger settles on the requested phase count, exactly when its band exists |
| FoxSetpoint.EncodeDecodeInBand | charger/foxess-evc.go:357-384 | decoding a setpoint and encoding the result gives the setpoint back, through current clamp, rounding and band clamp |
| FoxSetpoint.RestartRoundTripExact | charger/foxess-evc.go:227-238 | what a restart seeds re-encodes to the register it was read from, exactly outside one family of devices |
| FoxSetpoint.RestartRoundTripFails | charger/foxess-evc.go:369-384 | registers of a device of that family, which comes back at 1.4 instead of 3.5 kW |
| FoxSetpoint.AdvertisedRangeExact | charger/foxess-evc.go:521-532 | no advertised current is band-clamped, exactly when nothing is advertised or the band exists and the largest current reaches it |
| FoxSetpoint.AdvertisedRangeFails | charger/foxess-evc.go:521-532 | a device whose advertised 7 A on three phases become a one-phase setpoint |
| FoxSetpoint.Within50WExact | charger/foxess-evc.go:357-367 | a supported current is encoded within 50 W of 230 V times phases times current, exactly when its power is within 50 W of the band |
| FoxSetpoint.AdvertisedWithin50W | charger/foxess-evc.go:521-532 | all advertised currents are, exactly when the ends of the range are; where the band exists, exactly when none is clamped |
| FoxSetpoint.OutsideAdvertisedSaturates | charger/foxess-evc.go:521-532 | any current outside the advertised range gives the setpoint of its nearest end, and a supported one the end of the band |
| FoxController.RunFollowsHistory | charger/foxess-evc.go:386-415 | after any run the tracked values are the last accepted ones, cache equals register, and the register encodes them from the first accepted command on |
| FoxController.HistoryIndependence | charger/foxess-evc.go:463-517 | runs with the same last accepted values end in the same state |
| FoxController.PhasesStayKnown | charger/foxess-evc.go:615-629 | the tracked phase count is always one the charger supports |
| FoxController.ReportedPhasesExact | charger/foxess-evc.go:631-641 | getPhases returns the last accepted count after every run with a command, exactly when its band exists or charging is off |
| FoxController.RestartIsInvisible | charger/foxess-evc.go:227-238 | a restart in an active session tracks an enabled charger and re-asserts the same register; re-enabling keeps it and the phase count is recognised, each under its exact condition |
| FoxController.StartTracksSession | charger/foxess-evc.go:227-238 | a start tracks an enabled charger exactly for a non-zero register in status 2, 3, 4 or 9; otherwise it tracks no current, stays disabled until enabled, and the first accepted command writes zero |
| FoxController.DeviceChangeExact | charger/foxess-evc.go:310-320 | after the device changes its setpoint, the first heartbeat or read decides whether the commanded or the device's value stays, and what is then tracked and reported |
| FoxController.CommandOverridesDevice | charger/foxess-evc.go:386-394 | the next accepted command writes its own setpoint |
| FoxController.FoxEss.constructor | charger/foxess-evc.go:227-238 | seeding from register and status |
| FoxController.FoxEss.ApplySetpoint | charger/foxess-evc.go:386-394 | writes register and cache together, or neither |
| FoxController.FoxEss.Enable | charger/foxess-evc.go:480-492 | the enable step: whole new state and error |
| FoxController.FoxEss.MaxCurrentMillis | charger/foxess-evc.go:502-517 | the current step; rejected below the minimum current or on a failed write |
| FoxController.FoxEss.Phases1p3p | charger/foxess-evc.go:615-629 | the phase switch step |
| FoxController.FoxEss.Enabled | charger/foxess-evc.go:463-478 | re-reads the register, and a zero register disables |
| FoxController.FoxEss.GetMaxCurrent | charger/foxess-evc.go:537-557 | re-reads the register and decodes it, outside a session an error |
| FoxController.FoxEss.HeartbeatTick | charger/foxess-evc.go:407-409 | re-asserts the cached setpoint |
| FoxController.FoxEss.GetPhases | charger/foxess-evc.go:631-641 | the phase count decoded from the cached setpoint |
| EaseeStore.Easee.constructor | charger/easee.go:119-128 | the empty store |
| EaseeStore.Easee.ProductUpdate | charger/easee.go:314-431 | drops undecodable and outdated messages, notes the time, and stores the value by kind |
| EaseeStore.Easee.StoreEnergy | charger/easee.go:358-367 | session and total energy, and the session payloads |
| EaseeStore.Easee.StoreOpMode | charger/easee.go:411-422 | the session reset when a car connects |
| EaseeStore.Easee.GetPhases | charger/easee.go:793-813 | counts live circuit phases, or maps the charger's mode |
| EaseeStore.Easee.GetStatus | charger/easee.go:468-489 | the charge status of an operation mode, or an error |
| EaseeStore.Easee.GetCurrentPower | charger/easee.go:675-688 | the power shown: error, zero or the stored value |
| EaseeRuns.StepCell | charger/easee.go:336-341 | a plain value changes only through an accepted observation of its own id, to the value carried |
| EaseeRuns.RunShowsLatest | charger/easee.go:336-341 | from any state, after any deliveries, a plain value is that of the latest observation not outdated at the start, or unchanged |
| EaseeRuns.Convergence | charger/easee.go:336-357 | every order and duplication of the same observations ends in the same plain values |
| EaseeRuns.LatestWins | charger/easee.go:336-357 | namely those of the largest time |
| EaseeRuns.ConvergenceExact | charger/easee.go:336-341 | for a plain value order never matters exactly when the latest observations agree |
| EaseeRuns.PhasesConverge | charger/easee.go:793-813 | the reported phase count does not depend on delivery order |
| EaseeRuns.StatusShown | charger/easee.go:468-489 | the status shown is that of the latest mode, by the mode numbers |
| EaseeRuns.PhaseModeShown | charger/easee.go:793-813 | without a circuit the phase count is that of the latest phase mode, with 2 as three |
| EaseeRuns.CircuitPhasesShown | charger/easee.go:793-813 | with a circuit it is the number of lines whose latest current is positive |
| EaseeRuns.UnheardIsBlank | charger/easee.go:119-128 | a new store shows blanks and zeros until an observation arrives |
| EaseeRuns.TotalIsMaximum | charger/easee.go:364-405 | total energy is the maximum of the start value and all accepted meter readings |
| EaseeRuns.TotalNeverDecreases | charger/easee.go:364-405 | total energy never decreases along a run |
| EaseeRuns.TotalConvergesExact | charger/easee.go:364-405 | total energy does not depend on delivery order, exactly when every reading is at most the start value or a latest reading |
| EaseeRuns.TotalConverges | charger/easee.go:364-405 | in particular when meter readings grow with time |
| EaseeRuns.LastHeard | charger/easee.go:343-347 | the liveness time is the arrival of the last accepted observation that was not a replay |
| EaseeRuns.PowerShown | charger/easee.go:675-688 | after any deliveries the power shown is that of the latest power observation, zero while disconnected or unheard for the timeout, and an error without a status |
| EaseeRuns.ReplayShowsNoPower | charger/easee.go:675-688 | replayed observations never make a silent charger show power, whatever mode was read |
| EaseeRuns.AcceptedExact | charger/easee.go:336-341 | an observation other than session energy is accepted exactly when none of its id delivered before is later |
| EaseeRuns.SessionEnergyAcceptedExact | charger/easee.go:336-417 | a session energy reading is accepted exactly when it is not stamped before the last reset and no reading received since is later |
| EaseeRuns.ResetsExact | charger/easee.go:411-422 | a session starts exactly at an accepted connecting mode whose predecessor was not connected |
| EaseeRuns.SessionFollowsDeliveries | charger/easee.go:358-420 | session id and energy are those of the last reset, announcement, reading or own record among the deliveries |
| EaseeRuns.SessionIsolation | charger/easee.go:411-420 | after a session starts its energy is zero, and the other values ever shown are exactly those of accepted readings, none older than the start, and of accepted records with the id announced last |
| EaseeRuns.RecordTakenExact | charger/easee.go:406-409 | an accepted record is taken over exactly when its id is the one announced last since the reset, or it changes nothing |
| EaseeRuns.RecordWithoutIdLeaks | charger/easee.go:406-409 | a record without an id is taken over after the reset, one with an id is not |
| EaseeRuns.LateAnnouncementLeaks | charger/easee.go:386-409 | a late announcement lets its old record in |
| EaseeOrder.SessionIdConvergenceExact | charger/easee.go:336-418 | from the empty store, exactly when every order of the same observations ends with the same session id |
| EaseeOrder.SessionIdDependsOnOrder | charger/easee.go:386-418 | two observations whose order decides it |
| OcppProfile.WattLimitBound | charger/ocpp.go:358-381 | the watt limit is at most the requested power and short of it by less than 23 W per phase and 1 W |
| OcppProfile.TenthsBounds | charger/ocpp.go:358-358 | the ampere limit is at most the request and short of it by less than 0.1 A |
| OcppProfile.TenthsMonotone | charger/ocpp.go:358-358 | the ampere limit is monotone |
| OcppProfile.WattLimitMonotone | charger/ocpp.go:358-381 | the watt limit is monotone |
| OcppProfile.ZeroLimitExact | charger/ocpp.go:358-388 | a limit is zero exactly below 0.1 A, so an enable never becomes a pause |
| OcppProfile.ProfileBinding | charger/ocpp.go:390-401 | a profile names a transaction exactly when it is a TxProfile, and never without that configuration |
| OcppProfile.UnitsAgreeExact | charger/ocpp.go:366-388 | ampere and watt profiles mean the same power to 1 W for every current, exactly when the phases were switched or the loadpoint reports three or none |
| OcppController.PhaseSwitchKeepsCharging | charger/ocpp.go:283-316 | a phase switch asks for the current or for zero as the first available of status, offered current, offered power, schedule and cached state says |
| OcppController.PhaseSwitchKeepsLimitExact | charger/ocpp.go:451-466 | over whole runs, an accepted phase switch keeps the confirmed limit exactly when what is read as enabled is what was confirmed |
| OcppController.FailureKeepsState | charger/ocpp.go:319-364 | a failed call changes no confirmed value |
| OcppController.RequestsExact | charger/ocpp.go:335-358 | in every reachable state, exactly when a call sends a request, in terms of what it reads and of the last accepted request |
| OcppController.RequestBinding | charger/ocpp.go:366-401 | every request carries the transaction just read as TxProfile, or none as default profile, and the limit of its argument |
| OcppController.RequestFields | charger/ocpp.go:382-411 | and the configured id, unit, kind, stack level and the switched phases; an absolute profile starts a minute ago |
| OcppController.ConfirmedLimit | charger/ocpp.go:361-363 | in every reachable state the profile current is 0 or the current, and with the tracked transaction is that of the last accepted request |
| OcppController.RunTracksCommands | charger/ocpp.go:319-332 | enabled and current are the arguments of the last commands that reported success |
| OcppController.CommandsAsk | charger/ocpp.go:318-332 | over whole runs, turning on asks for the last current set with success, turning off for zero, and an accepted command confirms what it asked for |
| OcppController.PhasesAreLast | charger/ocpp.go:451-453 | the phase count is that of the last switch, whether or not its request succeeded |
| OcppController.UnidentifiedTransactionWaits | charger/ocpp.go:343-354 | over whole runs, a command that reads no id while the last accepted request named none is sent exactly in the six idle statuses, waits exactly in the three of a running transaction, and fails exactly without a status; otherwise it is sent |
| OcppController.EarlierTransactionLiftsWait | charger/ocpp.go:343-354 | a run in which it is sent a default profile because an earlier transaction was named |
| OcppController.StatusReapplies | charger/ocpp.go:229-241 | a status poll sends exactly when the transaction changed, re-binds the confirmed current, and only a refusal leaves it untracked |
| OcppController.PollingSettles | charger/ocpp.go:229-241 | repeated polls confirm at most one request, the first that is accepted, and then send nothing |
| OcppController.Ocpp.constructor | charger/ocpp.go:197-204 | a new charger tracks nothing |
| OcppController.Ocpp.CreateChargingProfile | charger/ocpp.go:366-415 | the profile record |
| OcppController.Ocpp.ApplyCurrent | charger/ocpp.go:334-364 | setCurrent: request, error and new state |
| OcppController.Ocpp.Enable | charger/ocpp.go:318-332 | the enable step |
| OcppController.Ocpp.MaxCurrentMillis | charger/ocpp.go:443-449 | the current step |
| OcppController.Ocpp.Phases1p3p | charger/ocpp.go:451-466 | the phase switch step, which keeps the new count even if the request fails |
| OcppController.Ocpp.PollStatus | charger/ocpp.go:223-241 | the status step; a failed re-apply does not fail it |
| OcppChargePoint.RunRecords | charger/ocpp.go:335-401 | what the charge point holds as default and for the running transaction, read off the accepted requests of any run, with profiles of one id replacing each other or not |
| OcppChargePoint.KeptExact | charger/ocpp.go:390-392 | which installed profiles a received one replaces (OCPP 1.6 section 5.16) |
| OcppChargePoint.InForceExact | charger/ocpp.go:335-391 | with transactions starting, ending, lost and missed at any time, the confirmed current is in force exactly when the last accepted request named no transaction or the running one, else nothing is |
| OcppChargePoint.InForceKeepingBothExact | charger/ocpp.go:335-364 | the exact condition on a charge point that keeps both profiles |
| OcppChargePoint.StatusPutsInForce | charger/ocpp.go:229-241 | in any reachable state the next accepted status poll that reads the transaction puts it in force |
| OcppChargePoint.EndedTransactionLosesLimit | charger/ocpp.go:234-241 | a run after which nothing is in force, or an older default where both are kept |
| OcppChargePoint.LostTransactionLimit | charger/ocpp.go:335-364 | a run that loses a transaction: the confirmed current is in force, or its older limit where both are kept |
| Rates.Sort | api/rates.go:24-29 | sorts the slice in place to the stable order by start |
| Rates.SortIsPermutation | api/rates.go:24-29 | the result is ordered and has exactly the given rates |
| Rates.SortIsStable | api/rates.go:24-29 | equal starts keep their order |
| Rates.StableSortUnique | api/rates.go:24-29 | these conditions determine the result |
| Rates.At | api/rates.go:31-48 | the binary search; on any slice a returned rate is in it and contains the time |
| Rates.LookupExact | api/rates.go:31-48 | on any slice a lookup succeeds at exactly the times some rate contains, if and only if the search ends well on every rate's span |
| Rates.SkippedMayBeFound | api/rates.go:31-48 | a slice on which every lookup succeeds although the leftmost rate is passed over |
| Rates.SearchExact | api/rates.go:31-48 | on a sorted slice the search finds the leftmost rate at every time, exactly when it skips nothing |
| Rates.SearchIsScanExact | api/rates.go:31-48 | on any slice it returns what a linear scan returns, exactly when the two match on every rate's span |
| Rates.RepeatedRateIsFound | api/rates.go:31-48 | a rate listed twice can be skipped once and found the second time |
| Rates.SearchFindsLeftmost | api/rates.go:33-48 | it is enough that the rates are sorted and none outlasts the next |
| Rates.OutlastingMayBeHarmless | api/rates.go:31-48 | that is not necessary |
| Rates.OutlastingHides | api/rates.go:31-48 | of two rates, the first is not found from the end of the second on if it outlasts it |
| Rates.OrderedEndsSuffice | api/rates.go:31-48 | non-decreasing starts and ends are enough |
| Rates.SortThenAt | api/rates.go:24-48 | for non-overlapping rates in any order, sorting and searching returns exactly the rate containing the time |
| Ohpcf.ApplyAligns | charger/eebus-ohpcf.go:474-503 | no command exactly when the compressor is aligned with the intent, and aligned after a command that is accepted and executed |
| Ohpcf.ApplyIsIdempotent | charger/eebus-ohpcf.go:474-503 | applying the same intent again sends nothing |
| Ohpcf.TurningOffExact | charger/eebus-ohpcf.go:398-414 | turning off pauses exactly if allowed, else aborts exactly if allowed, and fails exactly when neither is or the command is refused |
| Ohpcf.TurningOnExact | charger/eebus-ohpcf.go:474-503 | turning on schedules an announced process, resumes a paused one, and fails exactly when that is refused |
| Ohpcf.NothingToControl | charger/eebus-ohpcf.go:475-484 | without a compressor apply fails, with a silent one it succeeds |
| Ohpcf.ConnectionFollowsEvents | charger/eebus-ohpcf.go:157-172 | the charger has a compressor exactly from an event that names one to the next disconnect |
| Ohpcf.SingleLoop | charger/eebus-ohpcf.go:325-365 | under every interleaving at most one loop exists and the flag is set exactly while it does |
| Ohpcf.StartLoopExact | charger/eebus-ohpcf.go:325-341 | in every reachable state an Enable call leaves a loop that goes on exactly when there is an interval and no loop is just ending |
| Ohpcf.LoopWhileOnExact | charger/eebus-ohpcf.go:325-365 | in every run that ends on, a loop goes on or is about to start exactly unless a step took it away and no call has turned the charger on since |
| Ohpcf.LoopLost | charger/eebus-ohpcf.go:333-357 | a run that ends on and without a loop |
| Ohpcf.ContextEndsLoop | charger/eebus-ohpcf.go:345-355 | the end of the context ends the loop, also while on |
| Ohpcf.NoIntervalNoLoop | charger/eebus-ohpcf.go:327-330 | without an interval there is no loop |
| Ohpcf.IntentIsLastRecorded | charger/eebus-ohpcf.go:307-323 | the intent is the argument of the last Enable call that recorded one, and every goroutine acts on its own request or the intent it checked |
| Ohpcf.RecordedWasAccepted | charger/eebus-ohpcf.go:310-316 | only an Enable call whose apply succeeded records |
| Ohpcf.CommandsFollowIntent | charger/eebus-ohpcf.go:474-503 | over whole runs, a command contradicts the intent exactly when it is that of an Enable call for the contrary or its sender checked another intent than the one recorded last, before the last change |
| Ohpcf.InFlightContradicts | charger/eebus-ohpcf.go:184-190 | any goroutine between its check and its command can be overtaken by a complete Enable call, and undoes it |
| Ohpcf.HandlerInFlight | charger/eebus-ohpcf.go:181-191 | a run that brings an event handler there |
| Ohpcf.MaxCurrentInFlight | charger/eebus-ohpcf.go:416-420 | a run that brings a MaxCurrent call there while off |
| Ohpcf.TurnInFlight | charger/eebus-ohpcf.go:356-362 | a run that brings the loop there |
| Ohpcf.CompressorFollowsExact | charger/eebus-ohpcf.go:307-323 | from the first recorded call on, exactly when a compressor that only executes commands is as the recorded intent wants it |
| Ohpcf.AbortedIsAligned | charger/eebus-ohpcf.go:405-411 | a compressor that can only be aborted is turned off by an abort |
| Ohpcf.ConcurrentEnablesContradict | charger/eebus-ohpcf.go:307-323 | two concurrent calls that leave the charger on and the compressor paused |
| Ohpcf.AnnouncementAnswered | charger/eebus-ohpcf.go:182-191 | however its steps are delayed, a handler that found the charger on answers what it reads of the compressor, and nothing is left available or paused |
| Ohpcf.AnnouncementIgnoredWhileOff | charger/eebus-ohpcf.go:186-191 | a handler that found the charger off sends nothing |
| Ohpcf.MaxCurrentApplies | charger/eebus-ohpcf.go:416-420 | a MaxCurrent call applies the intent it checked, on or off |
| Ohpcf.EEBusOhpcf.constructor | charger/eebus-ohpcf.go:93-103 | a new charger is off and without a loop |
| Ohpcf.EEBusOhpcf.StopProcess | charger/eebus-ohpcf.go:398-414 | pause if possible, else abort, else an error |
| Ohpcf.EEBusOhpcf.ApplyIntent | charger/eebus-ohpcf.go:474-503 | command and error for an intent |
| Ohpcf.EEBusOhpcf.Enable | charger/eebus-ohpcf.go:307-323 | an uninterrupted call is its five steps |
| Ohpcf.EEBusOhpcf.StartLoop | charger/eebus-ohpcf.go:325-341 | starts a loop unless one runs |
| Ohpcf.EEBusOhpcf.MaxCurrentCall | charger/eebus-ohpcf.go:416-420 | an uninterrupted call is check, decision and command, and re-applies the intent |
| Ohpcf.EEBusOhpcf.ConsumptionState | charger/eebus-ohpcf.go:181-191 | an uninterrupted handler is setCompressor, check, decision and command |
| Ohpcf.EEBusOhpcf.LoopTurn | charger/eebus-ohpcf.go:356-362 | an uninterrupted turn is check, decision and command |
| Ohpcf.EEBusOhpcf.DeferredReset | charger/eebus-ohpcf.go:346-350 | the loop ends and clears the flag |
| Alpitronic.SeedKeepsPower | charger/alpitronic.go:168-178 | the seeded current encodes to the register it was read from, in exact arithmetic |
| Alpitronic.RoundedSeedLosesAtMostOneWatt | charger/alpitronic.go:168-192 | with each operation rounded as in binary64, to that value or 1 W less |
| Alpitronic.StaysUsable | charger/alpitronic.go:155-211 | the remembered current always exceeds the inhibiting power |
| Alpitronic.NeverZero | charger/alpitronic.go:105-110 | no write is below 1547 W, exactly disabling writes that, and an accepted write leaves it in the register, which is therefore not zero |
| Alpitronic.EnabledAbove1547 | charger/alpitronic.go:198-211 | the charger counts as enabled exactly above 1547 W, seeded, read or written, by whomever |
| Alpitronic.FailureChangesNothing | charger/alpitronic.go:198-211 | a failed call changes nothing |
| Alpitronic.PowerIsTruncated | charger/alpitronic.go:189-196 | the limit is the power at 690 W per ampere cut to whole watts, zero for no current |
| Alpitronic.EnableEnables | charger/alpitronic.go:294-301 | a successful enable always enables |
| Alpitronic.RegisterFollowsCommands | charger/alpitronic.go:198-211 | without external writes the register is the last commanded limit and the flag says whether it allows charging |
| Alpitronic.RoundedSeedLosesOneWatt | charger/alpitronic.go:168-192 | 1555 W is such a register |
| Alpitronic.CurrentCommandEnables | charger/alpitronic.go:315-326 | setting a current keeps the enable state exactly when it is rejected, fails or the charger is enabled |
| Alpitronic.DisabledIsEnabledByCurrent | charger/alpitronic.go:198-211 | a run that disables and is enabled by a current |
| Alpitronic.RestartKeepsLimit | charger/alpitronic.go:168-178 | enabling after a restart writes the limit that was in force, in exact arithmetic |
| Alpitronic.AlpitronicHyc.constructor | charger/alpitronic.go:155-181 | seeding |
| Alpitronic.AlpitronicHyc.WritePower | charger/alpitronic.go:198-211 | register and flag change together, or neither |
| Alpitronic.AlpitronicHyc.Enabled | charger/alpitronic.go:281-291 | re-reads the register |
| Alpitronic.AlpitronicHyc.Enable | charger/alpitronic.go:293-301 | the enable step |
| Alpitronic.AlpitronicHyc.MaxCurrentMillis | charger/alpitronic.go:315-326 | the current step |
| MyPvHea.GreatestStageMask | charger/mypv-hea.go:196-207 | relay i is on exactly when it exists and 230 V times current times phases reaches i + 1 stages of 3500 W (one relay) or 3000 W (three), up to a billionth of a stage |
| MyPvHea.StageMonotone | charger/mypv-hea.go:204-207 | more current never switches a relay off |
| MyPvHea.RegisterFollowsCommands | charger/mypv-hea.go:167-215 | after any run the cache holds the mask of the last accepted command, and the register that or what the device fell back to |
| MyPvHea.HeartbeatRestores | charger/mypv-hea.go:121-136 | a successful heartbeat puts the last accepted command in force, whatever happened before |
| MyPvHea.EnabledExact | charger/mypv-hea.go:161-165 | Enabled is true exactly when the last write since a fallback switches a relay |
| MyPvHea.CurrentCommandEnables | charger/mypv-hea.go:191-215 | setting a current keeps what Enabled reads exactly when it is rejected, fails or fills a relay as before |
| MyPvHea.DisabledIsEnabledByCurrent | charger/mypv-hea.go:175-215 | a run that disables and is enabled by a current |
| MyPvHea.StageSurvives | charger/mypv-hea.go:121-215 | with fixed phases, enables, disables, heartbeats and fallbacks leave the chosen stage or nothing |
| MyPvHea.HeaCharger.constructor | charger/mypv-hea.go:103-108 | a new charger caches nothing |
| MyPvHea.HeaCharger.WriteRelays | charger/mypv-hea.go:167-173 | register and cache change together, or neither |
| MyPvHea.HeaCharger.MaxCurrentMillis | charger/mypv-hea.go:191-215 | the current step |
| MyPvHea.HeaCharger.Enable | charger/mypv-hea.go:175-182 | the enable step |
| MyPvHea.HeaCharger.HeartbeatTick | charger/mypv-hea.go:130-134 | rewrites a non-zero mask |
| MyPvHea.HeaCharger.Enabled | charger/mypv-hea.go:161-165 | reads the relay bits |
| SgReadyRelay.ChangeKeepsInterlock | charger/sgready-relay.go:84-114 | one mode change never has both relays on, at any point, whatever fails |
| SgReadyRelay.SetThenGet | charger/sgready-relay.go:84-137 | exactly when a change succeeds, and that its mode is then read back |
| SgReadyRelay.ModesAreRelays | charger/sgready-relay.go:84-114 | mode 1 is dim on, 3 boost on, 2 neither, and after a failure each relay is as its call left it |
| SgReadyRelay.Interlock | charger/sgready-relay.go:84-114 | over whole runs, boost and dim are never both on |
| SgReadyRelay.RelayPair.constructor | charger/sgready-relay.go:82-84 | the two relays |
| SgReadyRelay.RelayPair.EnableBoost | charger/sgready-relay.go:90-92 | one relay call |
| SgReadyRelay.RelayPair.EnableDim | charger/sgready-relay.go:93-99 | one relay call |
| SgReadyRelay.RelayPair.ModeS | charger/sgready-relay.go:84-114 | the setter: relay states visited and error |
| SgReadyRelay.RelayPair.ModeG | charger/sgready-relay.go:116-137 | the getter |

## Left out

- The remaining chargers, meters, vehicles and the site, planner and user interface: they are not part of this model.
- Configuration decoding, sponsor checks, logging, capability registration and diagnosis.
- IEEE rounding, NaN and infinities: floats are reals.
- FoxController.RunFollowsHistory: holds while only this process writes the setpoint; changes by the device are the subject of `DeviceChangeExact`.
- FoxController.FoxEss.GetMaxCurrent: the status last polled is an input.
- FoxController.FoxEss.HeartbeatTick: one turn of the loop; its timer and the end of its context are not modelled.
- Easee commands, connection, timers, wake-up of waiting commands and LED updates. JSON decoding is a value that may be missing.
- EaseeStore.Easee.ProductUpdate: a value whose declared data type does not match its id is not modelled; the source panics on it.
- The OCPP connector and its messages: every value it reports is an arbitrary input.
- OcppController.Ocpp.Enable: how `Enabled` is read is modelled only where the phase switch uses it.
- OcppChargePoint.InForceExact: assumes that a charge point accepts a transaction profile only for the running transaction (OCPP 1.6 section 5.16), that ids are not reused, that profiles left from before have this driver's profile id and stack level, and that nobody else sends any.
- Rates.Sort: an insertion sort stands for the library's algorithm; by `StableSortUnique` the result is the same. JSON marshalling is left out.
- Ohpcf.CompressorFollowsExact: the compressor changes its process only by commands; what it does on its own is an arbitrary value everywhere else.
- Compressor dimming, power and temperature readings.
- Ohpcf.CommandsFollowIntent: apply reads the connection and the compressor in one step, and sends its command and gets the answer in another; the reads themselves are arbitrary values.
- Alpitronic.NeverZero: does not cover currents whose power exceeds 32 bits, for which the source's conversion is not defined.
- Alpitronic.CurrentCommandEnables: the same.
- Alpitronic.SeedKeepsPower: exact arithmetic only; with binary64 rounding a register may come back 1 W lower (`RoundedSeedLosesAtMostOneWatt`, `RoundedSeedLosesOneWatt`).
- Alpitronic.RestartKeepsLimit: exact arithmetic only, for the same reason.
- MyPvHea.HeaCharger.HeartbeatTick: taken as a whole; races with commands are not modelled.
- SG Ready boost chargers' own behaviour behind the two relays, and the power setpoint of the SG Ready charger.
