/** The OCPP charger: binds the confirmed current limit to the charge point's transaction
    (charger/ocpp.go). Transactions start, end and are rediscovered in the connector; every value read
    from it is an arbitrary input of the call that reads it. */
module OcppController {
  import opened Wrappers
  import opened OcppProfile

  datatype ChargePointStatus =
    | Available | Preparing | Charging | SuspendedEVSE | SuspendedEV | Finishing | Reserved | Unavailable | Faulted

  datatype State = State(phases: int, enabled: bool, current: real, profileCurrent: real, transactionID: int)

  datatype Error = Success | ReadFailed | TransactionUnknown | Rejected

  /** What setCurrent reads, and whether the charge point accepts its request. A failed read is None. */
  datatype Exchange = Exchange(
    txn: Option<int>, status: Option<ChargePointStatus>, lpPhases: Option<int>, now: int, accepted: bool)

  /** What Enabled reads; a value that is not measured or cannot be read is None. */
  datatype EnabledReads = EnabledReads(
    status: Option<ChargePointStatus>, offeredCurrent: Option<real>, offeredPower: Option<real>,
    scheduleLimit: Option<real>)

  datatype Call =
    | Enable(on: bool, io: Exchange)
    | MaxCurrent(amps: real, io: Exchange)
    | SwitchPhases(count: int, seen: EnabledReads, io: Exchange)
    | Status(status: Option<ChargePointStatus>, txn: Option<int>, io: Exchange)

  /** The state after a call, the request it sent (if any) and the limit the request stands for, and how
      its setCurrent ended. */
  datatype Outcome = Outcome(state: State, sent: Option<Profile>, argument: real, error: Error)

  function Fresh(): State { State(0, false, 0.0, 0.0, 0) }

  /** The status of a running transaction. */
  predicate Active(status: ChargePointStatus) {
    status.Charging? || status.SuspendedEV? || status.SuspendedEVSE?
  }

  function Enabled(s: State, seen: EnabledReads): bool {
    if seen.status == Some(SuspendedEVSE) then false
    else if seen.status == Some(Charging) || seen.status == Some(SuspendedEV) then true
    else if seen.offeredCurrent.Some? then seen.offeredCurrent.value > 0.0
    else if seen.offeredPower.Some? then seen.offeredPower.value > 0.0
    else if seen.scheduleLimit.Some? then seen.scheduleLimit.value > 0.0
    else s.enabled
  }

  function Send(cfg: Config, s: State, current: real, txn: int, io: Exchange): Outcome {
    var profile := CreateProfile(cfg, s.phases, io.lpPhases, Tenths(current), txn, io.now);
    if !io.accepted then Outcome(s, Some(profile), current, Rejected)
    else Outcome(s.(transactionID := txn, profileCurrent := current), Some(profile), current, Success)
  }

  function SetCurrent(cfg: Config, s: State, current: real, io: Exchange): Outcome {
    if !cfg.txProfile then Send(cfg, s, current, 0, io)
    else if io.txn.None? then Outcome(s, None, current, ReadFailed)
    else if io.txn.value == 0 && s.transactionID == 0 && io.status.None? then Outcome(s, None, current, ReadFailed)
    else if io.txn.value == 0 && s.transactionID == 0 && Active(io.status.value) then
      Outcome(s, None, current, TransactionUnknown)
    else Send(cfg, s, current, io.txn.value, io)
  }

  function Step(cfg: Config, s: State, c: Call): Outcome {
    match c
    case Enable(on, io) =>
      var o := SetCurrent(cfg, s, if on then s.current else 0.0, io);
      if o.error.Success? then o.(state := o.state.(enabled := on)) else o
    case MaxCurrent(amps, io) =>
      var o := SetCurrent(cfg, s, amps, io);
      if o.error.Success? then o.(state := o.state.(current := amps)) else o
    case SwitchPhases(count, seen, io) =>
      var t := s.(phases := count);
      SetCurrent(cfg, t, if Enabled(t, seen) then t.current else 0.0, io)
    case Status(status, txn, io) =>
      if status.None? then Outcome(s, None, 0.0, ReadFailed)
      else if !cfg.txProfile then Outcome(s, None, 0.0, Success)
      else if txn.None? then Outcome(s, None, 0.0, ReadFailed)
      else if txn.value == s.transactionID then Outcome(s, None, 0.0, Success)
      else SetCurrent(cfg, s, s.profileCurrent, io)
  }

  function Run(cfg: Config, s: State, cs: seq<Call>): State {
    if cs == [] then s else Step(cfg, Run(cfg, s, cs[..|cs| - 1]), cs[|cs| - 1]).state
  }

  datatype Confirmation = Confirmation(profile: Profile, argument: real)

  /** The accepted requests of a run, in order. */
  function Confirmed(cfg: Config, s: State, cs: seq<Call>): seq<Confirmation> {
    if cs == [] then []
    else
      var before := Confirmed(cfg, s, cs[..|cs| - 1]);
      var o := Step(cfg, Run(cfg, s, cs[..|cs| - 1]), cs[|cs| - 1]);
      if o.sent.Some? && o.error.Success? then before + [Confirmation(o.sent.value, o.argument)] else before
  }

  // ---------------------------------------------------------------------------------------------
  // One call
  // ---------------------------------------------------------------------------------------------

  /** A call whose request or read failed changes none of the confirmed values. */
  lemma FailureKeepsState(cfg: Config, s: State, c: Call)
    requires !Step(cfg, s, c).error.Success?
    ensures Step(cfg, s, c).state == if c.SwitchPhases? then s.(phases := c.count) else s
  {
  }

  lemma SentProfile(cfg: Config, s: State, c: Call)
    requires Step(cfg, s, c).sent.Some?
    ensures var o := Step(cfg, s, c);
            o.sent.value == CreateProfile(cfg, o.state.phases, c.io.lpPhases, Tenths(o.argument),
                                          if cfg.txProfile && c.io.txn.Some? then c.io.txn.value else 0, c.io.now)
    ensures cfg.txProfile ==> c.io.txn.Some?
  {
  }

  /** Every request is bound to the transaction it was sent in: a TxProfile with the id just read, or a
      default profile when there is none. Its limit stands for the argument. */
  lemma RequestBinding(cfg: Config, s: State, c: Call)
    requires Step(cfg, s, c).sent.Some?
    ensures var p := Step(cfg, s, c).sent.value;
            var t := if cfg.txProfile && c.io.txn.Some? then c.io.txn.value else 0;
            && p.transactionId == t
            && (p.purpose == TxProfile <==> t != 0)
            && (cfg.txProfile ==> c.io.txn.Some?)
            && (cfg.unit.Amperes? ==> p.limit == Tenths(Step(cfg, s, c).argument))
            && (cfg.unit.Watts? ==> p.limit == WattLimit(Tenths(Step(cfg, s, c).argument),
                                                         PowerPhases(Step(cfg, s, c).state.phases, c.io.lpPhases)))
  {
    SentProfile(cfg, s, c);
  }

  /** The rest of a request is what was configured; an absolute profile has started a minute ago. */
  lemma RequestFields(cfg: Config, s: State, c: Call)
    requires Step(cfg, s, c).sent.Some?
    ensures var p := Step(cfg, s, c).sent.value;
            && p.id == cfg.profileId && p.unit == cfg.unit
            && p.kind == (if cfg.profileKindRelative then Relative else Absolute(c.io.now - 60))
            && (p.stackLevel == 0 <==> cfg.stackLevelZero || cfg.stackLevel == 0)
            && (p.stackLevel != 0 ==> p.stackLevel == cfg.stackLevel)
            && p.numberPhases == (if cfg.unit.Amperes? && Step(cfg, s, c).state.phases != 0
                                  then Some(Step(cfg, s, c).state.phases) else None)
  {
    SentProfile(cfg, s, c);
  }

  /** The statuses without a running transaction, and those with one. */
  predicate Idle(status: ChargePointStatus) {
    || status == Available || status == Preparing || status == Finishing
    || status == Reserved || status == Unavailable || status == Faulted
  }

  predicate Busy(status: ChargePointStatus) {
    status == Charging || status == SuspendedEV || status == SuspendedEVSE
  }

  /** What the readings say about charging, in the order in which they are trusted. */
  function Evidence(seen: EnabledReads): seq<Option<bool>> {
    [ if seen.status.Some? && Busy(seen.status.value) then Some(seen.status != Some(SuspendedEVSE)) else None,
      Offers(seen.offeredCurrent), Offers(seen.offeredPower), Offers(seen.scheduleLimit) ]
  }

  function Offers(limit: Option<real>): Option<bool> {
    match limit
    case None => None
    case Some(x) => Some(x > 0.0)
  }

  /** A phase switch neither wakes a paused charge point nor pauses a charging one: what it asks for
      follows the first reading there is, and the cached state only if there is none. */
  lemma PhaseSwitchKeepsCharging(cfg: Config, s: State, count: int, seen: EnabledReads, io: Exchange)
    ensures var o := Step(cfg, s, SwitchPhases(count, seen, io));
            && (forall k :: 0 <= k < 4 && Evidence(seen)[k].Some?
                                && (forall j :: 0 <= j < k ==> Evidence(seen)[j].None?)
                            ==> o.argument == if Evidence(seen)[k].value then s.current else 0.0)
            && ((forall k :: 0 <= k < 4 ==> Evidence(seen)[k].None?)
                ==> o.argument == if s.enabled then s.current else 0.0)
            && (o.sent.Some? && o.error.Success? ==> o.state.profileCurrent == o.argument && o.state.phases == count)
  {
    var e := Evidence(seen);
    assert e[0].Some? || e[0].None?;
    assert e[1].Some? || e[1].None?;
    assert e[2].Some? || e[2].None?;
    assert e[3].Some? || e[3].None?;
  }

  // ---------------------------------------------------------------------------------------------
  // Whole runs
  // ---------------------------------------------------------------------------------------------

  /** The confirmed values agree with the log of accepted requests. */
  ghost predicate Agrees(cfg: Config, s: State, log: seq<Confirmation>) {
    && (s.profileCurrent == 0.0 || s.profileCurrent == s.current)
    && (log == [] ==> s.profileCurrent == 0.0 && s.transactionID == 0)
    && (log != [] ==> Stands(s, log[|log| - 1]))
    && (!cfg.txProfile ==> s.transactionID == 0)
  }

  predicate Stands(s: State, last: Confirmation) {
    && last.argument == s.profileCurrent
    && last.profile.transactionId == s.transactionID
    && (last.profile.purpose == TxProfile <==> s.transactionID != 0)
  }

  lemma StepAgrees(cfg: Config, s: State, log: seq<Confirmation>, c: Call)
    requires Agrees(cfg, s, log)
    ensures var o := Step(cfg, s, c);
            Agrees(cfg, o.state, if o.sent.Some? && o.error.Success?
                                 then log + [Confirmation(o.sent.value, o.argument)] else log)
  {
    if !Step(cfg, s, c).error.Success? {
      FailureKeepsState(cfg, s, c);
    } else if Step(cfg, s, c).sent.Some? {
      RequestBinding(cfg, s, c);
    }
  }

  /** In every reachable state the profile current is that of the last accepted request and is zero or
      the current limit, and the tracked transaction is the one the last accepted request names. */
  lemma {:induction false} ConfirmedLimit(cfg: Config, cs: seq<Call>)
    ensures Agrees(cfg, Run(cfg, Fresh(), cs), Confirmed(cfg, Fresh(), cs))
  {
    if cs != [] {
      var init, c := cs[..|cs| - 1], cs[|cs| - 1];
      ConfirmedLimit(cfg, init);
      StepAgrees(cfg, Run(cfg, Fresh(), init), Confirmed(cfg, Fresh(), init), c);
    }
  }

  /** Over whole runs, an accepted phase switch keeps the confirmed limit exactly when the charge point reports
      as enabled what was confirmed, or the current is zero anyway. */
  lemma PhaseSwitchKeepsLimitExact(cfg: Config, cs: seq<Call>, count: int, seen: EnabledReads, io: Exchange)
    requires var o := Step(cfg, Run(cfg, Fresh(), cs), SwitchPhases(count, seen, io));
             o.sent.Some? && o.error.Success?
    ensures var s := Run(cfg, Fresh(), cs);
            var t := Step(cfg, s, SwitchPhases(count, seen, io)).state;
            (t.profileCurrent == s.profileCurrent) ==
            (s.current == 0.0 || Enabled(s, seen) == (s.profileCurrent != 0.0))
  {
    ConfirmedLimit(cfg, cs);
  }

  /** What the callers of a run got back. */
  function Results(cfg: Config, s: State, cs: seq<Call>): (r: seq<Error>)
    ensures |r| == |cs|
  {
    if cs == [] then []
    else
      var init := cs[..|cs| - 1];
      Results(cfg, s, init) + [Step(cfg, Run(cfg, s, init), cs[|cs| - 1]).error]
  }

  /** The arguments of the last commands that reported success. */
  function LastEnabled(initial: bool, cs: seq<Call>, results: seq<Error>): bool
    requires |cs| == |results|
  {
    if cs == [] then initial
    else
      var last := |cs| - 1;
      if cs[last].Enable? && results[last].Success? then cs[last].on
      else LastEnabled(initial, cs[..last], results[..last])
  }

  function LastCurrent(initial: real, cs: seq<Call>, results: seq<Error>): real
    requires |cs| == |results|
  {
    if cs == [] then initial
    else
      var last := |cs| - 1;
      if cs[last].MaxCurrent? && results[last].Success? then cs[last].amps
      else LastCurrent(initial, cs[..last], results[..last])
  }

  /** The tracked enable state and current are those of the last commands that reported success, however
      many failed, were retried or re-applied in between. */
  lemma {:induction false} RunTracksCommands(cfg: Config, s: State, cs: seq<Call>)
    ensures Run(cfg, s, cs).enabled == LastEnabled(s.enabled, cs, Results(cfg, s, cs))
    ensures Run(cfg, s, cs).current == LastCurrent(s.current, cs, Results(cfg, s, cs))
  {
    if cs != [] {
      var init, c := cs[..|cs| - 1], cs[|cs| - 1];
      RunTracksCommands(cfg, s, init);
      assert Results(cfg, s, cs)[..|init|] == Results(cfg, s, init);
      if !Step(cfg, Run(cfg, s, init), c).error.Success? {
        FailureKeepsState(cfg, Run(cfg, s, init), c);
      }
    }
  }

  /** The count of the last phase switch, whether or not it succeeded; a new charger has none. */
  function LastPhases(cs: seq<Call>): int {
    if cs == [] then 0
    else if cs[|cs| - 1].SwitchPhases? then cs[|cs| - 1].count
    else LastPhases(cs[..|cs| - 1])
  }

  lemma {:induction false} PhasesAreLast(cfg: Config, cs: seq<Call>)
    ensures Run(cfg, Fresh(), cs).phases == LastPhases(cs)
  {
    if cs != [] {
      PhasesAreLast(cfg, cs[..|cs| - 1]);
      StepPhases(cfg, Run(cfg, Fresh(), cs[..|cs| - 1]), cs[|cs| - 1]);
    }
  }

  lemma StepPhases(cfg: Config, s: State, c: Call)
    ensures Step(cfg, s, c).state.phases == if c.SwitchPhases? then c.count else s.phases
  {
  }

  /** What a command of any run asks for: turning on the last current set with success, 0 A if there was
      none; turning off 0 A; setting a current that current. Once accepted, that is the confirmed limit. */
  lemma CommandsAsk(cfg: Config, cs: seq<Call>, c: Call)
    requires c.Enable? || c.MaxCurrent?
    ensures var o := Step(cfg, Run(cfg, Fresh(), cs), c);
            && o.argument == (if c.MaxCurrent? then c.amps
                              else if c.on then LastCurrent(0.0, cs, Results(cfg, Fresh(), cs)) else 0.0)
            && (o.error.Success? ==> o.state.profileCurrent == o.argument && o.sent.Some?)
  {
    RunTracksCommands(cfg, Fresh(), cs);
  }

  /** The transaction the last accepted request names, 0 if none. */
  function LastNamed(log: seq<Confirmation>): int {
    if log == [] then 0 else log[|log| - 1].profile.transactionId
  }

  /** The connector has what setCurrent decides on: a transaction, or the knowledge that none runs or that
      the last one named has ended. */
  predicate Decidable(io: Exchange, lastNamed: int) {
    io.txn.Some? && (io.txn.value != 0 || lastNamed != 0 || (io.status.Some? && Idle(io.status.value)))
  }

  /** When setCurrent sends, on the transaction tracked before. */
  lemma SetCurrentSends(cfg: Config, s: State, current: real, io: Exchange)
    ensures SetCurrent(cfg, s, current, io).sent.Some? <==> !cfg.txProfile || Decidable(io, s.transactionID)
  {
  }

  /** Exactly when a call of a run sends a request, read off the accepted requests before it. */
  lemma RequestsExact(cfg: Config, cs: seq<Call>, c: Call)
    ensures var last := LastNamed(Confirmed(cfg, Fresh(), cs));
            var sent := Step(cfg, Run(cfg, Fresh(), cs), c).sent.Some?;
            && (!cfg.txProfile ==> sent == !c.Status?)
            && (cfg.txProfile && !c.Status? ==> sent == Decidable(c.io, last))
            && (cfg.txProfile && c.Status? ==>
                  sent == (c.status.Some? && c.txn.Some? && c.txn.value != last && Decidable(c.io, last)))
  {
    ConfirmedLimit(cfg, cs);
    var s := Run(cfg, Fresh(), cs);
    match c
    case Enable(on, io) => SetCurrentSends(cfg, s, if on then s.current else 0.0, io);
    case MaxCurrent(amps, io) => SetCurrentSends(cfg, s, amps, io);
    case SwitchPhases(count, seen, io) =>
      var t := s.(phases := count);
      SetCurrentSends(cfg, t, if Enabled(t, seen) then t.current else 0.0, io);
    case Status(status, txn, io) => SetCurrentSends(cfg, s, s.profileCurrent, io);
  }

  /** A command that reads no transaction id, while the last accepted request of the run names none either,
      is sent exactly to an idle charge point. It waits exactly for one that charges or is suspended, whose
      transaction is not identified yet, and fails exactly when the status cannot be read. Once an accepted
      request named a transaction, it is always sent. */
  lemma UnidentifiedTransactionWaits(cfg: Config, cs: seq<Call>, c: Call)
    requires cfg.txProfile && !c.Status? && c.io.txn == Some(0)
    ensures var o := Step(cfg, Run(cfg, Fresh(), cs), c);
            var unnamed := LastNamed(Confirmed(cfg, Fresh(), cs)) == 0;
            && (o.sent.Some? <==> !unnamed || (c.io.status.Some? && Idle(c.io.status.value)))
            && (o.error == TransactionUnknown <==> unnamed && c.io.status.Some? && Busy(c.io.status.value))
            && (o.error == ReadFailed <==> unnamed && c.io.status.None?)
  {
    RequestsExact(cfg, cs, c);
    ConfirmedLimit(cfg, cs);
  }

  /** An earlier transaction that was named last lifts the wait: after 16 A in transaction 7, a charge point
      that is charging without an id is sent a default profile. */
  lemma EarlierTransactionLiftsWait(cfg: Config) returns (cs: seq<Call>, c: Call)
    requires cfg.txProfile
    ensures |cs| == 1 && cs[0] == MaxCurrent(16.0, Exchange(Some(7), Some(Charging), None, 0, true))
    ensures c == MaxCurrent(6.0, Exchange(Some(0), Some(Charging), None, 0, true))
    ensures var o := Step(cfg, Run(cfg, Fresh(), cs), c);
            o.sent.Some? && o.sent.value.purpose == TxDefaultProfile && o.error.Success?
  {
    cs := [MaxCurrent(16.0, Exchange(Some(7), Some(Charging), None, 0, true))];
    c := MaxCurrent(6.0, Exchange(Some(0), Some(Charging), None, 0, true));
    assert Run(cfg, Fresh(), cs[..0]) == Fresh();
    assert Run(cfg, Fresh(), cs) == Step(cfg, Fresh(), cs[0]).state;
  }

  // ---------------------------------------------------------------------------------------------
  // Status re-applies the profile
  // ---------------------------------------------------------------------------------------------

  /** A Status during which the connector keeps transaction t. */
  predicate QuietStatus(c: Call, t: int) {
    c.Status? && c.status.Some? && c.txn == Some(t) && c.io.txn == Some(t)
  }

  /** It sends exactly when t is not the tracked transaction, and then the confirmed limit bound to t.
      Nothing but the charge point's refusal can stop it, and once accepted t is tracked. */
  lemma StatusReapplies(cfg: Config, s: State, c: Call, t: int)
    requires cfg.txProfile && QuietStatus(c, t)
    ensures var o := Step(cfg, s, c);
            && (o.sent.Some? <==> t != s.transactionID)
            && (o.sent.Some? ==> o.argument == s.profileCurrent && o.sent.value.transactionId == t)
            && (o.error.Success? <==> t == s.transactionID || c.io.accepted)
            && (o.error.Success? ==> o.state == s.(transactionID := t))
            && (!o.error.Success? ==> o.state == s)
  {
  }

  predicate Accepts(c: Call) { c.io.accepted }

  /** However often Status is polled on a quiet connector, the first accepted request is the last one,
      and from then on the connector's transaction is tracked with the same limit. */
  lemma {:induction false} PollingSettles(cfg: Config, s: State, cs: seq<Call>, t: int)
    requires cfg.txProfile && forall i :: 0 <= i < |cs| ==> QuietStatus(cs[i], t)
    ensures |Confirmed(cfg, s, cs)| <= 1
    ensures Run(cfg, s, cs).profileCurrent == s.profileCurrent
    ensures var settled := s.transactionID == t || exists i :: 0 <= i < |cs| && Accepts(cs[i]);
            && Run(cfg, s, cs) == (if settled then s.(transactionID := t) else s)
            && (|Confirmed(cfg, s, cs)| == 1 <==> settled && s.transactionID != t)
  {
    if cs != [] {
      var init, c := cs[..|cs| - 1], cs[|cs| - 1];
      assert forall i :: 0 <= i < |init| ==> init[i] == cs[i];
      PollingSettles(cfg, s, init, t);
      StatusReapplies(cfg, Run(cfg, s, init), c, t);
      if exists i :: 0 <= i < |init| && Accepts(init[i]) {
        var i :| 0 <= i < |init| && Accepts(init[i]);
        assert Accepts(cs[i]);
      }
    }
  }

  // ---------------------------------------------------------------------------------------------
  // The driver
  // ---------------------------------------------------------------------------------------------

  class Ocpp {
    const cfg: Config
    var phases: int
    var enabled: bool
    var current: real
    var profileCurrent: real
    var transactionID: int

    function Abstract(): State
      reads this
    {
      State(phases, enabled, current, profileCurrent, transactionID)
    }

    constructor (cfg: Config)
      ensures this.cfg == cfg && Abstract() == Fresh()
    {
      this.cfg := cfg;
      phases, enabled, current, profileCurrent, transactionID := 0, false, 0.0, 0.0, 0;
    }

    method CreateChargingProfile(amps: real, txn: int, lpPhases: Option<int>, now: int) returns (res: Profile)
      ensures res == CreateProfile(cfg, phases, lpPhases, amps, txn, now)
    {
      var count := phases;
      var limit, numberPhases := amps, None;
      if cfg.unit.Watts? {
        if count == 0 && lpPhases.Some? {
          count := lpPhases.value;
        }
        if count == 0 {
          count := 3;
        }
        limit := WattLimit(amps, count);
      } else if count != 0 {
        numberPhases := Some(count);
      }
      res := Profile(cfg.profileId, TxDefaultProfile, 0, cfg.unit, limit, numberPhases, Relative, 0);
      if cfg.txProfile && txn != 0 {
        res := res.(purpose := TxProfile, transactionId := txn);
      }
      if !cfg.profileKindRelative {
        res := res.(kind := Absolute(now - 60));
      }
      if !cfg.stackLevelZero {
        res := res.(stackLevel := cfg.stackLevel);
      }
    }

    method ApplyCurrent(amps: real, io: Exchange) returns (sent: Option<Profile>, error: Error)
      modifies this`transactionID, this`profileCurrent
      ensures Outcome(Abstract(), sent, amps, error) == SetCurrent(cfg, old(Abstract()), amps, io)
    {
      var txn := 0;
      if cfg.txProfile {
        if io.txn.None? {
          return None, ReadFailed;
        }
        txn := io.txn.value;
        if txn == 0 && transactionID == 0 {
          if io.status.None? {
            return None, ReadFailed;
          }
          if Active(io.status.value) {
            return None, TransactionUnknown;
          }
        }
      }
      var profile := CreateChargingProfile(Tenths(amps), txn, io.lpPhases, io.now);
      if !io.accepted {
        return Some(profile), Rejected;
      }
      transactionID := txn;
      profileCurrent := amps;
      return Some(profile), Success;
    }

    method Enable(on: bool, io: Exchange) returns (sent: Option<Profile>, error: Error)
      modifies this
      ensures var o := Step(cfg, old(Abstract()), Call.Enable(on, io));
              Abstract() == o.state && sent == o.sent && error == o.error
    {
      var amps := 0.0;
      if on {
        amps := current;
      }
      sent, error := ApplyCurrent(amps, io);
      if error.Success? {
        enabled := on;
      }
    }

    method MaxCurrentMillis(amps: real, io: Exchange) returns (sent: Option<Profile>, error: Error)
      modifies this
      ensures var o := Step(cfg, old(Abstract()), MaxCurrent(amps, io));
              Abstract() == o.state && sent == o.sent && error == o.error
    {
      sent, error := ApplyCurrent(amps, io);
      if error.Success? {
        current := amps;
      }
    }

    method Phases1p3p(count: int, seen: EnabledReads, io: Exchange) returns (sent: Option<Profile>, error: Error)
      modifies this
      ensures var o := Step(cfg, old(Abstract()), SwitchPhases(count, seen, io));
              Abstract() == o.state && sent == o.sent && error == o.error
    {
      phases := count;
      var amps := 0.0;
      if Enabled(Abstract(), seen) {
        amps := current;
      }
      sent, error := ApplyCurrent(amps, io);
    }

    /** A failed re-apply is logged and does not fail the status. */
    method PollStatus(status: Option<ChargePointStatus>, txn: Option<int>, io: Exchange)
      returns (res: Option<ChargePointStatus>, sent: Option<Profile>)
      modifies this
      ensures var o := Step(cfg, old(Abstract()), Status(status, txn, io));
              Abstract() == o.state && sent == o.sent
      ensures res == if cfg.txProfile && txn.None? then None else status
    {
      sent := None;
      if status.None? {
        return None, None;
      }
      if cfg.txProfile {
        if txn.None? {
          return None, None;
        }
        if txn.value != transactionID {
          var error;
          sent, error := ApplyCurrent(profileCurrent, io);
        }
      }
      res := status;
    }
  }
}
