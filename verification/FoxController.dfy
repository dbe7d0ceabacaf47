/** The FoxESS charger as a state machine over its commands, heartbeats and restarts
    (charger/foxess-evc.go). Every method of the source holds the mutex throughout, so each is one
    atomic step. */
module FoxController {
  import opened Numeric
  import opened FoxSetpoint
  import opened Wrappers

  /** The tracked fields, and the device's own power setpoint register. */
  datatype State = State(enabled: bool, current: real, phases: int, setpoint: uint16, register: uint16)

  /** Register access either succeeds (ok) or fails without effect. */
  datatype Event =
    | Enable(on: bool, ok: bool)
    | MaxCurrent(amps: real, ok: bool)
    | SwitchPhases(count: int, ok: bool)
    | ReadEnabled(ok: bool)
    | ReadCurrent(status: uint16, ok: bool)
    | Heartbeat(ok: bool)
    | DeviceSets(power: uint16)  // the device changes its own setpoint

  /** Status values of a running session: start, charging, pause and switching. */
  predicate SessionActive(status: uint16) {
    status == 2 || status == 3 || status == 4 || status == 9
  }

  function Seed(l: Limits, status: uint16, register: uint16): State
    requires l.hwPhases != 0
  {
    if register > 0 && SessionActive(status) then
      var (current, phases) := DecodeSetpoint(l, l.hwPhases, register);
      State(true, current, phases, register, register)
    else
      State(false, 0.0, l.hwPhases, register, register)
  }

  function Write(s: State, val: uint16, ok: bool): State {
    if ok then s.(setpoint := val, register := val) else s
  }

  function Step(l: Limits, s: State, e: Event): State {
    match e
    case Enable(on, ok) =>
      var t := Write(s, CalcSetpoint(l, on, s.current, s.phases), ok);
      if ok then t.(enabled := on) else t
    case MaxCurrent(amps, ok) =>
      if amps < l.minCurrent then s
      else
        var t := Write(s, CalcSetpoint(l, s.enabled, amps, s.phases), ok);
        if ok then t.(current := amps) else t
    case SwitchPhases(count, ok) =>
      var t := Write(s, CalcSetpoint(l, s.enabled, s.current, count), ok);
      if ok then t.(phases := count) else t
    case ReadEnabled(ok) =>
      if !ok then s
      else s.(setpoint := s.register, enabled := s.enabled && s.register != 0)
    case ReadCurrent(status, ok) =>
      if SessionActive(status) && ok then s.(setpoint := s.register) else s
    case Heartbeat(ok) =>
      Write(s, s.setpoint, ok)
    case DeviceSets(power) => s.(register := power)
  }

  function Run(l: Limits, s: State, es: seq<Event>): State {
    if es == [] then s else Step(l, Run(l, s, es[..|es| - 1]), es[|es| - 1])
  }

  // ---------------------------------------------------------------------------------------------
  // History: what the last accepted commands asked for, read off the event sequence alone
  // ---------------------------------------------------------------------------------------------

  predicate Accepted(l: Limits, e: Event) {
    match e
    case Enable(_, ok) => ok
    case MaxCurrent(amps, ok) => ok && amps >= l.minCurrent
    case SwitchPhases(_, ok) => ok
    case ReadEnabled(_) => false
    case ReadCurrent(_, _) => false
    case Heartbeat(_) => false
    case DeviceSets(_) => false
  }

  predicate NoDevice(es: seq<Event>) { forall i :: 0 <= i < |es| ==> !es[i].DeviceSets? }

  function LastEnabled(initial: bool, es: seq<Event>): bool {
    if es == [] then initial
    else
      var e := es[|es| - 1];
      if e.Enable? && e.ok then e.on else LastEnabled(initial, es[..|es| - 1])
  }

  function LastCurrent(l: Limits, initial: real, es: seq<Event>): real {
    if es == [] then initial
    else
      var e := es[|es| - 1];
      if e.MaxCurrent? && Accepted(l, e) then e.amps else LastCurrent(l, initial, es[..|es| - 1])
  }

  function LastPhases(initial: int, es: seq<Event>): int {
    if es == [] then initial
    else
      var e := es[|es| - 1];
      if e.SwitchPhases? && e.ok then e.count else LastPhases(initial, es[..|es| - 1])
  }

  predicate SomeAccepted(l: Limits, es: seq<Event>) {
    exists i :: 0 <= i < |es| && Accepted(l, es[i])
  }

  /** Phase switching is only offered on a switchable charger, for one or three phases. */
  predicate Offered(l: Limits, es: seq<Event>) {
    forall i :: 0 <= i < |es| && es[i].SwitchPhases? ==> l.switchable && (es[i].count == 1 || es[i].count == 3)
  }

  /** While only this process writes, the tracked state after any run is the last accepted value of each command;
      cache and register agree; and from the first accepted command on the register is the encoding
      of exactly these values, whatever failed, was re-read or re-asserted in between. */
  lemma {:induction false} RunFollowsHistory(l: Limits, status: uint16, register: uint16, es: seq<Event>)
    requires ValidLimits(l) && NoDevice(es)
    ensures var s0 := Seed(l, status, register);
            var s := Run(l, s0, es);
            && s.enabled == LastEnabled(s0.enabled, es)
            && s.current == LastCurrent(l, s0.current, es)
            && s.phases == LastPhases(s0.phases, es)
            && s.setpoint == s.register
            && s.register == (if SomeAccepted(l, es)
                              then CalcSetpoint(l, s.enabled, s.current, s.phases) else register)
            && (s.enabled ==> s.register != 0)
  {
    if es != [] {
      var init, e := es[..|es| - 1], es[|es| - 1];
      RunFollowsHistory(l, status, register, init);
      assert SomeAccepted(l, es) <==> SomeAccepted(l, init) || Accepted(l, e) by {
        assert forall i :: 0 <= i < |init| ==> init[i] == es[i];
        if SomeAccepted(l, init) {
          var i :| 0 <= i < |init| && Accepted(l, init[i]);
          assert Accepted(l, es[i]);
        }
      }
      var s := Run(l, Seed(l, status, register), init);
      ZeroMeansDisabled(l, s.enabled, s.current, s.phases);
      match e
      case Enable(on, ok) => ZeroMeansDisabled(l, on, s.current, s.phases);
      case MaxCurrent(amps, ok) => ZeroMeansDisabled(l, s.enabled, amps, s.phases);
      case SwitchPhases(count, ok) => ZeroMeansDisabled(l, s.enabled, s.current, count);
      case ReadEnabled(ok) =>
      case ReadCurrent(status, ok) =>
      case Heartbeat(ok) =>
      case DeviceSets(_) => assert false;
    }
  }

  /** Two runs with the same last accepted values leave the same register, whatever else differed. */
  lemma HistoryIndependence(l: Limits, status1: uint16, register1: uint16, es1: seq<Event>,
                            status2: uint16, register2: uint16, es2: seq<Event>)
    requires ValidLimits(l) && SomeAccepted(l, es1) && SomeAccepted(l, es2) && NoDevice(es1) && NoDevice(es2)
    requires var a := Seed(l, status1, register1);
             var b := Seed(l, status2, register2);
             && LastEnabled(a.enabled, es1) == LastEnabled(b.enabled, es2)
             && LastCurrent(l, a.current, es1) == LastCurrent(l, b.current, es2)
             && LastPhases(a.phases, es1) == LastPhases(b.phases, es2)
    ensures Run(l, Seed(l, status1, register1), es1) == Run(l, Seed(l, status2, register2), es2)
  {
    RunFollowsHistory(l, status1, register1, es1);
    RunFollowsHistory(l, status2, register2, es2);
  }

  /** The tracked phase count is always one the charger knows. */
  lemma {:induction false} PhasesStayKnown(l: Limits, status: uint16, register: uint16, es: seq<Event>)
    requires ValidLimits(l) && Offered(l, es)
    ensures AllowedPhases(l, Run(l, Seed(l, status, register), es).phases)
  {
    if es != [] {
      var init := es[..|es| - 1];
      assert Offered(l, init) by {
        assert forall i :: 0 <= i < |init| ==> init[i] == es[i];
      }
      PhasesStayKnown(l, status, register, init);
    }
  }

  /** What getPhases reports. */
  function ReportedPhases(l: Limits, s: State): int {
    DecodePhases(l, s.phases, s.setpoint)
  }

  /** After any run with an accepted command the reported phase count is the last accepted one, while
      disabled and, exactly when its band exists, while enabled. */
  lemma ReportedPhasesExact(l: Limits, status: uint16, register: uint16, es: seq<Event>)
    requires ValidLimits(l) && Offered(l, es) && SomeAccepted(l, es) && NoDevice(es)
    ensures var s0 := Seed(l, status, register);
            var phases := LastPhases(s0.phases, es);
            (ReportedPhases(l, Run(l, s0, es)) == phases) ==
            (!l.switchable || !LastEnabled(s0.enabled, es) || phases == 1
             || l.maxPower >= MIN_POWER_3P || l.maxPower < MIN_POWER_1P)
  {
    var s := Run(l, Seed(l, status, register), es);
    RunFollowsHistory(l, status, register, es);
    PhasesStayKnown(l, status, register, es);
    if l.switchable && s.enabled {
      PhaseBandExact(l, s.phases, s.current, s.phases);
    }
  }

  /** The status values of a running session, written out. */
  predicate InSession(status: uint16) { status in {2, 3, 4, 9} }

  predicate NeverTurnedOn(es: seq<Event>) {
    forall i :: 0 <= i < |es| && es[i].Enable? && es[i].ok ==> !es[i].on
  }

  /** A start outside a session, or on a zero register, tracks a disabled charger without a current; it stays
      disabled until a command enables it, and the first accepted command of any kind writes zero. A start
      in a session on a setpoint tracks an enabled charger. */
  lemma {:induction false} StartTracksSession(l: Limits, status: uint16, register: uint16, es: seq<Event>)
    requires ValidLimits(l) && NeverTurnedOn(es) && NoDevice(es)
    ensures Seed(l, status, register).enabled <==> register > 0 && InSession(status)
    ensures register == 0 || !InSession(status) ==>
              var s := Run(l, Seed(l, status, register), es);
              && !s.enabled
              && s.register == (if SomeAccepted(l, es) then 0 else register)
              && s.current == LastCurrent(l, 0.0, es)
              && s.phases == LastPhases(l.hwPhases, es)
  {
    RunFollowsHistory(l, status, register, es);
    if es != [] {
      var init := es[..|es| - 1];
      assert forall i :: 0 <= i < |init| ==> init[i] == es[i];
      StartTracksSession(l, status, register, init);
      RunFollowsHistory(l, status, register, init);
    }
    var s := Run(l, Seed(l, status, register), es);
    ZeroMeansDisabled(l, s.enabled, s.current, s.phases);
  }

  /** A restart during an active session: whatever ran before, the new process tracks an enabled
      charger and a heartbeat leaves the register as it was. A repeated enable does so too, and the
      phase count is recognised, exactly when the register's band exists. */
  lemma RestartIsInvisible(l: Limits, status0: uint16, register0: uint16, es: seq<Event>, status: uint16, ok: bool)
    requires ValidLimits(l) && Offered(l, es) && SomeAccepted(l, es) && NoDevice(es)
    requires Run(l, Seed(l, status0, register0), es).enabled && InSession(status)
    ensures var s := Run(l, Seed(l, status0, register0), es);
            var t := Seed(l, status, s.register);
            && t.enabled && t.register == t.setpoint == s.register
            && Step(l, t, Heartbeat(ok)).register == s.register
            && (Step(l, t, Enable(true, ok)).register == s.register) ==
               (!ok || !l.switchable || s.phases == 1 || l.maxPower >= MIN_POWER_3P || l.maxPower <= MIN_POWER_1P)
            && (t.phases == s.phases) ==
               (!l.switchable || s.phases == 1 || l.maxPower >= MIN_POWER_3P || l.maxPower < MIN_POWER_1P)
  {
    var s := Run(l, Seed(l, status0, register0), es);
    RunFollowsHistory(l, status0, register0, es);
    PhasesStayKnown(l, status0, register0, es);
    RestartRoundTripExact(l, s.current, s.phases);
    if l.switchable {
      PhaseBandExact(l, l.hwPhases, s.current, s.phases);
    }
  }

  // ---------------------------------------------------------------------------------------------
  // Changes by the device
  // ---------------------------------------------------------------------------------------------

  /** A read or heartbeat that gets through to the register. */
  predicate Touches(e: Event) {
    (e.ReadEnabled? && e.ok) || (e.ReadCurrent? && e.ok && InSession(e.status)) || (e.Heartbeat? && e.ok)
  }

  /** The first of them. */
  function FirstTouch(es: seq<Event>): Option<Event> {
    if es == [] then None
    else
      var before := FirstTouch(es[..|es| - 1]);
      if before.None? && Touches(es[|es| - 1]) then Some(es[|es| - 1]) else before
  }

  predicate OnlyWatches(es: seq<Event>) {
    forall i :: 0 <= i < |es| ==> es[i].ReadEnabled? || es[i].ReadCurrent? || es[i].Heartbeat?
  }

  predicate ReadsFlag(es: seq<Event>) { exists i :: 0 <= i < |es| && es[i].ReadEnabled? && es[i].ok }

  /** When the device changes its setpoint, a heartbeat that comes first puts the commanded one back, and a
      read that comes first adopts the change, which heartbeats then keep up and the reported phases follow.
      An adopted zero disables the charger once the flag is read, and nothing else does; current and
      phases stay as commanded. */
  lemma DeviceChangeExact(l: Limits, status: uint16, register: uint16, es: seq<Event>, power: uint16, later: seq<Event>)
    requires ValidLimits(l) && NoDevice(es) && OnlyWatches(later)
    ensures var s := Run(l, Seed(l, status, register), es);
            var t := Run(l, Step(l, s, DeviceSets(power)), later);
            var first := FirstTouch(later);
            && t.current == s.current && t.phases == s.phases
            && t.register == (if first.Some? && first.value.Heartbeat? then s.register else power)
            && t.setpoint == (if first.Some? && !first.value.Heartbeat? then power else s.register)
            && (t.enabled <==> s.enabled && !(t.setpoint == 0 && ReadsFlag(later)))
            && ReportedPhases(l, t) ==
               DecodePhases(l, s.phases, if first.Some? && !first.value.Heartbeat? then power else s.register)
  {
    RunFollowsHistory(l, status, register, es);
    WatchingRun(l, Run(l, Seed(l, status, register), es), power, later);
  }

  lemma {:induction false} WatchingRun(l: Limits, s: State, power: uint16, later: seq<Event>)
    requires OnlyWatches(later) && s.setpoint == s.register && (s.enabled ==> s.register != 0)
    ensures var t := Run(l, Step(l, s, DeviceSets(power)), later);
            var first := FirstTouch(later);
            && t.current == s.current && t.phases == s.phases
            && t.register == (if first.Some? && first.value.Heartbeat? then s.register else power)
            && t.setpoint == (if first.Some? && !first.value.Heartbeat? then power else s.register)
            && (t.enabled <==> s.enabled && !(t.setpoint == 0 && ReadsFlag(later)))
  {
    if later != [] {
      var init, e := later[..|later| - 1], later[|later| - 1];
      assert forall i :: 0 <= i < |init| ==> init[i] == later[i];
      WatchingRun(l, s, power, init);
      assert ReadsFlag(later) <==> ReadsFlag(init) || (e.ReadEnabled? && e.ok);
      if ReadsFlag(init) {
        FlagReadTouches(init);
      }
    }
  }

  lemma {:induction false} FlagReadTouches(es: seq<Event>)
    requires ReadsFlag(es)
    ensures FirstTouch(es).Some?
  {
    var i :| 0 <= i < |es| && es[i].ReadEnabled? && es[i].ok;
    var init := es[..|es| - 1];
    if i < |init| {
      assert init[i] == es[i];
      FlagReadTouches(init);
    }
  }

  /** The next accepted command writes its own setpoint over whatever the device did. */
  lemma CommandOverridesDevice(l: Limits, s: State, e: Event)
    requires Accepted(l, e)
    ensures var t := Step(l, s, e);
            t.register == t.setpoint == CalcSetpoint(l, t.enabled, t.current, t.phases)
  {
  }

  // ---------------------------------------------------------------------------------------------
  // The driver
  // ---------------------------------------------------------------------------------------------

  class FoxEss {
    const limits: Limits
    var current: real
    var enabled: bool
    var phases: int
    var setpoint: uint16
    var register: uint16  // the device's power setpoint register

    function Abstract(): State
      reads this
    {
      State(enabled, current, phases, setpoint, register)
    }

    constructor (limits: Limits, status: uint16, register: uint16)
      requires ValidLimits(limits)
      ensures this.limits == limits && Abstract() == Seed(limits, status, register)
    {
      this.limits := limits;
      this.register := register;
      setpoint := register;
      if register > 0 && SessionActive(status) {
        var decoded := DecodeSetpoint(limits, limits.hwPhases, register);
        enabled, current, phases := true, decoded.0, decoded.1;
      } else {
        enabled, current, phases := false, 0.0, limits.hwPhases;
      }
    }

    method ApplySetpoint(val: uint16, ok: bool) returns (err: bool)
      modifies this
      ensures err == !ok && Abstract() == Write(old(Abstract()), val, ok)
    {
      if !ok {
        return true;
      }
      register := val;
      setpoint := val;
      err := false;
    }

    method Enable(on: bool, ok: bool) returns (err: bool)
      modifies this
      ensures err == !ok && Abstract() == Step(limits, old(Abstract()), Event.Enable(on, ok))
    {
      err := ApplySetpoint(CalcSetpoint(limits, on, current, phases), ok);
      if err {
        return;
      }
      enabled := on;
    }

    method MaxCurrentMillis(amps: real, ok: bool) returns (err: bool)
      modifies this
      ensures err == !Accepted(limits, MaxCurrent(amps, ok))
      ensures Abstract() == Step(limits, old(Abstract()), MaxCurrent(amps, ok))
    {
      if amps < limits.minCurrent {
        return true;
      }
      err := ApplySetpoint(CalcSetpoint(limits, enabled, amps, phases), ok);
      if err {
        return;
      }
      current := amps;
    }

    method Phases1p3p(count: int, ok: bool) returns (err: bool)
      modifies this
      ensures err == !ok && Abstract() == Step(limits, old(Abstract()), SwitchPhases(count, ok))
    {
      err := ApplySetpoint(CalcSetpoint(limits, enabled, current, count), ok);
      if err {
        return;
      }
      phases := count;
    }

    method Enabled(ok: bool) returns (value: bool, err: bool)
      modifies this
      ensures err == !ok && value == (ok && enabled)
      ensures Abstract() == Step(limits, old(Abstract()), ReadEnabled(ok))
    {
      if !ok {
        return false, true;
      }
      setpoint := register;
      if setpoint == 0 {
        enabled := false;
      }
      return enabled, false;
    }

    /** The offered current, an error outside a session; status is the one last polled. */
    method GetMaxCurrent(status: uint16, ok: bool) returns (amps: real, err: bool)
      requires phases != 0
      modifies this`setpoint
      ensures err == !(InSession(status) && ok)
      ensures amps == if err then 0.0 else DecodeSetpoint(limits, phases, register).0
      ensures Abstract() == Step(limits, old(Abstract()), ReadCurrent(status, ok))
    {
      if !SessionActive(status) || !ok {
        return 0.0, true;
      }
      setpoint := register;
      return DecodeSetpoint(limits, phases, register).0, false;
    }

    /** One tick of the heartbeat loop, which takes the lock for each write on its own. */
    method HeartbeatTick(ok: bool) returns (err: bool)
      modifies this
      ensures err == !ok && Abstract() == Step(limits, old(Abstract()), Heartbeat(ok))
    {
      if ok {
        register := setpoint;
      }
      err := !ok;
    }

    method GetPhases() returns (count: int)
      ensures count == ReportedPhases(limits, Abstract())
    {
      count := DecodePhases(limits, phases, setpoint);
    }
  }
}
