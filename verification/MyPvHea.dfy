/** The my-PV HEA heater: a current is turned into a number of switched relays (charger/mypv-hea.go). */
module MyPvHea {
  import opened Wrappers

  const VOLTAGE := 230.0

  /** One relay of 3500 W or three of 3000 W. */
  predicate Model(relays: int) { relays == 1 || relays == 3 }

  function StepPower(relays: int): real { if relays == 1 then 3500.0 else 3000.0 }

  /** The loadpoint's active phases, else one phase per relay. */
  function Phases(relays: int, active: Option<nat>): nat
    requires Model(relays)
  {
    if active.Some? && active.value != 0 then active.value else relays
  }

  function Pow2(n: nat): nat { if n == 0 then 1 else 2 * Pow2(n - 1) }

  /** How many relays the power would fill, with a tolerance for exact stage boundaries. */
  function Stages(relays: int, current: real, phases: nat): real {
    VOLTAGE * current * (phases as real) / StepPower(relays) + 0.000000001
  }

  function Steps(relays: int, current: real, phases: nat): int {
    var stages := Stages(relays, current, phases).Floor;
    if stages < relays then stages else relays
  }

  function StageMask(relays: int, current: real, phases: nat): nat
    requires Model(relays) && current >= 0.0
  {
    StepsInRange(relays, current, phases);
    Pow2(Steps(relays, current, phases)) - 1
  }

  predicate Bit(mask: nat, i: nat) {
    if i == 0 then mask % 2 == 1 else Bit(mask / 2, i - 1)
  }

  lemma PowerNonNegative(current: real, phases: nat)
    requires current >= 0.0
    ensures VOLTAGE * current * (phases as real) >= 0.0
  {
  }

  lemma StepsInRange(relays: int, current: real, phases: nat)
    requires Model(relays) && current >= 0.0
    ensures 0 <= Steps(relays, current, phases) <= relays
  {
    PowerNonNegative(current, phases);
    var power := VOLTAGE * current * (phases as real);
    assert Stages(relays, current, phases) == power / StepPower(relays) + 0.000000001;
    if relays == 1 {
      assert power / 3500.0 >= 0.0;
    } else {
      assert power / 3000.0 >= 0.0;
    }
  }

  /** The low k bits and no others. */
  lemma {:induction false} LowBits(k: nat, i: nat)
    ensures Pow2(k) >= 1 && (Bit(Pow2(k) - 1, i) <==> i < k)
  {
    if k == 0 {
      ZeroBits(i);
    } else {
      LowBits(k - 1, if i == 0 then 0 else i - 1);
      assert (Pow2(k) - 1) / 2 == Pow2(k - 1) - 1;
    }
  }

  lemma {:induction false} ZeroBits(i: nat)
    ensures !Bit(0, i)
  {
    if i > 0 {
      ZeroBits(i - 1);
    }
  }

  /** The power fills n relays. */
  predicate Fills(relays: int, current: real, phases: nat, n: nat) {
    n as real <= Stages(relays, current, phases)
  }

  lemma MaskBits(relays: int, current: real, phases: nat, i: nat)
    requires Model(relays) && current >= 0.0
    ensures Bit(StageMask(relays, current, phases), i) <==> i < relays && Fills(relays, current, phases, i + 1)
  {
    StepsInRange(relays, current, phases);
    LowBits(Steps(relays, current, phases), i);
    FloorReaches(Stages(relays, current, phases), i + 1);
  }

  /** The power at 230 V is that of n stages of 3.5 kW (one relay) or 3 kW (three relays), up to a billionth
      of a stage. The phases are those the loadpoint reports, else as many as there are relays. */
  predicate Powers(relays: int, current: real, active: Option<nat>, n: nat) {
    var stage := if relays == 1 then 3500.0 else 3000.0;
    var phases := if active == None || active == Some(0) then relays else active.value;
    n as real * stage <= 230.0 * current * (phases as real) + 0.000000001 * stage
  }

  /** The first relays are switched, as many as the power fills completely and as there are. */
  lemma GreatestStageMask(relays: int, current: real, active: Option<nat>, i: nat)
    requires Model(relays) && current >= 0.0
    ensures Bit(StageMask(relays, current, Phases(relays, active)), i)
       <==> i < relays && Powers(relays, current, active, i + 1)
  {
    var phases := Phases(relays, active);
    MaskBits(relays, current, phases, i);
    FillsInWatts(relays, current, phases, 230.0 * current * (phases as real), i + 1);
  }

  lemma FillsInWatts(relays: int, current: real, phases: nat, power: real, n: nat)
    requires Model(relays) && power == 230.0 * current * (phases as real)
    ensures var watts := if relays == 1 then 3500.0 else 3000.0;
            Fills(relays, current, phases, n) <==> n as real * watts <= power + 0.000000001 * watts
  {
    if relays == 1 {
      assert Stages(relays, current, phases) == power / 3500.0 + 0.000000001;
    } else {
      assert Stages(relays, current, phases) == power / 3000.0 + 0.000000001;
    }
  }

  lemma FloorReaches(x: real, n: int)
    ensures n as real <= x <==> n <= x.Floor
  {
  }

  /** More current never switches a relay off. */
  lemma StageMonotone(relays: int, c: real, d: real, phases: nat, i: nat)
    requires Model(relays) && 0.0 <= c <= d
    requires Bit(StageMask(relays, c, phases), i)
    ensures Bit(StageMask(relays, d, phases), i)
  {
    MaskBits(relays, c, phases, i);
    MaskBits(relays, d, phases, i);
    assert VOLTAGE * c * (phases as real) <= VOLTAGE * d * (phases as real) by {
      var p := phases as real;
      assert (VOLTAGE * d - VOLTAGE * c) * p >= 0.0;
    }
  }

  lemma {:induction false} Pow2Grows(a: nat, b: nat)
    requires a <= b
    ensures 1 <= Pow2(a) <= Pow2(b)
  {
    if a < b {
      Pow2Grows(a, b - 1);
    } else if a > 0 {
      Pow2Grows(a - 1, a - 1);
    }
  }

  // ---------------------------------------------------------------------------------------------
  // Runs
  // ---------------------------------------------------------------------------------------------

  /** The cached mask and current, and the device's power register. */
  datatype State = State(mask: nat, current: real, register: nat)

  /** active is what the loadpoint reports at the time of the command. */
  datatype Event =
    | Enable(on: bool, active: Option<nat>, ok: bool)
    | MaxCurrent(amps: real, active: Option<nat>, ok: bool)
    | Heartbeat(ok: bool)
    | Fallback  // the device, not written for its timeout, switches its relays off

  function SetRelays(s: State, mask: nat, ok: bool): State {
    if ok then s.(register := mask, mask := mask) else s
  }

  function SetCurrent(relays: int, s: State, amps: real, active: Option<nat>, ok: bool): State
    requires Model(relays)
  {
    if amps < 0.0 then s
    else
      var t := SetRelays(s, StageMask(relays, amps, Phases(relays, active)), ok);
      if ok then t.(current := amps) else t
  }

  function Step(relays: int, s: State, e: Event): State
    requires Model(relays)
  {
    match e
    case Enable(on, active, ok) =>
      if on then SetCurrent(relays, s, s.current, active, ok) else SetRelays(s, 0, ok)
    case MaxCurrent(amps, active, ok) => SetCurrent(relays, s, amps, active, ok)
    case Heartbeat(ok) => if s.mask != 0 then SetRelays(s, s.mask, ok) else s
    case Fallback => s.(register := 0)
  }

  function Run(relays: int, s: State, es: seq<Event>): State
    requires Model(relays)
  {
    if es == [] then s else Step(relays, Run(relays, s, es[..|es| - 1]), es[|es| - 1])
  }

  /** What Enabled reads: any relay of the device is on. */
  function ReadsEnabled(relays: int, register: nat): bool
    requires Model(relays)
  {
    register % Pow2(relays) != 0
  }

  predicate Accepted(e: Event) {
    match e
    case Enable(_, _, ok) => ok
    case MaxCurrent(amps, _, ok) => ok && amps >= 0.0
    case Heartbeat(_) => false
    case Fallback => false
  }

  predicate SomeAccepted(es: seq<Event>) {
    exists i :: 0 <= i < |es| && Accepted(es[i])
  }

  function LastCurrent(es: seq<Event>): (c: real)
    ensures c >= 0.0
  {
    if es == [] then 0.0
    else
      var e := es[|es| - 1];
      if e.MaxCurrent? && Accepted(e) then e.amps else LastCurrent(es[..|es| - 1])
  }

  /** The mask the last accepted command stands for. */
  function Commanded(relays: int, es: seq<Event>): nat
    requires Model(relays)
  {
    if es == [] then 0
    else
      var init, e := es[..|es| - 1], es[|es| - 1];
      if !Accepted(e) then Commanded(relays, init)
      else if e.MaxCurrent? then StageMask(relays, e.amps, Phases(relays, e.active))
      else if e.on then StageMask(relays, LastCurrent(init), Phases(relays, e.active))
      else 0
  }

  /** What the device was last set to: by an accepted command, by a heartbeat that repeats one, or by its own
      fallback. */
  function LastSet(relays: int, register: nat, es: seq<Event>): nat
    requires Model(relays)
  {
    if es == [] then register
    else
      var init, e := es[..|es| - 1], es[|es| - 1];
      if e.Fallback? then 0
      else if Accepted(e) then Commanded(relays, es)
      else if e.Heartbeat? && e.ok && Commanded(relays, init) != 0 then Commanded(relays, init)
      else LastSet(relays, register, init)
  }

  ghost predicate Holds(relays: int, s: State, current: real, mask: nat, register: nat)
    requires Model(relays)
  {
    s.current == current >= 0.0 && s.mask == mask < Pow2(relays) && s.register == register
  }

  /** After any run, cache and register hold the mask of the last accepted command, through failures, and the
      register also through fallbacks once a heartbeat followed. */
  lemma {:induction false} RegisterFollowsCommands(relays: int, register: nat, es: seq<Event>)
    requires Model(relays)
    ensures Holds(relays, Run(relays, State(0, 0.0, register), es),
                  LastCurrent(es), Commanded(relays, es), LastSet(relays, register, es))
  {
    if es == [] {
      Pow2Grows(0, relays);
    } else {
      var init, e := es[..|es| - 1], es[|es| - 1];
      RegisterFollowsCommands(relays, register, init);
      if e.MaxCurrent? && e.amps >= 0.0 {
        MaskFits(relays, e.amps, Phases(relays, e.active));
      } else if e.Enable? {
        MaskFits(relays, LastCurrent(init), Phases(relays, e.active));
      }
    }
  }

  lemma {:induction false} SetAsCommanded(relays: int, register: nat, es: seq<Event>)
    requires Model(relays) && SomeAccepted(es)
    ensures LastSet(relays, register, es) == 0 || LastSet(relays, register, es) == Commanded(relays, es)
  {
    SomeAcceptedSnoc(es);
    var init, e := es[..|es| - 1], es[|es| - 1];
    if !Accepted(e) {
      SetAsCommanded(relays, register, init);
    }
  }

  /** A successful heartbeat puts the last accepted command in force again, whatever happened before. */
  lemma HeartbeatRestores(relays: int, register: nat, es: seq<Event>)
    requires Model(relays) && SomeAccepted(es)
    ensures Step(relays, Run(relays, State(0, 0.0, register), es), Heartbeat(true)).register == Commanded(relays, es)
  {
    RegisterFollowsCommands(relays, register, es);
    SetAsCommanded(relays, register, es);
  }

  lemma SomeAcceptedSnoc(es: seq<Event>)
    requires es != []
    ensures SomeAccepted(es) <==> SomeAccepted(es[..|es| - 1]) || Accepted(es[|es| - 1])
  {
    var init := es[..|es| - 1];
    assert forall i :: 0 <= i < |init| ==> init[i] == es[i];
    if SomeAccepted(init) {
      var i :| 0 <= i < |init| && Accepted(init[i]);
      assert Accepted(es[i]);
    }
  }

  /** And the charger reads as enabled exactly when the last accepted command switches a relay, unless the
      device fell back since the last write. */
  lemma EnabledExact(relays: int, register: nat, es: seq<Event>)
    requires Model(relays) && SomeAccepted(es)
    ensures ReadsEnabled(relays, Run(relays, State(0, 0.0, register), es).register)
       <==> LastSet(relays, register, es) != 0
    ensures LastSet(relays, register, es) == 0 || LastSet(relays, register, es) == Commanded(relays, es)
  {
    RegisterFollowsCommands(relays, register, es);
    SetAsCommanded(relays, register, es);
  }

  /** Setting a current leaves the enable state alone exactly when the command is rejected or fails, or
      whether the power fills one relay is what was read before. So it enables a disabled charger. */
  lemma CurrentCommandEnables(relays: int, s: State, amps: real, active: Option<nat>, ok: bool)
    requires Model(relays)
    ensures var before := ReadsEnabled(relays, s.register);
            var after := ReadsEnabled(relays, Step(relays, s, MaxCurrent(amps, active, ok)).register);
            (after == before) ==
            (!ok || amps < 0.0 || Powers(relays, amps, active, 1) == before)
  {
    if amps >= 0.0 {
      MaskFits(relays, amps, Phases(relays, active));
      GreatestStageMask(relays, amps, active, 0);
      LowBits(Steps(relays, amps, Phases(relays, active)), 0);
      StepsInRange(relays, amps, Phases(relays, active));
    }
  }

  /** For instance after disabling: 16 A on one phase fill the 3.5 kW relay. */
  lemma DisabledIsEnabledByCurrent(register: nat)
    ensures var off := Run(1, State(0, 0.0, register), [Enable(false, None, true)]);
            && !ReadsEnabled(1, off.register)
            && ReadsEnabled(1, Step(1, off, MaxCurrent(16.0, Some(1), true)).register)
  {
    var es := [Enable(false, None, true)];
    assert Run(1, State(0, 0.0, register), es) == State(0, 0.0, 0) by {
      assert es[..0] == [];
    }
    CurrentCommandEnables(1, State(0, 0.0, 0), 16.0, Some(1), true);
    SixteenAmpsFill();
  }

  lemma SixteenAmpsFill()
    ensures Powers(1, 16.0, Some(1), 1) && !ReadsEnabled(1, 0)
  {
  }

  lemma MaskFits(relays: int, current: real, phases: nat)
    requires Model(relays) && current >= 0.0
    ensures StageMask(relays, current, phases) < Pow2(relays)
  {
    StepsInRange(relays, current, phases);
    Pow2Grows(Steps(relays, current, phases), relays);
  }

  /** A chosen stage survives switching off and on: after a current was accepted, while the active phases
      stay, any sequence of enables, disables, heartbeats and fallbacks leaves that stage or nothing switched. */
  lemma {:induction false} StageSurvives(relays: int, s: State, es: seq<Event>, active: Option<nat>)
    requires Model(relays) && s.current >= 0.0
    requires var stage := StageMask(relays, s.current, Phases(relays, active));
             (s.mask == stage || s.mask == 0) && (s.register == s.mask || s.register == 0)
    requires forall i :: 0 <= i < |es| ==> !es[i].MaxCurrent? && (es[i].Enable? ==> es[i].active == active)
    ensures var t := Run(relays, s, es);
            var stage := StageMask(relays, s.current, Phases(relays, active));
            && t.current == s.current && (t.mask == stage || t.mask == 0)
            && (t.register == t.mask || t.register == 0)
            && (ReadsEnabled(relays, t.register) <==> t.register != 0)
  {
    if es != [] {
      var init := es[..|es| - 1];
      assert forall i :: 0 <= i < |init| ==> init[i] == es[i];
      StageSurvives(relays, s, init, active);
    }
    NothingOrStage(relays, s.current, Phases(relays, active));
  }

  lemma NothingOrStage(relays: int, current: real, phases: nat)
    requires Model(relays) && current >= 0.0
    ensures var stage := StageMask(relays, current, phases);
            (ReadsEnabled(relays, stage) <==> stage != 0) && !ReadsEnabled(relays, 0)
  {
    MaskFits(relays, current, phases);
  }

  class HeaCharger {
    const relays: int
    var mask: nat
    var current: real
    var register: nat  // the device's power register

    function Abstract(): State
      reads this
    {
      State(mask, current, register)
    }

    constructor (relays: int, register: nat)
      requires Model(relays)
      ensures this.relays == relays && Abstract() == State(0, 0.0, register)
    {
      this.relays := relays;
      mask, current, this.register := 0, 0.0, register;
    }

    method WriteRelays(bits: nat, ok: bool) returns (err: bool)
      modifies this
      ensures err == !ok && Abstract() == SetRelays(old(Abstract()), bits, ok)
    {
      if ok {
        register := bits;
        mask := bits;
      }
      err := !ok;
    }

    method MaxCurrentMillis(amps: real, active: Option<nat>, ok: bool) returns (err: bool)
      requires Model(relays)
      modifies this
      ensures err == (amps < 0.0 || !ok)
      ensures Abstract() == Step(relays, old(Abstract()), MaxCurrent(amps, active, ok))
    {
      if amps < 0.0 {
        return true;
      }
      var phases := relays;
      if active.Some? && active.value != 0 {
        phases := active.value;
      }
      err := WriteRelays(StageMask(relays, amps, phases), ok);
      if !err {
        current := amps;
      }
    }

    method Enable(on: bool, active: Option<nat>, ok: bool) returns (err: bool)
      requires Model(relays)
      modifies this
      ensures err == (!ok || (on && old(current) < 0.0))
      ensures Abstract() == Step(relays, old(Abstract()), Event.Enable(on, active, ok))
    {
      if on {
        err := MaxCurrentMillis(current, active, ok);
      } else {
        err := WriteRelays(0, ok);
      }
    }

    /** One turn of the heartbeat loop, taken as a whole. */
    method HeartbeatTick(ok: bool)
      requires Model(relays)
      modifies this
      ensures Abstract() == Step(relays, old(Abstract()), Heartbeat(ok))
    {
      if mask != 0 {
        var _ := WriteRelays(mask, ok);
      }
    }

    method Enabled() returns (value: bool)
      requires Model(relays)
      ensures value == ReadsEnabled(relays, register)
    {
      value := register % Pow2(relays) != 0;
    }
  }
}
