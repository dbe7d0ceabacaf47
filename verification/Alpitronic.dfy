/** The Alpitronic Hypercharger's power limit, which must never be written as zero
    (charger/alpitronic.go). */
module Alpitronic {
  import opened Numeric
  import opened Wrappers

  const POWER_PER_AMP := 690.0
  const MIN_POWER := 1547
  const MIN_CURRENT := 2.25

  /** The tracked fields and the connector's power limit register. */
  datatype State = State(curr: real, enabled: bool, register: uint32)

  /** Register access succeeds (ok) or fails without effect; External is a change by someone else. */
  datatype Event =
    | Enable(on: bool, ok: bool)
    | MaxCurrent(amps: real, ok: bool)
    | ReadEnabled(ok: bool)
    | External(power: uint32)

  function Power(current: real): uint32 {
    if current <= 0.0 then 0 else ToUint32(Trunc(current * POWER_PER_AMP))
  }

  function Seed(register: uint32): State {
    if register > MIN_POWER then State(register as real / POWER_PER_AMP, true, register)
    else State(MIN_CURRENT, false, register)
  }

  /** The power a command attempts to write, whether or not the write succeeds. */
  function Attempt(s: State, e: Event): Option<uint32> {
    match e
    case Enable(on, _) => Some(if on then Power(s.curr) else MIN_POWER)
    case MaxCurrent(amps, _) => if amps < MIN_CURRENT then None else Some(Power(amps))
    case ReadEnabled(_) => None
    case External(_) => None
  }

  function SetPower(s: State, power: uint32, ok: bool): State {
    if ok then s.(register := power, enabled := power > MIN_POWER) else s
  }

  function Step(s: State, e: Event): State {
    match e
    case Enable(on, ok) => SetPower(s, if on then Power(s.curr) else MIN_POWER, ok)
    case MaxCurrent(amps, ok) =>
      if amps < MIN_CURRENT then s
      else
        var t := SetPower(s, Power(amps), ok);
        if ok then t.(curr := amps) else t
    case ReadEnabled(ok) => if ok then s.(enabled := s.register > MIN_POWER) else s
    case External(power) => s.(register := power)
  }

  function Run(s: State, es: seq<Event>): State {
    if es == [] then s else Step(Run(s, es[..|es| - 1]), es[|es| - 1])
  }

  /** Requested currents whose power fits the 32-bit register. */
  predicate InRange(es: seq<Event>) {
    forall i :: 0 <= i < |es| && es[i].MaxCurrent? ==> es[i].amps * POWER_PER_AMP < 4294967296.0
  }

  /** The remembered current is one the station can charge with. */
  predicate Usable(s: State) {
    s.curr * POWER_PER_AMP < 4294967296.0 && Trunc(s.curr * POWER_PER_AMP) > MIN_POWER
  }

  lemma UsablePower(s: State)
    requires Usable(s)
    ensures Power(s.curr) > MIN_POWER
  {
    assert s.curr > 0.0;
  }

  /** Seeding reads back the limit exactly, in exact arithmetic. */
  lemma SeedKeepsPower(register: uint32)
    ensures Usable(Seed(register))
    ensures register > MIN_POWER ==> Power(Seed(register).curr) == register
  {
    if register > MIN_POWER {
      assert Seed(register).curr * POWER_PER_AMP == register as real;
    }
  }

  const ROUNDING := 1.0 / 9007199254740992.0  // 2^-53, the relative error of one binary64 operation

  /** With a rounded division and product, seeding and enabling loses at most 1 W. */
  lemma RoundedSeedLosesAtMostOneWatt(register: uint32, curr: real, product: real)
    requires -ROUNDING * register as real <= curr * POWER_PER_AMP - register as real <= ROUNDING * register as real
    requires -ROUNDING * (curr * POWER_PER_AMP) <= product - curr * POWER_PER_AMP <= ROUNDING * (curr * POWER_PER_AMP)
    ensures Trunc(product) == register || Trunc(product) == register - 1
  {
  }

  /** The double nearest to x, for x between 1 and 2 times the given power of two, is a multiple of 2^-52
      times that power. */
  predicate Nearest(double: real, x: real, power: real) {
    && power <= x < 2.0 * power
    && (double * 4503599627370496.0 / power).Floor as real == double * 4503599627370496.0 / power
    && -power / 9007199254740992.0 <= double - x <= power / 9007199254740992.0
  }

  /** It does for 1555 W: both roundings together give the double just below 1555. */
  lemma RoundedSeedLosesOneWatt()
    ensures var curr := 5074708275768928.0 / 2251799813685248.0;
            var product := 6838962324766719.0 / 4398046511104.0;
            && Nearest(curr, 1555.0 / POWER_PER_AMP, 2.0)
            && Nearest(product, curr * POWER_PER_AMP, 1024.0)
            && Trunc(product) == 1554
  {
  }

  lemma {:induction false} StaysUsable(register: uint32, es: seq<Event>)
    requires InRange(es)
    ensures Usable(Run(Seed(register), es))
  {
    if es == [] {
      SeedKeepsPower(register);
    } else {
      var init := es[..|es| - 1];
      assert forall i :: 0 <= i < |init| ==> init[i] == es[i];
      StaysUsable(register, init);
    }
  }

  /** In every run, with external writes or without, no limit written is zero: an attempted one is at least
      1547 W, exactly that for disabling, and an accepted one is then in the register. */
  lemma NeverZero(register: uint32, es: seq<Event>, e: Event)
    requires InRange(es) && InRange([e])
    ensures var s := Run(Seed(register), es);
            var a := Attempt(s, e);
            && (a.Some? ==> a.value >= 1547 && (a.value == 1547 <==> e == Event.Enable(false, e.ok)))
            && (a.Some? && e.ok ==> Step(s, e).register == a.value != 0)
            && (a.Some? && !e.ok ==> Step(s, e) == s)
            && (a.None? <==> e.ReadEnabled? || e.External? || (e.MaxCurrent? && e.amps < 2.25))
            && (a.None? && !e.External? ==> Step(s, e).register == s.register)
  {
    var s := Run(Seed(register), es);
    StaysUsable(register, es);
    UsablePower(s);
    if e.MaxCurrent? && e.amps >= MIN_CURRENT {
      assert e == [e][0];
      UsablePower(s.(curr := e.amps));
    }
  }

  /** The charger counts as enabled exactly above 1547 W: when it is seeded, read, or written, also by
      someone else. */
  lemma EnabledAbove1547(s: State, e: Event, power: uint32)
    ensures Seed(s.register).enabled <==> s.register > 1547
    ensures (e.ReadEnabled? && e.ok) || (Attempt(s, e).Some? && e.ok)
            ==> (Step(s, e).enabled <==> Step(s, e).register > 1547)
    ensures Step(Step(s, External(power)), ReadEnabled(true)).enabled <==> power > 1547
  {
  }

  /** A failed call changes nothing, and a read only the tracked flag. */
  lemma FailureChangesNothing(s: State, e: Event)
    requires !e.External?
    ensures !e.ok ==> Step(s, e) == s
    ensures e.ReadEnabled? ==> Step(s, e).(enabled := s.enabled) == s
  {
  }

  /** The limit for a current is its power at three times 230 V, cut to whole watts; zero for no current. */
  lemma PowerIsTruncated(current: real)
    requires current * 690.0 < 4294967296.0
    ensures current >= 0.0 ==> current * 690.0 - 1.0 < Power(current) as real <= current * 690.0
    ensures current <= 0.0 ==> Power(current) == 0
  {
  }

  /** Enabling always enables. */
  lemma EnableEnables(register: uint32, es: seq<Event>)
    requires InRange(es)
    ensures var s := Step(Run(Seed(register), es), Enable(true, true));
            s.enabled && s.register > MIN_POWER
  {
    StaysUsable(register, es);
    UsablePower(Run(Seed(register), es));
  }

  /** A current command leaves the enable state alone exactly when the charger is enabled already or the
      command is rejected or fails; otherwise it enables. */
  lemma CurrentCommandEnables(s: State, amps: real, ok: bool)
    requires amps * POWER_PER_AMP < 4294967296.0
    ensures var t := Step(s, MaxCurrent(amps, ok));
            && (t.enabled == s.enabled <==> s.enabled || !ok || amps < MIN_CURRENT)
            && (t.enabled != s.enabled ==> t.register > MIN_POWER)
  {
    if amps >= MIN_CURRENT {
      UsablePower(s.(curr := amps));
    }
  }

  /** For instance after disabling. */
  lemma DisabledIsEnabledByCurrent(register: uint32)
    ensures var disabled := [Event.Enable(false, true)];
            && !Run(Seed(register), disabled).enabled
            && Run(Seed(register), disabled + [MaxCurrent(6.0, true)]).enabled
            && Run(Seed(register), disabled + [MaxCurrent(6.0, true)]).register == 4140
  {
    var disabled := [Event.Enable(false, true)];
    assert disabled[..0] == [] && (disabled + [MaxCurrent(6.0, true)])[..1] == disabled;
  }

  predicate NoExternal(es: seq<Event>) {
    forall i :: 0 <= i < |es| ==> !es[i].External?
  }

  /** The last accepted current, else the seeded one. */
  function LastCurrent(initial: real, es: seq<Event>): real {
    if es == [] then initial
    else
      var e := es[|es| - 1];
      if e.MaxCurrent? && e.ok && e.amps >= MIN_CURRENT then e.amps else LastCurrent(initial, es[..|es| - 1])
  }

  /** The limit the last accepted command asks for: inhibited, or the last accepted current. A current
      command enables as well. */
  function Commanded(register: uint32, es: seq<Event>): uint32 {
    if es == [] then register
    else
      var init, e := es[..|es| - 1], es[|es| - 1];
      if e.Enable? && e.ok then
        (if e.on then Power(LastCurrent(Seed(register).curr, init)) else MIN_POWER)
      else if e.MaxCurrent? && e.ok && e.amps >= MIN_CURRENT then Power(e.amps)
      else Commanded(register, init)
  }

  /** While nobody else writes it, the register holds the limit last commanded, and the tracked flag says
      whether it allows charging. */
  lemma {:induction false} RegisterFollowsCommands(register: uint32, es: seq<Event>)
    requires NoExternal(es)
    ensures var s := Run(Seed(register), es);
            && s.register == Commanded(register, es)
            && s.enabled == (s.register > MIN_POWER)
            && s.curr == LastCurrent(Seed(register).curr, es)
  {
    if es != [] {
      var init := es[..|es| - 1];
      assert forall i :: 0 <= i < |init| ==> init[i] == es[i];
      RegisterFollowsCommands(register, init);
    }
  }

  /** A restart between commands is invisible, in exact arithmetic: enabling afterwards writes the limit
      that was in force. */
  lemma RestartKeepsLimit(register: uint32, es: seq<Event>)
    requires InRange(es) && Run(Seed(register), es).register > MIN_POWER
    ensures var s := Run(Seed(register), es);
            Attempt(Seed(s.register), Enable(true, true)) == Some(s.register)
  {
    SeedKeepsPower(Run(Seed(register), es).register);
  }

  class AlpitronicHyc {
    var curr: real
    var enabled: bool
    var register: uint32  // the connector's power limit register

    function Abstract(): State
      reads this
    {
      State(curr, enabled, register)
    }

    constructor (register: uint32)
      ensures Abstract() == Seed(register)
    {
      this.register := register;
      if register > MIN_POWER {
        curr, enabled := register as real / POWER_PER_AMP, true;
      } else {
        curr, enabled := MIN_CURRENT, false;
      }
    }

    method WritePower(power: uint32, ok: bool) returns (err: bool)
      modifies this
      ensures err == !ok && Abstract() == SetPower(old(Abstract()), power, ok)
    {
      if ok {
        register := power;
        enabled := power > MIN_POWER;
      }
      err := !ok;
    }

    method Enabled(ok: bool) returns (value: bool, err: bool)
      modifies this
      ensures err == !ok && value == (ok && register > MIN_POWER)
      ensures Abstract() == Step(old(Abstract()), ReadEnabled(ok))
    {
      if !ok {
        return false, true;
      }
      enabled := register > MIN_POWER;
      return enabled, false;
    }

    method Enable(on: bool, ok: bool) returns (err: bool)
      modifies this
      ensures err == !ok && Abstract() == Step(old(Abstract()), Event.Enable(on, ok))
    {
      var power := MIN_POWER;
      if on {
        power := Power(curr);
      }
      err := WritePower(power, ok);
    }

    method MaxCurrentMillis(amps: real, ok: bool) returns (err: bool)
      modifies this
      ensures err == (amps < MIN_CURRENT || !ok)
      ensures Abstract() == Step(old(Abstract()), MaxCurrent(amps, ok))
    {
      if amps < MIN_CURRENT {
        return true;
      }
      err := WritePower(Power(amps), ok);
      if !err {
        curr := amps;
      }
    }
  }
}
