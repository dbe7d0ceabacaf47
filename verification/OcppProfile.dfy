/** The charging profile sent to an OCPP charge point (charger/ocpp.go). */
module OcppProfile {
  import opened Numeric
  import opened Wrappers

  datatype RateUnit = Amperes | Watts
  datatype Purpose = TxDefaultProfile | TxProfile
  datatype Kind = Relative | Absolute(start: int)

  /** What the configuration and the charge point's setup fix. */
  datatype Config = Config(
    txProfile: bool, profileKindRelative: bool, stackLevelZero: bool,
    unit: RateUnit, profileId: int, stackLevel: int)

  /** A transaction id of 0 is not sent. */
  datatype Profile = Profile(
    id: int, purpose: Purpose, transactionId: int, unit: RateUnit, limit: real,
    numberPhases: Option<int>, kind: Kind, stackLevel: int)

  /** Phases of a power limit: as switched, else as the loadpoint sees them, else three. */
  function PowerPhases(phases: int, lpPhases: Option<int>): int {
    var p := if phases == 0 && lpPhases.Some? then lpPhases.value else phases;
    if p == 0 then 3 else p
  }

  /** A current cut down to tenths of an ampere. */
  function Tenths(current: real): real { Trunc(10.0 * current) as real / 10.0 }

  /** The power of a current at 230 V. */
  function Power(current: real, phases: int): real { 230.0 * current * (phases as real) }

  function WattLimit(current: real, phases: int): real { Trunc(Power(current, phases)) as real }

  function CreateProfile(cfg: Config, phases: int, lpPhases: Option<int>, current: real,
                         transactionId: int, now: int): Profile {
    var bound := cfg.txProfile && transactionId != 0;
    Profile(
      cfg.profileId,
      if bound then TxProfile else TxDefaultProfile,
      if bound then transactionId else 0,
      cfg.unit,
      if cfg.unit.Watts? then WattLimit(current, PowerPhases(phases, lpPhases)) else current,
      if cfg.unit.Amperes? && phases != 0 then Some(phases) else None,
      if cfg.profileKindRelative then Relative else Absolute(now - 60),
      if cfg.stackLevelZero then 0 else cfg.stackLevel)
  }

  /** A profile names a transaction exactly when it is a transaction profile, and then the given one; without
      the configuration for it none is named even during a transaction. */
  lemma ProfileBinding(cfg: Config, phases: int, lpPhases: Option<int>, current: real, txn: int, now: int)
    ensures var p := CreateProfile(cfg, phases, lpPhases, current, txn, now);
            && (p.purpose == TxProfile <==> p.transactionId != 0)
            && (p.transactionId == txn || (p.transactionId == 0 && !cfg.txProfile))
            && (!cfg.txProfile ==> p.purpose == TxDefaultProfile)
  {
  }

  /** The power a charge point takes from a profile; without a phase count an ampere limit is for three. */
  function MeantPower(p: Profile): real {
    match p.unit
    case Watts => p.limit
    case Amperes => Power(p.limit, if p.numberPhases.Some? then p.numberPhases.value else 3)
  }

  predicate SamePower(x: real, y: real) { -1.0 < x - y < 1.0 }

  /** The ampere profile and the watt profile for the same current mean the same power, to less than 1 W. */
  predicate UnitsAgree(cfg: Config, phases: int, lpPhases: Option<int>, c: real, txn: int, now: int) {
    SamePower(MeantPower(CreateProfile(cfg.(unit := Amperes), phases, lpPhases, c, txn, now)),
              MeantPower(CreateProfile(cfg.(unit := Watts), phases, lpPhases, c, txn, now)))
  }

  /** The unit makes no difference, whatever the current, exactly when the phase count was switched or
      the loadpoint reports three or none. */
  lemma UnitsAgreeExact(cfg: Config, phases: int, lpPhases: Option<int>, txn: int, now: int)
    ensures (forall c :: UnitsAgree(cfg, phases, lpPhases, c, txn, now))
       <==> phases != 0 || lpPhases.None? || lpPhases.value == 0 || lpPhases.value == 3
  {
    var n := PowerPhases(phases, lpPhases);
    if phases != 0 || n == 3 {
      forall c ensures UnitsAgree(cfg, phases, lpPhases, c, txn, now) {
        TruncNear(Power(c, n));
      }
    } else {
      assert SamePower(Power(1.0, 3), WattLimit(1.0, n)) == UnitsAgree(cfg, phases, lpPhases, 1.0, txn, now);
      OtherPhasesDiffer(n);
    }
  }

  lemma TruncNear(x: real)
    ensures SamePower(x, Trunc(x) as real)
  {
  }

  lemma OtherPhasesDiffer(n: int)
    requires n != 3
    ensures !SamePower(Power(1.0, 3), WattLimit(1.0, n))
  {
    assert Power(1.0, n) == (230 * n) as real;
  }

  // ---------------------------------------------------------------------------------------------
  // How far the sent limit is from the requested current
  // ---------------------------------------------------------------------------------------------

  lemma TenthsBounds(c: real)
    requires c >= 0.0
    ensures c - 0.1 < Tenths(c) <= c && Tenths(c) >= 0.0
    ensures c >= 0.1 ==> Tenths(c) >= 0.1
    ensures c < 0.1 ==> Tenths(c) == 0.0
  {
    TruncBounds(10.0 * c);
  }

  lemma TenthsMonotone(c: real, d: real)
    requires c <= d
    ensures Tenths(c) <= Tenths(d)
  {
    TruncMonotone(10.0 * c, 10.0 * d);
  }

  /** The limit is never above the request and short of it by less than a tenth of an ampere on each
      phase and one watt. */
  lemma WattLimitBound(c: real, p: int)
    requires c >= 0.0 && p >= 1
    ensures 0.0 <= 230.0 * (p as real) * c - WattLimit(Tenths(c), p) < 23.0 * (p as real) + 1.0
  {
    TenthsBounds(c);
    BoundForCut(Tenths(c), c, p);
  }

  lemma BoundForCut(q: real, c: real, p: int)
    requires c - 0.1 < q <= c && q >= 0.0 && p >= 1
    ensures 0.0 <= 230.0 * (p as real) * c - WattLimit(q, p) < 23.0 * (p as real) + 1.0
  {
    var k := 230.0 * (p as real);
    var x, y := k * q, k * c;
    assert Power(q, p) == x;
    Scaled(k, q, c, x, y);
    TruncShort(x, y, 23.0 * (p as real));
  }

  lemma Scaled(k: real, q: real, c: real, x: real, y: real)
    requires c - 0.1 < q <= c && q >= 0.0 && k > 0.0 && x == k * q && y == k * c
    ensures 0.0 <= x <= y && y - x < 0.1 * k
  {
    MulMonotone(k, q, c);
    MulMonotone(k, 0.0, q);
    Shortfall(k, q, c, x, y);
  }

  lemma Shortfall(k: real, q: real, c: real, x: real, y: real)
    requires c - 0.1 < q && k > 0.0 && x == k * q && y == k * c
    ensures y - x < 0.1 * k
  {
    MulStrict(k, c - q, 0.1);
    assert k * (c - q) < k * 0.1;
    assert k * (c - q) == y - x;
  }

  lemma TruncShort(x: real, y: real, slack: real)
    requires 0.0 <= x <= y && y - x < slack
    ensures 0.0 <= y - Trunc(x) as real < slack + 1.0
  {
    TruncBounds(x);
  }

  lemma MulStrict(k: real, a: real, b: real)
    requires k > 0.0 && a < b
    ensures k * a < k * b
  {
  }

  lemma WattLimitMonotone(c: real, d: real, p: int)
    requires 0.0 <= c <= d && p >= 1
    ensures WattLimit(Tenths(c), p) <= WattLimit(Tenths(d), p)
  {
    TenthsMonotone(c, d);
    MulMonotone(p as real, 230.0 * Tenths(c), 230.0 * Tenths(d));
    TruncMonotone(230.0 * Tenths(c) * (p as real), 230.0 * Tenths(d) * (p as real));
  }

  /** Neither limit turns a request into a pause unless it is below a tenth of an ampere. */
  lemma ZeroLimitExact(c: real, p: int)
    requires c >= 0.0 && p >= 1
    ensures Tenths(c) == 0.0 <==> c < 0.1
    ensures WattLimit(Tenths(c), p) == 0.0 <==> c < 0.1
  {
    TenthsBounds(c);
    if c >= 0.1 {
      MulMonotone(p as real, 23.0, 230.0 * Tenths(c));
      TruncBounds(230.0 * Tenths(c) * (p as real));
    }
  }
}
