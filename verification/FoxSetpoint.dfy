/** The power setpoint of the FoxESS charger: one register value that carries the enable state,
    the charging current and the phase count (charger/foxess-evc.go). */
module FoxSetpoint {
  import opened Numeric

  const MIN_POWER_3P := 42
  const MIN_POWER_1P := 14

  /** Device limits, read once at start; powers in 0.1 kW, currents in A. */
  datatype Limits = Limits(
    minPower: uint16, maxPower: uint16,
    minCurrent: real, maxCurrent: real,
    hwPhases: int, switchable: bool)

  datatype LimitsResult = Supported(limits: Limits) | InvalidCurrent | InvalidPower

  /** What a successful derivation guarantees. */
  predicate ValidLimits(l: Limits) {
    && 0.0 < l.minCurrent <= l.maxCurrent <= 6553.5
    && 0 < l.minPower <= l.maxPower
    && l.hwPhases == HardwarePhases(l.maxPower, l.maxCurrent)
    && (l.switchable ==> l.hwPhases == 3)
  }

  function HardwarePhases(maxPower: uint16, maxCurrent: real): int
    requires maxCurrent > 0.0
  {
    if Round(maxPower as real * 100.0 / (230.0 * maxCurrent)) >= 3 then 3 else 1
  }

  function DeriveLimits(minSupCurrent: uint16, maxSupCurrent: uint16,
                        minSupPower: uint16, maxSupPower: uint16, autoSwitch: uint16): (r: LimitsResult)
    ensures r.Supported? <==> 0 < minSupCurrent <= maxSupCurrent && 0 < minSupPower <= maxSupPower
    ensures r.InvalidCurrent? <==> minSupCurrent == 0 || minSupCurrent > maxSupCurrent
    ensures r.Supported? ==> ValidLimits(r.limits)
    ensures r.Supported? ==>
              && 10.0 * r.limits.minCurrent == minSupCurrent as real && r.limits.minPower == minSupPower
              && 10.0 * r.limits.maxCurrent == maxSupCurrent as real && r.limits.maxPower == maxSupPower
              && (r.limits.switchable <==> r.limits.hwPhases == 3 && autoSwitch != 0)
  {
    var minCurrent := minSupCurrent as real / 10.0;
    var maxCurrent := maxSupCurrent as real / 10.0;
    if minCurrent == 0.0 || minCurrent > maxCurrent then InvalidCurrent
    else if minSupPower == 0 || minSupPower > maxSupPower then InvalidPower
    else
      var phases := HardwarePhases(maxSupPower, maxCurrent);
      Supported(Limits(minSupPower, maxSupPower, minCurrent, maxCurrent, phases, phases == 3 && autoSwitch > 0))
  }

  /** The phase counts a caller may ask for: both on a switchable charger, else the wired one. */
  predicate AllowedPhases(l: Limits, phases: int) {
    if l.switchable then phases == 1 || phases == 3 else phases == l.hwPhases
  }

  function PowerLimits(l: Limits, phases: int): (uint16, uint16) {
    if l.switchable then
      if phases == 1 then (MIN_POWER_1P, MIN_POWER_3P - 1) else (MIN_POWER_3P, l.maxPower)
    else (l.minPower, l.maxPower)
  }

  function ClampCurrent(l: Limits, current: real): real {
    MinReal(MaxReal(current, l.minCurrent), l.maxCurrent)
  }

  /** The requested power in register units, before rounding and band clamping. */
  function RequestedPower(l: Limits, current: real, phases: int): real {
    230.0 * (phases as real) * ClampCurrent(l, current) / 100.0
  }

  function CalcSetpoint(l: Limits, enabled: bool, current: real, phases: int): uint16 {
    if !enabled then 0
    else
      var (lo, hi) := PowerLimits(l, phases);
      Min(Max(ToUint16(Round(RequestedPower(l, current, phases))), lo), hi)
  }

  function DecodePhases(l: Limits, tracked: int, setpoint: uint16): int {
    if l.switchable && setpoint >= MIN_POWER_3P then 3
    else if l.switchable && setpoint >= MIN_POWER_1P then 1
    else tracked
  }

  /** Current and phase count the charger derives from a setpoint; tracked is the remembered count. */
  function DecodeSetpoint(l: Limits, tracked: int, setpoint: uint16): (real, int)
    requires tracked != 0
  {
    var phases := DecodePhases(l, tracked, setpoint);
    (MinReal(setpoint as real * 100.0 / (230.0 * (phases as real)), l.maxCurrent), phases)
  }

  function GetMinMaxCurrent(l: Limits, phases: int): (real, real)
    requires phases != 0
  {
    var (lo, hi) := PowerLimits(l, phases);
    (MaxReal(l.minCurrent, DecodeSetpoint(l, phases, lo).0), DecodeSetpoint(l, phases, hi).0)
  }

  // ---------------------------------------------------------------------------------------------
  // Encoding
  // ---------------------------------------------------------------------------------------------

  /** The clamped current is within the limits, and rounding never leaves the 16-bit register. */
  lemma RequestFits(l: Limits, current: real, phases: int)
    requires ValidLimits(l) && 1 <= phases <= 3
    ensures l.minCurrent <= ClampCurrent(l, current) <= l.maxCurrent
    ensures 0 <= Round(RequestedPower(l, current, phases)) < 0x1_0000
    ensures ToUint16(Round(RequestedPower(l, current, phases))) == Round(RequestedPower(l, current, phases))
  {
    var c := ClampCurrent(l, current);
    if phases == 1 {
    } else if phases == 2 {
    } else {
    }
  }

  /** A larger current never yields a smaller setpoint. */
  lemma SetpointMonotone(l: Limits, c1: real, c2: real, phases: int)
    requires ValidLimits(l) && 1 <= phases <= 3 && c1 <= c2
    ensures CalcSetpoint(l, true, c1, phases) <= CalcSetpoint(l, true, c2, phases)
  {
    RequestFits(l, c1, phases);
    RequestFits(l, c2, phases);
    PowerMonotone(l, c1, c2, phases);
    RoundMonotone(RequestedPower(l, c1, phases), RequestedPower(l, c2, phases));
  }

  lemma PowerMonotone(l: Limits, c1: real, c2: real, phases: int)
    requires 1 <= phases <= 3 && c1 <= c2
    ensures RequestedPower(l, c1, phases) <= RequestedPower(l, c2, phases)
  {
    var a, b := ClampCurrent(l, c1), ClampCurrent(l, c2);
    assert a <= b;
    if phases == 1 {
    } else if phases == 2 {
    } else {
    }
  }

  /** The register is zero exactly when charging is disabled. */
  lemma ZeroMeansDisabled(l: Limits, enabled: bool, current: real, phases: int)
    requires ValidLimits(l)
    ensures CalcSetpoint(l, enabled, current, phases) == 0 <==> !enabled
  {
  }

  // ---------------------------------------------------------------------------------------------
  // Phase band
  // ---------------------------------------------------------------------------------------------

  /** A charger that does not switch stays within its power limits. A switching one stays within the
      band of the requested count; its one-phase band ends at 4.1 kW whatever the device maximum, and
      its three-phase setpoint is cut to a maximum below the band. */
  lemma SetpointBand(l: Limits, current: real, phases: int)
    requires ValidLimits(l) && AllowedPhases(l, phases)
    ensures var s := CalcSetpoint(l, true, current, phases);
            && (!l.switchable ==> l.minPower <= s <= l.maxPower)
            && (l.switchable && phases == 1 ==> 14 <= s <= 41)
            && (l.switchable && phases == 3 ==> s <= l.maxPower && (s >= 42 <==> l.maxPower >= 42))
  {
    RequestFits(l, current, phases);
  }

  /** The register values that keep a charger charging on the requested phase count. */
  predicate InBand(l: Limits, phases: int, n: int) {
    if !l.switchable then l.minPower <= n <= l.maxPower
    else if phases == 1 then 14 <= n <= 41
    else 42 <= n <= l.maxPower
  }

  function Distance(n: int, x: real): real {
    if n as real >= x then n as real - x else x - n as real
  }

  /** No other value of the band is closer to the requested power than the setpoint. */
  lemma SetpointIsNearest(l: Limits, current: real, phases: int, n: int)
    requires ValidLimits(l) && AllowedPhases(l, phases) && InBand(l, phases, n)
    ensures var s := CalcSetpoint(l, true, current, phases);
            var x := RequestedPower(l, current, phases);
            InBand(l, phases, s) && Distance(s, x) <= Distance(n, x)
  {
    RequestFits(l, current, phases);
    var x := RequestedPower(l, current, phases);
    RoundBounds(x);
    NearestInRange(x, Round(x), PowerLimits(l, phases).0, PowerLimits(l, phases).1, n);
  }

  lemma NearestInRange(x: real, r: int, lo: int, hi: int, n: int)
    requires -0.5 <= r as real - x <= 0.5 && lo <= n <= hi
    ensures Distance(Min(Max(r, lo), hi), x) <= Distance(n, x)
  {
    if r < lo {
      assert x <= lo as real - 0.5 && lo as real <= n as real;
    } else if r > hi {
      assert x >= hi as real + 0.5 && n as real <= hi as real;
    } else if n < r {
      assert n as real <= r as real - 1.0;
    } else if n > r {
      assert n as real >= r as real + 1.0;
    }
  }

  /** The charger settles on the requested phase count for every current, exactly when the band of
      that count exists below the device maximum (or is too low for the charger to derive anything). */
  lemma PhaseBandExact(l: Limits, tracked: int, current: real, phases: int)
    requires ValidLimits(l) && l.switchable && (phases == 1 || phases == 3) && (tracked == 1 || tracked == 3)
    ensures DecodePhases(l, tracked, CalcSetpoint(l, true, current, phases)) == phases
       <==> phases == 1 || l.maxPower >= MIN_POWER_3P || (l.maxPower < MIN_POWER_1P && tracked == 3)
  {
    RequestFits(l, current, phases);
  }

  // ---------------------------------------------------------------------------------------------
  // Restart round trip
  // ---------------------------------------------------------------------------------------------

  /** Re-encoding what a restart decodes. */
  function Reencode(l: Limits, setpoint: uint16): uint16
    requires l.hwPhases != 0
  {
    var (current, phases) := DecodeSetpoint(l, l.hwPhases, setpoint);
    CalcSetpoint(l, true, current, phases)
  }

  /** Rounding into a band, then clamping the result back into the range it came from and rounding
      again, changes nothing. */
  lemma RoundIntoBandTwice(x: real, least: real, most: real, lo: int, hi: int)
    requires least <= x <= most && lo <= hi
    ensures var s := Min(Max(Round(x), lo), hi);
            Min(Max(Round(MinReal(MaxReal(s as real, least), most)), lo), hi) == s
  {
    var s := Min(Max(Round(x), lo), hi);
    var y := MinReal(MaxReal(s as real, least), most);
    RoundAgainst(x, lo);
    RoundAgainst(x, hi);
    RoundAgainst(y, s);
    if x <= y { RoundMonotone(x, y); } else { RoundMonotone(y, x); }
  }

  /** The power of a decoded current is the setpoint, clamped to what the device current allows. */
  lemma DecodedPower(l: Limits, setpoint: uint16, p: int)
    requires ValidLimits(l) && (p == 1 || p == 3)
    ensures RequestedPower(l, MinReal(setpoint as real * 100.0 / (230.0 * (p as real)), l.maxCurrent), p)
         == MinReal(MaxReal(setpoint as real, RequestedPower(l, l.minCurrent, p)), RequestedPower(l, l.maxCurrent, p))
  {
    if p == 1 {
      PowerIsLinear(l, l.minCurrent, 1);
    } else {
      PowerIsLinear(l, l.minCurrent, 3);
    }
  }

  lemma PowerIsLinear(l: Limits, current: real, p: int)
    requires p == 1 || p == 3
    ensures RequestedPower(l, current, p)
         == (if p == 1 then 2.3 * ClampCurrent(l, current) else 6.9 * ClampCurrent(l, current))
  {
  }

  /** Decoding a setpoint of the right band and re-encoding it is lossless: both clamps and the
      rounding are undone. */
  lemma EncodeDecodeInBand(l: Limits, current: real, p: int)
    requires ValidLimits(l) && (p == 1 || p == 3)
    requires PowerLimits(l, p).0 <= PowerLimits(l, p).1
    ensures var s := CalcSetpoint(l, true, current, p);
            CalcSetpoint(l, true, MinReal(s as real * 100.0 / (230.0 * (p as real)), l.maxCurrent), p) == s
  {
    var s := CalcSetpoint(l, true, current, p);
    var (lo, hi) := PowerLimits(l, p);
    RequestFits(l, current, p);
    RequestFits(l, MinReal(s as real * 100.0 / (230.0 * (p as real)), l.maxCurrent), p);
    DecodedPower(l, s, p);
    RequestBetween(l, current, p);
    RoundIntoBandTwice(RequestedPower(l, current, p),
                       RequestedPower(l, l.minCurrent, p), RequestedPower(l, l.maxCurrent, p), lo, hi);
  }

  lemma RequestBetween(l: Limits, current: real, p: int)
    requires ValidLimits(l) && (p == 1 || p == 3)
    ensures RequestedPower(l, l.minCurrent, p) <= RequestedPower(l, current, p) <= RequestedPower(l, l.maxCurrent, p)
  {
    PowerIsLinear(l, l.minCurrent, p);
    PowerIsLinear(l, current, p);
    PowerIsLinear(l, l.maxCurrent, p);
  }

  /** A device counts as three-phase exactly when its power is at least that of two and a half phases. */
  lemma HardwarePhasesExact(maxPower: uint16, maxCurrent: real)
    requires maxCurrent > 0.0
    ensures HardwarePhases(maxPower, maxCurrent) in {1, 3}
    ensures HardwarePhases(maxPower, maxCurrent) == 3 <==> maxPower as real * 100.0 >= 2.5 * (230.0 * maxCurrent)
  {
    var watts, phase := maxPower as real * 100.0, 230.0 * maxCurrent;
    QuotientAtLeast(watts, phase, 2.5);
    RoundsToThree(watts / phase);
  }

  lemma RoundsToThree(q: real)
    requires q >= 0.0
    ensures Round(q) >= 3 <==> q >= 2.5
  {
  }

  lemma QuotientAtLeast(x: real, y: real, k: real)
    requires y > 0.0 && x >= 0.0
    ensures x / y >= k <==> x >= k * y
    ensures x / y >= 0.0
  {
    var q := x / y;
    assert q * y == x;
    if q >= k { MulMonotone(y, k, q); } else { MulStrictly(y, q, k); }
    if q < 0.0 { MulStrictly(y, q, 0.0); }
  }

  lemma MulStrictly(k: real, a: real, b: real)
    requires 0.0 < k && a < b
    ensures k * a < k * b
  {
  }

  /** A three-phase capable device offers at least 2.5 times the single-phase power. */
  lemma ThreePhasePower(l: Limits)
    requires ValidLimits(l) && l.hwPhases == 3
    ensures l.maxPower as real * 100.0 >= 575.0 * l.maxCurrent
  {
    HardwarePhasesExact(l.maxPower, l.maxCurrent);
  }

  /** For every current, a restart re-encodes to exactly the register it was seeded from, unless a
      switchable charger's maximum lies strictly between the one-phase minimum and the three-phase
      band; there the three-phase setpoint is read back as a one-phase one. */
  lemma RestartRoundTripExact(l: Limits, current: real, phases: int)
    requires ValidLimits(l) && AllowedPhases(l, phases)
    ensures Reencode(l, CalcSetpoint(l, true, current, phases)) == CalcSetpoint(l, true, current, phases)
       <==> !l.switchable || phases == 1 || l.maxPower >= MIN_POWER_3P || l.maxPower <= MIN_POWER_1P
  {
    var s := CalcSetpoint(l, true, current, phases);
    RequestFits(l, current, phases);
    if !l.switchable || phases == 1 || l.maxPower >= MIN_POWER_3P {
      EncodeDecodeInBand(l, current, phases);
      assert DecodePhases(l, l.hwPhases, s) == phases;
    } else {
      assert s == l.maxPower;
      ThreePhasePower(l);
      if l.maxPower >= MIN_POWER_1P {
        var c' := DecodeSetpoint(l, l.hwPhases, s).0;
        assert c' == l.maxCurrent;
        RequestFits(l, c', 1);
        assert RequestedPower(l, c', 1) == 2.3 * l.maxCurrent;
        assert RequestedPower(l, c', 1) <= 0.4 * s as real;
        RoundBounds(RequestedPower(l, c', 1));
      } else {
        RequestFits(l, DecodeSetpoint(l, l.hwPhases, s).0, 3);
      }
    }
  }

  /** The failing family is not empty: a 3.5 kW device with a 6 A limit comes back at 1.4 kW. */
  lemma RestartRoundTripFails()
    ensures var l := Limits(1, 35, 6.0, 6.0, 3, true);
            && DeriveLimits(60, 60, 1, 35, 1) == Supported(l)
            && CalcSetpoint(l, true, 6.0, 3) == 35 && Reencode(l, 35) == 14
  {
    var l := Limits(1, 35, 6.0, 6.0, 3, true);
    assert l.maxPower as real * 100.0 / (230.0 * l.maxCurrent) >= 2.5;
  }

  // ---------------------------------------------------------------------------------------------
  // Advertised current range
  // ---------------------------------------------------------------------------------------------

  predicate Unclamped(l: Limits, current: real, phases: int) {
    var (lo, hi) := PowerLimits(l, phases);
    lo <= Round(RequestedPower(l, current, phases)) <= hi
  }

  /** Every advertised current is encoded without band clamping exactly when the advertised range is
      empty, or the band is not and the largest current reaches it. */
  lemma AdvertisedRangeExact(l: Limits, p: int)
    requires ValidLimits(l) && AllowedPhases(l, p)
    ensures var (from, to) := GetMinMaxCurrent(l, p);
            var (lo, hi) := PowerLimits(l, p);
            (forall c :: from <= c <= to ==> Unclamped(l, c, p)) ==
            (from > to || (lo <= hi && lo <= Round(RequestedPower(l, l.maxCurrent, p))))
  {
    var (lo, hi) := PowerLimits(l, p);
    var (from, to) := GetMinMaxCurrent(l, p);
    if lo <= hi && lo <= Round(RequestedPower(l, l.maxCurrent, p)) {
      forall c | from <= c <= to ensures Unclamped(l, c, p) {
        AdvertisedUnclamped(l, p, c);
      }
    } else if from <= to {
      RequestBetween(l, to, p);
      RoundMonotone(RequestedPower(l, to, p), RequestedPower(l, l.maxCurrent, p));
      assert !Unclamped(l, to, p);
    }
  }

  lemma AdvertisedUnclamped(l: Limits, p: int, c: real)
    requires ValidLimits(l) && AllowedPhases(l, p) && PowerLimits(l, p).0 <= PowerLimits(l, p).1
    requires GetMinMaxCurrent(l, p).0 <= c <= GetMinMaxCurrent(l, p).1
    requires PowerLimits(l, p).0 <= Round(RequestedPower(l, l.maxCurrent, p))
    ensures Unclamped(l, c, p)
  {
    var (lo, hi) := PowerLimits(l, p);
    assert ClampCurrent(l, c) == c;
    RoundAgainst(RequestedPower(l, c, p), lo);
    RoundAgainst(RequestedPower(l, c, p), hi);
  }

  /** A switchable 4.1 kW device with a 7.1 A limit advertises 7.0 A on three phases, and encodes it as
      4.1 kW, on which the charger uses one phase. */
  lemma AdvertisedRangeFails()
    ensures var l := Limits(14, 41, 6.0, 7.1, 3, true);
            && DeriveLimits(60, 71, 14, 41, 1) == Supported(l)
            && GetMinMaxCurrent(l, 3).0 <= 7.0 <= GetMinMaxCurrent(l, 3).1
            && CalcSetpoint(l, true, 7.0, 3) == 41
            && DecodePhases(l, 3, 41) == 1
  {
    assert 41.0 * 100.0 / (230.0 * 7.1) >= 2.5;
  }

  /** The setpoint is within 50 W of the given power. */
  predicate Near(setpoint: int, watts: real) { watts - 50.0 <= setpoint as real * 100.0 <= watts + 50.0 }

  predicate Within50W(l: Limits, p: int, c: real) {
    Near(CalcSetpoint(l, true, c, p), 230.0 * (p as real) * c)
  }

  /** A current the device supports is encoded within 50 W of 230 V times the phases exactly when its
      power is within 50 W of the band. */
  lemma Within50WExact(l: Limits, p: int, c: real)
    requires ValidLimits(l) && AllowedPhases(l, p) && l.minCurrent <= c <= l.maxCurrent
    ensures var (lo, hi) := PowerLimits(l, p);
            Within50W(l, p, c) == (Min(lo, hi) as real - 0.5 <= RequestedPower(l, c, p) <= hi as real + 0.5)
  {
    Within50WOf(l, p, c, 230.0 * (p as real) * c);
  }

  lemma Within50WOf(l: Limits, p: int, c: real, watts: real)
    requires ValidLimits(l) && AllowedPhases(l, p) && l.minCurrent <= c <= l.maxCurrent
    requires watts == 230.0 * (p as real) * c
    ensures Near(CalcSetpoint(l, true, c, p), watts)
         == (Min(PowerLimits(l, p).0, PowerLimits(l, p).1) as real - 0.5 <= RequestedPower(l, c, p)
             <= PowerLimits(l, p).1 as real + 0.5)
  {
    SupportedPower(l, p, c);
    SetpointIsClamp(l, c, p);
    WithinOfBand(CalcSetpoint(l, true, c, p), RequestedPower(l, c, p), watts,
                 PowerLimits(l, p).0, PowerLimits(l, p).1);
  }

  lemma WithinOfBand(s: int, x: real, watts: real, lo: int, hi: int)
    requires s == Min(Max(Round(x), lo), hi) && 100.0 * x == watts
    ensures Near(s, watts)
         == (Min(lo, hi) as real - 0.5 <= x <= hi as real + 0.5)
  {
    RoundBounds(x);
  }

  lemma SetpointIsClamp(l: Limits, c: real, p: int)
    requires ValidLimits(l) && AllowedPhases(l, p)
    ensures CalcSetpoint(l, true, c, p)
         == Min(Max(Round(RequestedPower(l, c, p)), PowerLimits(l, p).0), PowerLimits(l, p).1)
  {
    RequestFits(l, c, p);
  }

  lemma SupportedPower(l: Limits, p: int, c: real)
    requires ValidLimits(l) && (p == 1 || p == 3) && l.minCurrent <= c <= l.maxCurrent
    ensures 100.0 * RequestedPower(l, c, p) == 230.0 * (p as real) * c
  {
    PowerIsLinear(l, c, p);
    if p == 1 {
    } else {
    }
  }

  /** All advertised currents are, exactly when the ends of the range are; where the band exists, that
      is exactly when no advertised current is clamped. */
  lemma AdvertisedWithin50W(l: Limits, p: int)
    requires ValidLimits(l) && AllowedPhases(l, p)
    ensures var (from, to) := GetMinMaxCurrent(l, p);
            var (lo, hi) := PowerLimits(l, p);
            && ((forall c :: from <= c <= to ==> Within50W(l, p, c)) ==
                (from > to || (Min(lo, hi) as real - 0.5 <= RequestedPower(l, from, p)
                               && RequestedPower(l, to, p) <= hi as real + 0.5)))
            && (lo <= hi ==>
                (forall c :: from <= c <= to ==> Within50W(l, p, c)) ==
                (from > to || lo <= Round(RequestedPower(l, l.maxCurrent, p))))
  {
    var (lo, hi) := PowerLimits(l, p);
    var (from, to) := GetMinMaxCurrent(l, p);
    if from <= to {
      forall c | from <= c <= to
        ensures Within50W(l, p, c) ==
                (Min(lo, hi) as real - 0.5 <= RequestedPower(l, c, p) <= hi as real + 0.5)
        ensures RequestedPower(l, from, p) <= RequestedPower(l, c, p) <= RequestedPower(l, to, p)
      {
        Within50WExact(l, p, c);
        PowerMonotone(l, from, c, p);
        PowerMonotone(l, c, to, p);
      }
      if lo <= hi {
        AdvertisedEnds(l, p);
      }
    }
  }

  /** Where the band exists, the advertised range ends inside it unless no current reaches it. */
  lemma AdvertisedEnds(l: Limits, p: int)
    requires ValidLimits(l) && AllowedPhases(l, p) && PowerLimits(l, p).0 <= PowerLimits(l, p).1
    requires GetMinMaxCurrent(l, p).0 <= GetMinMaxCurrent(l, p).1
    ensures RequestedPower(l, GetMinMaxCurrent(l, p).1, p) <= PowerLimits(l, p).1 as real
    ensures (PowerLimits(l, p).0 as real - 0.5 <= RequestedPower(l, GetMinMaxCurrent(l, p).0, p)) ==
            (PowerLimits(l, p).0 <= Round(RequestedPower(l, l.maxCurrent, p)))
  {
    var (lo, hi) := PowerLimits(l, p);
    var (from, to) := GetMinMaxCurrent(l, p);
    BelowDecoded(l, to, p, hi);
    BelowDecoded(l, from, p, lo);
    RequestBetween(l, from, p);
    RoundBounds(RequestedPower(l, l.maxCurrent, p));
  }

  /** Outside the advertised range the setpoint is that of the nearest end of it; for a current the
      device supports, that is the end of the band. */
  lemma OutsideAdvertisedSaturates(l: Limits, p: int, c: real)
    requires ValidLimits(l) && AllowedPhases(l, p)
    ensures var (from, to) := GetMinMaxCurrent(l, p);
            var (lo, hi) := PowerLimits(l, p);
            var s := CalcSetpoint(l, true, c, p);
            && (c < from ==> s == CalcSetpoint(l, true, from, p))
            && (c > to ==> s == CalcSetpoint(l, true, to, p))
            && (l.minCurrent <= c < from ==> s == Min(lo, hi))
            && (to < c <= l.maxCurrent ==> s == hi)
  {
    var (from, to) := GetMinMaxCurrent(l, p);
    assert l.minCurrent <= from <= l.maxCurrent && to <= l.maxCurrent;
    SupportedSaturates(l, p, ClampCurrent(l, c));
    SupportedSaturates(l, p, from);
    SupportedSaturates(l, p, ClampCurrent(l, to));
    SetpointOfClamped(l, p, c);
    SetpointOfClamped(l, p, to);
  }

  lemma SetpointOfClamped(l: Limits, p: int, c: real)
    requires ValidLimits(l)
    ensures CalcSetpoint(l, true, c, p) == CalcSetpoint(l, true, ClampCurrent(l, c), p)
  {
    assert ClampCurrent(l, ClampCurrent(l, c)) == ClampCurrent(l, c);
    assert RequestedPower(l, c, p) == RequestedPower(l, ClampCurrent(l, c), p);
  }

  lemma SupportedSaturates(l: Limits, p: int, c: real)
    requires ValidLimits(l) && AllowedPhases(l, p) && l.minCurrent <= c <= l.maxCurrent
    ensures var (from, to) := GetMinMaxCurrent(l, p);
            var (lo, hi) := PowerLimits(l, p);
            var s := CalcSetpoint(l, true, c, p);
            && (c < from || c == from > l.minCurrent ==> s == Min(lo, hi))
            && (c > to || c == to < l.maxCurrent ==> s == hi)
  {
    var (lo, hi) := PowerLimits(l, p);
    var x := RequestedPower(l, c, p);
    RequestFits(l, c, p);
    RoundAgainst(x, lo);
    RoundAgainst(x, hi);
    BelowDecoded(l, c, p, lo);
    BelowDecoded(l, c, p, hi);
  }

  /** A supported current up to (from) a decoded one asks for no more (less) than its setpoint. */
  lemma BelowDecoded(l: Limits, c: real, p: int, setpoint: uint16)
    requires ValidLimits(l) && (p == 1 || p == 3) && l.minCurrent <= c <= l.maxCurrent
    ensures c <= MinReal(setpoint as real * 100.0 / (230.0 * (p as real)), l.maxCurrent)
        ==> RequestedPower(l, c, p) <= setpoint as real
    ensures c > MinReal(setpoint as real * 100.0 / (230.0 * (p as real)), l.maxCurrent)
        ==> RequestedPower(l, c, p) >= setpoint as real
    ensures c == MinReal(setpoint as real * 100.0 / (230.0 * (p as real)), l.maxCurrent) < l.maxCurrent
        ==> RequestedPower(l, c, p) == setpoint as real
  {
    PowerIsLinear(l, c, p);
    if p == 1 {
    } else {
    }
  }
}
