/** What the Easee store shows after any sequence of deliveries (charger/easee.go). */
module EaseeRuns {
  import opened Wrappers
  import opened EaseeStore

  // ---------------------------------------------------------------------------------------------
  // Convergence of the plainly stored observations
  // ---------------------------------------------------------------------------------------------

  /** The ids whose accepted values are stored as they come. */
  predicate Plain(id: ObservationId) {
    !(id.SessionEnergyId? || id.LifetimeEnergyId? || id.ChargeSessionStartId? || id.ChargingSessionId? || id.OtherId?)
  }

  datatype Cell = Flag(on: bool) | Number(x: real) | Count(n: int) | Text(t: string)

  function CellAt(s: State, id: ObservationId): Cell
    requires Plain(id)
  {
    match id
    case UserIdTokenId => Text(s.rfid)
    case IsEnabledId => Flag(s.chargerEnabled)
    case SmartChargingId => Flag(s.smartCharging)
    case TotalPowerId => Number(s.currentPower)
    case IntCurrentId(line) => Number(s.currents.Get(line))
    case PhaseModeId => Count(s.phaseMode)
    case DynamicCircuitCurrentId(line) => Number(s.dynamicCircuitCurrent.Get(line))
    case MaxChargerCurrentId => Number(s.maxChargerCurrent)
    case DynamicChargerCurrentId => Number(s.dynamicChargerCurrent)
    case ChargerOpModeId => Count(s.opMode)
    case ReasonForNoCurrentId => Count(s.reasonForNoCurrent)
    case PilotModeId => Text(s.pilotMode)
  }

  /** The value an observation carries; power is sent in kW and shown in W. */
  function CellOf(c: Content): Cell
    requires Plain(IdOf(c))
  {
    match c
    case UserIdToken(token) => Text(token)
    case IsEnabled(on) => Flag(on)
    case SmartCharging(on) => Flag(on)
    case TotalPower(kw) => Number(1000.0 * kw)
    case IntCurrent(_, amps) => Number(amps)
    case PhaseMode(mode) => Count(mode)
    case DynamicCircuitCurrent(_, amps) => Number(amps)
    case MaxChargerCurrent(amps) => Number(amps)
    case DynamicChargerCurrent(amps) => Number(amps)
    case ChargerOpMode(mode) => Count(mode)
    case ReasonForNoCurrent(reason) => Count(reason)
    case PilotMode(pilot) => Text(pilot)
  }

  function Observed(ds: seq<Delivery>): set<Observation> {
    set d | d in ds && d.Received? :: d.obs
  }

  predicate Carries(o: Observation, id: ObservationId) { IdOf(o.content) == id }

  /** Observations of one id and the same time agree on the value, if none is later. */
  ghost predicate LatestAgree(os: set<Observation>, id: ObservationId)
    requires Plain(id)
  {
    forall a, b :: Latest(os, id, a) && Latest(os, id, b) ==> CellOf(a.content) == CellOf(b.content)
  }

  predicate Latest(os: set<Observation>, id: ObservationId, a: Observation) {
    a in os && Carries(a, id) && forall o :: o in os && Carries(o, id) ==> o.timestamp <= a.timestamp
  }

  /** A delivery changes a plain value only by storing an accepted observation of its own id. */
  lemma StepCell(s: State, d: Delivery, id: ObservationId)
    requires Plain(id)
    ensures var accepted := d.Received? && Carries(d.obs, id) && Fresh(s, d.obs);
            var t := Step(s, d);
            && (accepted ==> CellAt(t, id) == CellOf(d.obs.content)
                             && id in t.obsTime && t.obsTime[id] == d.obs.timestamp)
            && (!accepted ==> CellAt(t, id) == CellAt(s, id) && (id in t.obsTime <==> id in s.obsTime)
                              && (id in s.obsTime ==> t.obsTime[id] == s.obsTime[id]))
  {
    if d.Received? && Fresh(s, d.obs) {
      var c, t := d.obs.content, Note(s, d.obs, d.now);
      StoreTime(t, c, d.now, id);
      if IdOf(c) == id {
        StoreOwnCell(t, c, d.now);
      } else {
        StoreOtherCell(t, c, d.now, id);
      }
    }
  }

  lemma StoreTime(s: State, c: Content, now: int, id: ObservationId)
    requires id != SessionEnergyId
    ensures id in Store(s, c, now).obsTime <==> id in s.obsTime
    ensures id in s.obsTime ==> Store(s, c, now).obsTime[id] == s.obsTime[id]
  {
  }

  lemma StoreOwnCell(s: State, c: Content, now: int)
    requires Plain(IdOf(c))
    ensures CellAt(Store(s, c, now), IdOf(c)) == CellOf(c)
  {
  }

  lemma StoreOtherCell(s: State, c: Content, now: int, id: ObservationId)
    requires Plain(id) && IdOf(c) != id
    ensures CellAt(Store(s, c, now), id) == CellAt(s, id)
  {
    match id {
      case IntCurrentId(line) =>
      case DynamicCircuitCurrentId(line) =>
      case _ =>
    }
  }

  /** The store shows the latest of the observations, or still what it had, if all were outdated. */
  ghost predicate ShowsLatest(s0: State, os: set<Observation>, id: ObservationId, s: State)
    requires Plain(id)
  {
    if exists o :: o in os && Carries(o, id) && Fresh(s0, o) then
      exists o :: Latest(os, id, o) && CellAt(s, id) == CellOf(o.content)
                  && id in s.obsTime && s.obsTime[id] == o.timestamp
    else
      CellAt(s, id) == CellAt(s0, id) && (id in s.obsTime <==> id in s0.obsTime)
      && (id in s.obsTime ==> s.obsTime[id] == s0.obsTime[id])
  }

  lemma ObservedSnoc(ds: seq<Delivery>)
    requires ds != []
    ensures var d := ds[|ds| - 1];
            Observed(ds) == Observed(ds[..|ds| - 1]) + (if d.Received? then {d.obs} else {})
  {
    assert ds == ds[..|ds| - 1] + [ds[|ds| - 1]];
  }

  /** Last writer wins, from any state and for any deliveries. */
  lemma {:induction false} RunShowsLatest(s0: State, ds: seq<Delivery>, id: ObservationId)
    requires Plain(id)
    ensures ShowsLatest(s0, Observed(ds), id, Run(s0, ds))
  {
    if ds == [] {
    } else {
      var init, d := ds[..|ds| - 1], ds[|ds| - 1];
      var s := Run(s0, init);
      RunShowsLatest(s0, init, id);
      ObservedSnoc(ds);
      StepCell(s, d, id);
      if d.Received? && Carries(d.obs, id) {
        AddObservation(s0, Observed(init), s, d, id);
      } else {
        SameForOthers(s0, Observed(init), Observed(ds), id, s, Run(s0, ds));
      }
    }
  }

  lemma SameForOthers(s0: State, os: set<Observation>, more: set<Observation>, id: ObservationId, s: State, t: State)
    requires Plain(id) && ShowsLatest(s0, os, id, s)
    requires forall o :: Carries(o, id) ==> (o in os <==> o in more)
    requires CellAt(t, id) == CellAt(s, id) && (id in t.obsTime <==> id in s.obsTime)
    requires id in s.obsTime ==> t.obsTime[id] == s.obsTime[id]
    ensures ShowsLatest(s0, more, id, t)
  {
    if exists o :: o in more && Carries(o, id) && Fresh(s0, o) {
      var x :| x in more && Carries(x, id) && Fresh(s0, x);
      assert x in os;
      var o :| Latest(os, id, o) && CellAt(s, id) == CellOf(o.content)
               && id in s.obsTime && s.obsTime[id] == o.timestamp;
      assert Latest(more, id, o);
    } else {
      assert !exists o :: o in os && Carries(o, id) && Fresh(s0, o);
    }
  }

  lemma AddObservation(s0: State, os: set<Observation>, s: State, d: Delivery, id: ObservationId)
    requires Plain(id) && d.Received? && Carries(d.obs, id) && ShowsLatest(s0, os, id, s)
    ensures ShowsLatest(s0, os + {d.obs}, id, Step(s, d))
  {
    var more, t := os + {d.obs}, Step(s, d);
    StepCell(s, d, id);
    if exists o :: o in os && Carries(o, id) && Fresh(s0, o) {
      var o :| Latest(os, id, o) && CellAt(s, id) == CellOf(o.content)
               && id in s.obsTime && s.obsTime[id] == o.timestamp;
      assert Latest(more, id, if Fresh(s, d.obs) then d.obs else o);
      assert exists x :: x in more && Carries(x, id) && Fresh(s0, x);
    } else if Fresh(s0, d.obs) {
      assert Fresh(s, d.obs);
      forall o | o in more && Carries(o, id) ensures o.timestamp <= d.obs.timestamp {
        assert o == d.obs || !Fresh(s0, o);
      }
      assert Latest(more, id, d.obs);
    } else {
      assert !Fresh(s, d.obs);
    }
  }

  /** Any order and any duplication of the same observations shows the same value, when the latest
      ones agree (in particular when times are distinct per id). */
  lemma Convergence(s0: State, ds1: seq<Delivery>, ds2: seq<Delivery>, id: ObservationId)
    requires Plain(id) && Observed(ds1) == Observed(ds2) && LatestAgree(Observed(ds1), id)
    ensures CellAt(Run(s0, ds1), id) == CellAt(Run(s0, ds2), id)
  {
    RunShowsLatest(s0, ds1, id);
    RunShowsLatest(s0, ds2, id);
  }

  /** The value shown is that of the latest observation. */
  lemma LatestWins(s0: State, ds: seq<Delivery>, id: ObservationId, o: Observation)
    requires Plain(id) && id !in s0.obsTime
    requires Latest(Observed(ds), id, o) && LatestAgree(Observed(ds), id)
    ensures CellAt(Run(s0, ds), id) == CellOf(o.content)
    ensures id in Run(s0, ds).obsTime && Run(s0, ds).obsTime[id] == o.timestamp
  {
    assert Fresh(s0, o);
    RunShowsLatest(s0, ds, id);
  }

  /** Agreement of the latest observations is also necessary: the store takes the later arrival of
      two observations with the same time. */
  lemma ConvergenceExact(s0: State, ds: seq<Delivery>, id: ObservationId)
    requires Plain(id) && id !in s0.obsTime
    ensures LatestAgree(Observed(ds), id)
       <==> forall other :: Observed(other) == Observed(ds) ==> CellAt(Run(s0, other), id) == CellAt(Run(s0, ds), id)
  {
    if LatestAgree(Observed(ds), id) {
      forall other | Observed(other) == Observed(ds)
        ensures CellAt(Run(s0, other), id) == CellAt(Run(s0, ds), id)
      {
        Convergence(s0, ds, other, id);
      }
    } else {
      var other := Diverges(s0, ds, id);
    }
  }

  lemma Diverges(s0: State, ds: seq<Delivery>, id: ObservationId) returns (other: seq<Delivery>)
    requires Plain(id) && id !in s0.obsTime && !LatestAgree(Observed(ds), id)
    ensures Observed(other) == Observed(ds) && CellAt(Run(s0, other), id) != CellAt(Run(s0, ds), id)
  {
    var a, b :| Latest(Observed(ds), id, a) && Latest(Observed(ds), id, b) && CellOf(a.content) != CellOf(b.content);
    var last := if CellAt(Run(s0, ds), id) == CellOf(a.content) then b else a;
    RepeatedLast(s0, ds, id, last);
    other := ds + [Received(last, 0)];
  }

  lemma RepeatedLast(s0: State, ds: seq<Delivery>, id: ObservationId, a: Observation)
    requires Plain(id) && id !in s0.obsTime && Latest(Observed(ds), id, a)
    ensures Observed(ds + [Received(a, 0)]) == Observed(ds)
    ensures CellAt(Run(s0, ds + [Received(a, 0)]), id) == CellOf(a.content)
  {
    var more := ds + [Received(a, 0)];
    ObservedSnoc(more);
    assert more[..|ds|] == ds;
    assert Fresh(s0, a);
    RunShowsLatest(s0, ds, id);
    StepCell(Run(s0, ds), Received(a, 0), id);
  }

  /** What a new store shows for a value it has not heard of. */
  function Blank(id: ObservationId): Cell
    requires Plain(id)
  {
    match id
    case UserIdTokenId => Text("")
    case IsEnabledId => Flag(false)
    case SmartChargingId => Flag(false)
    case PhaseModeId => Count(0)
    case ChargerOpModeId => Count(0)
    case ReasonForNoCurrentId => Count(0)
    case PilotModeId => Text("")
    case _ => Number(0.0)
  }

  /** A new store has no session and no energy, and shows a blank for every plain value until an observation
      of it arrives. */
  lemma UnheardIsBlank(ds: seq<Delivery>, id: ObservationId)
    requires Plain(id) && forall o :: o in Observed(ds) ==> !Carries(o, id)
    ensures CellAt(Run(Initial(), ds), id) == Blank(id)
    ensures Run(Initial(), []).totalEnergy == Run(Initial(), []).sessionEnergy == 0.0
    ensures Run(Initial(), []).currentSessionID == Run(Initial(), []).lastObsReceived == 0
    ensures Run(Initial(), []).obsTime == map[]
  {
    RunShowsLatest(Initial(), ds, id);
  }

  /** The status shown is that of the latest mode: A for disconnected, C for charging, B for awaiting start,
      completed, ready, awaiting authentication and deauthenticating, and none for the others. */
  lemma StatusShown(s0: State, ds: seq<Delivery>, o: Observation)
    requires ChargerOpModeId !in s0.obsTime && Latest(Observed(ds), ChargerOpModeId, o)
    requires LatestAgree(Observed(ds), ChargerOpModeId)
    ensures var status := Status(Run(s0, ds).opMode);
            var mode := o.content.mode;
            && (status == Some(StatusA) <==> mode == 1)
            && (status == Some(StatusB) <==> mode == 2 || mode == 4 || mode == 6 || mode == 7 || mode == 8)
            && (status == Some(StatusC) <==> mode == 3)
  {
    LatestWins(s0, ds, ChargerOpModeId, o);
  }

  /** Without a circuit the phase count shown is that of the latest phase mode, and mode 2 means three. */
  lemma PhaseModeShown(s0: State, ds: seq<Delivery>, o: Observation)
    requires PhaseModeId !in s0.obsTime && Latest(Observed(ds), PhaseModeId, o)
    requires LatestAgree(Observed(ds), PhaseModeId)
    ensures ReportedPhases(0, Run(s0, ds)) == if o.content.mode == 2 then 3 else o.content.mode
  {
    LatestWins(s0, ds, PhaseModeId, o);
  }

  predicate LatestCurrent(s0: State, os: set<Observation>, line: Line, o: Observation) {
    DynamicCircuitCurrentId(line) !in s0.obsTime && Latest(os, DynamicCircuitCurrentId(line), o)
  }

  lemma LineShown(s0: State, ds: seq<Delivery>, line: Line, o: Observation)
    requires LatestCurrent(s0, Observed(ds), line, o) && LatestAgree(Observed(ds), DynamicCircuitCurrentId(line))
    ensures Run(s0, ds).dynamicCircuitCurrent.Get(line) == o.content.amps
  {
    LatestWins(s0, ds, DynamicCircuitCurrentId(line), o);
  }

  /** With one it is the number of lines whose latest circuit current is positive. */
  lemma CircuitPhasesShown(circuit: int, s0: State, ds: seq<Delivery>,
                           o1: Observation, o2: Observation, o3: Observation)
    requires circuit != 0 && LatestCurrent(s0, Observed(ds), L1, o1)
    requires LatestCurrent(s0, Observed(ds), L2, o2) && LatestCurrent(s0, Observed(ds), L3, o3)
    requires forall line :: LatestAgree(Observed(ds), DynamicCircuitCurrentId(line))
    ensures ReportedPhases(circuit, Run(s0, ds))
         == (if o1.content.amps > 0.0 then 1 else 0) + (if o2.content.amps > 0.0 then 1 else 0)
            + (if o3.content.amps > 0.0 then 1 else 0)
  {
    LineShown(s0, ds, L1, o1);
    LineShown(s0, ds, L2, o2);
    LineShown(s0, ds, L3, o3);
  }

  /** So the reported phase count does not depend on the order of delivery either. */
  lemma PhasesConverge(circuit: int, s0: State, ds1: seq<Delivery>, ds2: seq<Delivery>)
    requires Observed(ds1) == Observed(ds2)
    requires circuit == 0 ==> LatestAgree(Observed(ds1), PhaseModeId)
    requires circuit != 0 ==> forall line :: LatestAgree(Observed(ds1), DynamicCircuitCurrentId(line))
    ensures ReportedPhases(circuit, Run(s0, ds1)) == ReportedPhases(circuit, Run(s0, ds2))
  {
    if circuit == 0 {
      Convergence(s0, ds1, ds2, PhaseModeId);
    } else {
      Convergence(s0, ds1, ds2, DynamicCircuitCurrentId(L1));
      Convergence(s0, ds1, ds2, DynamicCircuitCurrentId(L2));
      Convergence(s0, ds1, ds2, DynamicCircuitCurrentId(L3));
    }
  }

  // ---------------------------------------------------------------------------------------------
  // Acceptance
  // ---------------------------------------------------------------------------------------------

  predicate AcceptedAt(s0: State, ds: seq<Delivery>, i: nat)
    requires i < |ds|
  {
    ds[i].Received? && Fresh(Run(s0, ds[..i]), ds[i].obs)
  }

  /** Some observation of the id received before ds[i] is later than it. */
  predicate Overtaken(ds: seq<Delivery>, i: nat)
    requires i < |ds| && ds[i].Received?
  {
    exists j :: 0 <= j < i && ds[j].Received? && Carries(ds[j].obs, IdOf(ds[i].obs.content))
                && ds[j].obs.timestamp > ds[i].obs.timestamp
  }

  /** The noted time of an id is the largest seen, of accepted and rejected observations alike. */
  lemma {:induction false} TimeIsLargest(s0: State, ds: seq<Delivery>, id: ObservationId, t: int)
    requires id != SessionEnergyId
    ensures var r := Run(s0, ds);
            (id in r.obsTime && r.obsTime[id] > t) ==
            ((id in s0.obsTime && s0.obsTime[id] > t)
             || exists j :: 0 <= j < |ds| && ds[j].Received? && Carries(ds[j].obs, id) && ds[j].obs.timestamp > t)
  {
    if ds != [] {
      var init, d := ds[..|ds| - 1], ds[|ds| - 1];
      TimeIsLargest(s0, init, id, t);
      StepLater(Run(s0, init), d, id, t);
      assert forall j :: 0 <= j < |init| ==> init[j] == ds[j];
    }
  }

  lemma StepLater(s: State, d: Delivery, id: ObservationId, t: int)
    requires id != SessionEnergyId
    ensures (id in Step(s, d).obsTime && Step(s, d).obsTime[id] > t) ==
            ((id in s.obsTime && s.obsTime[id] > t) || (d.Received? && Carries(d.obs, id) && d.obs.timestamp > t))
  {
    if d.Received? && Fresh(s, d.obs) {
      StoreTime(Note(s, d.obs, d.now), d.obs.content, d.now, id);
    }
  }

  /** An observation is accepted exactly when none of its id that was noted or delivered before is later
      (for all ids but the session energy, whose time a session reset sets). */
  lemma AcceptedExact(s0: State, ds: seq<Delivery>, i: nat)
    requires i < |ds| && ds[i].Received? && IdOf(ds[i].obs.content) != SessionEnergyId
    ensures var id := IdOf(ds[i].obs.content);
            AcceptedAt(s0, ds, i) ==
            (!(id in s0.obsTime && s0.obsTime[id] > ds[i].obs.timestamp) && !Overtaken(ds, i))
  {
    var id, t := IdOf(ds[i].obs.content), ds[i].obs.timestamp;
    TimeIsLargest(s0, ds[..i], id, t);
    assert forall j :: 0 <= j < i ==> ds[..i][j] == ds[j];
  }

  lemma {:induction false} LatestExists(ds: seq<Delivery>, id: ObservationId, o: Observation) returns (l: Observation)
    requires o in Observed(ds) && Carries(o, id)
    ensures Latest(Observed(ds), id, l)
  {
    var init, d := ds[..|ds| - 1], ds[|ds| - 1];
    ObservedSnoc(ds);
    l := o;
    if x :| x in Observed(init) && Carries(x, id) {
      l := LatestExists(init, id, x);
    }
    if d.Received? && Carries(d.obs, id) && (l.timestamp <= d.obs.timestamp || l !in Observed(init)) {
      l := d.obs;
    }
  }

  lemma IndexOf(ds: seq<Delivery>, o: Observation) returns (i: nat)
    requires o in Observed(ds)
    ensures i < |ds| && ds[i].Received? && ds[i].obs == o
  {
    var d :| d in ds && d.Received? && d.obs == o;
    i :| 0 <= i < |ds| && ds[i] == d;
  }

  lemma LatestAccepted(s0: State, ds: seq<Delivery>, i: nat, id: ObservationId)
    requires i < |ds| && ds[i].Received? && id != SessionEnergyId && id !in s0.obsTime
    requires Latest(Observed(ds), id, ds[i].obs)
    ensures AcceptedAt(s0, ds, i)
  {
    AcceptedExact(s0, ds, i);
    forall j | 0 <= j < i && ds[j].Received? && Carries(ds[j].obs, id)
      ensures ds[j].obs.timestamp <= ds[i].obs.timestamp
    {
      assert ds[j].obs in Observed(ds);
    }
  }

  // ---------------------------------------------------------------------------------------------
  // Total energy
  // ---------------------------------------------------------------------------------------------

  /** The meter reading an observation carries, if any. */
  function Reading(c: Content): Option<real> {
    match c
    case LifetimeEnergy(kwh) => Some(kwh)
    case ChargeSessionStart(Some(data)) => Some(data.meterValue)
    case ChargingSession(Some(data)) => Some(data.meterValueStop)
    case _ => None
  }

  predicate ReadingAt(s0: State, ds: seq<Delivery>, i: nat, x: real)
    requires i < |ds|
  {
    AcceptedAt(s0, ds, i) && Reading(ds[i].obs.content) == Some(x)
  }

  lemma StepTotal(s: State, d: Delivery)
    ensures Step(s, d).totalEnergy ==
            if d.Received? && Fresh(s, d.obs) && Reading(d.obs.content).Some?
               && Reading(d.obs.content).value > s.totalEnergy
            then Reading(d.obs.content).value else s.totalEnergy
  {
  }

  /** Total energy is the maximum of where it started and of all accepted meter readings. */
  lemma {:induction false} TotalIsMaximum(s0: State, ds: seq<Delivery>)
    ensures Run(s0, ds).totalEnergy >= s0.totalEnergy
    ensures forall i, x :: 0 <= i < |ds| && ReadingAt(s0, ds, i, x) ==> x <= Run(s0, ds).totalEnergy
    ensures Run(s0, ds).totalEnergy == s0.totalEnergy
         || exists i :: 0 <= i < |ds| && ReadingAt(s0, ds, i, Run(s0, ds).totalEnergy)
  {
    if ds != [] {
      var init, last := ds[..|ds| - 1], |ds| - 1;
      TotalIsMaximum(s0, init);
      StepTotal(Run(s0, init), ds[last]);
      forall i, x | 0 <= i < last ensures ReadingAt(s0, init, i, x) <==> ReadingAt(s0, ds, i, x) {
        assert init[..i] == ds[..i];
      }
      var total := Run(s0, ds).totalEnergy;
      if total != Run(s0, init).totalEnergy {
        assert ReadingAt(s0, ds, last, total);
      }
    }
  }

  /** It never decreases along a run. */
  lemma TotalNeverDecreases(s0: State, before: seq<Delivery>, after: seq<Delivery>)
    ensures Run(s0, before).totalEnergy <= Run(s0, before + after).totalEnergy
  {
    RunConcat(s0, before, after);
    TotalIsMaximum(Run(s0, before), after);
  }

  lemma {:induction false} RunConcat(s0: State, before: seq<Delivery>, after: seq<Delivery>)
    ensures Run(s0, before + after) == Run(Run(s0, before), after)
  {
    if after == [] {
      assert before + after == before;
    } else {
      RunConcat(s0, before, after[..|after| - 1]);
      assert (before + after)[..|before + after| - 1] == before + after[..|after| - 1];
    }
  }

  predicate Metered(id: ObservationId) { id.LifetimeEnergyId? || id.ChargeSessionStartId? || id.ChargingSessionId? }

  ghost predicate NoneMetered(s: State) { forall id :: Metered(id) ==> id !in s.obsTime }

  /** The reading of o is at most the start value or that of the latest observation of some meter. */
  ghost predicate ReadingCovered(os: set<Observation>, start: real, o: Observation) {
    Reading(o.content).None? || Reading(o.content).value <= start
    || exists id, l :: Metered(id) && Latest(os, id, l) && Reading(l.content).Some?
                       && Reading(o.content).value <= Reading(l.content).value
  }

  ghost predicate AllCovered(os: set<Observation>, start: real) {
    forall o :: o in os ==> ReadingCovered(os, start, o)
  }

  /** The total does not depend on the order and duplication of the observations exactly when no reading
      exceeds both the start value and the latest readings: a meter may run backwards below those. */
  lemma TotalConvergesExact(s0: State, ds: seq<Delivery>)
    requires NoneMetered(s0)
    ensures AllCovered(Observed(ds), s0.totalEnergy)
       <==> forall other :: Observed(other) == Observed(ds) ==> Run(s0, other).totalEnergy == Run(s0, ds).totalEnergy
  {
    if AllCovered(Observed(ds), s0.totalEnergy) {
      forall other | Observed(other) == Observed(ds)
        ensures Run(s0, other).totalEnergy == Run(s0, ds).totalEnergy
      {
        TotalAtMost(s0, ds, other);
        TotalAtMost(s0, other, ds);
      }
    } else {
      var other := TotalDiverges(s0, ds);
    }
  }

  lemma TotalDiverges(s0: State, ds: seq<Delivery>) returns (other: seq<Delivery>)
    requires NoneMetered(s0) && !AllCovered(Observed(ds), s0.totalEnergy)
    ensures Observed(other) == Observed(ds) && Run(s0, other).totalEnergy != Run(s0, ds).totalEnergy
  {
    var o :| o in Observed(ds) && !ReadingCovered(Observed(ds), s0.totalEnergy, o);
    var high, low := [Received(o, 0)] + ds, LatestMetered(Observed(ds), ds) + ds;
    FirstIsRead(s0, ds, o);
    LatestFirst(s0, ds, o);
    other := if Run(s0, ds).totalEnergy < Reading(o.content).value then high else low;
  }

  lemma TotalAtMost(s0: State, ds1: seq<Delivery>, ds2: seq<Delivery>)
    requires Observed(ds1) == Observed(ds2) && NoneMetered(s0) && AllCovered(Observed(ds1), s0.totalEnergy)
    ensures Run(s0, ds1).totalEnergy <= Run(s0, ds2).totalEnergy
  {
    TotalIsMaximum(s0, ds2);
    if Run(s0, ds1).totalEnergy > s0.totalEnergy {
      var o := TotalSource(s0, ds1);
      assert ReadingCovered(Observed(ds1), s0.totalEnergy, o);
      var id, l :| Metered(id) && Latest(Observed(ds1), id, l) && Reading(l.content).Some?
                   && Reading(o.content).value <= Reading(l.content).value;
      LatestCounts(s0, ds2, id, l);
    }
  }

  lemma TotalSource(s0: State, ds: seq<Delivery>) returns (o: Observation)
    requires Run(s0, ds).totalEnergy != s0.totalEnergy
    ensures o in Observed(ds) && Reading(o.content) == Some(Run(s0, ds).totalEnergy)
  {
    TotalIsMaximum(s0, ds);
    var i :| 0 <= i < |ds| && ReadingAt(s0, ds, i, Run(s0, ds).totalEnergy);
    o := ds[i].obs;
  }

  lemma LatestCounts(s0: State, ds: seq<Delivery>, id: ObservationId, l: Observation)
    requires NoneMetered(s0) && Metered(id) && Latest(Observed(ds), id, l) && Reading(l.content).Some?
    ensures Reading(l.content).value <= Run(s0, ds).totalEnergy
  {
    var j := IndexOf(ds, l);
    LatestAccepted(s0, ds, j, id);
    assert ReadingAt(s0, ds, j, Reading(l.content).value);
    TotalIsMaximum(s0, ds);
  }

  /** A reading delivered first is always accepted. */
  lemma FirstIsRead(s0: State, ds: seq<Delivery>, o: Observation)
    requires o in Observed(ds) && NoneMetered(s0) && Reading(o.content).Some?
    ensures Observed([Received(o, 0)] + ds) == Observed(ds)
    ensures Run(s0, [Received(o, 0)] + ds).totalEnergy >= Reading(o.content).value
  {
    var high := [Received(o, 0)] + ds;
    assert high[..0] == [];
    TotalIsMaximum(s0, high);
    assert ReadingAt(s0, high, 0, Reading(o.content).value);
  }

  /** The deliveries of the latest metered observations. */
  function LatestMetered(os: set<Observation>, ds: seq<Delivery>): (r: seq<Delivery>)
    ensures forall d :: d in r <==> d in ds && d.Received? && Metered(IdOf(d.obs.content))
                                    && Latest(os, IdOf(d.obs.content), d.obs)
  {
    if ds == [] then []
    else
      var before, d := LatestMetered(os, ds[..|ds| - 1]), ds[|ds| - 1];
      assert ds == ds[..|ds| - 1] + [d];
      if d.Received? && Metered(IdOf(d.obs.content)) && Latest(os, IdOf(d.obs.content), d.obs) then before + [d]
      else before
  }

  /** With these first, no other reading is accepted. */
  lemma LatestFirst(s0: State, ds: seq<Delivery>, o: Observation)
    requires o in Observed(ds) && NoneMetered(s0) && !ReadingCovered(Observed(ds), s0.totalEnergy, o)
    ensures Observed(LatestMetered(Observed(ds), ds) + ds) == Observed(ds)
    ensures Run(s0, LatestMetered(Observed(ds), ds) + ds).totalEnergy < Reading(o.content).value
  {
    var first := LatestMetered(Observed(ds), ds);
    var low := first + ds;
    TotalIsMaximum(s0, low);
    var total := Run(s0, low).totalEnergy;
    if total != s0.totalEnergy {
      var i :| 0 <= i < |low| && ReadingAt(s0, low, i, total);
      var id := IdOf(low[i].obs.content);
      var l := LatestExists(ds, id, low[i].obs);
      var k := IndexOf(ds, l);
      assert ds[k] in first;
      var j :| 0 <= j < |first| && first[j] == ds[k];
      assert low[j] == ds[k];
      AcceptedExact(s0, low, i);
      assert i >= |first| ==> !(low[j].obs.timestamp > low[i].obs.timestamp);
      assert i < |first| ==> first[i] == low[i] && low[i] in first;
      assert Latest(Observed(ds), id, low[i].obs);
    }
  }

  /** Session payloads decode, and the meter does not run backwards within an id. */
  ghost predicate MeterRunsForward(os: set<Observation>) {
    && (forall o :: o in os && Metered(IdOf(o.content)) ==> Reading(o.content).Some?)
    && (forall a, b :: a in os && b in os && IdOf(a.content) == IdOf(b.content) && Metered(IdOf(a.content))
                       && a.timestamp <= b.timestamp
                       ==> Reading(a.content).value <= Reading(b.content).value)
  }

  /** In particular when every meter runs forward. */
  lemma TotalConverges(s0: State, ds1: seq<Delivery>, ds2: seq<Delivery>)
    requires Observed(ds1) == Observed(ds2) && MeterRunsForward(Observed(ds1)) && NoneMetered(s0)
    ensures Run(s0, ds1).totalEnergy == Run(s0, ds2).totalEnergy
  {
    forall o | o in Observed(ds1) ensures ReadingCovered(Observed(ds1), s0.totalEnergy, o) {
      if Reading(o.content).Some? {
        var l := LatestExists(ds1, IdOf(o.content), o);
        assert Reading(l.content).Some? && Reading(o.content).value <= Reading(l.content).value;
      }
    }
    TotalConvergesExact(s0, ds1);
  }

  // ---------------------------------------------------------------------------------------------
  // Liveness of the charger
  // ---------------------------------------------------------------------------------------------

  const TWENTY_MINUTES := 20 * 60 * 1_000_000_000

  /** ds[i] is accepted and was not older than the timeout when it arrived. */
  predicate LiveAt(s0: State, ds: seq<Delivery>, i: nat)
    requires i < |ds|
  {
    AcceptedAt(s0, ds, i) && ds[i].now - ds[i].obs.timestamp < TWENTY_MINUTES
  }

  /** The arrival time of the last live observation. */
  function LastLive(s0: State, ds: seq<Delivery>): int {
    if ds == [] then s0.lastObsReceived
    else if LiveAt(s0, ds, |ds| - 1) then ds[|ds| - 1].now
    else LastLive(s0, ds[..|ds| - 1])
  }

  /** The charger was last heard of when the last live observation arrived; a replay of old ones, in
      whatever number and order, never counts. */
  lemma {:induction false} LastHeard(s0: State, ds: seq<Delivery>)
    ensures Run(s0, ds).lastObsReceived == LastLive(s0, ds)
  {
    if ds != [] {
      LastHeard(s0, ds[..|ds| - 1]);
      StepHeard(Run(s0, ds[..|ds| - 1]), ds[|ds| - 1]);
    }
  }

  lemma StepHeard(s: State, d: Delivery)
    ensures Step(s, d).lastObsReceived ==
            if d.Received? && Fresh(s, d.obs) && d.now - d.obs.timestamp < OBSERVATION_TIMEOUT
            then d.now else s.lastObsReceived
  {
  }

  /** The power shown is that of the latest power observation, while the charger is connected and was heard
      of within the timeout. */
  lemma PowerShown(s0: State, ds: seq<Delivery>, o: Observation, opMode: int, now: int)
    requires TotalPowerId !in s0.obsTime && Latest(Observed(ds), TotalPowerId, o)
    requires LatestAgree(Observed(ds), TotalPowerId)
    ensures CurrentPower(opMode, Run(s0, ds), now) ==
            if Status(opMode).None? then None
            else if opMode == 1 || now - LastLive(s0, ds) > TWENTY_MINUTES then Some(0.0)
            else Some(1000.0 * o.content.kw)
  {
    LatestWins(s0, ds, TotalPowerId, o);
    LastHeard(s0, ds);
  }

  /** A replay after an outage shows no power, whatever the replayed messages say and whatever mode the
      status has read. */
  lemma {:induction false} ReplayShowsNoPower(s0: State, ds: seq<Delivery>, opMode: int, now: int)
    requires now - s0.lastObsReceived > TWENTY_MINUTES
    requires forall d :: d in ds && d.Received? ==> d.now - d.obs.timestamp >= TWENTY_MINUTES
    ensures Run(s0, ds).lastObsReceived == s0.lastObsReceived
    ensures CurrentPower(opMode, Run(s0, ds), now) == if Status(opMode).None? then None else Some(0.0)
  {
    if ds != [] {
      ReplayShowsNoPower(s0, ds[..|ds| - 1], opMode, now);
      StepHeard(Run(s0, ds[..|ds| - 1]), ds[|ds| - 1]);
    }
  }

  // ---------------------------------------------------------------------------------------------
  // Session isolation
  // ---------------------------------------------------------------------------------------------

  /** The delivery is accepted and takes the charger from disconnected to a connected mode. */
  predicate StartsSession(s: State, d: Delivery) {
    d.Received? && Fresh(s, d.obs) && d.obs.content.ChargerOpMode? && ConnectsFrom(s, d.obs.content.mode)
  }

  /** ds[i] is accepted and takes the charger from disconnected to a connected mode. */
  predicate ResetsAt(s0: State, ds: seq<Delivery>, i: nat)
    requires i < |ds|
  {
    StartsSession(Run(s0, ds[..i]), ds[i])
  }

  /** ds[i] is an accepted session announcement. */
  predicate AnnouncesAt(s0: State, ds: seq<Delivery>, i: nat)
    requires i < |ds|
  {
    AcceptedAt(s0, ds, i) && ds[i].obs.content.ChargeSessionStart? && ds[i].obs.content.start.Some?
  }

  /** The id of the latest announcement since the last reset; 0 if there is none. */
  function LastAnnounced(s0: State, ds: seq<Delivery>): int {
    if ds == [] then s0.currentSessionID
    else
      var last := |ds| - 1;
      if ResetsAt(s0, ds, last) then 0
      else if AnnouncesAt(s0, ds, last) then ds[last].obs.content.start.value.id
      else LastAnnounced(s0, ds[..last])
  }

  /** The session energy ds[i] carries: an accepted non-zero reading, or an accepted record of the session
      announced last. */
  function OwnEnergy(s0: State, ds: seq<Delivery>, i: nat): Option<real>
    requires i < |ds|
  {
    if !AcceptedAt(s0, ds, i) then None
    else
      match ds[i].obs.content
      case SessionEnergy(kwh) => if kwh != 0.0 then Some(kwh) else None
      case ChargingSession(Some(data)) => if data.id == LastAnnounced(s0, ds[..i]) then Some(data.energy) else None
      case _ => None
  }

  function LastEnergy(s0: State, ds: seq<Delivery>): real {
    if ds == [] then s0.sessionEnergy
    else
      var last := |ds| - 1;
      if ResetsAt(s0, ds, last) then 0.0
      else if OwnEnergy(s0, ds, last).Some? then OwnEnergy(s0, ds, last).value
      else LastEnergy(s0, ds[..last])
  }

  /** The mode of the last accepted mode observation. */
  function LastMode(s0: State, ds: seq<Delivery>): int {
    if ds == [] then s0.opMode
    else
      var last := |ds| - 1;
      if AcceptedAt(s0, ds, last) && ds[last].obs.content.ChargerOpMode? then ds[last].obs.content.mode
      else LastMode(s0, ds[..last])
  }

  lemma {:induction false} ModeIsLast(s0: State, ds: seq<Delivery>)
    ensures Run(s0, ds).opMode == LastMode(s0, ds)
  {
    if ds != [] {
      ModeIsLast(s0, ds[..|ds| - 1]);
      StepMode(Run(s0, ds[..|ds| - 1]), ds[|ds| - 1]);
    }
  }

  lemma StepMode(s: State, d: Delivery)
    ensures Step(s, d).opMode ==
            if d.Received? && Fresh(s, d.obs) && d.obs.content.ChargerOpMode? then d.obs.content.mode else s.opMode
  {
  }

  /** A session starts with an accepted connecting mode after a mode that was not. */
  lemma ResetsExact(s0: State, ds: seq<Delivery>, i: nat)
    requires i < |ds|
    ensures ResetsAt(s0, ds, i)
       <==> AcceptedAt(s0, ds, i) && ds[i].obs.content.ChargerOpMode?
            && ds[i].obs.content.mode >= 2 && LastMode(s0, ds[..i]) <= 1
  {
    ModeIsLast(s0, ds[..i]);
  }

  predicate NoResetAfter(s0: State, ds: seq<Delivery>, j: int)
    requires -1 <= j
  {
    forall k :: j < k < |ds| ==> !ResetsAt(s0, ds, k)
  }

  /** ds[j] is a reading stamped later than t, or a reset at a later local time. */
  predicate OutdatesAt(s0: State, ds: seq<Delivery>, j: nat, t: int)
    requires j < |ds|
  {
    && ds[j].Received?
    && ((ds[j].obs.content.SessionEnergy? && ds[j].obs.timestamp > t) || (ResetsAt(s0, ds, j) && ds[j].now > t))
  }

  ghost predicate Outdated(s0: State, ds: seq<Delivery>, t: int) {
    || (SessionEnergyId in s0.obsTime && s0.obsTime[SessionEnergyId] > t && NoResetAfter(s0, ds, -1))
    || exists j :: 0 <= j < |ds| && OutdatesAt(s0, ds, j, t) && NoResetAfter(s0, ds, j)
  }

  /** A session energy reading is accepted exactly when it is not stamped before the last reset, and no
      reading received since that reset, accepted or not, is later. */
  lemma SessionEnergyAcceptedExact(s0: State, ds: seq<Delivery>, i: nat)
    requires i < |ds| && ds[i].Received? && ds[i].obs.content.SessionEnergy?
    ensures AcceptedAt(s0, ds, i) <==> !Outdated(s0, ds[..i], ds[i].obs.timestamp)
  {
    SessionTimeIsLatest(s0, ds[..i], ds[i].obs.timestamp);
  }

  predicate NotedLater(s: State, t: int) { SessionEnergyId in s.obsTime && s.obsTime[SessionEnergyId] > t }

  lemma {:induction false} SessionTimeIsLatest(s0: State, ds: seq<Delivery>, t: int)
    ensures NotedLater(Run(s0, ds), t) <==> Outdated(s0, ds, t)
  {
    if ds != [] {
      SessionTimeIsLatest(s0, ds[..|ds| - 1], t);
      StepNoted(Run(s0, ds[..|ds| - 1]), ds[|ds| - 1], t);
      OutdatedSnoc(s0, ds, t);
    }
  }

  lemma StepNoted(s: State, d: Delivery, t: int)
    ensures NotedLater(Step(s, d), t) ==
            if StartsSession(s, d) then d.now > t
            else NotedLater(s, t) || (d.Received? && d.obs.content.SessionEnergy? && d.obs.timestamp > t)
  {
  }

  lemma OutdatedSnoc(s0: State, ds: seq<Delivery>, t: int)
    requires ds != []
    ensures var last := |ds| - 1;
            Outdated(s0, ds, t) ==
            if ResetsAt(s0, ds, last) then ds[last].now > t
            else Outdated(s0, ds[..last], t) || OutdatesAt(s0, ds, last, t)
  {
    var init, last := ds[..|ds| - 1], |ds| - 1;
    forall k | 0 <= k < last
      ensures ResetsAt(s0, ds, k) == ResetsAt(s0, init, k) && OutdatesAt(s0, ds, k, t) == OutdatesAt(s0, init, k, t)
    {
      assert ds[..k] == init[..k];
    }
    if ResetsAt(s0, ds, last) {
      assert OutdatesAt(s0, ds, last, t) == (ds[last].now > t);
      assert NoResetAfter(s0, ds, last);
      assert forall j :: -1 <= j < last ==> !NoResetAfter(s0, ds, j);
    } else {
      assert forall j :: -1 <= j < last ==> NoResetAfter(s0, ds, j) == NoResetAfter(s0, init, j);
      assert NoResetAfter(s0, ds, last);
    }
  }

  lemma StepSession(s: State, d: Delivery)
    ensures var accepted := d.Received? && Fresh(s, d.obs);
            Step(s, d).currentSessionID ==
            if StartsSession(s, d) then 0
            else if accepted && d.obs.content.ChargeSessionStart? && d.obs.content.start.Some?
            then d.obs.content.start.value.id
            else s.currentSessionID
    ensures var accepted := d.Received? && Fresh(s, d.obs);
            Step(s, d).sessionEnergy ==
            if StartsSession(s, d) then 0.0
            else if accepted && d.obs.content.SessionEnergy? && d.obs.content.kwh != 0.0 then d.obs.content.kwh
            else if accepted && d.obs.content.ChargingSession? && d.obs.content.session.Some?
                    && d.obs.content.session.value.id == s.currentSessionID
            then d.obs.content.session.value.energy
            else s.sessionEnergy
  {
  }

  /** After any deliveries, session and energy are read off them: the session announced last since the
      last reset, and the energy of the last reset, reading or own record. */
  lemma {:induction false} SessionFollowsDeliveries(s0: State, ds: seq<Delivery>)
    ensures Run(s0, ds).currentSessionID == LastAnnounced(s0, ds)
    ensures Run(s0, ds).sessionEnergy == LastEnergy(s0, ds)
  {
    if ds != [] {
      SessionFollowsDeliveries(s0, ds[..|ds| - 1]);
      StepSession(Run(s0, ds[..|ds| - 1]), ds[|ds| - 1]);
    }
  }

  /** The time of the session energy never falls behind the start of the session. */
  lemma {:induction false} SessionTime(s: State, ds: seq<Delivery>, t: int)
    requires SessionEnergyId in s.obsTime && s.obsTime[SessionEnergyId] >= t
    requires forall d :: d in ds && d.Received? ==> d.now >= t
    ensures SessionEnergyId in Run(s, ds).obsTime && Run(s, ds).obsTime[SessionEnergyId] >= t
  {
    if ds != [] {
      var init := ds[..|ds| - 1];
      assert forall d :: d in init ==> d in ds;
      SessionTime(s, init, t);
      StepSessionTime(Run(s, init), ds[|ds| - 1]);
    }
  }

  lemma StepSessionTime(s: State, d: Delivery)
    requires SessionEnergyId in s.obsTime
    ensures SessionEnergyId in Step(s, d).obsTime
    ensures Step(s, d).obsTime[SessionEnergyId] >= s.obsTime[SessionEnergyId]
         || (d.Received? && Step(s, d).obsTime[SessionEnergyId] == d.now)
  {
  }

  lemma {:induction false} EnergyHasSource(s: State, ds: seq<Delivery>, x: real)
    requires Run(s, ds).sessionEnergy == x && x != s.sessionEnergy && x != 0.0
    ensures exists i :: 0 <= i < |ds| && OwnEnergy(s, ds, i) == Some(x)
  {
    SessionFollowsDeliveries(s, ds);
    var init := ds[..|ds| - 1];
    SessionFollowsDeliveries(s, init);
    if OwnEnergy(s, ds, |ds| - 1).None? {
      EnergyHasSource(s, init, x);
      var i :| 0 <= i < |init| && OwnEnergy(s, init, i) == Some(x);
      assert init[..i] == ds[..i];
      assert OwnEnergy(s, ds, i) == Some(x);
    }
  }

  /** After a session starts, its energy is zero, and the other values ever shown are exactly those of
      accepted readings and of accepted records whose id was announced last since a session started; no
      reading is stamped before the start. */
  lemma SessionIsolation(s: State, d: Delivery, ds: seq<Delivery>, x: real)
    requires StartsSession(s, d) && x != 0.0
    ensures var s1 := Step(s, d);
            && s1.sessionEnergy == 0.0 && LastAnnounced(s1, []) == 0
            && ((exists k :: 0 <= k <= |ds| && ShowsAt(s1, ds, k, x)) ==
                (exists i :: 0 <= i < |ds| && OwnEnergy(s1, ds, i) == Some(x)))
    ensures forall i :: 0 <= i < |ds| && OwnEnergy(Step(s, d), ds, i).Some? && ds[i].obs.content.SessionEnergy?
                        && (forall y :: y in ds && y.Received? ==> y.now >= d.now)
                        ==> ds[i].obs.timestamp >= d.now
  {
    var s1 := Step(s, d);
    if k :| 0 <= k <= |ds| && ShowsAt(s1, ds, k, x) {
      EnergyHasSource(s1, ds[..k], x);
      var i :| 0 <= i < k && OwnEnergy(s1, ds[..k], i) == Some(x);
      assert ds[..k][..i] == ds[..i];
      assert OwnEnergy(s1, ds, i) == Some(x);
    }
    if i :| 0 <= i < |ds| && OwnEnergy(s1, ds, i) == Some(x) {
      SourceShows(s1, ds, i);
    }
    forall i | 0 <= i < |ds| && OwnEnergy(s1, ds, i).Some? && ds[i].obs.content.SessionEnergy?
               && (forall y :: y in ds && y.Received? ==> y.now >= d.now)
      ensures ds[i].obs.timestamp >= d.now
    {
      assert forall y :: y in ds[..i] ==> y in ds;
      SessionTime(s1, ds[..i], d.now);
    }
  }

  predicate ShowsAt(s: State, ds: seq<Delivery>, k: nat, x: real)
    requires k <= |ds|
  {
    Run(s, ds[..k]).sessionEnergy == x
  }

  lemma SourceShows(s: State, ds: seq<Delivery>, i: nat)
    requires i < |ds| && OwnEnergy(s, ds, i).Some?
    ensures ShowsAt(s, ds, i + 1, OwnEnergy(s, ds, i).value)
  {
    var part := ds[..i + 1];
    assert part[..i] == ds[..i] && part[i] == ds[i];
    SessionFollowsDeliveries(s, part);
  }

  /** An accepted record is taken over exactly when its id is the one announced last since the reset (0 if
      none was), or it changes nothing. */
  lemma RecordTakenExact(s0: State, ds: seq<Delivery>, record: Observation, now: int)
    requires record.content.ChargingSession? && record.content.session.Some? && Fresh(Run(s0, ds), record)
    ensures var data := record.content.session.value;
            (Step(Run(s0, ds), Received(record, now)).sessionEnergy == data.energy) ==
            (data.id == LastAnnounced(s0, ds) || data.energy == LastEnergy(s0, ds))
  {
    SessionFollowsDeliveries(s0, ds);
    StepSession(Run(s0, ds), Received(record, now));
  }

  /** The two ways around it are real. A record without an id is taken for the new session, */
  lemma RecordWithoutIdLeaks(s: State, d: Delivery, record: Observation, now: int)
    requires StartsSession(s, d) && Fresh(s, record)
    requires record.content.ChargingSession? && record.content.session.Some?
    ensures (record.content.session.value.id == 0) ==>
            Run(Step(s, d), [Received(record, now)]).sessionEnergy == record.content.session.value.energy
    ensures (record.content.session.value.id != 0) ==>
            Run(Step(s, d), [Received(record, now)]).sessionEnergy == 0.0
  {
    var ds := [Received(record, now)];
    assert ds[..0] == [];
    assert Run(Step(s, d), ds) == Step(Run(Step(s, d), ds[..0]), ds[0]);
  }

  /** and so is the record of a previous session whose own announcement arrives late. */
  lemma LateAnnouncementLeaks(s: State, d: Delivery, start: Observation, record: Observation, now: int)
    requires StartsSession(s, d) && Fresh(s, start) && Fresh(s, record)
    requires start.content.ChargeSessionStart? && start.content.start.Some?
    requires record.content.ChargingSession? && record.content.session.Some?
    requires start.content.start.value.id == record.content.session.value.id
    ensures Run(Step(s, d), [Received(start, now), Received(record, now)]).sessionEnergy
         == record.content.session.value.energy
  {
    var ds := [Received(start, now), Received(record, now)];
    assert ds[..1] == [Received(start, now)] && ds[..1][..0] == [];
    assert Run(Step(s, d), ds) == Step(Run(Step(s, d), ds[..1]), ds[1]);
    assert Run(Step(s, d), ds[..1]) == Step(Run(Step(s, d), ds[..1][..0]), ds[0]);
  }
}
