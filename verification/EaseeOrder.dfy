/** When the session id the Easee store ends with depends on the order of deliveries (charger/easee.go):
    a session start and the connecting mode that resets it are different observations, so their order
    matters although no two observations of one id disagree. */
module EaseeOrder {
  import opened Wrappers
  import opened EaseeStore
  import opened EaseeRuns

  /** An announcement whose payload decodes. */
  predicate Named(o: Observation) { o.content.ChargeSessionStart? && o.content.start.Some? }

  function Name(o: Observation): int
    requires Named(o)
  {
    o.content.start.value.id
  }

  predicate LatestNamed(os: set<Observation>, a: Observation) { Named(a) && Latest(os, ChargeSessionStartId, a) }

  /** An announcement that some order leaves as the last accepted one that names a session: a latest one,
      or any if the latest do not decode. */
  ghost predicate Candidate(os: set<Observation>, a: Observation) {
    a in os && Named(a) && (LatestNamed(os, a) || forall l :: !LatestNamed(os, l))
  }

  predicate Connecting(o: Observation) { o.content.ChargerOpMode? && o.content.mode >= 2 }

  /** Either no candidate names a session, or the latest announcements name the same one and nothing ever
      resets it. */
  ghost predicate OrderFree(os: set<Observation>) {
    || (forall a :: Candidate(os, a) ==> Name(a) == 0)
    || ((exists l :: LatestNamed(os, l))
        && (forall a, b :: LatestNamed(os, a) && LatestNamed(os, b) ==> Name(a) == Name(b))
        && (forall o :: o in os ==> !Connecting(o)))
  }

  function SessionAfter(ds: seq<Delivery>): int { Run(Initial(), ds).currentSessionID }

  /** From the empty store, every order and duplication of the same observations ends with the same session
      id exactly when the observations are order free. */
  lemma SessionIdConvergenceExact(ds: seq<Delivery>)
    ensures OrderFree(Observed(ds))
       <==> forall other :: Observed(other) == Observed(ds) ==> SessionAfter(other) == SessionAfter(ds)
  {
    if OrderFree(Observed(ds)) {
      var x := OnlySession(Observed(ds));
      forall other | Observed(other) == Observed(ds) ensures SessionAfter(other) == SessionAfter(ds) {
        EndsWithOnly(ds, x);
        EndsWithOnly(other, x);
      }
    } else {
      var a, b := TwoOrders(ds);
      assert SessionAfter(a) != SessionAfter(ds) || SessionAfter(b) != SessionAfter(ds);
    }
  }

  // ---------------------------------------------------------------------------------------------
  // Sufficiency
  // ---------------------------------------------------------------------------------------------

  /** The session an order free set of observations ends with. */
  ghost function OnlySession(os: set<Observation>): int {
    if exists l :: LatestNamed(os, l) then
      var l :| LatestNamed(os, l);
      Name(l)
    else 0
  }

  lemma EndsWithOnly(ds: seq<Delivery>, x: int)
    requires OrderFree(Observed(ds)) && x == OnlySession(Observed(ds))
    ensures SessionAfter(ds) == x
  {
    var os := Observed(ds);
    if l :| LatestNamed(os, l) {
      assert forall a :: LatestNamed(os, a) ==> Candidate(os, a);
      LatestStays(os, ds, x);
    } else {
      NothingNamed(ds);
    }
  }

  lemma {:induction false} NothingNamed(ds: seq<Delivery>)
    requires forall a :: a in Observed(ds) && Named(a) ==> Name(a) == 0
    ensures SessionAfter(ds) == 0
  {
    if ds != [] {
      ObservedSnoc(ds);
      NothingNamed(ds[..|ds| - 1]);
      StepSession(Run(Initial(), ds[..|ds| - 1]), ds[|ds| - 1]);
    }
  }

  ghost predicate AllName(os: set<Observation>, x: int) { forall a :: LatestNamed(os, a) ==> Name(a) == x }

  ghost predicate Seen(os: set<Observation>, ds: seq<Delivery>) {
    exists a :: a in Observed(ds) && LatestNamed(os, a)
  }

  /** Once a latest announcement has arrived, the session is x or reset. */
  lemma {:induction false} LatestStays(os: set<Observation>, ds: seq<Delivery>, x: int)
    requires Observed(ds) <= os && AllName(os, x) && Seen(os, ds)
    ensures SessionAfter(ds) == x || (SessionAfter(ds) == 0 && exists o :: o in os && Connecting(o))
  {
    var init, last := ds[..|ds| - 1], |ds| - 1;
    var s, d := Run(Initial(), init), ds[last];
    ObservedSnoc(ds);
    StepSession(s, d);
    if d.Received? && Named(d.obs) && Fresh(s, d.obs) && Seen(os, init) {
      StillLatest(os, ds, last);
    }
    if Seen(os, init) {
      LatestStays(os, init, x);
    } else {
      assert LatestNamed(os, d.obs);
      LatestIsFresh(os, ds, last);
    }
  }

  /** An announcement accepted after a latest one is a latest one. */
  lemma StillLatest(os: set<Observation>, ds: seq<Delivery>, i: nat)
    requires i < |ds| && ds[i].Received? && Named(ds[i].obs) && Observed(ds) <= os
    requires AcceptedAt(Initial(), ds, i) && Seen(os, ds[..i])
    ensures LatestNamed(os, ds[i].obs)
  {
    var a :| a in Observed(ds[..i]) && LatestNamed(os, a);
    var j := IndexOf(ds[..i], a);
    AcceptedExact(Initial(), ds, i);
    assert ds[j].obs == a;
    assert ds[i].obs in Observed(ds);
  }

  lemma LatestIsFresh(os: set<Observation>, ds: seq<Delivery>, i: nat)
    requires i < |ds| && ds[i].Received? && Observed(ds) <= os && Latest(os, ChargeSessionStartId, ds[i].obs)
    ensures AcceptedAt(Initial(), ds, i)
  {
    AcceptedExact(Initial(), ds, i);
    forall j | 0 <= j < i && ds[j].Received? && Carries(ds[j].obs, ChargeSessionStartId)
      ensures ds[j].obs.timestamp <= ds[i].obs.timestamp
    {
      assert ds[j].obs in Observed(ds);
    }
  }

  // ---------------------------------------------------------------------------------------------
  // Necessity
  // ---------------------------------------------------------------------------------------------

  predicate Announcement(d: Delivery) { d.Received? && d.obs.content.ChargeSessionStart? }

  function Announcements(ds: seq<Delivery>): (r: seq<Delivery>)
    ensures forall d :: d in r <==> d in ds && Announcement(d)
  {
    if ds == [] then []
    else
      assert ds == ds[..|ds| - 1] + [ds[|ds| - 1]];
      Announcements(ds[..|ds| - 1]) + (if Announcement(ds[|ds| - 1]) then [ds[|ds| - 1]] else [])
  }

  function Others(ds: seq<Delivery>): (r: seq<Delivery>)
    ensures forall d :: d in r <==> d in ds && !Announcement(d)
  {
    if ds == [] then []
    else
      assert ds == ds[..|ds| - 1] + [ds[|ds| - 1]];
      Others(ds[..|ds| - 1]) + (if !Announcement(ds[|ds| - 1]) then [ds[|ds| - 1]] else [])
  }

  lemma {:induction false} OnlyAnnouncements(s: State, ds: seq<Delivery>)
    requires forall d :: d in ds ==> Announcement(d)
    ensures Run(s, ds).opMode == s.opMode
    ensures ChargerOpModeId in Run(s, ds).obsTime <==> ChargerOpModeId in s.obsTime
  {
    if ds != [] {
      var init, d := ds[..|ds| - 1], ds[|ds| - 1];
      assert d in ds && forall x :: x in init ==> x in ds;
      OnlyAnnouncements(s, init);
    }
  }

  lemma StepOther(s: State, d: Delivery)
    requires !Announcement(d)
    ensures Step(s, d).currentSessionID == s.currentSessionID || Step(s, d).currentSessionID == 0
    ensures ChargeSessionStartId in Step(s, d).obsTime <==> ChargeSessionStartId in s.obsTime
  {
    StepSession(s, d);
    if d.Received? && Fresh(s, d.obs) {
      StoreTime(Note(s, d.obs, d.now), d.obs.content, d.now, ChargeSessionStartId);
    }
  }

  /** Without announcements the session is kept or reset. */
  lemma {:induction false} NoAnnouncements(s: State, ds: seq<Delivery>)
    requires forall d :: d in ds ==> !Announcement(d)
    ensures Run(s, ds).currentSessionID == s.currentSessionID || Run(s, ds).currentSessionID == 0
    ensures ChargeSessionStartId in Run(s, ds).obsTime <==> ChargeSessionStartId in s.obsTime
  {
    if ds != [] {
      var init, d := ds[..|ds| - 1], ds[|ds| - 1];
      assert d in ds && forall x :: x in init ==> x in ds;
      NoAnnouncements(s, init);
      StepOther(Run(s, init), d);
    }
  }

  lemma TwoRun(s: State, a: Delivery, b: Delivery)
    ensures Run(s, [a, b]) == Step(Step(s, a), b)
  {
    assert [a, b][..1] == [a] && [a][..0] == [];
    assert Run(s, [a]) == Step(Run(s, [a][..0]), a);
  }

  lemma TwoOrders(ds: seq<Delivery>) returns (a: seq<Delivery>, b: seq<Delivery>)
    requires !OrderFree(Observed(ds))
    ensures Observed(a) == Observed(b) == Observed(ds) && SessionAfter(a) != SessionAfter(b)
  {
    var os := Observed(ds);
    var c :| Candidate(os, c) && Name(c) != 0;
    if l :| LatestNamed(os, l) {
      if x, y :| LatestNamed(os, x) && LatestNamed(os, y) && Name(x) != Name(y) {
        a := LatestLast(ds, x);
        b := LatestLast(ds, y);
      } else {
        var o :| o in os && Connecting(o);
        a := LatestLast(ds, c);
        b := ResetLast(ds, o);
      }
    } else {
      var l := LatestExists(ds, ChargeSessionStartId, c);
      a := UndecodedFirst(ds, l);
      b := CandidateBefore(ds, c, l);
    }
  }

  lemma LatestLast(ds: seq<Delivery>, x: Observation) returns (order: seq<Delivery>)
    requires LatestNamed(Observed(ds), x)
    ensures Observed(order) == Observed(ds) && SessionAfter(order) == Name(x)
  {
    order := ds + [Received(x, 0)];
    ObservedSnoc(order);
    assert order[..|ds|] == ds;
    LatestIsFresh(Observed(ds), order, |ds|);
    StepSession(Run(Initial(), ds), Received(x, 0));
  }

  /** All announcements, then a connecting mode, then the rest. */
  lemma ResetLast(ds: seq<Delivery>, o: Observation) returns (order: seq<Delivery>)
    requires o in Observed(ds) && Connecting(o)
    ensures Observed(order) == Observed(ds) && SessionAfter(order) == 0
  {
    var named, reset, rest := Announcements(ds), [Received(o, 0)], Others(ds);
    order := named + reset + rest;
    SplitObserved(ds);
    OrderObserved(ds, named, reset, rest);
    OnlyAnnouncements(Initial(), named);
    var s := Run(Initial(), named);
    assert StartsSession(s, reset[0]);
    assert reset[..0] == [] && Run(s, reset) == Step(Run(s, reset[..0]), reset[0]);
    StepSession(s, reset[0]);
    NoAnnouncements(Run(s, reset), rest);
    RunThree(Initial(), named, reset, rest);
  }

  lemma SplitObserved(ds: seq<Delivery>)
    ensures Observed(Announcements(ds)) + Observed(Others(ds)) == Observed(ds)
    ensures Observed(Others(ds)) + Observed(Announcements(ds)) == Observed(ds)
  {
    forall d | d in ds ensures d in Announcements(ds) || d in Others(ds) {
    }
  }

  /** After an undecodable latest announcement nothing names a session any more. */
  lemma {:induction false} Blocked(os: set<Observation>, s: State, ds: seq<Delivery>, l: Observation)
    requires Observed(ds) <= os && Latest(os, ChargeSessionStartId, l) && forall a :: !LatestNamed(os, a)
    requires ChargeSessionStartId in s.obsTime && s.obsTime[ChargeSessionStartId] >= l.timestamp
    ensures var r := Run(s, ds);
            && ChargeSessionStartId in r.obsTime && r.obsTime[ChargeSessionStartId] >= l.timestamp
            && (r.currentSessionID == s.currentSessionID || r.currentSessionID == 0)
            && ((forall d :: d in ds ==> Announcement(d)) ==> r.currentSessionID == s.currentSessionID)
  {
    if ds != [] {
      var init, d := ds[..|ds| - 1], ds[|ds| - 1];
      ObservedSnoc(ds);
      Blocked(os, s, init, l);
      assert d in ds && forall x :: x in init ==> x in ds;
      StepSession(Run(s, init), d);
      StepLater(Run(s, init), d, ChargeSessionStartId, l.timestamp - 1);
      if d.Received? {
        NamesNothing(os, Run(s, init), d.obs, l);
      }
    }
  }

  lemma NamesNothing(os: set<Observation>, s: State, o: Observation, l: Observation)
    requires o in os && Latest(os, ChargeSessionStartId, l) && !LatestNamed(os, o)
    requires ChargeSessionStartId in s.obsTime && s.obsTime[ChargeSessionStartId] >= l.timestamp
    ensures !(Named(o) && Fresh(s, o))
  {
    assert o.timestamp >= l.timestamp && Carries(o, ChargeSessionStartId) ==> Latest(os, ChargeSessionStartId, o);
  }

  lemma UndecodedFirst(ds: seq<Delivery>, l: Observation) returns (order: seq<Delivery>)
    requires Latest(Observed(ds), ChargeSessionStartId, l) && forall a :: !LatestNamed(Observed(ds), a)
    ensures Observed(order) == Observed(ds) && SessionAfter(order) == 0
  {
    var first := [Received(l, 0)];
    order := first + ds;
    assert !LatestNamed(Observed(ds), l);
    StepSession(Initial(), first[0]);
    assert first[..0] == [] && Run(Initial(), first) == Step(Run(Initial(), first[..0]), first[0]);
    RunConcat(Initial(), first, ds);
    Blocked(Observed(ds), Run(Initial(), first), ds, l);
  }

  lemma CandidateBefore(ds: seq<Delivery>, c: Observation, l: Observation) returns (order: seq<Delivery>)
    requires Latest(Observed(ds), ChargeSessionStartId, l) && forall a :: !LatestNamed(Observed(ds), a)
    requires c in Observed(ds) && Named(c)
    ensures Observed(order) == Observed(ds) && SessionAfter(order) == Name(c)
  {
    var rest, both, named := Others(ds), [Received(c, 0), Received(l, 0)], Announcements(ds);
    order := rest + both + named;
    SplitObserved(ds);
    OrderObserved(ds, rest, both, named);
    NoAnnouncements(Initial(), rest);
    assert !LatestNamed(Observed(ds), l);
    NameStays(Observed(ds), Run(Initial(), rest), c, l, named);
    RunThree(Initial(), rest, both, named);
  }

  lemma RunThree(s: State, a: seq<Delivery>, b: seq<Delivery>, c: seq<Delivery>)
    ensures Run(s, a + b + c) == Run(Run(Run(s, a), b), c)
  {
    RunConcat(s, a, b);
    RunConcat(s, a + b, c);
  }

  lemma OrderObserved(ds: seq<Delivery>, a: seq<Delivery>, b: seq<Delivery>, c: seq<Delivery>)
    requires Observed(a) + Observed(c) == Observed(ds) && Observed(b) <= Observed(ds)
    ensures Observed(a + b + c) == Observed(ds)
  {
    ObservedConcat(a, b);
    ObservedConcat(a + b, c);
  }

  lemma NameStays(os: set<Observation>, s: State, c: Observation, l: Observation, named: seq<Delivery>)
    requires ChargeSessionStartId !in s.obsTime && Named(c) && l.content == ChargeSessionStart(None)
    requires Latest(os, ChargeSessionStartId, l) && (forall a :: !LatestNamed(os, a)) && c.timestamp <= l.timestamp
    requires Observed(named) <= os && forall d :: d in named ==> Announcement(d)
    ensures Run(Run(s, [Received(c, 0), Received(l, 0)]), named).currentSessionID == Name(c)
  {
    NameThenBlock(s, c, l);
    TwoRun(s, Received(c, 0), Received(l, 0));
    Blocked(os, Run(s, [Received(c, 0), Received(l, 0)]), named, l);
  }

  lemma ObservedConcat(a: seq<Delivery>, b: seq<Delivery>)
    ensures Observed(a + b) == Observed(a) + Observed(b)
  {
  }

  lemma NameThenBlock(s: State, c: Observation, l: Observation)
    requires ChargeSessionStartId !in s.obsTime && Named(c) && l.content == ChargeSessionStart(None)
    requires c.timestamp <= l.timestamp
    ensures var t := Step(Step(s, Received(c, 0)), Received(l, 0));
            && t.currentSessionID == Name(c)
            && ChargeSessionStartId in t.obsTime && t.obsTime[ChargeSessionStartId] == l.timestamp
  {
  }

  /** Session 7 announced at 80 and charging at 95: in this order the session is reset, in the other it is
      kept, although the two observations have nothing in common. */
  lemma SessionIdDependsOnOrder(meter: real, now: int)
    ensures var start := Received(Observation(80, ChargeSessionStart(Some(SessionStartData(7, meter)))), now);
            var mode := Received(Observation(95, ChargerOpMode(3)), now);
            SessionAfter([start, mode]) == 0 && SessionAfter([mode, start]) == 7
  {
    var start := Received(Observation(80, ChargeSessionStart(Some(SessionStartData(7, meter)))), now);
    var mode := Received(Observation(95, ChargerOpMode(3)), now);
    TwoRun(Initial(), start, mode);
    TwoRun(Initial(), mode, start);
  }
}
