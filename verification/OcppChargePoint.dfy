/** The OCPP charger together with the charge point it talks to: which limit is in force
    (charger/ocpp.go; OCPP 1.6 sections 3.13.1 and 5.16). A transaction profile overrules the default
    profile, is only accepted for the running transaction, and is dropped with it. A new profile replaces
    the one with its id, and the driver sends them all with one id. What the charger reads about the
    transaction is arbitrary: it may be lost or not yet recovered. */
module OcppChargePoint {
  import opened Wrappers
  import opened OcppProfile
  import opened OcppController

  /** The running transaction (0 if none), the ids used so far, and the installed profiles with the currents
      they stand for. A charge point that does not look at profile ids has byId false. */
  datatype ChargePoint = ChargePoint(byId: bool, txn: int, used: set<int>, installed: seq<Confirmation>)

  datatype System = System(charger: State, cp: ChargePoint)

  datatype Event = Started(id: int) | Ended | Called(call: Call)

  /** Whether p takes the place of an installed profile: by its id, or as the same purpose and stack level. */
  predicate Replaces(byId: bool, p: Profile, other: Profile) {
    (byId && p.id == other.id) || (p.purpose == other.purpose && p.stackLevel == other.stackLevel)
  }

  function Kept(byId: bool, installed: seq<Confirmation>, p: Profile): seq<Confirmation> {
    if installed == [] then []
    else
      var before, last := Kept(byId, installed[..|installed| - 1], p), installed[|installed| - 1];
      if Replaces(byId, p, last.profile) then before else before + [last]
  }

  function Receive(cp: ChargePoint, r: Confirmation): ChargePoint {
    cp.(installed := Kept(cp.byId, cp.installed, r.profile) + [r])
  }

  function Defaults(installed: seq<Confirmation>): seq<Confirmation> {
    if installed == [] then []
    else
      var before, last := Defaults(installed[..|installed| - 1]), installed[|installed| - 1];
      if last.profile.purpose.TxProfile? then before else before + [last]
  }

  /** The current of the installed profile with the given purpose. Profiles of this driver have one stack
      level, so there is at most one. */
  function Find(installed: seq<Confirmation>, purpose: Purpose): Option<real> {
    if installed == [] then None
    else if installed[|installed| - 1].profile.purpose == purpose then Some(installed[|installed| - 1].argument)
    else Find(installed[..|installed| - 1], purpose)
  }

  function DefaultLimit(cp: ChargePoint): Option<real> { Find(cp.installed, TxDefaultProfile) }

  function TxLimit(cp: ChargePoint): Option<real> { Find(cp.installed, TxProfile) }

  function InForce(cp: ChargePoint): Option<real> {
    if TxLimit(cp).Some? then TxLimit(cp) else DefaultLimit(cp)
  }

  /** A transaction starts with an unused id, and a transaction profile is only accepted for the running one. */
  predicate Possible(cfg: Config, x: System, e: Event) {
    match e
    case Started(id) => x.cp.txn == 0 && id != 0 && id !in x.cp.used
    case Ended => x.cp.txn != 0
    case Called(c) =>
      var o := Step(cfg, x.charger, c);
      o.sent.Some? && o.error.Success? && o.sent.value.purpose.TxProfile? ==> o.sent.value.transactionId == x.cp.txn
  }

  function Next(cfg: Config, x: System, e: Event): System {
    match e
    case Started(id) => x.(cp := x.cp.(txn := id, used := x.cp.used + {id}))
    case Ended => x.(cp := x.cp.(txn := 0, installed := Defaults(x.cp.installed)))
    case Called(c) =>
      var o := Step(cfg, x.charger, c);
      System(o.state, if o.sent.Some? && o.error.Success? then Receive(x.cp, Confirmation(o.sent.value, o.argument))
                      else x.cp)
  }

  function RunSystem(cfg: Config, x: System, es: seq<Event>): System {
    if es == [] then x else Next(cfg, RunSystem(cfg, x, es[..|es| - 1]), es[|es| - 1])
  }

  predicate PossibleRun(cfg: Config, x: System, es: seq<Event>) {
    if es == [] then true
    else PossibleRun(cfg, x, es[..|es| - 1]) && Possible(cfg, RunSystem(cfg, x, es[..|es| - 1]), es[|es| - 1])
  }

  /** The id and stack level of every profile this driver sends. */
  predicate Ours(cfg: Config, p: Profile) {
    p.id == cfg.profileId && p.stackLevel == if cfg.stackLevelZero then 0 else cfg.stackLevel
  }

  predicate AllOurs(cfg: Config, installed: seq<Confirmation>) {
    forall i :: 0 <= i < |installed| ==> Ours(cfg, installed[i].profile)
  }

  /** A new charger meets a charge point in any state, possibly with profiles of an earlier process. */
  predicate Start(cfg: Config, x: System) {
    && x.charger == Fresh() && AllOurs(cfg, x.cp.installed)
    && (x.cp.txn == 0 ==> TxLimit(x.cp).None?)
    && (x.cp.txn != 0 ==> x.cp.txn in x.cp.used)
  }

  /** The calls among the events. */
  function Calls(es: seq<Event>): seq<Call> {
    if es == [] then []
    else
      var before := Calls(es[..|es| - 1]);
      if es[|es| - 1].Called? then before + [es[|es| - 1].call] else before
  }

  /** The accepted requests of a run, in order. */
  function Log(cfg: Config, es: seq<Event>): seq<Confirmation> { Confirmed(cfg, Fresh(), Calls(es)) }

  function LastDefault(log: seq<Confirmation>, initial: Option<real>): Option<real> {
    if log == [] then initial
    else if log[|log| - 1].profile.purpose.TxDefaultProfile? then Some(log[|log| - 1].argument)
    else LastDefault(log[..|log| - 1], initial)
  }

  function LastFor(log: seq<Confirmation>, id: int, initial: Option<real>): Option<real> {
    if log == [] then initial
    else if log[|log| - 1].profile.transactionId == id then Some(log[|log| - 1].argument)
    else LastFor(log[..|log| - 1], id, initial)
  }

  /** The default limit after a log of accepted requests: that of the last one without a transaction, if it
      was not replaced. */
  function HeldDefault(x: System, log: seq<Confirmation>): Option<real> {
    if x.cp.byId && log != [] then (if LastNamed(log) == 0 then Some(log[|log| - 1].argument) else None)
    else LastDefault(log, DefaultLimit(x.cp))
  }

  /** The limit of the running transaction: that of the last request naming it, if it was not replaced. A
      transaction already running at the start may have had a limit before. */
  function HeldTx(x: System, log: seq<Confirmation>, txn: int): Option<real> {
    if txn == 0 then None
    else if x.cp.byId && log != [] then (if LastNamed(log) == txn then Some(log[|log| - 1].argument) else None)
    else LastFor(log, txn, if txn == x.cp.txn then TxLimit(x.cp) else None)
  }

  predicate NamesUsed(log: seq<Confirmation>, used: set<int>) {
    forall i :: 0 <= i < |log| && log[i].profile.transactionId != 0 ==> log[i].profile.transactionId in used
  }

  /** The charge point y.cp after a run from x with the given log. */
  predicate Recorded(cfg: Config, x: System, y: System, log: seq<Confirmation>) {
    && y.cp.byId == x.cp.byId && AllOurs(cfg, y.cp.installed)
    && DefaultLimit(y.cp) == HeldDefault(x, log)
    && TxLimit(y.cp) == HeldTx(x, log, y.cp.txn)
    && NamesUsed(log, y.cp.used) && x.cp.used <= y.cp.used
    && (y.cp.txn != 0 ==> y.cp.txn in y.cp.used)
    && (LastNamed(log) != 0 && LastNamed(log) != y.cp.txn ==> TxLimit(y.cp).None?)
  }

  lemma FindSnoc(installed: seq<Confirmation>, r: Confirmation, purpose: Purpose)
    ensures Find(installed + [r], purpose)
         == if r.profile.purpose == purpose then Some(r.argument) else Find(installed, purpose)
  {
    assert (installed + [r])[..|installed|] == installed;
  }

  /** A received profile takes the place of exactly those with its id, if ids count, and those with its purpose
      and stack level. */
  lemma {:induction false} KeptExact(byId: bool, installed: seq<Confirmation>, p: Profile, q: Confirmation)
    ensures q in Kept(byId, installed, p)
       <==> q in installed && !(byId && q.profile.id == p.id)
            && !(q.profile.purpose == p.purpose && q.profile.stackLevel == p.stackLevel)
  {
    if installed != [] {
      var init := installed[..|installed| - 1];
      assert installed == init + [installed[|installed| - 1]];
      KeptExact(byId, init, p, q);
    }
  }

  /** Receiving one of our profiles leaves at most one of the other purpose, and none if ids count. */
  lemma {:induction false} FindKept(cfg: Config, byId: bool, installed: seq<Confirmation>, p: Profile, purpose: Purpose)
    requires AllOurs(cfg, installed) && Ours(cfg, p)
    ensures AllOurs(cfg, Kept(byId, installed, p))
    ensures Find(Kept(byId, installed, p), purpose)
         == if byId || purpose == p.purpose then None else Find(installed, purpose)
  {
    if installed != [] {
      var init, last := installed[..|installed| - 1], installed[|installed| - 1];
      assert Ours(cfg, last.profile);
      assert forall i :: 0 <= i < |init| ==> init[i] == installed[i];
      FindKept(cfg, byId, init, p, purpose);
      var before := Kept(byId, init, p);
      assert (before + [last])[..|before|] == before;
    }
  }

  lemma {:induction false} FindDefaults(cfg: Config, installed: seq<Confirmation>)
    requires AllOurs(cfg, installed)
    ensures AllOurs(cfg, Defaults(installed))
    ensures Find(Defaults(installed), TxDefaultProfile) == Find(installed, TxDefaultProfile)
    ensures Find(Defaults(installed), TxProfile) == None
  {
    if installed != [] {
      var init, last := installed[..|installed| - 1], installed[|installed| - 1];
      assert forall i :: 0 <= i < |init| ==> init[i] == installed[i];
      FindDefaults(cfg, init);
      var before := Defaults(init);
      assert (before + [last])[..|before|] == before;
    }
  }

  lemma ReceiveFinds(cfg: Config, cp: ChargePoint, r: Confirmation, purpose: Purpose)
    requires AllOurs(cfg, cp.installed) && Ours(cfg, r.profile)
    ensures AllOurs(cfg, Receive(cp, r).installed)
    ensures Find(Receive(cp, r).installed, purpose)
         == if purpose == r.profile.purpose then Some(r.argument)
            else if cp.byId then None else Find(cp.installed, purpose)
  {
    FindKept(cfg, cp.byId, cp.installed, r.profile, purpose);
    FindSnoc(Kept(cp.byId, cp.installed, r.profile), r, purpose);
  }

  lemma {:induction false} UnusedHasNoLimit(log: seq<Confirmation>, used: set<int>, id: int)
    requires NamesUsed(log, used) && id != 0 && id !in used
    ensures LastFor(log, id, None) == None
  {
    if log != [] {
      assert log[|log| - 1].profile.transactionId != id;
      UnusedHasNoLimit(log[..|log| - 1], used, id);
    }
  }

  /** The log after a call with this outcome. */
  function Extend(log: seq<Confirmation>, o: Outcome): seq<Confirmation> {
    if o.sent.Some? && o.error.Success? then log + [Confirmation(o.sent.value, o.argument)] else log
  }

  lemma CallsSnoc(cfg: Config, cs: seq<Call>, c: Call)
    ensures var o := Step(cfg, Run(cfg, Fresh(), cs), c);
            && Run(cfg, Fresh(), cs + [c]) == o.state
            && Confirmed(cfg, Fresh(), cs + [c]) == Extend(Confirmed(cfg, Fresh(), cs), o)
  {
    assert (cs + [c])[..|cs|] == cs;
  }

  lemma NextRecords(cfg: Config, x: System, y: System, log: seq<Confirmation>, e: Event)
    requires Start(cfg, x) && Recorded(cfg, x, y, log) && Possible(cfg, y, e)
    ensures Recorded(cfg, x, Next(cfg, y, e), if e.Called? then Extend(log, Step(cfg, y.charger, e.call)) else log)
  {
    match e
    case Started(id) => StartRecords(cfg, x, y, log, id);
    case Ended => FindDefaults(cfg, y.cp.installed);
    case Called(c) => CallRecords(cfg, x, y, log, c);
  }

  lemma CallRecords(cfg: Config, x: System, y: System, log: seq<Confirmation>, c: Call)
    requires Recorded(cfg, x, y, log) && Possible(cfg, y, Called(c))
    ensures Recorded(cfg, x, Next(cfg, y, Called(c)), Extend(log, Step(cfg, y.charger, c)))
  {
    var o := Step(cfg, y.charger, c);
    if o.sent.Some? && o.error.Success? {
      SentBinds(cfg, y.charger, c);
      RequestRecords(cfg, x, y, log, Confirmation(o.sent.value, o.argument));
    }
  }

  lemma SentBinds(cfg: Config, s: State, c: Call)
    requires Step(cfg, s, c).sent.Some?
    ensures var p := Step(cfg, s, c).sent.value;
            Ours(cfg, p) && (p.purpose == TxProfile <==> p.transactionId != 0)
  {
  }

  lemma StartRecords(cfg: Config, x: System, y: System, log: seq<Confirmation>, id: int)
    requires Start(cfg, x) && Recorded(cfg, x, y, log) && Possible(cfg, y, Started(id))
    ensures Recorded(cfg, x, Next(cfg, y, Started(id)), log)
  {
    UnusedHasNoLimit(log, y.cp.used, id);
    assert LastNamed(log) != id;
  }

  lemma RequestRecords(cfg: Config, x: System, y: System, log: seq<Confirmation>, r: Confirmation)
    requires Recorded(cfg, x, y, log) && Ours(cfg, r.profile)
    requires r.profile.purpose == TxProfile <==> r.profile.transactionId != 0
    requires r.profile.transactionId != 0 ==> r.profile.transactionId == y.cp.txn
    ensures Recorded(cfg, x, y.(cp := Receive(y.cp, r)), log + [r])
  {
    assert (log + [r])[..|log|] == log;
    ReceiveFinds(cfg, y.cp, r, TxDefaultProfile);
    ReceiveFinds(cfg, y.cp, r, TxProfile);
  }

  /** What the charge point holds is read off the accepted requests. */
  lemma {:induction false} RunRecords(cfg: Config, x: System, es: seq<Event>)
    requires Start(cfg, x) && PossibleRun(cfg, x, es)
    ensures var y := RunSystem(cfg, x, es);
            && y.charger == Run(cfg, Fresh(), Calls(es))
            && Recorded(cfg, x, y, Log(cfg, es))
  {
    if es != [] {
      var init, e := es[..|es| - 1], es[|es| - 1];
      RunRecords(cfg, x, init);
      NextRecords(cfg, x, RunSystem(cfg, x, init), Log(cfg, init), e);
      if e.Called? {
        CallsSnoc(cfg, Calls(init), e.call);
      }
    }
  }

  lemma LastHeld(cfg: Config, x: System, y: System, log: seq<Confirmation>)
    requires Recorded(cfg, x, y, log) && x.cp.byId && log != []
    ensures InForce(y.cp) == if LastNamed(log) == 0 || LastNamed(log) == y.cp.txn then Some(log[|log| - 1].argument)
                             else None
  {
  }

  /** Once a request was accepted, the confirmed current is in force exactly when the last accepted request
      named no transaction or the running one, and otherwise nothing is. Transactions may start and end,
      and the charger may lose or miss them, at any time. */
  lemma InForceExact(cfg: Config, x: System, es: seq<Event>)
    requires Start(cfg, x) && x.cp.byId && PossibleRun(cfg, x, es) && Log(cfg, es) != []
    ensures var y := RunSystem(cfg, x, es);
            var log := Log(cfg, es);
            var confirmed := y.charger.profileCurrent;
            && confirmed == log[|log| - 1].argument
            && InForce(y.cp) ==
               (if LastNamed(log) == 0 || LastNamed(log) == y.cp.txn then Some(confirmed) else None)
  {
    RunRecords(cfg, x, es);
    LastHeld(cfg, x, RunSystem(cfg, x, es), Log(cfg, es));
    ConfirmedLimit(cfg, Calls(es));
  }

  lemma BothHeld(cfg: Config, x: System, y: System, log: seq<Confirmation>, confirmed: real)
    requires Recorded(cfg, x, y, log) && !x.cp.byId && log != []
    requires confirmed == log[|log| - 1].argument
    requires log[|log| - 1].profile.purpose == TxProfile <==> LastNamed(log) != 0
    ensures (InForce(y.cp) == Some(confirmed)) ==
            (|| LastNamed(log) == y.cp.txn
             || (LastNamed(log) == 0 && HeldTx(x, log, y.cp.txn) in {None, Some(confirmed)})
             || (LastNamed(log) != 0 && LastDefault(log, DefaultLimit(x.cp)) == Some(confirmed)))
  {
    var last := log[|log| - 1];
    assert LastNamed(log) == 0 ==> DefaultLimit(y.cp) == Some(last.argument);
    assert LastNamed(log) != 0 && LastNamed(log) == y.cp.txn ==> TxLimit(y.cp) == Some(last.argument);
  }

  /** On a charge point that keeps a default and a transaction profile of one id side by side, it is in
      force exactly when
      - the last accepted request named the running transaction, or named none while none runs;
      - it named none, and the running transaction has no other limit; or
      - it named an ended transaction, and the last default limit is the same. */
  lemma InForceKeepingBothExact(cfg: Config, x: System, es: seq<Event>)
    requires Start(cfg, x) && !x.cp.byId && PossibleRun(cfg, x, es) && Log(cfg, es) != []
    ensures var y := RunSystem(cfg, x, es);
            var log := Log(cfg, es);
            var confirmed := y.charger.profileCurrent;
            && confirmed == log[|log| - 1].argument
            && ((InForce(y.cp) == Some(confirmed)) ==
                (|| LastNamed(log) == y.cp.txn
                 || (LastNamed(log) == 0 && HeldTx(x, log, y.cp.txn) in {None, Some(confirmed)})
                 || (LastNamed(log) != 0 && LastDefault(log, DefaultLimit(x.cp)) == Some(confirmed))))
  {
    RunRecords(cfg, x, es);
    ConfirmedLimit(cfg, Calls(es));
    BothHeld(cfg, x, RunSystem(cfg, x, es), Log(cfg, es), RunSystem(cfg, x, es).charger.profileCurrent);
  }

  /** On either kind, the next accepted Status that reads the running transaction puts the confirmed current
      in force. */
  lemma StatusPutsInForce(cfg: Config, x: System, es: seq<Event>, c: Call)
    requires cfg.txProfile && Start(cfg, x) && PossibleRun(cfg, x, es) && Log(cfg, es) != []
    requires QuietStatus(c, RunSystem(cfg, x, es).cp.txn) && c.io.accepted
    ensures var y := RunSystem(cfg, x, es);
            var z := Next(cfg, y, Called(c));
            && InForce(z.cp) == Some(y.charger.profileCurrent)
            && z.charger == y.charger.(transactionID := y.cp.txn)
  {
    var y := RunSystem(cfg, x, es);
    StatusReapplies(cfg, y.charger, c, y.cp.txn);
    RunRecords(cfg, x, es);
    ConfirmedLimit(cfg, Calls(es));
    if y.cp.txn != y.charger.transactionID {
      var o := Step(cfg, y.charger, c);
      NextRecords(cfg, x, y, Log(cfg, es), Called(c));
      assert Ours(cfg, o.sent.value);
      ReceiveFinds(cfg, y.cp, Confirmation(o.sent.value, o.argument), TxProfile);
      ReceiveFinds(cfg, y.cp, Confirmation(o.sent.value, o.argument), TxDefaultProfile);
    }
  }

  lemma OneMore(cfg: Config, x: System, es: seq<Event>, e: Event)
    ensures RunSystem(cfg, x, es + [e]) == Next(cfg, RunSystem(cfg, x, es), e)
    ensures PossibleRun(cfg, x, es + [e]) <==> PossibleRun(cfg, x, es) && Possible(cfg, RunSystem(cfg, x, es), e)
  {
    assert (es + [e])[..|es|] == es;
  }

  function Idle(byId: bool): System { System(Fresh(), ChargePoint(byId, 0, {}, [])) }

  function Asks(amps: real, txn: int, status: ChargePointStatus): Event {
    Called(MaxCurrent(amps, Exchange(Some(txn), Some(status), None, 0, true)))
  }

  /** An accepted request for the running transaction, or for none. */
  lemma AskStep(cfg: Config, y: System, amps: real, txn: int, status: ChargePointStatus)
    requires cfg.txProfile && AllOurs(cfg, y.cp.installed) && (txn == 0 || txn == y.cp.txn)
    requires txn != 0 || y.charger.transactionID != 0 || !Active(status)
    ensures var z := Next(cfg, y, Asks(amps, txn, status));
            && Possible(cfg, y, Asks(amps, txn, status)) && AllOurs(cfg, z.cp.installed)
            && z.charger.profileCurrent == amps && z.charger.transactionID == txn
            && z.cp.(installed := []) == y.cp.(installed := [])
            && TxLimit(z.cp) == (if txn != 0 then Some(amps) else if y.cp.byId then None else TxLimit(y.cp))
            && DefaultLimit(z.cp) == (if txn == 0 then Some(amps) else if y.cp.byId then None else DefaultLimit(y.cp))
  {
    var o := Step(cfg, y.charger, Asks(amps, txn, status).call);
    ReceiveFinds(cfg, y.cp, Confirmation(o.sent.value, amps), TxProfile);
    ReceiveFinds(cfg, y.cp, Confirmation(o.sent.value, amps), TxDefaultProfile);
  }

  lemma EndedTransactionSteps(cfg: Config, byId: bool)
    requires cfg.txProfile
    ensures var y1 := Next(cfg, Idle(byId), Asks(16.0, 0, Preparing));
            var y2 := Next(cfg, y1, Started(7));
            var y3 := Next(cfg, y2, Asks(6.0, 7, Charging));
            var y4 := Next(cfg, y3, Ended);
            && Possible(cfg, Idle(byId), Asks(16.0, 0, Preparing)) && Possible(cfg, y1, Started(7))
            && Possible(cfg, y2, Asks(6.0, 7, Charging)) && Possible(cfg, y3, Ended)
            && y4.charger.profileCurrent == 6.0 && InForce(y4.cp) == (if byId then None else Some(16.0))
  {
    AskStep(cfg, Idle(byId), 16.0, 0, Preparing);
    var y2 := Next(cfg, Next(cfg, Idle(byId), Asks(16.0, 0, Preparing)), Started(7));
    AskStep(cfg, y2, 6.0, 7, Charging);
    FindDefaults(cfg, Next(cfg, y2, Asks(6.0, 7, Charging)).cp.installed);
  }

  /** 16 A are confirmed as default and 6 A for a transaction, which replaces them. Once that ends, the car
      may charge without a limit until the next Status; where both are kept, 16 A are in force again. */
  lemma EndedTransactionLosesLimit(cfg: Config, byId: bool)
    requires cfg.txProfile
    ensures var es := [Asks(16.0, 0, Preparing), Started(7), Asks(6.0, 7, Charging), Ended];
            var y := RunSystem(cfg, Idle(byId), es);
            && Start(cfg, Idle(byId)) && PossibleRun(cfg, Idle(byId), es)
            && y.charger.profileCurrent == 6.0
            && InForce(y.cp) == (if byId then None else Some(16.0))
  {
    var x, idle, busy := Idle(byId), Asks(16.0, 0, Preparing), Asks(6.0, 7, Charging);
    EndedTransactionSteps(cfg, byId);
    OneMore(cfg, x, [], idle);
    OneMore(cfg, x, [idle], Started(7));
    OneMore(cfg, x, [idle, Started(7)], busy);
    OneMore(cfg, x, [idle, Started(7), busy], Ended);
    assert [] + [idle] == [idle] && [idle] + [Started(7)] == [idle, Started(7)];
    assert [idle, Started(7)] + [busy] == [idle, Started(7), busy];
    assert [idle, Started(7), busy] + [Ended] == [idle, Started(7), busy, Ended];
  }

  lemma LostTransactionSteps(cfg: Config, byId: bool)
    requires cfg.txProfile
    ensures var y1 := Next(cfg, Idle(byId), Started(7));
            var y2 := Next(cfg, y1, Asks(6.0, 7, Charging));
            var y3 := Next(cfg, y2, Asks(10.0, 0, Charging));
            && Possible(cfg, Idle(byId), Started(7))
            && Possible(cfg, y1, Asks(6.0, 7, Charging)) && Possible(cfg, y2, Asks(10.0, 0, Charging))
            && y3.charger.profileCurrent == 10.0 && InForce(y3.cp) == Some(if byId then 10.0 else 6.0)
  {
    var y1 := Next(cfg, Idle(byId), Started(7));
    AskStep(cfg, y1, 6.0, 7, Charging);
    AskStep(cfg, Next(cfg, y1, Asks(6.0, 7, Charging)), 10.0, 0, Charging);
  }

  /** A running transaction limited to 6 A and then lost: the next 10 A are accepted as default. They replace
      the 6 A; where both are kept, 6 A stay in force. */
  lemma LostTransactionLimit(cfg: Config, byId: bool)
    requires cfg.txProfile
    ensures var es := [Started(7), Asks(6.0, 7, Charging), Asks(10.0, 0, Charging)];
            var y := RunSystem(cfg, Idle(byId), es);
            && Start(cfg, Idle(byId)) && PossibleRun(cfg, Idle(byId), es)
            && y.charger.profileCurrent == 10.0
            && InForce(y.cp) == Some(if byId then 10.0 else 6.0)
  {
    var x, known, lost := Idle(byId), Asks(6.0, 7, Charging), Asks(10.0, 0, Charging);
    LostTransactionSteps(cfg, byId);
    OneMore(cfg, x, [], Started(7));
    OneMore(cfg, x, [Started(7)], known);
    OneMore(cfg, x, [Started(7), known], lost);
    assert [] + [Started(7)] == [Started(7)] && [Started(7)] + [known] == [Started(7), known];
    assert [Started(7), known] + [lost] == [Started(7), known, lost];
  }
}
