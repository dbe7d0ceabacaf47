/** On/off control of a heat pump compressor through its optional power consumption, with a background
    loop that reschedules it (charger/eebus-ohpcf.go). */
module Ohpcf {
  import opened Wrappers

  datatype Process = Available | Scheduled | Running | Paused | Completed | Stopped
  datatype Action = NoAction | ScheduleOrRun | Resume | Stop
  datatype Command = SendSchedule | SendResume | SendPause | SendAbort

  /** What apply reads from the compressor (None if not announced), and whether it accepts the command. */
  datatype Remote = Remote(process: Option<Process>, pausable: Option<bool>, stoppable: Option<bool>, accepts: bool)

  datatype Applied = Applied(command: Option<Command>, err: bool)

  function ControlAction(p: Process, enable: bool): Action {
    if enable then
      match p
      case Available => ScheduleOrRun
      case Paused => Resume
      case _ => NoAction
    else
      match p
      case Running => Stop
      case Scheduled => Stop
      case _ => NoAction
  }

  function StopCommand(r: Remote): Option<Command> {
    if r.pausable == Some(true) then Some(SendPause)
    else if r.stoppable == Some(true) then Some(SendAbort)
    else None
  }

  function Apply(connected: bool, enable: bool, r: Remote): Applied {
    if !connected then Applied(None, true)
    else if r.process.None? then Applied(None, false)
    else
      match ControlAction(r.process.value, enable)
      case ScheduleOrRun => Applied(Some(SendSchedule), !r.accepts)
      case Resume => Applied(Some(SendResume), !r.accepts)
      case Stop => Applied(StopCommand(r), StopCommand(r).None? || !r.accepts)
      case NoAction => Applied(None, false)
  }

  // ---------------------------------------------------------------------------------------------
  // Alignment
  // ---------------------------------------------------------------------------------------------

  /** The process needs no command for the intent: nothing left to start, or nothing left to stop. */
  predicate Aligned(p: Process, enable: bool) {
    if enable then !p.Available? && !p.Paused? else !p.Running? && !p.Scheduled?
  }

  /** What a device may do with an accepted command; without one its process stays. */
  predicate Executes(command: Option<Command>, before: Process, after: Process) {
    match command
    case None => after == before
    case Some(SendSchedule) => after.Scheduled? || after.Running?
    case Some(SendResume) => after.Scheduled? || after.Running?
    case Some(SendPause) => after.Paused?
    case Some(SendAbort) => !after.Scheduled? && !after.Running?
  }

  /** Apply succeeds without a command exactly when the compressor is aligned (or silent), and whenever
      it succeeds and the device executes, the compressor is aligned afterwards. */
  lemma ApplyAligns(enable: bool, r: Remote, after: Process)
    requires r.process.Some?
    ensures var a := Apply(true, enable, r);
            && (a == Applied(None, false) <==> Aligned(r.process.value, enable))
            && (!a.err && Executes(a.command, r.process.value, after) ==> Aligned(after, enable))
  {
  }

  /** Turning off a compressor that runs or is about to: it is paused exactly when it may be, else aborted
      exactly when it may be, and it fails exactly when neither is allowed or the command is refused. */
  lemma TurningOffExact(r: Remote)
    requires r.process == Some(Running) || r.process == Some(Scheduled)
    ensures var a := Apply(true, false, r);
            && (a.command == Some(SendPause) <==> r.pausable == Some(true))
            && (a.command == Some(SendAbort) <==> r.stoppable == Some(true) && r.pausable != Some(true))
            && (a.command == None <==> r.pausable != Some(true) && r.stoppable != Some(true))
            && (a.err <==> !r.accepts || (r.pausable != Some(true) && r.stoppable != Some(true)))
  {
  }

  /** Turning it on schedules an announced opportunity and resumes a paused process, and fails exactly when
      that is refused. */
  lemma TurningOnExact(r: Remote)
    requires r.process.Some?
    ensures var a := Apply(true, true, r);
            && (a.command == Some(SendSchedule) <==> r.process == Some(Available))
            && (a.command == Some(SendResume) <==> r.process == Some(Paused))
            && a.command != Some(SendPause) && a.command != Some(SendAbort)
            && (a.err <==> !r.accepts && (r.process == Some(Available) || r.process == Some(Paused)))
  {
  }

  /** Without a compressor every apply fails; with one that announces nothing it succeeds. */
  lemma NothingToControl(enable: bool, r: Remote)
    ensures Apply(false, enable, r) == Applied(None, true)
    ensures r.process.None? ==> Apply(true, enable, r) == Applied(None, false)
  {
  }

  /** Applying the same intent again to a device that executed the first command sends nothing. */
  lemma ApplyIsIdempotent(enable: bool, r: Remote, again: Remote)
    requires r.process.Some? && !Apply(true, enable, r).err
    requires again.process.Some? && Executes(Apply(true, enable, r).command, r.process.value, again.process.value)
    ensures Apply(true, enable, again) == Applied(None, false)
  {
    ApplyAligns(enable, r, again.process.value);
    ApplyAligns(enable, again, again.process.value);
  }

  // ---------------------------------------------------------------------------------------------
  // Concurrency: calls, event handlers and the reboost loop, step by step
  // ---------------------------------------------------------------------------------------------

  /** Who applies an intent: an Enable call, an event handler or MaxCurrent call, or the reboost loop. */
  datatype Applier = EnableCall | SingleTry | LoopTurn

  /** What a goroutine does next. A handler goes on only while on, a MaxCurrent call always. Apply first
      reads the compressor and decides, then sends its command and awaits the answer. */
  datatype Thread =
    | Checking(always: bool)
    | Applying(who: Applier, on: bool)
    | Sending(who: Applier, on: bool, command: Command)
    | Recording(on: bool)
    | Starting
    | Waiting
    | Exiting
    | Done

  /** The fields, and all goroutines so far; a finished one keeps its id. */
  datatype State = State(connected: bool, enabled: bool, reboosting: bool, threads: map<nat, Thread>)

  datatype Event =
    | Request(id: nat, on: bool)         // an Enable call begins
    | MaxCurrent(id: nat)                // a MaxCurrent call begins
    | Announce(id: nat)                  // a consumption state event, and its setCompressor
    | Update                             // any other event that names the compressor
    | Disconnect
    | Check(id: nat)                     // lastEnabled of a handler, a MaxCurrent call or a loop whose timer fired
    | Decide(id: nat, remote: Remote)    // apply up to its decision
    | Send(id: nat, accepted: bool)      // the command and its answer
    | Record(id: nat)                    // setEnabled
    | StartLoop(id: nat, loop: nat)      // startReboost
    | Cancel(id: nat)                    // a loop sees the end of the context
    | Reset(id: nat)                     // the deferred reset of the flag, with which a loop ends

  predicate Possible(s: State, e: Event) {
    match e
    case Request(id, _) => id !in s.threads
    case MaxCurrent(id) => id !in s.threads
    case Announce(id) => id !in s.threads
    case Update => true
    case Disconnect => true
    case Check(id) => id in s.threads && (s.threads[id].Checking? || s.threads[id].Waiting?)
    case Decide(id, _) => id in s.threads && s.threads[id].Applying?
    case Send(id, _) => id in s.threads && s.threads[id].Sending?
    case Record(id) => id in s.threads && s.threads[id].Recording?
    case StartLoop(id, loop) => id in s.threads && s.threads[id].Starting? && loop !in s.threads
    case Cancel(id) => id in s.threads && s.threads[id].Waiting?
    case Reset(id) => id in s.threads && s.threads[id].Exiting?
  }

  function With(s: State, id: nat, t: Thread): State { s.(threads := s.threads[id := t]) }

  function AfterCheck(enabled: bool, t: Thread): Thread {
    if t.Waiting? then if enabled then Applying(LoopTurn, true) else Exiting
    else if enabled || (t.Checking? && t.always) then Applying(SingleTry, enabled)
    else Done
  }

  function AfterApply(who: Applier, on: bool, err: bool): Thread {
    match who
    case EnableCall => if err then Done else Recording(on)
    case SingleTry => Done
    case LoopTurn => Waiting
  }

  function AfterDecision(connected: bool, who: Applier, on: bool, r: Remote): Thread {
    var a := Apply(connected, on, r);
    if a.command.Some? then Sending(who, on, a.command.value) else AfterApply(who, on, a.err)
  }

  function StartReboost(s: State, interval: int, loop: nat): State {
    if interval <= 0 || s.reboosting then s else With(s, loop, Waiting).(reboosting := true)
  }

  function Step(interval: int, s: State, e: Event): State {
    if !Possible(s, e) then s
    else
      match e
      case Request(id, on) => With(s, id, Applying(EnableCall, on))
      case MaxCurrent(id) => With(s, id, Checking(true))
      case Announce(id) => With(s, id, Checking(false)).(connected := true)
      case Update => s.(connected := true)
      case Disconnect => s.(connected := false)
      case Check(id) => With(s, id, AfterCheck(s.enabled, s.threads[id]))
      case Decide(id, r) => With(s, id, AfterDecision(s.connected, s.threads[id].who, s.threads[id].on, r))
      case Send(id, accepted) => With(s, id, AfterApply(s.threads[id].who, s.threads[id].on, !accepted))
      case Record(id) =>
        var on := s.threads[id].on;
        With(s, id, if on then Starting else Done).(enabled := on)
      case StartLoop(id, loop) => StartReboost(With(s, id, Done), interval, loop)
      case Cancel(id) => With(s, id, Exiting)
      case Reset(id) => With(s, id, Done).(reboosting := false)
  }

  function Run(interval: int, s: State, es: seq<Event>): State {
    if es == [] then s else Step(interval, Run(interval, s, es[..|es| - 1]), es[|es| - 1])
  }

  predicate PossibleRun(interval: int, s: State, es: seq<Event>) {
    if es == [] then true
    else PossibleRun(interval, s, es[..|es| - 1]) && Possible(Run(interval, s, es[..|es| - 1]), es[|es| - 1])
  }

  function Initial(): State { State(false, false, false, map[]) }

  predicate IsLoop(t: Thread) {
    t.Waiting? || t.Exiting? || ((t.Applying? || t.Sending?) && t.who.LoopTurn?)
  }

  predicate RunsLoop(s: State, id: nat) { id in s.threads && IsLoop(s.threads[id]) }

  ghost predicate OneLoop(s: State) {
    && (forall i, j :: RunsLoop(s, i) && RunsLoop(s, j) ==> i == j)
    && (s.reboosting <==> exists i :: RunsLoop(s, i))
  }

  /** Only a start and a reset change which goroutines are loops. */
  lemma StepKeepsLoops(interval: int, s: State, e: Event, id: nat)
    requires !e.StartLoop? && !e.Reset?
    ensures Step(interval, s, e).reboosting == s.reboosting
    ensures RunsLoop(Step(interval, s, e), id) == RunsLoop(s, id)
  {
  }

  lemma StepKeepsOneLoop(interval: int, s: State, e: Event)
    requires OneLoop(s)
    ensures OneLoop(Step(interval, s, e))
  {
    var t := Step(interval, s, e);
    if e.StartLoop? && Possible(s, e) {
      assert forall i :: i != e.loop ==> RunsLoop(t, i) == RunsLoop(s, i);
      if interval > 0 && !s.reboosting {
        assert RunsLoop(t, e.loop);
      } else {
        assert RunsLoop(t, e.loop) == RunsLoop(s, e.loop);
      }
    } else if e.Reset? && Possible(s, e) {
      var id := e.id;
      assert RunsLoop(s, id);
      assert forall i :: RunsLoop(t, i) ==> RunsLoop(s, i) && i != id;
    } else if !e.StartLoop? && !e.Reset? {
      forall i ensures RunsLoop(t, i) == RunsLoop(s, i) { StepKeepsLoops(interval, s, e, i); }
      StepKeepsLoops(interval, s, e, 0);
    }
  }

  /** Under every interleaving at most one loop exists, and the flag is set exactly while it does. */
  lemma {:induction false} SingleLoop(interval: int, es: seq<Event>)
    ensures OneLoop(Run(interval, Initial(), es))
  {
    if es != [] {
      SingleLoop(interval, es[..|es| - 1]);
      StepKeepsOneLoop(interval, Run(interval, Initial(), es[..|es| - 1]), es[|es| - 1]);
    }
  }

  /** Without an interval there is never a loop. */
  lemma {:induction false} NoIntervalNoLoop(interval: int, es: seq<Event>, id: nat)
    requires interval <= 0
    ensures !RunsLoop(Run(interval, Initial(), es), id)
  {
    if es != [] {
      var s, e := Run(interval, Initial(), es[..|es| - 1]), es[|es| - 1];
      NoIntervalNoLoop(interval, es[..|es| - 1], id);
      if !e.StartLoop? && !e.Reset? {
        StepKeepsLoops(interval, s, e, id);
      }
    }
  }

  /** Goroutine id is a loop that goes on. */
  predicate LiveLoop(s: State, id: nat) { RunsLoop(s, id) && !s.threads[id].Exiting? }

  /** A loop that goes on, or an Enable call that is about to start one. */
  predicate Serves(s: State, id: nat) { LiveLoop(s, id) || (id in s.threads && s.threads[id].Starting?) }

  /** An Enable call leaves a loop that goes on exactly when there is an interval and no loop is just ending. */
  lemma StartLoopExact(interval: int, es: seq<Event>, id: nat, loop: nat)
    requires Possible(Run(interval, Initial(), es), Event.StartLoop(id, loop))
    ensures var s := Run(interval, Initial(), es);
            (exists i :: LiveLoop(Step(interval, s, Event.StartLoop(id, loop)), i)) ==
            (interval > 0 && forall i :: RunsLoop(s, i) ==> LiveLoop(s, i))
  {
    var s := Run(interval, Initial(), es);
    var t := Step(interval, s, Event.StartLoop(id, loop));
    SingleLoop(interval, es);
    if interval <= 0 {
      forall i ensures !RunsLoop(t, i) {
        NoIntervalNoLoop(interval, es, i);
      }
    } else if s.reboosting {
      var i :| RunsLoop(s, i);
      assert forall j :: RunsLoop(t, j) == RunsLoop(s, j) && LiveLoop(t, j) == LiveLoop(s, j);
    } else {
      assert LiveLoop(t, loop);
    }
  }

  /** A step that may end the loop of a charger that is on: the context ends, or an Enable call relies on
      a loop that is just ending. */
  predicate LosesLoop(s: State, e: Event) {
    Possible(s, e) && (e.Cancel? || (e.StartLoop? && exists i :: i in s.threads && s.threads[i].Exiting?))
  }

  lemma StepServes(interval: int, s: State, e: Event, i: nat) returns (j: nat)
    requires interval > 0 && OneLoop(s) && Step(interval, s, e).enabled
    requires s.enabled ==> Serves(s, i)
    requires !LosesLoop(s, e) || AnyStarting(Step(interval, s, e))
    ensures Serves(Step(interval, s, e), j)
  {
    j := i;
    var t := Step(interval, s, e);
    if AnyStarting(t) {
      j :| j in t.threads && t.threads[j].Starting?;
    } else if e.Record? && Possible(s, e) {
      j := e.id;
    } else if e.StartLoop? && Possible(s, e) {
      if s.reboosting {
        j :| RunsLoop(s, j);
      } else {
        j := e.loop;
      }
    }
  }

  predicate AnyStarting(s: State) { exists i :: i in s.threads && s.threads[i].Starting? }

  /** An Enable call records that the charger is on. */
  predicate TurnsOn(s: State, e: Event) { e.Record? && Possible(s, e) && s.threads[e.id].on }

  function Before(interval: int, es: seq<Event>, i: nat): State
    requires i <= |es|
  {
    Run(interval, Initial(), es[..i])
  }

  /** Step i loses the loop, no call is about to start another one, and none turns the charger on later. */
  predicate LosesForGood(interval: int, es: seq<Event>, i: nat)
    requires i < |es|
  {
    && LosesLoop(Before(interval, es, i), es[i]) && !AnyStarting(Before(interval, es, i + 1))
    && forall k :: i < k < |es| ==> !TurnsOn(Before(interval, es, k), es[k])
  }

  /** In every run that ends on, a loop goes on or is about to start, unless a step took it away and no call
      has turned the charger on since. */
  lemma LoopWhileOnExact(interval: int, es: seq<Event>)
    requires interval > 0 && Run(interval, Initial(), es).enabled
    ensures (exists i :: Serves(Run(interval, Initial(), es), i))
       <==> !exists i :: 0 <= i < |es| && LosesForGood(interval, es, i)
  {
    if i :| 0 <= i < |es| && LosesForGood(interval, es, i) {
      StaysLost(interval, es, i, |es|);
      assert es[..|es|] == es;
      assert Before(interval, es, |es|) == Run(interval, Initial(), es);
    } else {
      LoopWhileOn(interval, es);
    }
  }

  lemma {:induction false} LoopWhileOn(interval: int, es: seq<Event>)
    requires interval > 0 && Run(interval, Initial(), es).enabled
    requires forall i :: 0 <= i < |es| ==> !LosesForGood(interval, es, i)
    ensures exists i :: Serves(Run(interval, Initial(), es), i)
  {
    var last := |es| - 1;
    var init, s, e := es[..last], Run(interval, Initial(), es[..last]), es[last];
    SingleLoop(interval, init);
    assert es[..|es|] == es;
    var i: nat := 0;
    if AnyStarting(Step(interval, s, e)) {
      var j :| j in Step(interval, s, e).threads && Step(interval, s, e).threads[j].Starting?;
      assert Serves(Run(interval, Initial(), es), j);
    } else {
      if s.enabled {
        TurnsOnStarts(interval, s, e);
        forall k | 0 <= k < last ensures !LosesForGood(interval, init, k) {
          LosesPrefix(interval, es, k);
        }
        LoopWhileOn(interval, init);
        i :| Serves(s, i);
      }
      assert !LosesForGood(interval, es, last);
      var j := StepServes(interval, s, e, i);
    }
  }

  lemma TurnsOnStarts(interval: int, s: State, e: Event)
    ensures TurnsOn(s, e) ==> AnyStarting(Step(interval, s, e))
  {
    if TurnsOn(s, e) {
      assert Step(interval, s, e).threads[e.id].Starting?;
    }
  }

  /** Without a call that turns the charger on in the last step, what was lost before it stays lost. */
  lemma LosesPrefix(interval: int, es: seq<Event>, k: nat)
    requires k < |es| - 1 && !LosesForGood(interval, es, k)
    requires !TurnsOn(Before(interval, es, |es| - 1), es[|es| - 1])
    ensures !LosesForGood(interval, es[..|es| - 1], k)
  {
    var init := es[..|es| - 1];
    forall m | 0 <= m <= |init| ensures Before(interval, init, m) == Before(interval, es, m) {
      assert init[..m] == es[..m];
    }
  }

  lemma {:induction false} StaysLost(interval: int, es: seq<Event>, i: nat, n: nat)
    requires i < n <= |es| && LosesForGood(interval, es, i)
    ensures forall j :: !Serves(Before(interval, es, n), j)
  {
    var s := Before(interval, es, n - 1);
    assert es[..n][..n - 1] == es[..n - 1];
    SingleLoop(interval, es[..n - 1]);
    if n == i + 1 {
      LosingStep(interval, s, es[i]);
    } else {
      StaysLost(interval, es, i, n - 1);
      StaysUnserved(interval, s, es[n - 1]);
    }
  }

  lemma LosingStep(interval: int, s: State, e: Event)
    requires OneLoop(s) && LosesLoop(s, e) && !AnyStarting(Step(interval, s, e))
    ensures forall j :: !Serves(Step(interval, s, e), j)
  {
    var t := Step(interval, s, e);
    if e.Cancel? {
      assert RunsLoop(s, e.id);
      assert forall j :: RunsLoop(t, j) ==> RunsLoop(s, j);
    } else {
      var x :| x in s.threads && s.threads[x].Exiting?;
      assert RunsLoop(s, x);
      assert forall j :: RunsLoop(t, j) ==> RunsLoop(s, j);
    }
  }

  lemma StaysUnserved(interval: int, s: State, e: Event)
    requires (forall j :: !Serves(s, j)) && !TurnsOn(s, e)
    ensures forall j :: !Serves(Step(interval, s, e), j)
  {
    if Possible(s, e) && e.StartLoop? {
      assert Serves(s, e.id);
    }
    forall j ensures !Serves(Step(interval, s, e), j) {
      assert !Serves(s, j);
    }
  }

  // ---------------------------------------------------------------------------------------------
  // Connection
  // ---------------------------------------------------------------------------------------------

  /** Whether the last event about the connection named the compressor; a new charger has none. */
  predicate LastNamed(interval: int, es: seq<Event>) {
    if es == [] then false
    else
      var init, e := es[..|es| - 1], es[|es| - 1];
      if e.Disconnect? then false
      else if e.Update? || (e.Announce? && e.id !in Run(interval, Initial(), init).threads) then true
      else LastNamed(interval, init)
  }

  /** The charger has a compressor exactly from an event that names one to the next disconnect; without one
      every apply fails and sends nothing. */
  lemma {:induction false} ConnectionFollowsEvents(interval: int, es: seq<Event>, enable: bool, r: Remote)
    ensures var s := Run(interval, Initial(), es);
            && s.connected == LastNamed(interval, es)
            && (!LastNamed(interval, es) ==> Apply(s.connected, enable, r) == Applied(None, true))
  {
    if es != [] {
      ConnectionFollowsEvents(interval, es[..|es| - 1], enable, r);
      StepConnection(interval, Run(interval, Initial(), es[..|es| - 1]), es[|es| - 1]);
    }
  }

  lemma StepConnection(interval: int, s: State, e: Event)
    ensures Step(interval, s, e).connected ==
            if e.Disconnect? then false
            else e.Update? || (e.Announce? && e.id !in s.threads) || s.connected
  {
  }

  // ---------------------------------------------------------------------------------------------
  // Commands against the intent
  // ---------------------------------------------------------------------------------------------

  /** The argument of Enable call id. */
  function Requested(es: seq<Event>, id: nat): bool {
    if es == [] then false
    else if es[|es| - 1].Request? && es[|es| - 1].id == id then es[|es| - 1].on
    else Requested(es[..|es| - 1], id)
  }

  /** The argument of the last Enable call to record it; a new charger is off. */
  function LastRecorded(es: seq<Event>): bool {
    if es == [] then false
    else if es[|es| - 1].Record? then Requested(es, es[|es| - 1].id)
    else LastRecorded(es[..|es| - 1])
  }

  /** The intent recorded when goroutine id last checked it. */
  function Checked(es: seq<Event>, id: nat): bool {
    if es == [] then false
    else if es[|es| - 1] == Check(id) then LastRecorded(es[..|es| - 1])
    else Checked(es[..|es| - 1], id)
  }

  /** The intent a goroutine stands for: the argument of its Enable call, or what it checked. */
  function Carried(es: seq<Event>, id: nat, who: Applier): bool {
    if who.EnableCall? then Requested(es, id) else Checked(es, id)
  }

  predicate Carries(es: seq<Event>, id: nat, t: Thread) {
    match t
    case Applying(who, on) => on == Carried(es, id, who) && (who.EnableCall? || Check(id) in es)
    case Sending(who, on, command) =>
      on == Carried(es, id, who) && (who.EnableCall? || Check(id) in es) && Starts(command) == on
    case Recording(on) => on == Requested(es, id)
    case _ => true
  }

  /** A command that starts the compressor; the others stop it. */
  predicate Starts(command: Command) { command.SendSchedule? || command.SendResume? }

  ghost predicate Tracks(es: seq<Event>, s: State) {
    && s.enabled == LastRecorded(es)
    && (forall id :: id in s.threads ==> Carries(es, id, s.threads[id]))
  }

  lemma Snoc(es: seq<Event>, e: Event, id: nat)
    ensures Requested(es + [e], id) == if e.Request? && e.id == id then e.on else Requested(es, id)
    ensures LastRecorded(es + [e]) == if e.Record? then Requested(es, e.id) else LastRecorded(es)
    ensures Checked(es + [e], id) == if e == Check(id) then LastRecorded(es) else Checked(es, id)
  {
    assert (es + [e])[..|es|] == es;
  }

  lemma StepTracks(interval: int, es: seq<Event>, s: State, e: Event)
    requires Tracks(es, s) && Possible(s, e)
    ensures Tracks(es + [e], Step(interval, s, e))
  {
    var t := Step(interval, s, e);
    Snoc(es, e, 0);
    forall id | id in t.threads ensures Carries(es + [e], id, t.threads[id]) {
      Snoc(es, e, id);
      if id in s.threads && t.threads[id] == s.threads[id] {
        StillCarries(es, e, id, s.threads[id]);
      } else {
        StepCarries(interval, es, s, e, id);
      }
    }
  }

  lemma StillCarries(es: seq<Event>, e: Event, id: nat, t: Thread)
    requires Carries(es, id, t)
    requires e != Check(id) && !(e.Request? && e.id == id)
    ensures Carries(es + [e], id, t)
  {
    Snoc(es, e, id);
  }

  lemma StepCarries(interval: int, es: seq<Event>, s: State, e: Event, id: nat)
    requires Tracks(es, s) && Possible(s, e) && id in Step(interval, s, e).threads
    requires id !in s.threads || s.threads[id] != Step(interval, s, e).threads[id]
    ensures Carries(es + [e], id, Step(interval, s, e).threads[id])
  {
    Snoc(es, e, id);
  }

  /** Under every interleaving the stored intent is the argument of the last Enable call to record it, and
      every goroutine acts on its own request or on the intent it checked. */
  lemma {:induction false} IntentIsLastRecorded(interval: int, es: seq<Event>)
    requires PossibleRun(interval, Initial(), es)
    ensures Run(interval, Initial(), es).enabled == LastRecorded(es)
    ensures Tracks(es, Run(interval, Initial(), es))
  {
    if es != [] {
      var init := es[..|es| - 1];
      IntentIsLastRecorded(interval, init);
      StepTracks(interval, init, Run(interval, Initial(), init), es[|es| - 1]);
      assert init + [es[|es| - 1]] == es;
    }
  }

  /** Enable call id got through apply at event i: an accepted command, or nothing to do. */
  predicate AcceptedAt(interval: int, es: seq<Event>, i: nat, id: nat, on: bool)
    requires i < |es|
  {
    || es[i] == Send(id, true)
    || (es[i].Decide? && es[i].id == id
        && Apply(Run(interval, Initial(), es[..i]).connected, on, es[i].remote) == Applied(None, false))
  }

  lemma StepRecording(interval: int, s: State, e: Event, id: nat)
    requires id in Step(interval, s, e).threads && Step(interval, s, e).threads[id].Recording?
    ensures var on := Step(interval, s, e).threads[id].on;
            || (id in s.threads && s.threads[id] == Recording(on))
            || e == Send(id, true)
            || (e.Decide? && e.id == id && Apply(s.connected, on, e.remote) == Applied(None, false))
  {
  }

  /** Only an Enable call whose apply succeeded ever records. */
  lemma {:induction false} RecordedWasAccepted(interval: int, es: seq<Event>, id: nat)
    requires var s := Run(interval, Initial(), es); id in s.threads && s.threads[id].Recording?
    ensures var on := Run(interval, Initial(), es).threads[id].on;
            exists i :: 0 <= i < |es| && AcceptedAt(interval, es, i, id, on)
  {
    var init, last := es[..|es| - 1], |es| - 1;
    var s, on := Run(interval, Initial(), init), Run(interval, Initial(), es).threads[id].on;
    StepRecording(interval, s, es[last], id);
    if id in s.threads && s.threads[id] == Recording(on) {
      RecordedWasAccepted(interval, init, id);
      var i :| 0 <= i < |init| && AcceptedAt(interval, init, i, id, on);
      assert init[..i] == es[..i];
      assert AcceptedAt(interval, es, i, id, on);
    } else {
      assert AcceptedAt(interval, es, last, id, on);
    }
  }

  lemma {:induction false} StaleCheck(es: seq<Event>, id: nat) returns (i: nat, j: nat)
    requires Check(id) in es && Checked(es, id) != LastRecorded(es)
    ensures i < j < |es| && es[i] == Check(id) && es[j].Record?
  {
    var init, last := es[..|es| - 1], es[|es| - 1];
    assert es == init + [last];
    Snoc(init, last, id);
    if last.Record? {
      i :| 0 <= i < |init| && init[i] == Check(id);
      j := |init|;
    } else {
      i, j := StaleCheck(init, id);
    }
  }

  /** A command about to be sent contradicts the recorded intent exactly when the intent its sender stands
      for is not the one recorded last: for an Enable call, when it asks for the contrary; for a handler, a
      MaxCurrent call or the loop, when the intent changed after the check, and so by a later Record. */
  lemma CommandsFollowIntent(interval: int, es: seq<Event>, id: nat)
    requires PossibleRun(interval, Initial(), es)
    requires var s := Run(interval, Initial(), es); id in s.threads && s.threads[id].Sending?
    ensures var s := Run(interval, Initial(), es);
            var t := s.threads[id];
            && (Starts(t.command) != s.enabled) == (Carried(es, id, t.who) != LastRecorded(es))
            && (Starts(t.command) != s.enabled && !t.who.EnableCall?
                ==> exists i, j :: 0 <= i < j < |es| && es[i] == Check(id) && es[j].Record?)
  {
    IntentIsLastRecorded(interval, es);
    var s := Run(interval, Initial(), es);
    if Starts(s.threads[id].command) != s.enabled && !s.threads[id].who.EnableCall? {
      var i, j := StaleCheck(es, id);
    }
  }

  /** The command a step sends, if any. */
  function Sends(s: State, e: Event): Option<Command> {
    if e.Send? && Possible(s, e) then Some(s.threads[e.id].command) else None
  }

  /** The window between a check and its command is real for every goroutine that checked: a complete
      Enable call for the contrary fits in, and the command then undoes it. */
  lemma InFlightContradicts(interval: int, s: State, id: nat, caller: nat, stop: Remote, start: Remote)
    requires s.connected && id in s.threads && s.threads[id].Applying? && s.threads[id].on == s.enabled
    requires caller !in s.threads
    requires stop.process == Some(Running) && stop.pausable == Some(true) && start.process == Some(Paused)
    ensures var (first, second) := if s.enabled then (stop, start) else (start, stop);
            var s1 := Step(interval, s, Request(caller, !s.enabled));
            var s2 := Step(interval, s1, Decide(caller, first));
            var s3 := Step(interval, s2, Send(caller, true));
            var s4 := Step(interval, s3, Record(caller));
            var s5 := Step(interval, s4, Decide(id, second));
            && Sends(s2, Send(caller, true)) == Some(if s.enabled then SendPause else SendResume)
            && s4.enabled == s5.enabled == !s.enabled
            && Sends(s5, Send(id, true)) == Some(if s.enabled then SendResume else SendPause)
  {
  }

  lemma Then(interval: int, es: seq<Event>, e: Event) returns (fs: seq<Event>)
    requires PossibleRun(interval, Initial(), es) && Possible(Run(interval, Initial(), es), e)
    ensures PossibleRun(interval, Initial(), fs)
    ensures Run(interval, Initial(), fs) == Step(interval, Run(interval, Initial(), es), e)
  {
    fs := es + [e];
    assert fs[..|es|] == es;
  }

  const SILENT := Remote(None, None, None, false)

  lemma TurnedSteps(interval: int, s: State, id: nat, on: bool)
    requires s.connected && id !in s.threads
    ensures Step(interval, s, Request(id, on)) == With(s, id, Applying(EnableCall, on))
    ensures Step(interval, With(s, id, Applying(EnableCall, on)), Decide(id, SILENT)) == With(s, id, Recording(on))
    ensures Step(interval, With(s, id, Recording(on)), Record(id))
         == With(s, id, if on then Starting else Done).(enabled := on)
  {
    assert AfterDecision(true, EnableCall, on, SILENT) == Recording(on);
  }

  /** An Enable call up to its Record, on a compressor that announces nothing. */
  lemma Turned(interval: int, es: seq<Event>, id: nat, on: bool) returns (fs: seq<Event>)
    requires PossibleRun(interval, Initial(), es)
    requires Run(interval, Initial(), es).connected && id !in Run(interval, Initial(), es).threads
    ensures PossibleRun(interval, Initial(), fs)
    ensures Run(interval, Initial(), fs)
         == With(Run(interval, Initial(), es), id, if on then Starting else Done).(enabled := on)
  {
    TurnedSteps(interval, Run(interval, Initial(), es), id, on);
    fs := Then(interval, es, Request(id, on));
    fs := Then(interval, fs, Decide(id, SILENT));
    fs := Then(interval, fs, Record(id));
  }

  lemma TurnedOn(interval: int) returns (es: seq<Event>)
    ensures PossibleRun(interval, Initial(), es)
    ensures Run(interval, Initial(), es) == State(true, true, false, map[0 := Starting])
  {
    es := Then(interval, [], Update);
    es := Turned(interval, es, 0, true);
  }

  /** A handler gets into that window while on, a MaxCurrent call while off, and the loop on every turn. */
  lemma HandlerInFlight(interval: int) returns (es: seq<Event>)
    ensures PossibleRun(interval, Initial(), es)
    ensures var s := Run(interval, Initial(), es);
            s.connected && s.enabled && 1 in s.threads && s.threads[1] == Applying(SingleTry, true)
  {
    es := TurnedOn(interval);
    es := Then(interval, es, Announce(1));
    es := Then(interval, es, Check(1));
  }

  lemma MaxCurrentInFlight(interval: int) returns (es: seq<Event>)
    ensures PossibleRun(interval, Initial(), es)
    ensures var s := Run(interval, Initial(), es);
            s.connected && !s.enabled && 1 in s.threads && s.threads[1] == Applying(SingleTry, false)
  {
    es := Then(interval, [], Update);
    es := Then(interval, es, MaxCurrent(1));
    es := Then(interval, es, Check(1));
  }

  lemma TurnInFlight(interval: int) returns (es: seq<Event>)
    requires interval > 0
    ensures PossibleRun(interval, Initial(), es)
    ensures var s := Run(interval, Initial(), es);
            s.connected && s.enabled && 1 in s.threads && s.threads[1] == Applying(LoopTurn, true)
  {
    es := TurnedOn(interval);
    es := Then(interval, es, Event.StartLoop(0, 1));
    es := Then(interval, es, Check(1));
  }

  lemma LoopEnding(interval: int) returns (es: seq<Event>)
    requires interval > 0
    ensures PossibleRun(interval, Initial(), es)
    ensures Run(interval, Initial(), es) == State(true, false, true, map[0 := Done, 1 := Exiting, 2 := Done])
  {
    es := TurnedOn(interval);
    es := Then(interval, es, Event.StartLoop(0, 1));
    assert Run(interval, Initial(), es) == State(true, true, true, map[0 := Done, 1 := Waiting]);
    es := Turned(interval, es, 2, false);
    es := Then(interval, es, Check(1));
  }

  /** The loop is lost when the charger is turned off and on again while its loop is between the
      check and the deferred reset: it is on, and no loop runs or is about to start. */
  lemma LoopLost(interval: int) returns (es: seq<Event>)
    requires interval > 0
    ensures PossibleRun(interval, Initial(), es)
    ensures var s := Run(interval, Initial(), es);
            s.enabled && forall i :: !Serves(s, i)
  {
    es := LoopEnding(interval);
    es := Turned(interval, es, 3, true);
    var s := State(true, true, true, map[0 := Done, 1 := Exiting, 2 := Done, 3 := Starting]);
    assert Run(interval, Initial(), es) == s;
    es := Then(interval, es, Event.StartLoop(3, 4));
    assert Run(interval, Initial(), es) == With(s, 3, Done);
    es := Then(interval, es, Reset(1));
  }

  /** The end of the context ends the loop, also while on. */
  lemma ContextEndsLoop(interval: int) returns (es: seq<Event>)
    requires interval > 0
    ensures PossibleRun(interval, Initial(), es)
    ensures Run(interval, Initial(), es) == State(true, true, false, map[0 := Done, 1 := Done])
  {
    es := TurnedOn(interval);
    es := Then(interval, es, Event.StartLoop(0, 1));
    assert Run(interval, Initial(), es) == State(true, true, true, map[0 := Done, 1 := Waiting]);
    es := Then(interval, es, Cancel(1));
    es := Then(interval, es, Reset(1));
  }

  // ---------------------------------------------------------------------------------------------
  // Intent and compressor
  // ---------------------------------------------------------------------------------------------

  datatype World = World(s: State, process: Process)

  /** A step, and the process the compressor is in after it. */
  datatype Tick = Tick(e: Event, process: Process)

  /** A compressor that reports its process when asked, executes accepted commands, and does nothing else. */
  predicate Consistent(w: World, t: Tick) {
    && Possible(w.s, t.e)
    && (t.e.Decide? ==> t.e.remote.process == Some(w.process))
    && Executes(if t.e.Send? && t.e.accepted then Sends(w.s, t.e) else None, w.process, t.process)
  }

  function RunWorld(interval: int, w: World, ts: seq<Tick>): World {
    if ts == [] then w
    else World(Step(interval, RunWorld(interval, w, ts[..|ts| - 1]).s, ts[|ts| - 1].e), ts[|ts| - 1].process)
  }

  predicate ConsistentRun(interval: int, w: World, ts: seq<Tick>) {
    if ts == [] then true
    else ConsistentRun(interval, w, ts[..|ts| - 1]) && Consistent(RunWorld(interval, w, ts[..|ts| - 1]), ts[|ts| - 1])
  }

  /** The last command the compressor accepted. */
  function LastCommand(interval: int, w: World, ts: seq<Tick>): Option<Command> {
    if ts == [] then None
    else
      var init, e := ts[..|ts| - 1], ts[|ts| - 1].e;
      if e.Send? && e.accepted then Sends(RunWorld(interval, w, init).s, e) else LastCommand(interval, w, init)
  }

  predicate Recorded(ts: seq<Tick>) { exists i :: 0 <= i < |ts| && ts[i].e.Record? }

  /** The process is what the last command left; without one, every call that got through apply found the
      compressor as it wants it. */
  ghost predicate Follows(w: World, p0: Process, last: Option<Command>, recorded: bool) {
    && (last.Some? ==> exists p :: Executes(last, p, w.process))
    && (last.None? ==>
          && w.process == p0
          && (forall id :: id in w.s.threads && w.s.threads[id].Recording? ==> Aligned(p0, w.s.threads[id].on))
          && (recorded ==> Aligned(p0, w.s.enabled)))
  }

  lemma TickFollows(interval: int, w: World, p0: Process, last: Option<Command>, recorded: bool, t: Tick)
    requires Follows(w, p0, last, recorded) && Consistent(w, t)
    ensures Follows(World(Step(interval, w.s, t.e), t.process), p0,
                    if t.e.Send? && t.e.accepted then Sends(w.s, t.e) else last, recorded || t.e.Record?)
  {
    var s := Step(interval, w.s, t.e);
    if !(t.e.Send? && t.e.accepted) && last.None? {
      forall id | id in s.threads && s.threads[id].Recording? ensures Aligned(p0, s.threads[id].on) {
        StepRecording(interval, w.s, t.e, id);
      }
    }
  }

  lemma {:induction false} RunFollows(interval: int, p0: Process, ts: seq<Tick>)
    requires ConsistentRun(interval, World(Initial(), p0), ts)
    ensures var w := World(Initial(), p0);
            Follows(RunWorld(interval, w, ts), p0, LastCommand(interval, w, ts), Recorded(ts))
  {
    if ts != [] {
      var init, w := ts[..|ts| - 1], World(Initial(), p0);
      RunFollows(interval, p0, init);
      TickFollows(interval, RunWorld(interval, w, init), p0, LastCommand(interval, w, init), Recorded(init),
                  ts[|ts| - 1]);
      assert forall i :: 0 <= i < |init| ==> init[i] == ts[i];
      assert Recorded(ts) == (Recorded(init) || ts[|ts| - 1].e.Record?);
    }
  }

  /** From the first recorded Enable call on, under every interleaving of calls, handlers and loop, the
      compressor is as the recorded intent wants it exactly when no command was accepted, the last one was
      for that intent, or it aborted a process that cannot be started again. */
  lemma CompressorFollowsExact(interval: int, p0: Process, ts: seq<Tick>)
    requires ConsistentRun(interval, World(Initial(), p0), ts) && Recorded(ts)
    ensures var w := RunWorld(interval, World(Initial(), p0), ts);
            var last := LastCommand(interval, World(Initial(), p0), ts);
            Aligned(w.process, w.s.enabled) ==
            (|| last.None? || Starts(last.value) == w.s.enabled
             || (last == Some(SendAbort) && !w.process.Available? && !w.process.Paused?))
  {
    RunFollows(interval, p0, ts);
  }

  lemma ThenTick(interval: int, p0: Process, ts: seq<Tick>, t: Tick) returns (us: seq<Tick>)
    requires ConsistentRun(interval, World(Initial(), p0), ts)
    requires Consistent(RunWorld(interval, World(Initial(), p0), ts), t)
    ensures us == ts + [t] && ConsistentRun(interval, World(Initial(), p0), us)
    ensures RunWorld(interval, World(Initial(), p0), us)
         == World(Step(interval, RunWorld(interval, World(Initial(), p0), ts).s, t.e), t.process)
  {
    us := ts + [t];
    assert us[..|ts|] == ts;
  }

  lemma AbortDecided(interval: int) returns (ts: seq<Tick>)
    ensures ConsistentRun(interval, World(Initial(), Running), ts)
    ensures RunWorld(interval, World(Initial(), Running), ts)
         == World(State(true, false, false, map[0 := Sending(EnableCall, false, SendAbort)]), Running)
  {
    ts := ThenTick(interval, Running, [], Tick(Update, Running));
    ts := ThenTick(interval, Running, ts, Tick(Request(0, false), Running));
    var abortable := Remote(Some(Running), Some(false), Some(true), true);
    ts := ThenTick(interval, Running, ts, Tick(Decide(0, abortable), Running));
  }

  /** A running compressor that can only be aborted is turned off by an abort. */
  lemma AbortedIsAligned(interval: int) returns (ts: seq<Tick>)
    ensures ConsistentRun(interval, World(Initial(), Running), ts)
    ensures LastCommand(interval, World(Initial(), Running), ts) == Some(SendAbort)
    ensures var w := RunWorld(interval, World(Initial(), Running), ts);
            w == World(State(true, false, false, map[0 := Done]), Stopped) && Aligned(w.process, w.s.enabled)
  {
    ts := AbortDecided(interval);
    var decided := ts;
    ts := ThenTick(interval, Running, ts, Tick(Send(0, true), Stopped));
    assert ts[..|ts| - 1] == decided;
    var sent := ts;
    ts := ThenTick(interval, Running, ts, Tick(Record(0), Stopped));
    assert ts[..|ts| - 1] == sent;
  }

  lemma OnDecidedFirst(interval: int) returns (ts: seq<Tick>)
    ensures ConsistentRun(interval, World(Initial(), Available), ts)
    ensures RunWorld(interval, World(Initial(), Available), ts)
         == World(State(true, false, false, map[0 := Sending(EnableCall, true, SendSchedule),
                                                1 := Applying(EnableCall, false)]), Available)
  {
    ts := ThenTick(interval, Available, [], Tick(Update, Available));
    ts := ThenTick(interval, Available, ts, Tick(Request(0, true), Available));
    ts := ThenTick(interval, Available, ts, Tick(Request(1, false), Available));
    var s := State(true, false, false, map[0 := Applying(EnableCall, true), 1 := Applying(EnableCall, false)]);
    assert RunWorld(interval, World(Initial(), Available), ts).s == s;
    ts := ThenTick(interval, Available, ts, Tick(Decide(0, Remote(Some(Available), None, None, true)), Available));
  }

  lemma OffSentLast(interval: int) returns (ts: seq<Tick>)
    ensures ConsistentRun(interval, World(Initial(), Available), ts)
    ensures RunWorld(interval, World(Initial(), Available), ts)
         == World(State(true, false, false, map[0 := Recording(true), 1 := Recording(false)]), Paused)
  {
    ts := OnDecidedFirst(interval);
    ts := ThenTick(interval, Available, ts, Tick(Send(0, true), Running));
    var s := State(true, false, false, map[0 := Recording(true), 1 := Applying(EnableCall, false)]);
    assert RunWorld(interval, World(Initial(), Available), ts).s == s;
    ts := ThenTick(interval, Available, ts, Tick(Decide(1, Remote(Some(Running), Some(true), None, true)), Running));
    assert RunWorld(interval, World(Initial(), Available), ts).s == With(s, 1, Sending(EnableCall, false, SendPause));
    ts := ThenTick(interval, Available, ts, Tick(Send(1, true), Paused));
  }

  /** Two Enable calls at once, with no other goroutine: the one that turns off pauses last and records
      first, and both succeed. The charger is on and the compressor paused. */
  lemma ConcurrentEnablesContradict(interval: int) returns (ts: seq<Tick>)
    ensures ConsistentRun(interval, World(Initial(), Available), ts)
    ensures RunWorld(interval, World(Initial(), Available), ts)
         == World(State(true, true, false, map[0 := Starting, 1 := Done]), Paused)
  {
    ts := OffSentLast(interval);
    ts := ThenTick(interval, Available, ts, Tick(Record(1), Paused));
    ts := ThenTick(interval, Available, ts, Tick(Record(0), Paused));
  }

  // ---------------------------------------------------------------------------------------------
  // Announcements
  // ---------------------------------------------------------------------------------------------

  /** None of these events is a step of goroutine id. */
  predicate Foreign(es: seq<Event>, id: nat) {
    forall i :: 0 <= i < |es| ==> es[i].Update? || es[i].Disconnect? || es[i].id != id
  }

  lemma StepForeign(interval: int, s: State, e: Event, id: nat)
    requires id in s.threads && (e.Update? || e.Disconnect? || e.id != id)
    ensures id in Step(interval, s, e).threads && Step(interval, s, e).threads[id] == s.threads[id]
  {
  }

  lemma {:induction false} ThreadWaits(interval: int, s: State, es: seq<Event>, id: nat)
    requires id in s.threads && Foreign(es, id)
    ensures id in Run(interval, s, es).threads && Run(interval, s, es).threads[id] == s.threads[id]
  {
    if es != [] {
      var init := es[..|es| - 1];
      assert forall i :: 0 <= i < |init| ==> init[i] == es[i];
      ThreadWaits(interval, s, init, id);
      StepForeign(interval, Run(interval, s, init), es[|es| - 1], id);
    }
  }

  /** However the steps of its handler are delayed, an announcement whose check finds the charger on is
      answered with the command for what the compressor shows when the handler reads it (if still
      connected), and if that is accepted and executed, nothing is left available or paused. */
  lemma AnnouncementAnswered(interval: int, s0: State, id: nat, es0: seq<Event>, es1: seq<Event>, r: Remote,
                             es2: seq<Event>, after: Process)
    requires id !in s0.threads && Foreign(es0, id) && Foreign(es1, id) && Foreign(es2, id)
    requires Run(interval, Step(interval, s0, Announce(id)), es0).enabled && r.process.Some?
    ensures var s1 := Step(interval, Run(interval, Step(interval, s0, Announce(id)), es0), Check(id));
            var s2 := Run(interval, s1, es1);
            var s3 := Run(interval, Step(interval, s2, Decide(id, r)), es2);
            var answer := Sends(s3, Send(id, true));
            && answer == (if !s2.connected then None
                          else if r.process == Some(Available) then Some(SendSchedule)
                          else if r.process == Some(Paused) then Some(SendResume) else None)
            && (s2.connected && Executes(answer, r.process.value, after) ==> !after.Available? && !after.Paused?)
  {
    var s := Step(interval, s0, Announce(id));
    ThreadWaits(interval, s, es0, id);
    var s1 := Step(interval, Run(interval, s, es0), Check(id));
    assert s1.threads[id] == Applying(SingleTry, true);
    ThreadWaits(interval, s1, es1, id);
    var s2 := Run(interval, s1, es1);
    var decided := AfterDecision(s2.connected, SingleTry, true, r);
    assert Step(interval, s2, Decide(id, r)) == With(s2, id, decided);
    ThreadWaits(interval, With(s2, id, decided), es2, id);
    var s3 := Run(interval, With(s2, id, decided), es2);
    assert Sends(s3, Send(id, true)) == if decided.Sending? then Some(decided.command) else None;
    DecisionAnswers(s2.connected, r, after);
  }

  lemma DecisionAnswers(connected: bool, r: Remote, after: Process)
    requires r.process.Some?
    ensures var t := AfterDecision(connected, SingleTry, true, r);
            var answer := if t.Sending? then Some(t.command) else None;
            && answer == (if !connected then None
                          else if r.process == Some(Available) then Some(SendSchedule)
                          else if r.process == Some(Paused) then Some(SendResume) else None)
            && (connected && Executes(answer, r.process.value, after) ==> !after.Available? && !after.Paused?)
  {
  }

  /** A handler whose check finds the charger off sends nothing, whatever else happens. */
  lemma AnnouncementIgnoredWhileOff(interval: int, s0: State, id: nat, es0: seq<Event>, es1: seq<Event>, e: Event)
    requires id !in s0.threads && Foreign(es0, id) && Foreign(es1, id)
    requires !Run(interval, Step(interval, s0, Announce(id)), es0).enabled
    requires e.Decide? || e.Send?
    requires e.id == id
    ensures var s1 := Step(interval, Run(interval, Step(interval, s0, Announce(id)), es0), Check(id));
            var s2 := Run(interval, s1, es1);
            Step(interval, s2, e) == s2 && Sends(s2, e) == None
  {
    var s := Step(interval, s0, Announce(id));
    ThreadWaits(interval, s, es0, id);
    var s1 := Step(interval, Run(interval, s, es0), Check(id));
    assert s1.threads[id] == Done;
    ThreadWaits(interval, s1, es1, id);
  }

  /** A MaxCurrent call always applies the intent it checked, on or off. */
  lemma MaxCurrentApplies(interval: int, s0: State, id: nat, es0: seq<Event>, es1: seq<Event>, r: Remote)
    requires id !in s0.threads && Foreign(es0, id) && Foreign(es1, id)
    ensures var s := Run(interval, Step(interval, s0, MaxCurrent(id)), es0);
            var s2 := Run(interval, Step(interval, s, Check(id)), es1);
            Sends(Step(interval, s2, Decide(id, r)), Send(id, true)) == Apply(s2.connected, s.enabled, r).command
  {
    var s1 := Step(interval, s0, MaxCurrent(id));
    ThreadWaits(interval, s1, es0, id);
    var s := Run(interval, s1, es0);
    assert Step(interval, s, Check(id)).threads[id] == Applying(SingleTry, s.enabled);
    ThreadWaits(interval, Step(interval, s, Check(id)), es1, id);
    var s2 := Run(interval, Step(interval, s, Check(id)), es1);
    assert Step(interval, s2, Decide(id, r)).threads[id] == AfterDecision(s2.connected, SingleTry, s.enabled, r);
  }

  // ---------------------------------------------------------------------------------------------
  // The driver
  // ---------------------------------------------------------------------------------------------

  /** The two steps of an apply that nothing interrupts. */
  function ApplySteps(interval: int, s: State, id: nat, r: Remote): State {
    Step(interval, Step(interval, s, Decide(id, r)), Send(id, r.accepts))
  }

  lemma ApplyCompletes(interval: int, s: State, id: nat, who: Applier, on: bool, r: Remote)
    requires id in s.threads && s.threads[id] == Applying(who, on)
    ensures ApplySteps(interval, s, id, r) == With(s, id, AfterApply(who, on, Apply(s.connected, on, r).err))
  {
    var decided := Step(interval, s, Decide(id, r));
    assert decided == With(s, id, AfterDecision(s.connected, who, on, r));
    if !decided.threads[id].Sending? {
      assert Step(interval, decided, Send(id, r.accepts)) == decided;
    }
  }

  /** The last two steps of an Enable call whose apply left goroutine id at t. */
  lemma RecordCompletes(interval: int, s: State, id: nat, loop: nat, t: Thread)
    requires loop !in s.threads && id != loop && (t.Done? || t.Recording?)
    ensures Step(interval, Step(interval, With(s, id, t), Record(id)), Event.StartLoop(id, loop)) ==
            if t.Done? then With(s, id, Done)
            else if t.on then StartReboost(With(s, id, Done).(enabled := true), interval, loop)
            else With(s, id, Done).(enabled := false)
  {
    if t.Recording? {
      var recorded := Step(interval, With(s, id, t), Record(id));
      assert recorded == With(s, id, if t.on then Starting else Done).(enabled := t.on);
      assert With(recorded, id, Done) == With(s, id, Done).(enabled := t.on);
    }
  }

  lemma EnableCompletes(interval: int, s: State, id: nat, loop: nat, on: bool, r: Remote)
    requires id !in s.threads && loop !in s.threads && id != loop
    ensures var applied := ApplySteps(interval, Step(interval, s, Request(id, on)), id, r);
            Step(interval, Step(interval, applied, Record(id)), Event.StartLoop(id, loop)) ==
            if Apply(s.connected, on, r).err then With(s, id, Done)
            else if on then StartReboost(With(s, id, Done).(enabled := true), interval, loop)
            else With(s, id, Done).(enabled := false)
  {
    var t := AfterApply(EnableCall, on, Apply(s.connected, on, r).err);
    var requested := Step(interval, s, Request(id, on));
    ApplyCompletes(interval, requested, id, EnableCall, on, r);
    assert With(requested, id, t) == With(s, id, t);
    RecordCompletes(interval, s, id, loop, t);
  }

  class EEBusOhpcf {
    const interval: int
    var connected: bool
    var enabled: bool
    var reboosting: bool
    ghost var threads: map<nat, Thread>  // the goroutines

    ghost function Abstract(): State
      reads this
    {
      State(connected, enabled, reboosting, threads)
    }

    constructor (interval: int)
      ensures this.interval == interval && Abstract() == Initial()
    {
      this.interval := interval;
      connected, enabled, reboosting, threads := false, false, false, map[];
    }

    method StopProcess(r: Remote) returns (command: Option<Command>, err: bool)
      ensures command == StopCommand(r) && err == (command.None? || !r.accepts)
    {
      if r.pausable.Some? && r.pausable.value {
        return Some(SendPause), !r.accepts;
      }
      if r.stoppable.Some? && r.stoppable.value {
        return Some(SendAbort), !r.accepts;
      }
      return None, true;
    }

    method ApplyIntent(enable: bool, r: Remote) returns (command: Option<Command>, err: bool)
      ensures Applied(command, err) == Apply(connected, enable, r)
    {
      if !connected {
        return None, true;
      }
      if r.process.None? {
        return None, false;
      }
      match ControlAction(r.process.value, enable) {
        case ScheduleOrRun => return Some(SendSchedule), !r.accepts;
        case Resume => return Some(SendResume), !r.accepts;
        case Stop => command, err := StopProcess(r);
        case NoAction => return None, false;
      }
    }

    /** An Enable call that nothing interrupts. Its goroutine is id; loop is that of a loop it may start. */
    method Enable(on: bool, r: Remote, ghost id: nat, ghost loop: nat) returns (command: Option<Command>, err: bool)
      requires id !in threads && loop !in threads && id != loop
      modifies this
      ensures Applied(command, err) == Apply(old(connected), on, r)
      ensures var applied := ApplySteps(interval, Step(interval, old(Abstract()), Request(id, on)), id, r);
              Abstract() == Step(interval, Step(interval, applied, Record(id)), Event.StartLoop(id, loop))
    {
      EnableCompletes(interval, Abstract(), id, loop, on, r);
      command, err := ApplyIntent(on, r);
      threads := threads[id := Done];
      if err {
        return;
      }
      enabled := on;
      if on {
        StartLoop(loop);
      }
    }

    method StartLoop(ghost loop: nat)
      modifies this
      ensures Abstract() == StartReboost(old(Abstract()), interval, loop)
    {
      if interval <= 0 || reboosting {
        return;
      }
      reboosting := true;
      threads := threads[loop := Waiting];
    }

    method MaxCurrentCall(r: Remote, ghost id: nat) returns (command: Option<Command>, err: bool)
      requires id !in threads
      modifies this`threads
      ensures Applied(command, err) == Apply(connected, enabled, r)
      ensures var checked := Step(interval, Step(interval, old(Abstract()), MaxCurrent(id)), Check(id));
              Abstract() == ApplySteps(interval, checked, id, r)
    {
      ghost var checked := Step(interval, Step(interval, Abstract(), MaxCurrent(id)), Check(id));
      ApplyCompletes(interval, checked, id, SingleTry, enabled, r);
      command, err := ApplyIntent(enabled, r);
      threads := threads[id := Done];
    }

    /** The consumption state branch of UseCaseEvent; a failed apply is only logged. */
    method ConsumptionState(r: Remote, ghost id: nat) returns (command: Option<Command>)
      requires id !in threads
      modifies this
      ensures command == if enabled then Apply(true, true, r).command else None
      ensures var checked := Step(interval, Step(interval, old(Abstract()), Announce(id)), Check(id));
              Abstract() == ApplySteps(interval, checked, id, r)
    {
      ghost var checked := Step(interval, Step(interval, Abstract(), Announce(id)), Check(id));
      connected := true;
      command := None;
      if enabled {
        ApplyCompletes(interval, checked, id, SingleTry, true, r);
        var err;
        command, err := ApplyIntent(true, r);
      }
      threads := threads[id := Done];
    }

    /** One turn of the loop: the timer, the check, and the apply if the charger is still on. */
    method LoopTurn(r: Remote, ghost id: nat) returns (command: Option<Command>)
      requires id in threads && threads[id].Waiting?
      modifies this`threads
      ensures command == if enabled then Apply(connected, true, r).command else None
      ensures Abstract() == ApplySteps(interval, Step(interval, old(Abstract()), Check(id)), id, r)
    {
      command := None;
      if !enabled {
        threads := threads[id := Exiting];
        return;
      }
      ApplyCompletes(interval, Step(interval, Abstract(), Check(id)), id, Applier.LoopTurn, true, r);
      var err;
      command, err := ApplyIntent(true, r);
      assert threads[id := Waiting] == threads;
    }

    method DeferredReset(ghost id: nat)
      requires id in threads && threads[id].Exiting?
      modifies this
      ensures Abstract() == Step(interval, old(Abstract()), Reset(id))
    {
      reboosting := false;
      threads := threads[id := Done];
    }
  }
}
