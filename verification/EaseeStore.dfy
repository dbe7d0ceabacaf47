/** The Easee observation store: timestamped cloud messages that may arrive late, repeated or out of
    order (charger/easee.go). Times are integers in nanoseconds. */
module EaseeStore {
  import opened Wrappers

  const OBSERVATION_TIMEOUT := 1_200_000_000_000
  const MODE_DISCONNECTED := 1
  const MODE_AWAITING_START := 2
  const MODE_CHARGING := 3
  const MODE_COMPLETED := 4
  const MODE_READY_TO_CHARGE := 6
  const MODE_AWAITING_AUTHENTICATION := 7
  const MODE_DEAUTHENTICATING := 8

  datatype Line = L1 | L2 | L3

  datatype PerLine = PerLine(l1: real, l2: real, l3: real) {
    function Get(line: Line): real {
      match line
      case L1 => l1
      case L2 => l2
      case L3 => l3
    }

    function Set(line: Line, x: real): PerLine {
      match line
      case L1 => this.(l1 := x)
      case L2 => this.(l2 := x)
      case L3 => this.(l3 := x)
    }
  }

  datatype ObservationId =
    | UserIdTokenId | IsEnabledId | SmartChargingId | TotalPowerId | SessionEnergyId | LifetimeEnergyId
    | IntCurrentId(line: Line) | PhaseModeId | DynamicCircuitCurrentId(line: Line) | MaxChargerCurrentId
    | DynamicChargerCurrentId | ChargeSessionStartId | ChargingSessionId | ChargerOpModeId
    | ReasonForNoCurrentId | PilotModeId | OtherId(code: int)

  datatype SessionStartData = SessionStartData(id: int, meterValue: real)
  datatype SessionData = SessionData(id: int, energy: real, meterValueStop: real)

  /** The typed value of an observation; the two session payloads may fail to decode on their own. */
  datatype Content =
    | UserIdToken(token: string)
    | IsEnabled(on: bool)
    | SmartCharging(on: bool)
    | TotalPower(kw: real)
    | SessionEnergy(kwh: real)
    | LifetimeEnergy(kwh: real)
    | IntCurrent(line: Line, amps: real)
    | PhaseMode(mode: int)
    | DynamicCircuitCurrent(line: Line, amps: real)
    | MaxChargerCurrent(amps: real)
    | DynamicChargerCurrent(amps: real)
    | ChargeSessionStart(start: Option<SessionStartData>)
    | ChargingSession(session: Option<SessionData>)
    | ChargerOpMode(mode: int)
    | ReasonForNoCurrent(reason: int)
    | PilotMode(pilot: string)
    | Other(code: int)

  function IdOf(c: Content): ObservationId {
    match c
    case UserIdToken(_) => UserIdTokenId
    case IsEnabled(_) => IsEnabledId
    case SmartCharging(_) => SmartChargingId
    case TotalPower(_) => TotalPowerId
    case SessionEnergy(_) => SessionEnergyId
    case LifetimeEnergy(_) => LifetimeEnergyId
    case IntCurrent(line, _) => IntCurrentId(line)
    case PhaseMode(_) => PhaseModeId
    case DynamicCircuitCurrent(line, _) => DynamicCircuitCurrentId(line)
    case MaxChargerCurrent(_) => MaxChargerCurrentId
    case DynamicChargerCurrent(_) => DynamicChargerCurrentId
    case ChargeSessionStart(_) => ChargeSessionStartId
    case ChargingSession(_) => ChargingSessionId
    case ChargerOpMode(_) => ChargerOpModeId
    case ReasonForNoCurrent(_) => ReasonForNoCurrentId
    case PilotMode(_) => PilotModeId
    case Other(code) => OtherId(code)
  }

  datatype Observation = Observation(timestamp: int, content: Content)

  /** A message as it arrives: not decodable at all, or an observation received at local time now. */
  datatype Delivery = Garbled | Received(obs: Observation, now: int)

  datatype State = State(
    rfid: string, chargerEnabled: bool, smartCharging: bool, currentPower: real,
    sessionEnergy: real, totalEnergy: real, currents: PerLine, phaseMode: int,
    dynamicCircuitCurrent: PerLine, maxChargerCurrent: real, dynamicChargerCurrent: real,
    currentSessionID: int, opMode: int, reasonForNoCurrent: int, pilotMode: string,
    obsTime: map<ObservationId, int>, lastObsReceived: int)

  function Initial(): State {
    var zero := PerLine(0.0, 0.0, 0.0);
    State("", false, false, 0.0, 0.0, 0.0, zero, 0, zero, 0.0, 0.0, 0, 0, 0, "", map[], 0)
  }

  /** Not older than the last accepted observation of its id. */
  predicate Fresh(s: State, o: Observation) {
    var id := IdOf(o.content);
    id !in s.obsTime || s.obsTime[id] <= o.timestamp
  }

  predicate ConnectsFrom(s: State, mode: int) {
    s.opMode <= MODE_DISCONNECTED && mode >= MODE_AWAITING_START
  }

  function Store(s: State, c: Content, now: int): State {
    match c
    case UserIdToken(token) => s.(rfid := token)
    case IsEnabled(on) => s.(chargerEnabled := on)
    case SmartCharging(on) => s.(smartCharging := on)
    case TotalPower(kw) => s.(currentPower := 1000.0 * kw)
    case SessionEnergy(kwh) => if kwh != 0.0 then s.(sessionEnergy := kwh) else s
    case LifetimeEnergy(kwh) => if kwh >= s.totalEnergy then s.(totalEnergy := kwh) else s
    case IntCurrent(line, amps) => s.(currents := s.currents.Set(line, amps))
    case PhaseMode(mode) => s.(phaseMode := mode)
    case DynamicCircuitCurrent(line, amps) =>
      s.(dynamicCircuitCurrent := s.dynamicCircuitCurrent.Set(line, amps))
    case MaxChargerCurrent(amps) => s.(maxChargerCurrent := amps)
    case DynamicChargerCurrent(amps) => s.(dynamicChargerCurrent := amps)
    case ChargeSessionStart(None) => s
    case ChargeSessionStart(Some(data)) =>
      s.(currentSessionID := data.id,
         totalEnergy := if data.meterValue >= s.totalEnergy then data.meterValue else s.totalEnergy)
    case ChargingSession(None) => s
    case ChargingSession(Some(data)) =>
      s.(totalEnergy := if data.meterValueStop >= s.totalEnergy then data.meterValueStop else s.totalEnergy,
         sessionEnergy := if data.id == s.currentSessionID then data.energy else s.sessionEnergy)
    case ChargerOpMode(mode) =>
      if ConnectsFrom(s, mode) then
        s.(sessionEnergy := 0.0, currentSessionID := 0,
           obsTime := s.obsTime[SessionEnergyId := now], opMode := mode)
      else s.(opMode := mode)
    case ReasonForNoCurrent(reason) => s.(reasonForNoCurrent := reason)
    case PilotMode(pilot) => s.(pilotMode := pilot)
    case Other(_) => s
  }

  /** Notes the time of an accepted observation, and that the charger is alive unless it is a replay. */
  function Note(s: State, o: Observation, now: int): State {
    s.(obsTime := s.obsTime[IdOf(o.content) := o.timestamp],
       lastObsReceived := if now - o.timestamp < OBSERVATION_TIMEOUT then now else s.lastObsReceived)
  }

  function Step(s: State, d: Delivery): State {
    if d.Garbled? || !Fresh(s, d.obs) then s
    else Store(Note(s, d.obs, d.now), d.obs.content, d.now)
  }

  function Run(s: State, ds: seq<Delivery>): State {
    if ds == [] then s else Step(Run(s, ds[..|ds| - 1]), ds[|ds| - 1])
  }

  /** The phase count shown: counted over the circuit, or the charger's mode with automatic as three. */
  function ReportedPhases(circuit: int, s: State): int {
    if circuit != 0 then
      (if s.dynamicCircuitCurrent.l1 > 0.0 then 1 else 0)
      + (if s.dynamicCircuitCurrent.l2 > 0.0 then 1 else 0)
      + (if s.dynamicCircuitCurrent.l3 > 0.0 then 1 else 0)
    else if s.phaseMode == 2 then 3 else s.phaseMode
  }

  datatype ChargeStatus = StatusA | StatusB | StatusC

  /** Connected and not charging. */
  predicate PluggedIn(opMode: int) {
    || opMode == MODE_AWAITING_START || opMode == MODE_COMPLETED || opMode == MODE_READY_TO_CHARGE
    || opMode == MODE_AWAITING_AUTHENTICATION || opMode == MODE_DEAUTHENTICATING
  }

  /** The charge status of an operation mode; offline, error and unknown modes have none. */
  function Status(opMode: int): Option<ChargeStatus> {
    if opMode == MODE_DISCONNECTED then Some(StatusA)
    else if PluggedIn(opMode) then Some(StatusB)
    else if opMode == MODE_CHARGING then Some(StatusC)
    else None
  }

  /** The power shown at a local time: an error without a status, zero while disconnected or once nothing
      live was heard for the timeout. The mode is read before the rest. */
  function CurrentPower(opMode: int, s: State, now: int): Option<real> {
    match Status(opMode)
    case None => None
    case Some(StatusA) => Some(0.0)
    case Some(_) => Some(if now - s.lastObsReceived > OBSERVATION_TIMEOUT then 0.0 else s.currentPower)
  }

  // ---------------------------------------------------------------------------------------------
  // The driver
  // ---------------------------------------------------------------------------------------------

  class Easee {
    const circuit: int
    var rfid: string
    var chargerEnabled: bool
    var smartCharging: bool
    var currentPower: real
    var sessionEnergy: real
    var totalEnergy: real
    var currents: PerLine
    var phaseMode: int
    var dynamicCircuitCurrent: PerLine
    var maxChargerCurrent: real
    var dynamicChargerCurrent: real
    var currentSessionID: int
    var opMode: int
    var reasonForNoCurrent: int
    var pilotMode: string
    var obsTime: map<ObservationId, int>
    var lastObsReceived: int

    function Abstract(): State
      reads this
    {
      State(rfid, chargerEnabled, smartCharging, currentPower, sessionEnergy, totalEnergy, currents, phaseMode,
            dynamicCircuitCurrent, maxChargerCurrent, dynamicChargerCurrent, currentSessionID, opMode,
            reasonForNoCurrent, pilotMode, obsTime, lastObsReceived)
    }

    constructor (circuit: int)
      ensures this.circuit == circuit && Abstract() == Initial()
    {
      this.circuit := circuit;
      rfid, pilotMode, chargerEnabled, smartCharging := "", "", false, false;
      currentPower, sessionEnergy, totalEnergy := 0.0, 0.0, 0.0;
      currents, dynamicCircuitCurrent := PerLine(0.0, 0.0, 0.0), PerLine(0.0, 0.0, 0.0);
      maxChargerCurrent, dynamicChargerCurrent := 0.0, 0.0;
      phaseMode, currentSessionID, opMode, reasonForNoCurrent := 0, 0, 0, 0;
      obsTime, lastObsReceived := map[], 0;
    }

    method ProductUpdate(d: Delivery)
      modifies this
      ensures Abstract() == Step(old(Abstract()), d)
    {
      if d.Garbled? {
        return;
      }
      var id, content := IdOf(d.obs.content), d.obs.content;
      if id in obsTime && obsTime[id] > d.obs.timestamp {
        return;
      }
      obsTime := obsTime[id := d.obs.timestamp];
      if d.now - d.obs.timestamp < OBSERVATION_TIMEOUT {
        lastObsReceived := d.now;
      }
      StoreContent(content, d.now);
    }

    method StoreContent(content: Content, now: int)
      modifies this
      ensures Abstract() == Store(old(Abstract()), content, now)
    {
      if content.ChargerOpMode? {
        StoreOpMode(content.mode, now);
      } else if content.SessionEnergy? || content.LifetimeEnergy? || content.ChargeSessionStart?
                || content.ChargingSession? {
        StoreEnergy(content);
      } else if content.IntCurrent? || content.DynamicCircuitCurrent? || content.MaxChargerCurrent?
                || content.DynamicChargerCurrent? || content.TotalPower? {
        StoreMeasurement(content);
      } else {
        StoreSetting(content);
      }
    }

    method StoreSetting(content: Content)
      requires content.UserIdToken? || content.IsEnabled? || content.SmartCharging? || content.PhaseMode?
            || content.ReasonForNoCurrent? || content.PilotMode? || content.Other?
      modifies this`rfid, this`chargerEnabled, this`smartCharging, this`phaseMode, this`reasonForNoCurrent,
               this`pilotMode
      ensures Abstract() == Store(old(Abstract()), content, 0)
    {
      match content {
        case UserIdToken(token) => rfid := token;
        case IsEnabled(on) => chargerEnabled := on;
        case SmartCharging(on) => smartCharging := on;
        case PhaseMode(mode) => phaseMode := mode;
        case ReasonForNoCurrent(reason) => reasonForNoCurrent := reason;
        case PilotMode(pilot) => pilotMode := pilot;
        case Other(_) =>
      }
    }

    method StoreMeasurement(content: Content)
      requires content.IntCurrent? || content.DynamicCircuitCurrent? || content.MaxChargerCurrent?
            || content.DynamicChargerCurrent? || content.TotalPower?
      modifies this`currentPower, this`currents, this`dynamicCircuitCurrent, this`maxChargerCurrent,
               this`dynamicChargerCurrent
      ensures Abstract() == Store(old(Abstract()), content, 0)
    {
      match content {
        case TotalPower(kw) => currentPower := 1000.0 * kw;
        case IntCurrent(line, amps) => currents := currents.Set(line, amps);
        case DynamicCircuitCurrent(line, amps) => dynamicCircuitCurrent := dynamicCircuitCurrent.Set(line, amps);
        case MaxChargerCurrent(amps) => maxChargerCurrent := amps;
        case DynamicChargerCurrent(amps) => dynamicChargerCurrent := amps;
      }
    }

    method StoreEnergy(content: Content)
      requires content.SessionEnergy? || content.LifetimeEnergy? || content.ChargeSessionStart?
            || content.ChargingSession?
      modifies this`sessionEnergy, this`totalEnergy, this`currentSessionID
      ensures Abstract() == Store(old(Abstract()), content, 0)
    {
      match content {
        case SessionEnergy(kwh) =>
          if kwh != 0.0 {
            sessionEnergy := kwh;
          }
        case LifetimeEnergy(kwh) =>
          if kwh >= totalEnergy {
            totalEnergy := kwh;
          }
        case ChargeSessionStart(start) =>
          if start.Some? {
            currentSessionID := start.value.id;
            if start.value.meterValue >= totalEnergy {
              totalEnergy := start.value.meterValue;
            }
          }
        case ChargingSession(session) =>
          if session.Some? {
            if session.value.meterValueStop >= totalEnergy {
              totalEnergy := session.value.meterValueStop;
            }
            if session.value.id == currentSessionID {
              sessionEnergy := session.value.energy;
            }
          }
      }
    }

    method StoreOpMode(mode: int, now: int)
      modifies this`sessionEnergy, this`currentSessionID, this`opMode, this`obsTime
      ensures Abstract() == Store(old(Abstract()), ChargerOpMode(mode), now)
    {
      if opMode <= MODE_DISCONNECTED && mode >= MODE_AWAITING_START {
        sessionEnergy := 0.0;
        currentSessionID := 0;
        obsTime := obsTime[SessionEnergyId := now];
      }
      opMode := mode;
    }

    method GetPhases() returns (phases: int)
      ensures phases == ReportedPhases(circuit, Abstract())
    {
      phases := 0;
      if circuit != 0 {
        var dcc := [dynamicCircuitCurrent.l1, dynamicCircuitCurrent.l2, dynamicCircuitCurrent.l3];
        for i := 0 to |dcc|
          invariant phases == Positives(dcc, i)
        {
          if dcc[i] > 0.0 {
            phases := phases + 1;
          }
        }
        assert Positives(dcc, 1) == if dcc[0] > 0.0 then 1 else 0;
      } else {
        phases := phaseMode;
        if phases == 2 {
          phases := 3;
        }
      }
    }

    method GetStatus() returns (res: Option<ChargeStatus>)
      ensures res == Status(opMode)
    {
      res := None;
      if opMode == MODE_DISCONNECTED {
        res := Some(StatusA);
      } else if PluggedIn(opMode) {
        res := Some(StatusB);
      } else if opMode == MODE_CHARGING {
        res := Some(StatusC);
      }
    }

    method GetCurrentPower(now: int) returns (power: Option<real>)
      ensures power == CurrentPower(opMode, Abstract(), now)
    {
      var status := GetStatus();
      if status.None? {
        return None;
      }
      if status.value.StatusA? || now - lastObsReceived > OBSERVATION_TIMEOUT {
        return Some(0.0);
      }
      return Some(currentPower);
    }
  }

  /** How many of the first n values are positive. */
  ghost function Positives(xs: seq<real>, n: nat): int
    requires n <= |xs|
  {
    if n == 0 then 0 else Positives(xs, n - 1) + (if xs[n - 1] > 0.0 then 1 else 0)
  }
}
