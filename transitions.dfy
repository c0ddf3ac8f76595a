/**
 * The session and call state the bridge keeps, and what one received line
 * does to it, as functions of the state before the line. The class in
 * radio.dfy performs the same updates in place and is proved against these.
 */
module Transitions {

  import opened Wrappers
  import opened Text
  import opened Classifier
  import opened Events

  /** What the status queries last reported; every field starts out null. */
  datatype Session = Session(
    issi: Option<string>,     // radioIssi
    battery: Option<string>,  // radioBatteryLevel
    rssi: Option<string>,     // radioRssi
    volume: Option<string>,   // radioVolume
    gssi: Option<string>)     // radioGssi

  /** The open group call and the transmission within it. */
  datatype Call = Call(
    talkgroup: Option<string>, // activeTalkgroup
    sender: Option<string>,    // activeSender
    txStart: Option<nat>)      // timestampTxStart, in milliseconds

  /**
   * Everything a line can affect: the state variables, the commands written
   * to the serial port and the events posted to the server, oldest first.
   */
  datatype State = State(session: Session, call: Call, writes: seq<string>, events: seq<Event>)

  /** Malformed: the source throws part-way through the handler because a comma field is missing. */
  datatype Outcome = Done | Malformed

  datatype Reaction = Reaction(next: State, outcome: Outcome)

  const Idle: Call := Call(None, None, None)

  const Initial: State := State(Session(None, None, None, None, None), Idle, [], [])

  /** The status report answering the PIN query when no PIN is needed. */
  const Unlocked: string := "MT PIN-UNLOCKED"

  /** The command that unlocks the radio with its configured PIN. */
  function UnlockCommand(pin: string): string {
    "AT+CPIN=" + pin + "\r\n"
  }

  /**
   * `callSetup`: the talkgroup is comma field 11 of the notification, kept
   * untrimmed, and one GROUPOPEN event reports it.
   */
  function CallSetupStep(s: State, rest: string, now: nat): Reaction {
    match Field(rest, 11)
    case None => Reaction(s, Malformed)
    case Some(talkgroup) =>
      Reaction(s.(call := s.call.(talkgroup := Some(talkgroup)),
                  events := s.events + [GroupOpen(Some(PlaceholderIssi), Some(talkgroup), Seconds(now))]),
               Done)
  }

  /** `callEnd`: one GROUPCLOSED event for the talkgroup that was open, then no talkgroup. */
  function CallEndStep(s: State, now: nat): State {
    s.(call := s.call.(talkgroup := None),
       events := s.events + [GroupClosed(Some(PlaceholderIssi), s.call.talkgroup, Seconds(now))])
  }

  /**
   * `transmissionStart`: the start time is recorded first; then the sender
   * is comma field 5, trimmed, and one TXSTART event names it with the
   * current talkgroup. Without field 5 the source throws after the start
   * time was already recorded.
   */
  function TxStartStep(s: State, rest: string, now: nat): Reaction {
    var timed := s.(call := s.call.(txStart := Some(now)));
    match Field(rest, 5)
    case None => Reaction(timed, Malformed)
    case Some(field) =>
      var sender := TrimEnd(field);
      Reaction(timed.(call := timed.call.(sender := Some(sender)),
                      events := s.events + [TxStart(Some(sender), s.call.talkgroup, Seconds(now))]),
               Done)
  }

  /** `Date.now() - timestampTxStart`, where a null start time counts as 0. */
  function Elapsed(call: Call, now: nat): int {
    match call.txStart
    case None => now
    case Some(start) => now - start
  }

  /** `transmissionEnd`: one TXEND event for the sender and talkgroup, then no sender. */
  function TxEndStep(s: State, now: nat): State {
    s.(call := s.call.(sender := None),
       events := s.events + [TxEnd(s.call.sender, s.call.talkgroup, Seconds(now), Elapsed(s.call, now))])
  }

  /** `sendStatus`: the session as it stands, as a RADIOSTATUS event. */
  function StatusReport(session: Session, now: nat): Event {
    RadioStatus(session.issi, session.gssi, session.rssi, session.battery, session.volume, Seconds(now))
  }

  /**
   * What a line of kind `k` does to `s`; `rest` is the line after the
   * prefix of `k`, and `line` is the whole line, which the identity
   * response cuts its value from.
   */
  function React(s: State, pin: string, k: FrameKind, line: string, rest: string, now: nat): Reaction {
    match k
    case SignalResp =>
      Reaction(s.(session := s.session.(rssi := Some(TrimEnd(Split(rest, ',')[0])))), Done)
    case BatteryResp =>
      (match Field(rest, 1)
       case None => Reaction(s, Malformed)
       case Some(f) => Reaction(s.(session := s.session.(battery := Some(TrimEnd(f)))), Done))
    case VolumeResp =>
      Reaction(s.(session := s.session.(volume := Some(TrimEnd(rest)))), Done)
    case IdentityResp =>
      Reaction(s.(session := s.session.(issi := Some(TrimEnd(LastN(line, 8))))), Done)
    case GroupResp =>
      (match Field(rest, 1)
       case None => Reaction(s, Malformed)
       case Some(f) => Reaction(s.(session := s.session.(gssi := Some(TrimEnd(f)))), Done))
    case CallSetupNote => CallSetupStep(s, rest, now)
    case TxGrantNote => TxStartStep(s, rest, now)
    case TxEndNote => Reaction(TxEndStep(s, now), Done)
    case CallTeardownNote => Reaction(CallEndStep(s, now), Done)
    case PinResp =>
      if TrimEnd(rest) == Unlocked then Reaction(s, Done)
      else Reaction(s.(writes := s.writes + [UnlockCommand(pin)]), Done)
    case CallConnectedNote => Reaction(s, Done)
    case Ack => Reaction(s, Done)
    case LineFeed => Reaction(s, Done)
    case CarriageReturn => Reaction(s, Done)
    case Unhandled => Reaction(s, Done)
  }

  /** The `data` handler: what the line `line`, received at `now`, does to `s`. */
  function Step(s: State, pin: string, line: string, now: nat): Reaction {
    var k := Classify(line);
    React(s, pin, k, line, if k == Unhandled then "" else Remainder(line, k), now)
  }

  /** One line delivered by the transport, with the clock reading at its arrival. */
  datatype Input = Input(line: string, now: nat)

  /** The lines handled one after another, each fully before the next. */
  function Run(s: State, pin: string, inputs: seq<Input>): State
    decreases |inputs|
  {
    if inputs == [] then s
    else Run(Step(s, pin, inputs[0].line, inputs[0].now).next, pin, inputs[1..])
  }
}
