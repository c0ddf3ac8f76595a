/**
 * The bridge itself: the module-level variables of the radio driver as the
 * fields of one object, the serial-port writes and the posted events as two
 * logs, and the handler and the command sequences as methods that update
 * them in place. Every method is proved against the functions of
 * transitions.dfy, whose properties properties.dfy proves.
 */
module Motorola {

  import opened Wrappers
  import opened Text
  import opened Classifier
  import opened Events
  import opened Transitions

  /** The status poll: signal strength, battery, volume, current group, in that order. */
  const PollCommands: seq<string> := ["AT+CSQ?\r\n", "AT+CBC?\r\n", "AT+CLVL?\r\n", "AT+CTGS?\r\n"]

  /**
   * The start-up sequence: echo off, PIN status, manufacturer, model, own
   * identity, then registration for call control and for group control.
   */
  const InitCommands: seq<string> := [
    "ATE0\r\n", "AT+CPIN?\r\n", "AT+GMI?\r\n", "AT+GMM?\r\n", "AT+CNUMF?\r\n",
    "AT+CTSP=2,0,0\r\n", "AT+CTSP=1,1,11\r\n"
  ]

  class Radio {
    /** The configured SIM PIN. */
    const pinCode: string

    var radioIssi: Option<string>
    var radioBatteryLevel: Option<string>
    var radioRssi: Option<string>
    var radioVolume: Option<string>
    var radioGssi: Option<string>

    var activeTalkgroup: Option<string>
    var activeSender: Option<string>
    var timestampTxStart: Option<nat>

    /** Everything written to the serial port, oldest first. */
    var writes: seq<string>
    /** Everything posted to the server, oldest first. */
    var events: seq<Event>

    /** The object's state as a value. */
    function Snapshot(): State
      reads this
    {
      State(Session(radioIssi, radioBatteryLevel, radioRssi, radioVolume, radioGssi),
            Call(activeTalkgroup, activeSender, timestampTxStart),
            writes, events)
    }

    /** Every variable starts out null and nothing has been written or posted. */
    constructor (pinCode: string)
      ensures this.pinCode == pinCode && Snapshot() == Initial
    {
      this.pinCode := pinCode;
      radioIssi, radioBatteryLevel, radioRssi, radioVolume, radioGssi := None, None, None, None, None;
      activeTalkgroup, activeSender, timestampTxStart := None, None, None;
      writes, events := [], [];
    }

    /** `port.write(command)`. */
    method Write(command: string)
      modifies this
      ensures Snapshot() == old(Snapshot()).(writes := old(writes) + [command])
    {
      writes := writes + [command];
    }

    /** The POST of one event record to the server. */
    method Post(e: Event)
      modifies this
      ensures Snapshot() == old(Snapshot()).(events := old(events) + [e])
    {
      events := events + [e];
    }

    /** `callSetup(data)`, where `data` is the notification after its prefix. */
    method CallSetup(data: string, now: nat) returns (outcome: Outcome)
      modifies this
      ensures Reaction(Snapshot(), outcome) == CallSetupStep(old(Snapshot()), data, now)
    {
      var params := Split(data, ',');
      if |params| <= 11 {
        return Malformed;
      }
      var talkgroup := params[11];
      activeTalkgroup := Some(talkgroup);
      Post(GroupOpen(Some(PlaceholderIssi), activeTalkgroup, Seconds(now)));
      outcome := Done;
    }

    /** `callEnd(data)`; the split of `data` it makes is never used, so it is not taken. */
    method CallEnd(now: nat)
      modifies this
      ensures Snapshot() == CallEndStep(old(Snapshot()), now)
    {
      Post(GroupClosed(Some(PlaceholderIssi), activeTalkgroup, Seconds(now)));
      activeTalkgroup := None;
    }

    /** `transmissionStart(data)`: the start time is stored before the fields are read. */
    method TransmissionStart(data: string, now: nat) returns (outcome: Outcome)
      modifies this
      ensures Reaction(Snapshot(), outcome) == TxStartStep(old(Snapshot()), data, now)
    {
      timestampTxStart := Some(now);
      var params := Split(data, ',');
      if |params| <= 5 {
        return Malformed;
      }
      var sender := TrimEnd(params[5]);
      activeSender := Some(sender);
      Post(TxStart(activeSender, activeTalkgroup, Seconds(now)));
      outcome := Done;
    }

    /** `transmissionEnd(data)`: `now - timestampTxStart`, with a null start counting as 0. */
    method TransmissionEnd(now: nat)
      modifies this
      ensures Snapshot() == TxEndStep(old(Snapshot()), now)
    {
      var elapsedTime: int := match timestampTxStart
        case None => now
        case Some(start) => now - start;
      Post(TxEnd(activeSender, activeTalkgroup, Seconds(now), elapsedTime));
      activeSender := None;
    }

    /** `sendStatus()`: the session variables as they stand, as one RADIOSTATUS event. */
    method SendStatus(now: nat)
      modifies this
      ensures Snapshot() == old(Snapshot()).(events := old(events) + [StatusReport(old(Snapshot()).session, now)])
    {
      Post(RadioStatus(radioIssi, radioGssi, radioRssi, radioBatteryLevel, radioVolume, Seconds(now)));
    }

    /**
     * `getRadioStatus()`: the four status queries, then the status event
     * built from the variables as they are once the queries are written.
     */
    method GetRadioStatus(now: nat)
      modifies this
      ensures Snapshot() == old(Snapshot()).(writes := old(writes) + PollCommands,
                                               events := old(events) + [StatusReport(old(Snapshot()).session, now)])
    {
      Write("AT+CSQ?\r\n");
      Write("AT+CBC?\r\n");
      Write("AT+CLVL?\r\n");
      Write("AT+CTGS?\r\n");
      SendStatus(now);
    }

    /** `initializeRadio()`: the seven start-up commands, in order; nothing else changes. */
    method InitializeRadio()
      modifies this
      ensures Snapshot() == old(Snapshot()).(writes := old(writes) + InitCommands)
    {
      Write("ATE0\r\n");
      Write("AT+CPIN?\r\n");
      Write("AT+GMI?\r\n");
      Write("AT+GMM?\r\n");
      Write("AT+CNUMF?\r\n");
      Write("AT+CTSP=2,0,0\r\n");
      Write("AT+CTSP=1,1,11\r\n");
    }

    /**
     * The `data` handler: one line from the radio, received at `now`.
     * Malformed means the source's handler would have thrown part-way.
     */
    method HandleLine(data: string, now: nat) returns (outcome: Outcome)
      modifies this
      ensures Reaction(Snapshot(), outcome) == Step(old(Snapshot()), pinCode, data, now)
    {
      var kind := Classify(data);
      var rest := if kind == Unhandled then "" else Remainder(data, kind);
      outcome := HandleFrame(kind, data, rest, now);
    }

    /** The branch of the handler for a line of kind `kind`; `rest` is the line after its prefix. */
    method HandleFrame(kind: FrameKind, data: string, rest: string, now: nat) returns (outcome: Outcome)
      modifies this
      ensures Reaction(Snapshot(), outcome) == React(old(Snapshot()), pinCode, kind, data, rest, now)
    {
      outcome := Done;
      match kind {
        case SignalResp =>
          radioRssi := Some(TrimEnd(Split(rest, ',')[0]));
        case BatteryResp =>
          var params := Split(rest, ',');
          if |params| <= 1 {
            outcome := Malformed;
          } else {
            radioBatteryLevel := Some(TrimEnd(params[1]));
          }
        case VolumeResp =>
          radioVolume := Some(TrimEnd(rest));
        case IdentityResp =>
          radioIssi := Some(TrimEnd(LastN(data, 8)));
        case GroupResp =>
          var params := Split(rest, ',');
          if |params| <= 1 {
            outcome := Malformed;
          } else {
            radioGssi := Some(TrimEnd(params[1]));
          }
        case CallSetupNote =>
          outcome := CallSetup(rest, now);
        case TxGrantNote =>
          outcome := TransmissionStart(rest, now);
        case CallConnectedNote =>
        case TxEndNote =>
          TransmissionEnd(now);
        case CallTeardownNote =>
          CallEnd(now);
        case PinResp =>
          if TrimEnd(rest) != Unlocked {
            Write(UnlockCommand(pinCode));
          }
        case Ack =>
        case LineFeed =>
        case CarriageReturn =>
        case Unhandled =>
      }
    }
  }
}
