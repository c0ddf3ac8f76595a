/**
 * What one received line, and a run of them, does to the bridge's state,
 * stated by the prefix the line starts with: these hold whatever the order
 * of the handler's prefix tests, because the prefixes exclude each other.
 */
module Properties {

  import opened Wrappers
  import opened Text
  import opened Classifier
  import opened Events
  import opened Transitions

  /** A line that starts with a recognised prefix is handled as that kind, with the rest of the line after the prefix. */
  lemma StepByPrefix(s: State, pin: string, line: string, now: nat, k: FrameKind)
    requires k != Unhandled && StartsWith(line, Prefix(k))
    ensures Step(s, pin, line, now) == React(s, pin, k, line, line[|Prefix(k)|..], now)
  {
    ClassifyExact(line, k);
  }

  /** A line that starts with no recognised prefix changes nothing, writes nothing and posts nothing. */
  lemma UnrecognizedLineIsNoOp(s: State, pin: string, line: string, now: nat)
    requires forall k :: k != Unhandled ==> !StartsWith(line, Prefix(k))
    ensures Step(s, pin, line, now) == Reaction(s, Done)
  {
    ClassifyUnhandled(line);
  }

  /** "OK", blank lines and the call-connected notification are ignored as well. */
  lemma IgnoredLineIsNoOp(s: State, pin: string, line: string, now: nat)
    requires || StartsWith(line, "OK") || StartsWith(line, "\n") || StartsWith(line, "\r")
             || StartsWith(line, "+CTCC: ")
    ensures Step(s, pin, line, now) == Reaction(s, Done)
  {
    if StartsWith(line, "OK") {
      StepByPrefix(s, pin, line, now, Ack);
    } else if StartsWith(line, "\n") {
      StepByPrefix(s, pin, line, now, LineFeed);
    } else if StartsWith(line, "\r") {
      StepByPrefix(s, pin, line, now, CarriageReturn);
    } else {
      StepByPrefix(s, pin, line, now, CallConnectedNote);
    }
  }

  /** A signal report sets the signal level to comma field 0 of the remainder, trimmed, and changes nothing else. */
  lemma SignalResponse(s: State, pin: string, line: string, now: nat)
    requires StartsWith(line, "+CSQ: ")
    ensures Step(s, pin, line, now)
         == Reaction(s.(session := s.session.(rssi := Some(TrimEnd(Split(line[6..], ',')[0])))), Done)
  {
    StepByPrefix(s, pin, line, now, SignalResp);
  }

  /**
   * A battery report sets the battery level to comma field 1 of the
   * remainder, trimmed, and changes nothing else; without field 1 it fails
   * and changes nothing at all.
   */
  lemma BatteryResponse(s: State, pin: string, line: string, now: nat)
    requires StartsWith(line, "+CBC: ")
    ensures var r := Step(s, pin, line, now);
            var f := Field(line[6..], 1);
      && (f.Some? ==> r == Reaction(s.(session := s.session.(battery := Some(TrimEnd(f.value)))), Done))
      && (f.None? ==> r == Reaction(s, Malformed))
  {
    StepByPrefix(s, pin, line, now, BatteryResp);
  }

  /** A volume report sets the volume to the whole remainder, trimmed, and changes nothing else. */
  lemma VolumeResponse(s: State, pin: string, line: string, now: nat)
    requires StartsWith(line, "+CLVL: ")
    ensures Step(s, pin, line, now)
         == Reaction(s.(session := s.session.(volume := Some(TrimEnd(line[7..])))), Done)
  {
    StepByPrefix(s, pin, line, now, VolumeResp);
  }

  /** An identity report sets the identity to the last 8 characters of the line, trimmed, and changes nothing else. */
  lemma IdentityResponse(s: State, pin: string, line: string, now: nat)
    requires StartsWith(line, "+CNUMF: ")
    ensures Step(s, pin, line, now)
         == Reaction(s.(session := s.session.(issi := Some(TrimEnd(LastN(line, 8))))), Done)
  {
    StepByPrefix(s, pin, line, now, IdentityResp);
  }

  /**
   * A group report sets the group address to comma field 1 of the
   * remainder, trimmed, and changes nothing else; without field 1 it fails
   * and changes nothing at all.
   */
  lemma GroupStatusResponse(s: State, pin: string, line: string, now: nat)
    requires StartsWith(line, "+CTGS: ")
    ensures var r := Step(s, pin, line, now);
            var f := Field(line[7..], 1);
      && (f.Some? ==> r == Reaction(s.(session := s.session.(gssi := Some(TrimEnd(f.value)))), Done))
      && (f.None? ==> r == Reaction(s, Malformed))
  {
    StepByPrefix(s, pin, line, now, GroupResp);
  }

  /** The fields of the example signal report. */
  lemma SignalFields()
    ensures TrimEnd(Split("23,4", ',')[0]) == "23"
  {
    assert "23,4" == "23" + [','] + "4";
    SplitAround("23", "4", ',');
    SplitFree("23", ',');
    SplitFree("4", ',');
    assert !IsWhitespace("23"[1]);
  }

  /** The worked example of a signal response: "+CSQ: 23,4" reports a signal level of "23". */
  lemma SignalExample(s: State, pin: string, now: nat)
    ensures Step(s, pin, "+CSQ: 23,4", now).next.session.rssi == Some("23")
  {
    var line := "+CSQ: 23,4";
    Prefixed("+CSQ: ", "23,4");
    assert line == "+CSQ: " + "23,4";
    SignalResponse(s, pin, line, now);
    SignalFields();
  }

  /**
   * Call setup: the talkgroup becomes comma field 11 of the remainder and one
   * GROUPOPEN event with the placeholder identity reports it; the sender,
   * the start time, the session and the writes are untouched.
   */
  lemma CallSetupLine(s: State, pin: string, line: string, now: nat)
    requires StartsWith(line, "+CTICN: ")
    ensures var r := Step(s, pin, line, now);
            var f := Field(line[8..], 11);
      && (f.Some? ==>
            && r.outcome == Done
            && r.next.call == Call(f, s.call.sender, s.call.txStart)
            && r.next.events == s.events + [GroupOpen(Some(PlaceholderIssi), f, now / 1000)]
            && r.next.session == s.session && r.next.writes == s.writes)
      && (f.None? ==> r == Reaction(s, Malformed))
  {
    StepByPrefix(s, pin, line, now, CallSetupNote);
  }

  /**
   * Transmission grant, accepted whether or not a call is open: the start
   * time becomes `now` in every case; with comma field 5 present the sender
   * becomes that field, trimmed, and one TXSTART event names it together
   * with the talkgroup as it stood, which may be null.
   */
  lemma TxGrantLine(s: State, pin: string, line: string, now: nat)
    requires StartsWith(line, "+CTXG: ")
    ensures var r := Step(s, pin, line, now);
            var f := Field(line[7..], 5);
      && r.next.call.txStart == Some(now)
      && r.next.call.talkgroup == s.call.talkgroup
      && r.next.session == s.session && r.next.writes == s.writes
      && (f.Some? ==>
            && r.outcome == Done
            && r.next.call.sender == Some(TrimEnd(f.value))
            && r.next.events == s.events + [TxStart(Some(TrimEnd(f.value)), s.call.talkgroup, now / 1000)])
      && (f.None? ==> r.outcome == Malformed && r.next.call.sender == s.call.sender && r.next.events == s.events)
  {
    StepByPrefix(s, pin, line, now, TxGrantNote);
  }

  /**
   * Transmission end: one TXEND event for the sender and talkgroup as they
   * were, timed from the recorded start (0 when none was recorded); then
   * the sender is null while the talkgroup and the start time remain.
   */
  lemma TxEndLine(s: State, pin: string, line: string, now: nat)
    requires StartsWith(line, "+CDTXC: ")
    ensures var r := Step(s, pin, line, now);
      && r.outcome == Done
      && r.next.call == Call(s.call.talkgroup, None, s.call.txStart)
      && r.next.events == s.events + [TxEnd(s.call.sender, s.call.talkgroup, now / 1000, Elapsed(s.call, now))]
      && r.next.session == s.session && r.next.writes == s.writes
  {
    StepByPrefix(s, pin, line, now, TxEndNote);
  }

  /** The elapsed time is measured from the recorded start, or from 0 when none was recorded. */
  lemma ElapsedFromStart(call: Call, now: nat)
    ensures call.txStart.Some? ==> Elapsed(call, now) == now - call.txStart.value
    ensures call.txStart.None? ==> Elapsed(call, now) == now
  {
  }

  /**
   * Call teardown: one GROUPCLOSED event with the placeholder identity and
   * the talkgroup as it was; then no talkgroup, while the sender and the
   * start time remain.
   */
  lemma TeardownLine(s: State, pin: string, line: string, now: nat)
    requires StartsWith(line, "+CTCR: ")
    ensures var r := Step(s, pin, line, now);
      && r.outcome == Done
      && r.next.call == Call(None, s.call.sender, s.call.txStart)
      && r.next.events == s.events + [GroupClosed(Some(PlaceholderIssi), s.call.talkgroup, now / 1000)]
      && r.next.session == s.session && r.next.writes == s.writes
  {
    StepByPrefix(s, pin, line, now, CallTeardownNote);
  }

  /**
   * Two teardowns in a row: the second posts GROUPCLOSED with a null
   * talkgroup and leaves the state variables as the first left them.
   */
  lemma TeardownTwice(s: State, pin: string, first: string, second: string, t1: nat, t2: nat)
    requires StartsWith(first, "+CTCR: ") && StartsWith(second, "+CTCR: ")
    ensures var s1 := Step(s, pin, first, t1).next;
            var s2 := Step(s1, pin, second, t2).next;
      && s2.session == s1.session && s2.call == s1.call && s2.writes == s1.writes
      && s2.events == s1.events + [GroupClosed(Some(PlaceholderIssi), None, t2 / 1000)]
  {
    TeardownLine(s, pin, first, t1);
    TeardownLine(Step(s, pin, first, t1).next, pin, second, t2);
  }

  /**
   * PIN status: when the trimmed report is not "MT PIN-UNLOCKED", exactly one
   * unlock command carrying the PIN is written; otherwise nothing is. No
   * state variable changes and nothing is posted.
   */
  lemma PinLine(s: State, pin: string, line: string, now: nat)
    requires StartsWith(line, "+CPIN: ")
    ensures var r := Step(s, pin, line, now);
      && r.outcome == Done
      && r.next.session == s.session && r.next.call == s.call && r.next.events == s.events
      && r.next.writes == s.writes + (if TrimEnd(line[7..]) == "MT PIN-UNLOCKED" then []
                                      else ["AT+CPIN=" + pin + "\r\n"])
  {
    StepByPrefix(s, pin, line, now, PinResp);
  }

  /** Whatever its kind, a line appends at most one entry to the logs: a command or an event, never both. */
  lemma ReactAppendsAtMostOne(s: State, pin: string, k: FrameKind, line: string, rest: string, now: nat)
    ensures var n := React(s, pin, k, line, rest, now).next;
      && s.writes <= n.writes && s.events <= n.events
      && (|n.writes| - |s.writes|) + (|n.events| - |s.events|) <= 1
  {
  }

  /**
   * A line only ever appends to the logs, by at most one entry in all: one
   * command written or one event posted, never both.
   */
  lemma StepAppendsAtMostOne(s: State, pin: string, line: string, now: nat)
    ensures var n := Step(s, pin, line, now).next;
      && s.writes <= n.writes && s.events <= n.events
      && (|n.writes| - |s.writes|) + (|n.events| - |s.events|) <= 1
  {
    var k := Classify(line);
    ReactAppendsAtMostOne(s, pin, k, line, if k == Unhandled then "" else Remainder(line, k), now);
  }

  /**
   * What a line of each kind may change: only status responses touch the
   * session, only the four call notifications touch the call state, only a
   * PIN report writes and only those notifications post.
   */
  lemma ReactFrames(s: State, pin: string, k: FrameKind, line: string, rest: string, now: nat)
    ensures var n := React(s, pin, k, line, rest, now).next;
      && (n.session != s.session ==> k in {SignalResp, BatteryResp, VolumeResp, IdentityResp, GroupResp})
      && (n.call != s.call ==> k in {CallSetupNote, TxGrantNote, TxEndNote, CallTeardownNote})
      && (n.events != s.events ==> k in {CallSetupNote, TxGrantNote, TxEndNote, CallTeardownNote})
      && (n.writes != s.writes ==> k == PinResp)
      && (s.call.txStart.Some? ==> n.call.txStart.Some?)
  {
  }

  /**
   * Which lines can change what: the session only on a status response, the
   * call state and the event log only on a call notification, and the
   * command log only on a PIN report.
   */
  lemma StepFrames(s: State, pin: string, line: string, now: nat)
    ensures var n := Step(s, pin, line, now).next;
      && (n.session != s.session ==>
            || StartsWith(line, "+CSQ: ") || StartsWith(line, "+CBC: ") || StartsWith(line, "+CLVL: ")
            || StartsWith(line, "+CNUMF: ") || StartsWith(line, "+CTGS: "))
      && (n.call != s.call || n.events != s.events ==>
            || StartsWith(line, "+CTICN: ") || StartsWith(line, "+CTXG: ")
            || StartsWith(line, "+CDTXC: ") || StartsWith(line, "+CTCR: "))
      && (n.writes != s.writes ==> StartsWith(line, "+CPIN: "))
      && (s.call.txStart.Some? ==> n.call.txStart.Some?)
  {
    var k := Classify(line);
    ReactFrames(s, pin, k, line, if k == Unhandled then "" else Remainder(line, k), now);
    if k != Unhandled {
      ClassifyExact(line, k);
    }
  }

  /** A recorded transmission start time is never cleared again, whatever lines follow. */
  lemma {:induction false} TxStartNeverCleared(s: State, pin: string, inputs: seq<Input>)
    requires s.call.txStart.Some?
    ensures Run(s, pin, inputs).call.txStart.Some?
    decreases |inputs|
  {
    if inputs != [] {
      var line := inputs[0].line;
      var k := Classify(line);
      ReactFrames(s, pin, k, line, if k == Unhandled then "" else Remainder(line, k), inputs[0].now);
      TxStartNeverCleared(Step(s, pin, line, inputs[0].now).next, pin, inputs[1..]);
    }
  }

  /** Over a run of lines the logs only grow, by at most one entry per line. */
  lemma {:induction false} RunAppendsOnly(s: State, pin: string, inputs: seq<Input>)
    ensures var n := Run(s, pin, inputs);
      && s.writes <= n.writes && s.events <= n.events
      && (|n.writes| - |s.writes|) + (|n.events| - |s.events|) <= |inputs|
    decreases |inputs|
  {
    if inputs != [] {
      var s1 := Step(s, pin, inputs[0].line, inputs[0].now).next;
      StepAppendsAtMostOne(s, pin, inputs[0].line, inputs[0].now);
      RunAppendsOnly(s1, pin, inputs[1..]);
    }
  }

  /** A run made only of unrecognised lines leaves everything as it was. */
  lemma {:induction false} UnrecognizedRunIsNoOp(s: State, pin: string, inputs: seq<Input>)
    requires forall i, k :: 0 <= i < |inputs| && k != Unhandled ==> !StartsWith(inputs[i].line, Prefix(k))
    ensures Run(s, pin, inputs) == s
    decreases |inputs|
  {
    if inputs != [] {
      UnrecognizedLineIsNoOp(s, pin, inputs[0].line, inputs[0].now);
      assert forall i, k :: 0 <= i < |inputs[1..]| && k != Unhandled ==> !StartsWith(inputs[1..][i].line, Prefix(k)) by {
        forall i, k | 0 <= i < |inputs[1..]| && k != Unhandled ensures !StartsWith(inputs[1..][i].line, Prefix(k)) {
          assert inputs[1..][i] == inputs[i + 1];
        }
      }
      UnrecognizedRunIsNoOp(s, pin, inputs[1..]);
    }
  }

  /** A prefixed line starts with its prefix and has the rest as its remainder. */
  lemma Prefixed(p: string, rest: string)
    ensures StartsWith(p + rest, p) && (p + rest)[|p|..] == rest
  {
    assert (p + rest)[..|p|] == p;
  }

  /** Four lines in a row are handled one after the other. */
  lemma RunFour(s: State, pin: string, a: Input, b: Input, c: Input, d: Input)
    ensures Run(s, pin, [a, b, c, d])
         == Step(Step(Step(Step(s, pin, a.line, a.now).next, pin, b.line, b.now).next,
                      pin, c.line, c.now).next, pin, d.line, d.now).next
  {
    var s1 := Step(s, pin, a.line, a.now).next;
    var s2 := Step(s1, pin, b.line, b.now).next;
    var s3 := Step(s2, pin, c.line, c.now).next;
    var s4 := Step(s3, pin, d.line, d.now).next;
    RunTail(s, pin, [a, b, c, d]);
    RunTail(s1, pin, [b, c, d]);
    RunTail(s2, pin, [c, d]);
    RunTail(s3, pin, [d]);
    assert [a, b, c, d][1..] == [b, c, d];
    assert [b, c, d][1..] == [c, d];
    assert [c, d][1..] == [d];
    assert [d][1..] == [];
  }

  /** A non-empty run handles its first line and then the rest. */
  lemma RunTail(s: State, pin: string, inputs: seq<Input>)
    requires |inputs| > 0
    ensures Run(s, pin, inputs) == Run(Step(s, pin, inputs[0].line, inputs[0].now).next, pin, inputs[1..])
  {
  }

  /** A transmission that started at `t1` has lasted `t2 - t1` at `t2`. */
  lemma ElapsedSince(call: Call, t1: nat, t2: nat)
    requires call.txStart == Some(t1)
    ensures Elapsed(call, t2) == t2 - t1
  {
  }

  /** The first half of a call: setup of talkgroup `tg`, then a grant to `sender`. */
  lemma SetupThenGrant(s: State, pin: string, setup: string, grant: string, t0: nat, t1: nat)
    requires Field(setup, 11).Some? && Field(grant, 5).Some?
    ensures var tg := Field(setup, 11).value;
            var sender := TrimEnd(Field(grant, 5).value);
            var s2 := Step(Step(s, pin, "+CTICN: " + setup, t0).next, pin, "+CTXG: " + grant, t1).next;
      && s2.events == s.events + [GroupOpen(Some(PlaceholderIssi), Some(tg), t0 / 1000),
                                  TxStart(Some(sender), Some(tg), t1 / 1000)]
      && s2.call == Call(Some(tg), Some(sender), Some(t1))
      && s2.session == s.session && s2.writes == s.writes
  {
    Prefixed("+CTICN: ", setup);
    Prefixed("+CTXG: ", grant);
    var s1 := Step(s, pin, "+CTICN: " + setup, t0).next;
    CallSetupLine(s, pin, "+CTICN: " + setup, t0);
    TxGrantLine(s1, pin, "+CTXG: " + grant, t1);
  }

  /** A transmission-end line is handled by `transmissionEnd`. */
  lemma TxEndDispatch(s: State, pin: string, line: string, now: nat)
    requires StartsWith(line, "+CDTXC: ")
    ensures Step(s, pin, line, now) == Reaction(TxEndStep(s, now), Done)
  {
    StepByPrefix(s, pin, line, now, TxEndNote);
  }

  /** A teardown line is handled by `callEnd`. */
  lemma TeardownDispatch(s: State, pin: string, line: string, now: nat)
    requires StartsWith(line, "+CTCR: ")
    ensures Step(s, pin, line, now) == Reaction(CallEndStep(s, now), Done)
  {
    StepByPrefix(s, pin, line, now, CallTeardownNote);
  }

  /** `transmissionEnd` then `callEnd` on a transmission that started at `t1`. */
  lemma EndThenReleaseSteps(s2: State, tg: string, sender: string, t1: nat, t2: nat, t3: nat)
    requires s2.call == Call(Some(tg), Some(sender), Some(t1))
    ensures var s4 := CallEndStep(TxEndStep(s2, t2), t3);
      && s4.events == s2.events + [TxEnd(Some(sender), Some(tg), t2 / 1000, t2 - t1),
                                   GroupClosed(Some(PlaceholderIssi), Some(tg), t3 / 1000)]
      && s4.call == Call(None, None, Some(t1))
      && s4.session == s2.session && s4.writes == s2.writes
  {
    ElapsedSince(s2.call, t1, t2);
  }

  /** The second half of a call: the end of a transmission that started at `t1`, then the teardown. */
  lemma EndThenRelease(s2: State, pin: string, ended: string, released: string, tg: string, sender: string,
                       t1: nat, t2: nat, t3: nat)
    requires s2.call == Call(Some(tg), Some(sender), Some(t1))
    ensures var s4 := Step(Step(s2, pin, "+CDTXC: " + ended, t2).next, pin, "+CTCR: " + released, t3).next;
      && s4.events == s2.events + [TxEnd(Some(sender), Some(tg), t2 / 1000, t2 - t1),
                                   GroupClosed(Some(PlaceholderIssi), Some(tg), t3 / 1000)]
      && s4.call == Call(None, None, Some(t1))
      && s4.session == s2.session && s4.writes == s2.writes
  {
    Prefixed("+CDTXC: ", ended);
    Prefixed("+CTCR: ", released);
    TxEndDispatch(s2, pin, "+CDTXC: " + ended, t2);
    TeardownDispatch(TxEndStep(s2, t2), pin, "+CTCR: " + released, t3);
    EndThenReleaseSteps(s2, tg, sender, t1, t2, t3);
  }

  /**
   * A whole group call: setup of talkgroup `tg`, a grant to a sender, the
   * end of that transmission and the teardown post exactly GROUPOPEN(tg),
   * TXSTART(sender, tg), TXEND(sender, tg, elapsed) and GROUPCLOSED(tg), in
   * that order, and leave no talkgroup and no sender behind.
   */
  lemma CallLifecycle(s: State, pin: string, setup: string, grant: string, ended: string, released: string,
                      t0: nat, t1: nat, t2: nat, t3: nat)
    requires Field(setup, 11).Some? && Field(grant, 5).Some?
    ensures var tg := Field(setup, 11).value;
            var sender := TrimEnd(Field(grant, 5).value);
            var n := Run(s, pin, [Input("+CTICN: " + setup, t0), Input("+CTXG: " + grant, t1),
                                  Input("+CDTXC: " + ended, t2), Input("+CTCR: " + released, t3)]);
      && n.events == s.events + [GroupOpen(Some(PlaceholderIssi), Some(tg), t0 / 1000),
                                 TxStart(Some(sender), Some(tg), t1 / 1000),
                                 TxEnd(Some(sender), Some(tg), t2 / 1000, t2 - t1),
                                 GroupClosed(Some(PlaceholderIssi), Some(tg), t3 / 1000)]
      && n.call == Call(None, None, Some(t1))
      && n.session == s.session && n.writes == s.writes
  {
    var tg := Field(setup, 11).value;
    var sender := TrimEnd(Field(grant, 5).value);
    RunFour(s, pin, Input("+CTICN: " + setup, t0), Input("+CTXG: " + grant, t1),
            Input("+CDTXC: " + ended, t2), Input("+CTCR: " + released, t3));
    SetupThenGrant(s, pin, setup, grant, t0, t1);
    var s2 := Step(Step(s, pin, "+CTICN: " + setup, t0).next, pin, "+CTXG: " + grant, t1).next;
    EndThenRelease(s2, pin, ended, released, tg, sender, t1, t2, t3);
    AppendPairs(s.events, GroupOpen(Some(PlaceholderIssi), Some(tg), t0 / 1000), TxStart(Some(sender), Some(tg), t1 / 1000),
                TxEnd(Some(sender), Some(tg), t2 / 1000, t2 - t1), GroupClosed(Some(PlaceholderIssi), Some(tg), t3 / 1000));
  }

  /** Two entries appended after two others are the four appended at once. */
  lemma AppendPairs(e: seq<Event>, a: Event, b: Event, c: Event, d: Event)
    ensures e + [a, b] + [c, d] == e + [a, b, c, d]
  {
  }
}
