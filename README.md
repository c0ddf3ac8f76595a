# tetra-remote radio bridge, Motorola driver: a Dafny model

`motorola.js` connects a TETRA radio's serial AT-command interface to a
webhook server. It reads the radio's response and notification lines,
keeps the radio's reported status (identity, battery, signal, volume,
current group) and the state of the current group call (talkgroup,
transmitting party, start of transmission), and posts an event for every
call transition (GROUPOPEN, TXSTART, TXEND, GROUPCLOSED). It also writes
two fixed command sequences: a start-up sequence and a status poll, which
ends with a RADIOSTATUS event.

The model has these parts:

- `wrappers.dfy`: `Option`. A JavaScript `null` is `None`.
- `text.dfy`: the string operations the handler uses, each with a contract that characterises it.
  - `substr(0, n) === P` is `StartsWith`.
  - `substr(n)` is `Rest`.
  - `split(",")` is `Split`, with `Join` as its inverse.
  - `trimEnd()` is `TrimEnd`.
  - `substr(-n)` is `LastN`.
- `classifier.dfy`: the handler's `if / else if` chain, written as data (`Chain`) in source order, including the repeated `+CNUMF: ` test. `Dispatch` finds the first matching branch. The lemmas show that the recognised prefixes exclude each other, so exactly one kind applies to a line and the repeated branch never fires.
- `events.dfy`: the posted records. They keep the source's field values; the HTTP request itself is not modelled.
- `transitions.dfy`: the state as a value, with one function per source function.
  - `CallSetupStep`, `CallEndStep`, `TxStartStep`, `TxEndStep` and `StatusReport` cover the call and status functions.
  - `Step` is the whole `data` handler. `Run` handles a sequence of lines.
- `properties.dfy`: what each kind of line does, stated by the prefix the line starts with. It also proves:
  - which lines can change which part of the state;
  - that the logs only grow, by at most one entry per line;
  - that two teardowns in a row behave as expected;
  - the full call lifecycle GROUPOPEN → TXSTART → TXEND → GROUPCLOSED.
- `radio.dfy`: the class `Radio`.
  - Its fields are the module-level variables of `motorola.js`, plus two logs. `writes` stands for `port.write`. `events` stands for the HTTP POST.
  - Its methods are the source's functions, and each updates the fields in place. `HandleLine`, `HandleFrame`, `CallSetup`, `CallEnd`, `TransmissionStart` and `TransmissionEnd` are proved against the matching function of `transitions.dfy`. `Write`, `Post`, `SendStatus`, `GetRadioStatus` and `InitializeRadio` state their whole new state directly: the old state with the commands or the event appended.
  - The PIN code is a constructor parameter. The clock (`Date.now()`) is a `now: nat` parameter in milliseconds.

The `+CBC: `, `+CTGS: ` and `+CTXG: ` branches call `trimEnd()` on a comma field. Where that field is missing, the JavaScript throws part-way through the handler. The model returns `Malformed` in that case, with the state as it was when the exception was thrown. `callSetup` does not throw: it stores the missing field 11 as `undefined`. The model also returns `Malformed` there, as admitted under "## Left out". For `+CTXG: ` this state includes the start time, which `transmissionStart` stores before it reads field 5.

Where the code's behaviour differs from what one might expect of a call state machine, the model follows the code:

- `timestampTxStart` is set by every transmission grant and is never cleared. `TxStartNeverCleared` proves this.
- A transmission grant is accepted when no call is open. The TXSTART event then carries a null talkgroup.
- `callEnd` clears only the talkgroup. The sender of an unfinished transmission stays.
- A transmission end with no recorded start measures from 0, because of JavaScript's `now - null`.
- GROUPOPEN and GROUPCLOSED carry the fixed identity `"0000000"`.

## Model

| member | source | states |
|---|---|---|
| Text.StartsWith | motorola.js:58 | no contract of its own: `Text.Rest`, `Classifier.Remainder` and `Classifier.ClassifyExact` state what the `substr(0, n) === P` test means |
| Text.Rest | motorola.js:59 | when n is at most the line's length, the line is its first n characters followed by the result, and otherwise the result is empty |
| Text.Split | motorola.js:59 | the comma split has at least one piece and no piece contains the separator |
| Text.JoinSplit | motorola.js:59 | gluing the pieces of a split back together with the separator gives the original string |
| Text.SplitJoin | motorola.js:104-106 | splitting separator-free pieces joined by the separator gives the pieces back |
| Text.SplitAround | motorola.js:104 | a separator splits a string into the pieces of its left part followed by those of its right part |
| Text.Field | motorola.js:104-106 | comma field i exists exactly when the split has more than i pieces; it is then piece i of the split and contains no comma |
| Text.IsWhitespace | motorola.js:59 | no contract of its own: the white-space and line-terminator set that `trimEnd()` removes, used by the ensures of `Text.TrimEnd` |
| Text.TrimEnd | motorola.js:59 | the result is a prefix, everything removed is white space, and the result does not end in white space |
| Text.TrimEndUnique | motorola.js:59 | any prefix with the three properties above is the trimmed string |
| Text.TrimEndIdempotent | motorola.js:59 | trimming twice is trimming once |
| Text.LastN | motorola.js:65 | the result is a suffix of the line, of length 8, or the whole line when it is shorter |
| Classifier.Prefix | motorola.js:58-96 | every recognised kind has a non-empty prefix |
| Classifier.PrefixesExclusive | motorola.js:58-96 | no line starts with the prefixes of two different kinds |
| Classifier.Dispatch | motorola.js:57-99 | the result is the first branch whose prefix begins the line, or the end of the chain when no branch matches |
| Classifier.ChainUsesPrefixes | motorola.js:58-96 | every branch of the chain tests the prefix of the kind it stands for |
| Classifier.FirstBranch | motorola.js:58-96 | every recognised kind has a branch in the chain |
| Classifier.Classify | motorola.js:57-99 | no contract of its own: the kind of the first matching branch of `Chain`, characterised by `Classifier.ClassifyExact` and `Classifier.ClassifyUnhandled` |
| Classifier.Remainder | motorola.js:59 | a line that starts with a kind's prefix is that prefix followed by the remainder |
| Classifier.ClassifyExact | motorola.js:57-99 | a line is taken for a recognised kind if and only if it starts with that kind's prefix, so the order of the tests does not matter |
| Classifier.ClassifyUnhandled | motorola.js:97-99 | a line is unhandled if and only if it starts with no recognised prefix |
| Classifier.DuplicateBranchUnreachable | motorola.js:66-67 | the second `+CNUMF: ` branch never fires |
| Events.Seconds | motorola.js:115 | no contract of its own: `Events.SecondsFloor` states that it is the floor of the reading in seconds |
| Events.SecondsFloor | motorola.js:115 | the event timestamp is the whole second that the millisecond clock reading falls in |
| Transitions.CallSetupStep | motorola.js:102-131 | no contract of its own: `Properties.CallSetupLine` states what it does |
| Transitions.CallEndStep | motorola.js:133-160 | no contract of its own: `Properties.TeardownLine` and `Properties.TeardownTwice` state what it does |
| Transitions.TxStartStep | motorola.js:162-191 | no contract of its own: `Properties.TxGrantLine` states what it does |
| Transitions.Elapsed | motorola.js:195 | no contract of its own: `Properties.TxEndLine` and `Properties.CallLifecycle` use it for the elapsed time, `now - start`, or `now` when no start is recorded |
| Transitions.TxEndStep | motorola.js:193-229 | no contract of its own: `Properties.TxEndLine` states what it does |
| Transitions.StatusReport | motorola.js:231-240 | no contract of its own: `Motorola.Radio.SendStatus` and `Motorola.Radio.GetRadioStatus` post it, built from the five session variables |
| Transitions.React | motorola.js:58-96 | no contract of its own: `Properties.ReactAppendsAtMostOne` and `Properties.ReactFrames` state what a line of each kind may change |
| Transitions.Step | motorola.js:57-100 | no contract of its own: `Properties.StepByPrefix`, the per-prefix lemmas from `Properties.SignalResponse` to `Properties.PinLine`, and `Properties.StepFrames` state what it does |
| Transitions.Run | motorola.js:57 | no contract of its own: `Properties.RunAppendsOnly`, `Properties.TxStartNeverCleared`, `Properties.UnrecognizedRunIsNoOp` and `Properties.CallLifecycle` state what a run does |
| Properties.StepByPrefix | motorola.js:57-100 | a line that starts with a recognised prefix is handled by that kind's branch, with the text after the prefix as its remainder |
| Properties.UnrecognizedLineIsNoOp | motorola.js:97-99 | a line that starts with no recognised prefix changes no variable, writes nothing and posts nothing |
| Properties.IgnoredLineIsNoOp | motorola.js:94-96 | "OK", "\n", "\r" and the call-connected notification (lines 74-75) change nothing, write nothing and post nothing |
| Properties.SignalResponse | motorola.js:58-59 | `+CSQ: ` sets the signal level to comma field 0 of the remainder, trimmed; nothing else changes |
| Properties.BatteryResponse | motorola.js:60-61 | `+CBC: ` sets the battery level to field 1, trimmed; nothing else changes; without field 1 the line fails and changes nothing |
| Properties.VolumeResponse | motorola.js:62-63 | `+CLVL: ` sets the volume to the trimmed remainder; nothing else changes |
| Properties.IdentityResponse | motorola.js:64-65 | `+CNUMF: ` sets the identity to the last 8 characters of the line, trimmed; nothing else changes |
| Properties.GroupStatusResponse | motorola.js:68-69 | `+CTGS: ` sets the group address to field 1, trimmed; nothing else changes; without field 1 the line fails and changes nothing |
| Properties.SignalFields | motorola.js:59 | the remainder "23,4" yields the signal level "23" |
| Properties.SignalExample | motorola.js:58-59 | after the line "+CSQ: 23,4" the signal level is "23" |
| Properties.CallSetupLine | motorola.js:102-116 | `+CTICN: ` sets the talkgroup to field 11, untrimmed, and appends exactly one GROUPOPEN event with identity "0000000" and the new talkgroup; the sender, the start time, the session and the writes are unchanged |
| Properties.TxGrantLine | motorola.js:162-176 | `+CTXG: ` sets the start time to now in every case; with field 5 it sets the sender to that field, trimmed, and appends one TXSTART event with that sender and the current talkgroup, which may be null |
| Properties.TxEndLine | motorola.js:193-228 | `+CDTXC: ` appends one TXEND event with the sender and talkgroup from before the line and the elapsed time; afterwards the sender is null and the talkgroup and start time are unchanged |
| Properties.TeardownLine | motorola.js:133-159 | `+CTCR: ` appends one GROUPCLOSED event with identity "0000000" and the talkgroup from before the line, then clears only the talkgroup |
| Properties.TeardownTwice | motorola.js:133-159 | a second teardown in a row posts GROUPCLOSED with a null talkgroup and leaves the variables as the first teardown left them |
| Properties.PinLine | motorola.js:80-93 | `+CPIN: ` writes exactly one `AT+CPIN=<pin>\r\n` unless the trimmed remainder is "MT PIN-UNLOCKED", in which case it writes nothing; no variable changes and nothing is posted |
| Properties.ReactAppendsAtMostOne | motorola.js:57-100 | a line of any kind only appends to the logs, at most one entry in all |
| Properties.StepAppendsAtMostOne | motorola.js:57-100 | a line only appends to the logs: either one command written or one event posted, never both |
| Properties.ReactFrames | motorola.js:57-100 | only the status kinds touch the session; only the four call notifications touch the call state or post; only the PIN report writes; a recorded start time stays recorded |
| Properties.StepFrames | motorola.js:57-100 | the same as `Properties.ReactFrames`, stated by the prefixes the line starts with, including that a recorded start time stays recorded |
| Properties.TxStartNeverCleared | motorola.js:164 | once a start time is recorded, no sequence of lines clears it |
| Properties.RunAppendsOnly | motorola.js:57-100 | over any run of lines the logs only grow, by at most one entry per line |
| Properties.UnrecognizedRunIsNoOp | motorola.js:97-99 | a run of unrecognised lines leaves everything as it was |
| Properties.SetupThenGrant | motorola.js:102-176 | call setup followed by a grant posts GROUPOPEN then TXSTART and leaves the talkgroup, the sender and the start time set |
| Properties.TxEndDispatch | motorola.js:76-77 | a transmission-end line is handled by `transmissionEnd` |
| Properties.TeardownDispatch | motorola.js:78-79 | a teardown line is handled by `callEnd` |
| Properties.EndThenReleaseSteps | motorola.js:193-229 | `transmissionEnd` then `callEnd` post TXEND with the elapsed time, then GROUPCLOSED, and leave no talkgroup and no sender |
| Properties.EndThenRelease | motorola.js:133-229 | a transmission-end line then a teardown line do the same |
| Properties.CallLifecycle | motorola.js:102-229 | setup, grant, end and teardown post exactly GROUPOPEN(tg), TXSTART(sender, tg), TXEND(sender, tg, t2 - t1), GROUPCLOSED(tg), in that order, and leave no talkgroup and no sender |
| Motorola.Radio.constructor | motorola.js:16-26 | every variable starts out null and both logs are empty |
| Motorola.Radio.Write | motorola.js:263-267 | one command is appended to the write log; nothing else changes |
| Motorola.Radio.Post | motorola.js:118-130 | one event is appended to the event log; nothing else changes |
| Motorola.Radio.CallSetup | motorola.js:102-131 | the new state is `CallSetupStep` of the old one |
| Motorola.Radio.CallEnd | motorola.js:133-160 | the new state is `CallEndStep` of the old one |
| Motorola.Radio.TransmissionStart | motorola.js:162-191 | the new state is `TxStartStep` of the old one |
| Motorola.Radio.TransmissionEnd | motorola.js:193-229 | the new state is `TxEndStep` of the old one |
| Motorola.Radio.SendStatus | motorola.js:231-259 | exactly one RADIOSTATUS event is appended, holding the five session variables as they stand; nothing else changes |
| Motorola.Radio.GetRadioStatus | motorola.js:261-295 | exactly `AT+CSQ?`, `AT+CBC?`, `AT+CLVL?`, `AT+CTGS?` (each followed by CRLF) are written in that order, then one RADIOSTATUS event of the session is posted; no variable changes |
| Motorola.Radio.InitializeRadio | motorola.js:297-353 | exactly `ATE0`, `AT+CPIN?`, `AT+GMI?`, `AT+GMM?`, `AT+CNUMF?`, `AT+CTSP=2,0,0`, `AT+CTSP=1,1,11` (each followed by CRLF) are written in that order; nothing else changes |
| Motorola.Radio.HandleLine | motorola.js:57-100 | the new state and the outcome are `Step` of the old state and the line |
| Motorola.Radio.HandleFrame | motorola.js:58-96 | the branch for one kind of line: the new state and the outcome are `React` of the old state |

## Left out

- Serial port set-up and its open, close and error events, `process.exit` and the Readline framing (motorola.js:1-14, 39-55). The model starts from one line as the transport delivers it.
- The HTTP POST, its `X-AUTH-TOKEN` and `User-Agent` headers and its result handling. Posting is appending the record to `events`, so delivery and its failures are not modelled.
- Write failures reported to the `port.write` callback are only logged by the source. The model records every command as written.
- Timing: the 500 ms `delay` after each write, the 10-second `setInterval`, and the `signalUpdate` switch, which is always true.
- Interleaving: the source's sequences and the detached PIN-write function can interleave with incoming lines at every `await`. In the model each sequence runs to its end without lines in between.
- Motorola.Radio.GetRadioStatus: the RADIOSTATUS event is built from the variables as they are right after the four queries. In the source, responses that arrive during the two seconds of delays are already stored when the event is built.
- Motorola.Radio.TransmissionEnd: the `txtime` field is `(elapsedTime / 1000).toFixed(1)`, a floating-point decimal formatting. The model records the elapsed milliseconds as an integer instead. The implicit global `elapsedTime` is not kept, since nothing reads it.
- Transitions.CallSetupStep: the same divergence as `Properties.CallSetupLine` below, in the definition.
- Motorola.Radio.CallSetup: the same divergence as `Properties.CallSetupLine` below, in the method.
- Properties.CallSetupLine: with fewer than 12 comma fields the source stores `undefined` as the talkgroup and posts a GROUPOPEN record without a `gssi` field. The model reports `Malformed` and changes nothing. The other missing-field cases throw in the source, and the model's `Malformed` matches them.
- Transitions.Run: ignores each line's outcome and goes on to the next line after a `Malformed` one. In the source, nothing catches the exception thrown in the `data` listener (motorola.js:57-100 has no `try`), so what follows it depends on the Node.js runtime, which is not part of this model.
- Motorola.Radio.HandleLine: the model reads the clock once per line. The source calls `Date.now()` twice in `transmissionStart` and twice in `transmissionEnd`. The two readings can differ by a few milliseconds.
- Text.LastN: counts Unicode scalar values. JavaScript's `substr` and `trimEnd` count UTF-16 code units, so the two differ on characters outside the Basic Multilingual Plane.
- The PIN code is taken as text. The configuration may hold it as a number, which the source turns into its decimal text.
- `DEBUG` logging, `console.log` and the loading of `config.json` have no effect on behaviour.
