/**
 * The records the bridge posts to the remote server. Each field that the
 * source fills from a nullable variable is an Option (None is `null`).
 */
module Events {

  import opened Wrappers

  /** The identity sent with the call open and close events in place of the radio's own. */
  const PlaceholderIssi: string := "0000000"

  /** One posted record; its `event` field is the variant's name in capitals (GROUPOPEN, …, RADIOSTATUS). */
  datatype Event =
    | GroupOpen(issi: Option<string>, gssi: Option<string>, timestamp: nat)
    | GroupClosed(issi: Option<string>, gssi: Option<string>, timestamp: nat)
    | TxStart(issi: Option<string>, gssi: Option<string>, timestamp: nat)
      /** `elapsedMs` is the transmission time in milliseconds, before its formatting as seconds. */
    | TxEnd(issi: Option<string>, gssi: Option<string>, timestamp: nat, elapsedMs: int)
    | RadioStatus(issi: Option<string>, gssi: Option<string>, rssi: Option<string>,
                  battery: Option<string>, volume: Option<string>, timestamp: nat)

  /** `Math.floor(now / 1000)`: a millisecond clock reading as whole epoch seconds. */
  function Seconds(now: nat): nat {
    now / 1000
  }

  /** The seconds value is the one whole second the reading falls in. */
  lemma SecondsFloor(now: nat)
    ensures Seconds(now) * 1000 <= now < (Seconds(now) + 1) * 1000
  {
  }
}
