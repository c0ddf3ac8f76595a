/**
 * The line classifier of the `data` handler: a line is matched against a
 * fixed chain of prefixes, in source order, and the first prefix it starts
 * with decides what kind of frame it is.
 */
module Classifier {

  import opened Text

  /** What a received line is, by the prefix it starts with. */
  datatype FrameKind =
    | SignalResp        // "+CSQ: "   signal-strength query response
    | BatteryResp       // "+CBC: "   battery query response
    | VolumeResp        // "+CLVL: "  volume query response
    | IdentityResp      // "+CNUMF: " own-identity query response
    | GroupResp         // "+CTGS: "  current-group query response
    | CallSetupNote     // "+CTICN: " incoming group call
    | TxGrantNote       // "+CTXG: "  a party was granted the floor
    | CallConnectedNote // "+CTCC: "  call connected, log only
    | TxEndNote         // "+CDTXC: " transmission ceased
    | CallTeardownNote  // "+CTCR: "  call released
    | PinResp           // "+CPIN: "  SIM PIN state
    | Ack               // "OK"
    | LineFeed          // "\n"
    | CarriageReturn    // "\r"
    | Unhandled         // none of the above

  /** The prefix that identifies each recognised kind. */
  function Prefix(k: FrameKind): (p: string)
    requires k != Unhandled
    ensures |p| > 0
  {
    match k
    case SignalResp => "+CSQ: "
    case BatteryResp => "+CBC: "
    case VolumeResp => "+CLVL: "
    case IdentityResp => "+CNUMF: "
    case GroupResp => "+CTGS: "
    case CallSetupNote => "+CTICN: "
    case TxGrantNote => "+CTXG: "
    case CallConnectedNote => "+CTCC: "
    case TxEndNote => "+CDTXC: "
    case CallTeardownNote => "+CTCR: "
    case PinResp => "+CPIN: "
    case Ack => "OK"
    case LineFeed => "\n"
    case CarriageReturn => "\r"
  }

  /** Two distinct recognised prefixes never both begin the same line. */
  lemma PrefixesExclusive(line: string, k1: FrameKind, k2: FrameKind)
    requires k1 != Unhandled && k2 != Unhandled
    requires StartsWith(line, Prefix(k1)) && StartsWith(line, Prefix(k2))
    ensures k1 == k2
  {
    var p, q := Prefix(k1), Prefix(k2);
    assert p[0] == line[0] == q[0];
    if |p| > 4 && |q| > 4 {
      assert p[2] == line[2] == q[2];
      assert p[3] == line[3] == q[3];
      assert p[4] == line[4] == q[4];
    }
  }

  /** One `else if` of the handler: the prefix it tests and the kind it stands for. */
  datatype Branch = Branch(prefix: string, kind: FrameKind)

  /**
   * The handler's chain of prefix tests in source order. The identity
   * response is tested twice (indices 3 and 4), exactly as in the source.
   */
  const Chain: seq<Branch> := [
    Branch(Prefix(SignalResp), SignalResp),
    Branch(Prefix(BatteryResp), BatteryResp),
    Branch(Prefix(VolumeResp), VolumeResp),
    Branch(Prefix(IdentityResp), IdentityResp),
    Branch(Prefix(IdentityResp), IdentityResp),
    Branch(Prefix(GroupResp), GroupResp),
    Branch(Prefix(CallSetupNote), CallSetupNote),
    Branch(Prefix(TxGrantNote), TxGrantNote),
    Branch(Prefix(CallConnectedNote), CallConnectedNote),
    Branch(Prefix(TxEndNote), TxEndNote),
    Branch(Prefix(CallTeardownNote), CallTeardownNote),
    Branch(Prefix(PinResp), PinResp),
    Branch(Prefix(Ack), Ack),
    Branch(Prefix(LineFeed), LineFeed),
    Branch(Prefix(CarriageReturn), CarriageReturn)
  ]

  /** Index of the first branch whose prefix begins the line; `|chain|` when none does. */
  function Dispatch(line: string, chain: seq<Branch>): (i: nat)
    ensures i <= |chain|
    ensures i < |chain| ==> StartsWith(line, chain[i].prefix)
    ensures forall j :: 0 <= j < i ==> !StartsWith(line, chain[j].prefix)
    decreases |chain|
  {
    if chain == [] then 0
    else if StartsWith(line, chain[0].prefix) then 0
    else 1 + Dispatch(line, chain[1..])
  }

  /** The kind of frame the handler takes the line for: the first matching branch wins. */
  function Classify(line: string): FrameKind {
    var i := Dispatch(line, Chain);
    if i < |Chain| then Chain[i].kind else Unhandled
  }

  /** The part of a line after the prefix of kind `k` (`data.substr(n)`). */
  function Remainder(line: string, k: FrameKind): (r: string)
    requires k != Unhandled
    ensures StartsWith(line, Prefix(k)) ==> line == Prefix(k) + r
  {
    Rest(line, |Prefix(k)|)
  }

  /** Every branch of the chain tests the prefix of the kind it stands for. */
  lemma ChainUsesPrefixes(i: nat)
    requires i < |Chain|
    ensures Chain[i].kind != Unhandled && Chain[i].prefix == Prefix(Chain[i].kind)
  {
  }

  /** The position in the chain of the first branch for a kind. */
  function FirstBranch(k: FrameKind): (i: nat)
    requires k != Unhandled
    ensures i < |Chain| && Chain[i].kind == k
  {
    match k
    case SignalResp => 0
    case BatteryResp => 1
    case VolumeResp => 2
    case IdentityResp => 3
    case GroupResp => 5
    case CallSetupNote => 6
    case TxGrantNote => 7
    case CallConnectedNote => 8
    case TxEndNote => 9
    case CallTeardownNote => 10
    case PinResp => 11
    case Ack => 12
    case LineFeed => 13
    case CarriageReturn => 14
  }

  /**
   * A line is classified as a recognised kind exactly when it starts with
   * that kind's prefix: since the prefixes exclude each other, at most one
   * branch of the chain can apply and their order does not matter.
   */
  lemma ClassifyExact(line: string, k: FrameKind)
    requires k != Unhandled
    ensures Classify(line) == k <==> StartsWith(line, Prefix(k))
  {
    var i := Dispatch(line, Chain);
    if i < |Chain| {
      ChainUsesPrefixes(i);
    }
    if StartsWith(line, Prefix(k)) {
      var j := FirstBranch(k);
      ChainUsesPrefixes(j);
      assert i <= j;
      PrefixesExclusive(line, Chain[i].kind, k);
    }
  }

  /** A line is unhandled exactly when it starts with none of the recognised prefixes. */
  lemma ClassifyUnhandled(line: string)
    ensures Classify(line) == Unhandled <==> forall k :: k != Unhandled ==> !StartsWith(line, Prefix(k))
  {
    var i := Dispatch(line, Chain);
    if i < |Chain| {
      ChainUsesPrefixes(i);
    } else {
      forall k | k != Unhandled ensures !StartsWith(line, Prefix(k)) {
        var j := FirstBranch(k);
        ChainUsesPrefixes(j);
      }
    }
  }

  /** The second identity-response branch (index 4) can never be the one that fires. */
  lemma DuplicateBranchUnreachable(line: string)
    ensures Dispatch(line, Chain) != 4
  {
    assert Chain[3].prefix == Chain[4].prefix;
  }
}
