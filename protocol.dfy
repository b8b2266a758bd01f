/** What travels over a websocket: connection handles, the server's text
    messages and their wire form. */
module Protocol {
  import opened Decimal

  datatype Option<T> = None | Some(value: T)

  /** A user id: the `uid` query parameter or a freshly minted uuid. */
  type Uid = string

  /** An opaque handle on one accepted websocket. */
  datatype Conn = Conn(id: nat)

  /** The messages the server sends. */
  datatype Msg =
    | AssignId(uid: Uid)     // "ASSIGN_ID <uid>"
    | Joined(slot: string)   // "JOINED <slot>"
    | Full                   // "FULL"
    | GameStart(count: nat)  // "GAME_START <count> players"

  /** One `send_text` call: message `msg` to connection `to`. */
  datatype Outgoing = Send(to: Conn, msg: Msg)

  /** The text the server sends for `m`. */
  function Text(m: Msg): (t: string)
    ensures |t| >= 1
    ensures t[0] == match m
      case AssignId(_) => 'A'
      case Joined(_) => 'J'
      case Full => 'F'
      case GameStart(_) => 'G'
  {
    match m
    case AssignId(u) => "ASSIGN_ID " + u
    case Joined(s) => "JOINED " + s
    case Full => "FULL"
    case GameStart(n) => "GAME_START " + NatToString(n) + " players"
  }

  /** A client can tell every message apart from its text alone. */
  lemma TextInjective(m1: Msg, m2: Msg)
    requires Text(m1) == Text(m2)
    ensures m1 == m2
  {
    var t := Text(m1);
    match m1
    case AssignId(u) =>
      assert m2.AssignId?;
      assert u == t[10..] == m2.uid;
    case Joined(s) =>
      assert m2.Joined?;
      assert s == t[7..] == m2.slot;
    case Full =>
      assert m2.Full?;
    case GameStart(n) =>
      assert m2.GameStart?;
      var a, b := NatToString(n), NatToString(m2.count);
      assert |a| == |b|;
      assert a == t[11..11 + |a|];
      assert b == t[11..11 + |b|];
      NatToStringInjective(n, m2.count);
  }
}
