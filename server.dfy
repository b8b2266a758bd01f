/** `websocket_endpoint` over the shared `app.state`: a registry object whose
    maps and flag the handler updates in place, and an outbox that records
    every `send_text` in the order it is issued. */
module Server {
  import opened Decimal
  import opened Protocol
  import opened Lobby

  class Registry {
    /** `app.state.players`: user id to (connection, slot). */
    var players: map<Uid, Entry>
    /** The insertion order of `players`, which a Python dict keeps and the
        START broadcast follows. */
    var order: seq<Uid>
    /** `app.state.slots`: slot to user id. */
    var slots: map<nat, Uid>
    /** `app.state.game_started`. */
    var gameStarted: bool
    /** Every message sent so far, oldest first. */
    var outbox: seq<Outgoing>

    /** The lobby as a value. */
    function Snapshot(): (s: State)
      reads this`players, this`order, this`slots, this`gameStarted
    {
      State(players, order, slots, gameStarted)
    }

    ghost predicate Valid()
      reads this`players, this`order, this`slots, this`gameStarted
    {
      Inv(Snapshot())
    }

    /** `server.py` lines 9-11: no players, no slots, game not started. */
    constructor ()
      ensures Valid() && Snapshot() == Init() && outbox == []
    {
      players, order, slots, gameStarted := map[], [], map[], false;
      outbox := [];
    }

    /** `server.py` lines 22-46: resolve the user id, then reconnect, refuse with FULL,
        or register under the next slot. `minted` is what `uuid4()` returns.
        `admitted` is false when the handler closes the connection and
        returns instead of entering its receive loop. */
    method Connect(uid: Option<Uid>, conn: Conn, minted: Uid) returns (user: Uid, admitted: bool)
      requires Valid()
      modifies this
      ensures Valid()
      ensures var a := Admit(old(Snapshot()), uid, conn, minted);
        && Snapshot() == a.state && outbox == old(outbox) + a.out
        && user == a.user && admitted == a.admitted
    {
      ghost var a := Admit(old(Snapshot()), uid, conn, minted);
      ghost var greeting := if Missing(uid) then [Send(conn, AssignId(minted))] else [];
      user := ResolveUser(uid, conn, minted);
      ghost var greeted := outbox;
      ghost var sent: seq<Outgoing>;
      if user in players {
        sent := [Send(conn, Joined(Label(players[user].slot)))];
        Rejoin(user, conn);
        admitted := true;
      } else if gameStarted {
        sent := [Send(conn, Full)];
        outbox := outbox + [Send(conn, Full)];
        admitted := false;
      } else {
        sent := [Send(conn, AssignId(user)), Send(conn, Joined(Label(|players| + 1)))];
        Register(user, conn);
        admitted := true;
      }
      assert outbox == greeted + sent;
      AppendAssoc(old(outbox), greeting, sent);
      assert a.out == greeting + sent;
    }

    /** `server.py` lines 23-26: the `uid` query parameter, or when it is missing or
        empty the minted id, which is announced at once. */
    method ResolveUser(uid: Option<Uid>, conn: Conn, minted: Uid) returns (user: Uid)
      modifies this`outbox
      ensures user == UserOf(uid, minted)
      ensures outbox == old(outbox) + if Missing(uid) then [Send(conn, AssignId(minted))] else []
    {
      user := if uid.Some? then uid.value else "";
      if user == "" {
        user := minted;
        outbox := outbox + [Send(conn, AssignId(user))];
      }
    }

    /** `server.py` lines 29-32: a known `user` keeps its slot, gets the new connection
        and is told its slot. */
    method Rejoin(user: Uid, conn: Conn)
      requires Valid() && user in players
      modifies this
      ensures Valid()
      ensures Snapshot() == Reconnect(old(Snapshot()), user, conn)
      ensures outbox == old(outbox) + [Send(conn, Joined(Label(old(players)[user].slot)))]
    {
      ReconnectPreservesInv(Snapshot(), user, conn);
      var slot := players[user].slot;
      players := players[user := Entry(conn, slot)];
      outbox := outbox + [Send(conn, Joined(Label(slot)))];
    }

    /** `server.py` lines 41-46: an unknown `user` takes slot `len(players) + 1`, is
        entered in `players` and `slots`, and is told its id and its slot. */
    method Register(user: Uid, conn: Conn)
      requires Valid() && user !in players
      modifies this
      ensures Valid()
      ensures Snapshot() == AddPlayer(old(Snapshot()), user, conn)
      ensures outbox == old(outbox) + [Send(conn, AssignId(user)), Send(conn, Joined(Label(|old(players)| + 1)))]
    {
      ghost var t := AddPlayer(Snapshot(), user, conn);
      AddPlayerPreservesInv(Snapshot(), user, conn);
      var slot := |players| + 1;
      players := players[user := Entry(conn, slot)];
      order := order + [user];
      slots := slots[slot := user];
      outbox := outbox + [Send(conn, AssignId(user)), Send(conn, Joined(Label(slot)))];
      assert Snapshot() == t;
    }

    /** `server.py` lines 50-57: one text frame on the receive loop of the admitted
        `user`. START from the holder of `"1P"` sets the flag and announces
        the player count to everyone. */
    method Receive(user: Uid, data: string)
      requires Valid() && user in players
      modifies this
      ensures Valid()
      ensures var (t, out) := OnMessage(old(Snapshot()), user, data);
        Snapshot() == t && outbox == old(outbox) + out
    {
      if data == "START" && Label(players[user].slot) == "1P" {
        gameStarted := true;
        Announce();
      }
    }

    /** `server.py` lines 56-57: `GAME_START n players`, with `n = len(players)`, to
        every player's connection in turn. */
    method Announce()
      requires forall k :: 0 <= k < |order| ==> order[k] in players
      modifies this`outbox
      ensures outbox == old(outbox) + Broadcast(players, order, |players|)
    {
      var i := 0;
      while i < |order|
        invariant 0 <= i <= |order|
        invariant outbox == old(outbox) + Broadcast(players, order[..i], |players|)
      {
        assert order[..i + 1][..i] == order[..i];
        outbox := outbox + [Send(players[order[i]].conn, GameStart(|players|))];
        i := i + 1;
      }
      assert order[..|order|] == order;
    }

    /** `server.py` lines 59-60: a disconnect ends the loop and changes
        nothing: the player keeps its entry, its slot and its (now stale)
        connection. `user` only names the loop that ended. */
    method Disconnect(user: Uid)
      requires Valid()
      ensures Valid()
      ensures Snapshot() == old(Snapshot()) && outbox == old(outbox)
    {
    }
  }

  /** Sending `b` and then `c` appends `b + c`. */
  lemma AppendAssoc<T>(a: seq<T>, b: seq<T>, c: seq<T>)
    ensures (a + b) + c == a + (b + c)
  {
  }
}
