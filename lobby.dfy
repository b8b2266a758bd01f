/** The lobby kept on `app.state` by `websocket_endpoint`, as values: what
    each step does to it, the invariant every reachable state keeps, and what
    holds over any sequence of connections and messages.

    A slot is kept as its number `k`; its label is `Label(k)`, `"{k}P"`.
    Since `Label` is injective (`Decimal.LabelInjective`), keying `slots` by
    number or by label is the same table. */
module Lobby {
  import opened Decimal
  import opened Protocol

  /** A registered player: the live connection and the slot number. */
  datatype Entry = Entry(conn: Conn, slot: nat)

  /** `app.state`: `players` (with `order`, the insertion order of that
      dict's keys), `slots` and `game_started`. */
  datatype State = State(
    players: map<Uid, Entry>,
    order: seq<Uid>,
    slots: map<nat, Uid>,
    started: bool)

  /** The state at process start. */
  function Init(): (s: State)
    ensures Inv(s) && s.players == map[] && s.slots == map[] && !s.started
  {
    State(map[], [], map[], false)
  }

  /** The slot table that admitting `order` one after another builds: slot
      `k` holds the `k`-th of them. */
  function SlotTable(order: seq<Uid>): (table: map<nat, Uid>)
  {
    if order == [] then map[]
    else SlotTable(order[..|order| - 1])[|order| := order[|order| - 1]]
  }

  /** Slot `k` (counted from 1) belongs to the `k`-th admitted player, and
      `slots` maps every registered player's slot back to that player. */
  ghost predicate Inv(s: State)
  {
    && |s.order| == |s.players|
    && (forall i :: 0 <= i < |s.order| ==> s.order[i] in s.players && s.players[s.order[i]].slot == i + 1)
    && (forall u :: u in s.players ==> s.players[u].slot in s.slots && s.slots[s.players[u].slot] == u)
    && s.slots == SlotTable(s.order)
  }

  /** The slots in the table are exactly `1` .. `|order|`, and slot `k`
      holds the `k`-th admitted player. */
  lemma {:induction false} SlotTableSpec(order: seq<Uid>)
    ensures forall k :: k in SlotTable(order) <==> 1 <= k <= |order|
    ensures forall i :: 0 <= i < |order| ==> SlotTable(order)[i + 1] == order[i]
  {
    if order != [] {
      var prefix := order[..|order| - 1];
      SlotTableSpec(prefix);
      assert forall i :: 0 <= i < |prefix| ==> prefix[i] == order[i];
    }
  }

  /** The slot table has one entry per admitted player. */
  lemma {:induction false} SlotTableSize(order: seq<Uid>)
    ensures |SlotTable(order)| == |order|
  {
    if order != [] {
      var prefix := order[..|order| - 1];
      SlotTableSize(prefix);
      SlotTableSpec(prefix);
    }
  }

  /** In every state satisfying `Inv`: as many slots as players, each
      player's slot names that player in `slots`, no two players share a
      label, and the slots in use are exactly `1` .. `n`. */
  lemma SlotsMirrorPlayers(s: State)
    requires Inv(s)
    ensures |s.slots| == |s.players|
    ensures forall u :: u in s.players ==> s.players[u].slot in s.slots && s.slots[s.players[u].slot] == u
    ensures forall u, v :: u in s.players && v in s.players && u != v ==> Label(s.players[u].slot) != Label(s.players[v].slot)
    ensures forall k :: k in s.slots <==> 1 <= k <= |s.players|
  {
    SlotTableSize(s.order);
    SlotTableSpec(s.order);
    forall u, v | u in s.players && v in s.players && u != v
      ensures Label(s.players[u].slot) != Label(s.players[v].slot)
    {
      if Label(s.players[u].slot) == Label(s.players[v].slot) {
        LabelInjective(s.players[u].slot, s.players[v].slot);
      }
    }
  }

  /** A registered player sits in the admission order at its slot. */
  lemma Registered(s: State, u: Uid)
    requires Inv(s) && u in s.players
    ensures 1 <= s.players[u].slot <= |s.order| && s.order[s.players[u].slot - 1] == u
  {
    SlotTableSpec(s.order);
  }

  /** A registered player holds `"1P"` exactly when it was admitted first. */
  lemma HoldsFirstSlot(s: State, u: Uid)
    requires Inv(s) && u in s.players
    ensures Label(s.players[u].slot) == "1P" <==> u == s.order[0]
  {
    Registered(s, u);
    FirstLabel(s.players[u].slot);
  }

  // ---------------------------------------------------------------------
  // Admission on connect

  /** What one connect does: the new state, the messages sent on the new
      connection in order, the resolved user id and whether the connection
      goes on to its receive loop (false: answered FULL and closed). */
  datatype Admission = Admission(state: State, out: seq<Outgoing>, user: Uid, admitted: bool)

  /** Whether the `uid` query parameter counts as missing (`not user_id`). */
  predicate Missing(uid: Option<Uid>)
  {
    uid.None? || uid.value == ""
  }

  /** The id a connection goes by: `uid`, or `minted` when it is missing. */
  function UserOf(uid: Option<Uid>, minted: Uid): (user: Uid)
  {
    if Missing(uid) then minted else uid.value
  }

  /** A known `user` keeps its slot; only the connection changes. */
  function Reconnect(s: State, user: Uid, conn: Conn): (t: State)
    requires user in s.players
  {
    s.(players := s.players[user := Entry(conn, s.players[user].slot)])
  }

  /** An unknown `user` is registered under the next slot number. */
  function AddPlayer(s: State, user: Uid, conn: Conn): (t: State)
  {
    var slot := |s.players| + 1;
    State(s.players[user := Entry(conn, slot)], s.order + [user], s.slots[slot := user], s.started)
  }

  /** Admit a connection `conn` that presented `uid`; `minted` is the uuid
      minted when `uid` is missing. */
  function Admit(s: State, uid: Option<Uid>, conn: Conn, minted: Uid): (a: Admission)
  {
    var user := UserOf(uid, minted);
    var greeting := if Missing(uid) then [Send(conn, AssignId(minted))] else [];
    if user in s.players then
      Admission(Reconnect(s, user, conn), greeting + [Send(conn, Joined(Label(s.players[user].slot)))], user, true)
    else if s.started then
      Admission(s, greeting + [Send(conn, Full)], user, false)
    else
      Admission(AddPlayer(s, user, conn),
                greeting + [Send(conn, AssignId(user)), Send(conn, Joined(Label(|s.players| + 1)))], user, true)
  }

  /** Replacing a connection keeps the invariant. */
  lemma ReconnectPreservesInv(s: State, user: Uid, conn: Conn)
    requires Inv(s) && user in s.players
    ensures Inv(Reconnect(s, user, conn))
  {
    var t := Reconnect(s, user, conn);
    assert forall i :: 0 <= i < |t.order| ==> t.players[t.order[i]].slot == s.players[s.order[i]].slot;
  }

  /** Registering an unknown id keeps the invariant. */
  lemma AddPlayerPreservesInv(s: State, user: Uid, conn: Conn)
    requires Inv(s) && user !in s.players
    ensures Inv(AddPlayer(s, user, conn))
  {
    AddPlayerKeepsOrder(s, user, conn);
    AddPlayerKeepsTable(s, user, conn);
  }

  /** The new player is last in the admission order, at the new slot. */
  lemma AddPlayerKeepsOrder(s: State, user: Uid, conn: Conn)
    requires Inv(s) && user !in s.players
    ensures var t := AddPlayer(s, user, conn);
      && |t.order| == |t.players|
      && (forall i :: 0 <= i < |t.order| ==> t.order[i] in t.players && t.players[t.order[i]].slot == i + 1)
      && (forall u :: u in t.players ==> t.players[u].slot in t.slots && t.slots[t.players[u].slot] == u)
  {
    var t := AddPlayer(s, user, conn);
    forall i | 0 <= i < |t.order|
      ensures t.order[i] in t.players && t.players[t.order[i]].slot == i + 1
    {
      if i < |s.order| {
        assert t.order[i] == s.order[i];
      }
    }
    forall u | u in t.players
      ensures t.players[u].slot in t.slots && t.slots[t.players[u].slot] == u
    {
      if u != user {
        Registered(s, u);
      }
    }
  }

  /** The slot table gains the new slot, as admitting in order would. */
  lemma AddPlayerKeepsTable(s: State, user: Uid, conn: Conn)
    requires Inv(s) && user !in s.players
    ensures AddPlayer(s, user, conn).slots == SlotTable(AddPlayer(s, user, conn).order)
  {
    var t := AddPlayer(s, user, conn);
    assert t.order[..|s.order|] == s.order;
  }

  /** Admission keeps the invariant. */
  lemma AdmitPreservesInv(s: State, uid: Option<Uid>, conn: Conn, minted: Uid)
    requires Inv(s)
    ensures Inv(Admit(s, uid, conn, minted).state)
  {
    var user := UserOf(uid, minted);
    if user in s.players {
      ReconnectPreservesInv(s, user, conn);
    } else if !s.started {
      AddPlayerPreservesInv(s, user, conn);
    }
  }

  /** A known id (given, or a minted one that is taken) reconnects whether or
      not the game has started: it keeps its slot, only its connection is
      replaced, and the last message sent is `JOINED <slot>`. */
  lemma AdmitKnown(s: State, uid: Option<Uid>, conn: Conn, minted: Uid)
    requires UserOf(uid, minted) in s.players
    ensures var a := Admit(s, uid, conn, minted);
      var slotName := Label(s.players[a.user].slot);
      && a.admitted
      && a.state.players.Keys == s.players.Keys
      && a.state.players[a.user] == Entry(conn, s.players[a.user].slot)
      && (forall u :: u in s.players && u != a.user ==> a.state.players[u] == s.players[u])
      && a.state.order == s.order && a.state.slots == s.slots && a.state.started == s.started
      && (Missing(uid) ==> a.out == [Send(conn, AssignId(minted)), Send(conn, Joined(slotName))])
      && (!Missing(uid) ==> a.out == [Send(conn, Joined(slotName))])
  {
  }

  /** After the start an unknown id is answered FULL and refused; nothing
      changes. */
  lemma AdmitRefused(s: State, uid: Option<Uid>, conn: Conn, minted: Uid)
    requires s.started && UserOf(uid, minted) !in s.players
    ensures var a := Admit(s, uid, conn, minted);
      && !a.admitted && a.state == s
      && (Missing(uid) ==> a.out == [Send(conn, AssignId(minted)), Send(conn, Full)])
      && (!Missing(uid) ==> a.out == [Send(conn, Full)])
  {
  }

  /** Before the start an unknown id gets slot `|players| + 1`, whose label no
      one holds yet; exactly that one player is added, and the messages are
      ASSIGN_ID (twice when the id was minted) then JOINED. */
  lemma AdmitNew(s: State, uid: Option<Uid>, conn: Conn, minted: Uid)
    requires Inv(s) && !s.started && UserOf(uid, minted) !in s.players
    ensures var a := Admit(s, uid, conn, minted);
      var slot := |s.players| + 1;
      && a.admitted
      && slot !in s.slots
      && (forall u :: u in s.players ==> Label(s.players[u].slot) != Label(slot))
      && a.state.players == s.players[a.user := Entry(conn, slot)]
      && |a.state.players| == |s.players| + 1
      && a.state.slots == s.slots[slot := a.user]
      && !a.state.started
      && (Missing(uid) ==> a.out == [Send(conn, AssignId(minted)), Send(conn, AssignId(minted)), Send(conn, Joined(Label(slot)))])
      && (!Missing(uid) ==> a.out == [Send(conn, AssignId(uid.value)), Send(conn, Joined(Label(slot)))])
  {
    SlotsMirrorPlayers(s);
    forall u | u in s.players
      ensures Label(s.players[u].slot) != Label(|s.players| + 1)
    {
      if Label(s.players[u].slot) == Label(|s.players| + 1) {
        LabelInjective(s.players[u].slot, |s.players| + 1);
      }
    }
  }

  // ---------------------------------------------------------------------
  // The receive loop

  /** `GAME_START n players` to each connection of `players`, in `order`. */
  function Broadcast(players: map<Uid, Entry>, order: seq<Uid>, n: nat): (out: seq<Outgoing>)
    requires forall k :: 0 <= k < |order| ==> order[k] in players
    ensures |out| == |order|
    ensures forall k :: 0 <= k < |order| ==> out[k] == Send(players[order[k]].conn, GameStart(n))
  {
    if order == [] then []
    else Broadcast(players, order[..|order| - 1], n) + [Send(players[order[|order| - 1]].conn, GameStart(n))]
  }

  /** One text frame `data` from the admitted `user`: START from the holder
      of `"1P"` sets the flag and announces the player count to everyone;
      anything else is ignored. */
  function OnMessage(s: State, user: Uid, data: string): (r: (State, seq<Outgoing>))
    requires Inv(s) && user in s.players
  {
    if data == "START" && Label(s.players[user].slot) == "1P" then
      (s.(started := true), Broadcast(s.players, s.order, |s.players|))
    else
      (s, [])
  }

  /** The START broadcast reaches the connection of every registered
      player, once each, and carries nothing but `GAME_START n players`. */
  lemma BroadcastReachesAll(s: State, n: nat)
    requires Inv(s)
    ensures var out := Broadcast(s.players, s.order, n);
      && |out| == |s.players|
      && (forall m :: m in out ==> m.msg == GameStart(n))
      && (forall u :: u in s.players ==> Send(s.players[u].conn, GameStart(n)) in out)
  {
    var out := Broadcast(s.players, s.order, n);
    forall u | u in s.players
      ensures Send(s.players[u].conn, GameStart(n)) in out
    {
      Registered(s, u);
      assert out[s.players[u].slot - 1] == Send(s.players[u].conn, GameStart(n));
    }
  }

  /** START is accepted exactly from the first admitted player, also when
      the game has already started; an accepted START sets the flag, changes
      nothing else and sends `GAME_START n players` once to every player's
      connection; any other message changes nothing and sends nothing. */
  lemma OnMessageSpec(s: State, user: Uid, data: string)
    requires Inv(s) && user in s.players
    ensures var (t, out) := OnMessage(s, user, data);
      var accepted := data == "START" && user == s.order[0];
      && (accepted ==> t == s.(started := true))
      && (accepted ==> |out| == |s.players|)
      && (accepted ==> forall m :: m in out ==> m.msg == GameStart(|s.players|))
      && (accepted ==> forall u :: u in s.players ==> Send(s.players[u].conn, GameStart(|s.players|)) in out)
      && (!accepted ==> t == s && out == [])
  {
    HoldsFirstSlot(s, user);
    BroadcastReachesAll(s, |s.players|);
  }

  // ---------------------------------------------------------------------
  // Any sequence of events

  /** What the server reacts to: a connection opening (with the `uid`
      parameter and the uuid that would be minted for it), a text frame on
      the receive loop of `user`, and a disconnect (`user` only names the
      loop that ended). */
  datatype Event =
    | Open(uid: Option<Uid>, conn: Conn, minted: Uid)
    | Frame(user: Uid, data: string)
    | Drop(user: Uid)

  /** One event. A frame arrives only on the loop of an admitted user; one
      for a user never admitted is ignored. A disconnect changes nothing. */
  function Step(s: State, e: Event): (r: (State, seq<Outgoing>))
    requires Inv(s)
    ensures Inv(r.0)
  {
    match e
    case Open(uid, conn, minted) =>
      AdmitPreservesInv(s, uid, conn, minted);
      var a := Admit(s, uid, conn, minted);
      (a.state, a.out)
    case Frame(user, data) =>
      if user in s.players then OnMessage(s, user, data) else (s, [])
    case Drop(_) => (s, [])
  }

  /** The state after `events`, one after another. */
  function Run(s: State, events: seq<Event>): (t: State)
    requires Inv(s)
    ensures Inv(t)
    decreases |events|
  {
    if events == [] then s else Run(Step(s, events[0]).0, events[1..])
  }

  /** One event: no player is removed or moves to another slot, at most
      one player is added and none once the game has started, the admission
      order and the slot table only grow, and the flag never drops. */
  lemma StepMonotone(s: State, e: Event)
    requires Inv(s)
    ensures var t := Step(s, e).0;
      && s.players.Keys <= t.players.Keys
      && |t.players| <= |s.players| + 1
      && (s.started ==> t.players.Keys == s.players.Keys)
      && (forall u :: u in s.players ==> t.players[u].slot == s.players[u].slot)
      && s.order <= t.order
      && (forall k :: k in s.slots ==> k in t.slots && t.slots[k] == s.slots[k])
      && (s.started ==> t.started)
  {
    if e.Open? {
      AdmitMonotone(s, e.uid, e.conn, e.minted);
    }
  }

  /** `StepMonotone` for a connection opening. */
  lemma AdmitMonotone(s: State, uid: Option<Uid>, conn: Conn, minted: Uid)
    requires Inv(s)
    ensures var t := Admit(s, uid, conn, minted).state;
      && s.players.Keys <= t.players.Keys
      && |t.players| <= |s.players| + 1
      && (s.started ==> t.players.Keys == s.players.Keys)
      && (forall u :: u in s.players ==> t.players[u].slot == s.players[u].slot)
      && s.order <= t.order
      && (forall k :: k in s.slots ==> k in t.slots && t.slots[k] == s.slots[k])
      && t.started == s.started
  {
    if UserOf(uid, minted) !in s.players && !s.started {
      SlotsMirrorPlayers(s);
    }
  }

  /** Over any sequence of events: nothing ever removes a player or moves
      one to another slot, the admission order only grows at its end, the
      slot table only gains entries, and `game_started` never goes back to
      false. */
  lemma {:induction false} RunMonotone(s: State, events: seq<Event>)
    requires Inv(s)
    ensures var t := Run(s, events);
      && s.players.Keys <= t.players.Keys
      && (forall u :: u in s.players ==> t.players[u].slot == s.players[u].slot)
      && s.order <= t.order
      && (forall k :: k in s.slots ==> k in t.slots && t.slots[k] == s.slots[k])
      && (s.started ==> t.started)
    decreases |events|
  {
    if events != [] {
      StepMonotone(s, events[0]);
      RunMonotone(Step(s, events[0]).0, events[1..]);
    }
  }

  /** The flag goes up only on START from the player holding `"1P"`. */
  lemma StartOnlyByFirst(s: State, e: Event)
    requires Inv(s) && !s.started
    requires Step(s, e).0.started
    ensures e.Frame? && e.data == "START" && e.user == s.order[0]
  {
    if e.Frame? && e.user in s.players {
      HoldsFirstSlot(s, e.user);
    }
  }

  /** From the initial state, after any events: the slots in use are
      exactly `1` .. `n` for `n` players, their labels pairwise distinct, and
      `slots` maps each player's slot back to that player. */
  lemma ReachableLabels(events: seq<Event>)
    ensures var t := Run(Init(), events);
      && |t.slots| == |t.players|
      && (forall k :: k in t.slots <==> 1 <= k <= |t.players|)
      && (forall u :: u in t.players ==> t.players[u].slot in t.slots && t.slots[t.players[u].slot] == u)
      && (forall u, v :: u in t.players && v in t.players && u != v ==> Label(t.players[u].slot) != Label(t.players[v].slot))
  {
    SlotsMirrorPlayers(Run(Init(), events));
  }
}
