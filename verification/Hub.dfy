/** The session registry: at most one live socket a player, replaced on reconnection. Registering swaps the map
    entry under the lock and closes the displaced client afterwards, so closes and late disconnects interleave. */
module Hubs {
  import opened Base

  const SEND_BUFFER := 16

  // ----- the map under the lock -----

  function Registered<C>(clients: map<PlayerID, C>, p: PlayerID, c: C): map<PlayerID, C> {
    clients[p := c]
  }

  /** A no-op unless c is still the player's client. */
  function Unregistered<C(==)>(clients: map<PlayerID, C>, p: PlayerID, c: C): map<PlayerID, C> {
    if p in clients && clients[p] == c then clients - {p} else clients
  }

  // ----- the steps of concurrent sessions -----

  /** Clients are numbered by arrival; each registers once. */
  datatype Sessions = Sessions(
    clients: map<PlayerID, nat>,
    arrivals: seq<PlayerID>,   // whose client each arrival was
    closing: set<nat>,         // displaced, their close still to come
    closed: set<nat>,
    gone: set<nat>)            // past their own unregister

  const NO_SESSIONS := Sessions(map[], [], {}, {}, {})

  datatype SessionEvent =
    | Register(p: PlayerID)
    | Close(c: nat)            // the displacing call, a pump or a full buffer closes c
    | Unregister(c: nat)

  function Step(s: Sessions, e: SessionEvent): Sessions {
    match e
    case Register(p) =>
      s.(clients := Registered(s.clients, p, |s.arrivals|),
         arrivals := s.arrivals + [p],
         closing := if p in s.clients then s.closing + {s.clients[p]} else s.closing)
    case Close(c) =>
      if c < |s.arrivals| then s.(closing := s.closing - {c}, closed := s.closed + {c}) else s
    case Unregister(c) =>
      if c < |s.arrivals|
      then s.(clients := Unregistered(s.clients, s.arrivals[c], c), gone := s.gone + {c})
      else s
  }

  function Run(es: seq<SessionEvent>): Sessions {
    if es == [] then NO_SESSIONS else Step(Run(es[..|es| - 1]), es[|es| - 1])
  }

  predicate Current(s: Sessions, p: PlayerID, c: nat) {
    p in s.clients && s.clients[p] == c
  }

  ghost predicate IsLatest(s: Sessions, p: PlayerID, c: nat) {
    && c < |s.arrivals| && s.arrivals[c] == p
    && forall d :: c < d < |s.arrivals| ==> s.arrivals[d] != p
  }

  /** A player's entry is the client that arrived last for that player, until that very client unregisters. */
  ghost predicate EntryIsLatest(s: Sessions) {
    forall p, c: nat :: Current(s, p, c) <==> IsLatest(s, p, c) && c !in s.gone
  }

  /** Every client is the current one, or past its own unregister, or displaced by a later arrival with
      its close pending or done. */
  ghost predicate NobodyLeaks(s: Sessions) {
    forall c :: 0 <= c < |s.arrivals| ==>
      || Current(s, s.arrivals[c], c)
      || c in s.gone
      || (!IsLatest(s, s.arrivals[c], c) && (c in s.closing || c in s.closed))
  }

  /** The registry is as it should be. */
  ghost predicate Sound(s: Sessions) {
    && EntryIsLatest(s) && NobodyLeaks(s)
    && (forall c :: c in s.gone ==> c < |s.arrivals|)
  }

  lemma RegisterKeepsSound(s: Sessions, p: PlayerID)
    requires Sound(s)
    ensures Sound(Step(s, Register(p)))
  {
    var n, s' := |s.arrivals|, Step(s, Register(p));
    forall q, c: nat
      ensures IsLatest(s', q, c) <==> if q == p then c == n else IsLatest(s, q, c)
    {
      assert s'.arrivals[n] == p;
      if q == p && c < n {
        assert !IsLatest(s', q, c);
      }
      if q != p && IsLatest(s', q, c) {
        assert forall d :: c < d < n ==> s'.arrivals[d] == s.arrivals[d];
      }
    }
    forall c | 0 <= c < |s'.arrivals|
      ensures || Current(s', s'.arrivals[c], c)
              || c in s'.gone
              || (!IsLatest(s', s'.arrivals[c], c) && (c in s'.closing || c in s'.closed))
    {
      if c < n && s.arrivals[c] == p {
        assert !IsLatest(s', p, c);
      }
    }
  }

  lemma UnregisterKeepsSound(s: Sessions, c: nat)
    requires Sound(s) && c < |s.arrivals|
    ensures Sound(Step(s, Unregister(c)))
  {
    var s' := Step(s, Unregister(c));
    forall p, d: nat
      ensures IsLatest(s', p, d) <==> IsLatest(s, p, d)
    {
    }
    forall p, d: nat
      ensures Current(s', p, d) <==> Current(s, p, d) && d != c
    {
      if Current(s, p, c) {
        assert IsLatest(s, p, c);
      }
    }
  }

  lemma CloseKeepsSound(s: Sessions, c: nat)
    requires Sound(s)
    ensures Sound(Step(s, Close(c)))
  {
    var s' := Step(s, Close(c));
    forall p, d: nat
      ensures IsLatest(s', p, d) <==> IsLatest(s, p, d)
    {
    }
  }

  /** In every interleaving of registrations, closes and unregistrations. */
  lemma {:induction false} EverySessionIsAccountedFor(es: seq<SessionEvent>)
    ensures Sound(Run(es))
  {
    if es != [] {
      EverySessionIsAccountedFor(es[..|es| - 1]);
      var s := Run(es[..|es| - 1]);
      match es[|es| - 1]
      case Register(p) => RegisterKeepsSound(s, p);
      case Close(c) => CloseKeepsSound(s, c);
      case Unregister(c) => if c < |s.arrivals| { UnregisterKeepsSound(s, c); }
    }
  }

  /** A late unregister never evicts a newer client: it removes an entry exactly when the player has not
      connected again since, and touches no other player. */
  lemma LateUnregisterEvictsNobody(es: seq<SessionEvent>, c: nat)
    requires c < |Run(es).arrivals| && c !in Run(es).gone
    ensures var s, s' := Run(es), Step(Run(es), Unregister(c));
            var p := s.arrivals[c];
            && (IsLatest(s, p, c) ==> p in s.clients && s'.clients == s.clients - {p})
            && (!IsLatest(s, p, c) ==> s'.clients == s.clients)
  {
    EverySessionIsAccountedFor(es);
    var s := Run(es);
    var p := s.arrivals[c];
    assert Current(s, p, c) <==> IsLatest(s, p, c);
  }

  /** A close leaves its client closed and nobody waiting for it, and no entry changed; an unregister is remembered. */
  lemma CloseEffect(s: Sessions, c: nat)
    requires c < |s.arrivals|
    ensures Step(s, Close(c)) == s.(closing := s.closing - {c}, closed := s.closed + {c})
    ensures var s' := Step(s, Unregister(c)); c in s'.gone && s' == s.(clients := s'.clients, gone := s.gone + {c})
  {
  }

  // ----- the objects -----

  class Client<Frame> {
    const id: PlayerID
    var send: seq<Frame>
    var done: bool

    constructor (id: PlayerID)
      ensures this.id == id && send == [] && !done
    {
      this.id, send, done := id, [], false;
    }

    /** Closing twice is closing once. */
    method Close()
      modifies this
      ensures done && send == old(send)
    {
      done := true;
    }

    /** Never blocks, never overfills, and queues nothing after a close. */
    method Push(f: Frame) returns (ok: bool)
      requires |send| <= SEND_BUFFER
      modifies this
      ensures done == old(done) && |send| <= SEND_BUFFER
      ensures ok == (!old(done) && |old(send)| < 16)
      ensures send == if ok then old(send) + [f] else old(send)
    {
      if done {
        return false;
      }
      if |send| < SEND_BUFFER {
        send := send + [f];
        return true;
      }
      return false;
    }
  }

  class Hub<Frame> {
    var clients: map<PlayerID, Client<Frame>>

    ghost predicate Valid()
      reads this, clients.Values
    {
      forall p :: p in clients ==> clients[p].id == p && |clients[p].send| <= SEND_BUFFER
    }

    constructor ()
      ensures Valid() && clients == map[]
    {
      clients := map[];
    }

    /** The displaced client, if any, is closed once the entry has been swapped. */
    method Register(c: Client<Frame>)
      requires Valid() && |c.send| <= SEND_BUFFER
      modifies this, clients.Values
      ensures Valid() && clients == Registered(old(clients), c.id, c)
      ensures c.id in old(clients) ==> old(clients)[c.id].done && old(clients)[c.id].send == old(clients[c.id].send)
      ensures forall d :: d in old(clients).Values && (c.id in old(clients) ==> d != old(clients)[c.id]) ==>
                d.send == old(d.send) && d.done == old(d.done)
      ensures c !in old(clients).Values ==> c.send == old(c.send) && c.done == old(c.done)
    {
      var replaced := c.id in clients;
      var before := if replaced then clients[c.id] else c;
      clients := clients[c.id := c];
      if replaced {
        before.Close();
      }
    }

    method Unregister(c: Client<Frame>)
      modifies this
      ensures clients == Unregistered(old(clients), c.id, c)
    {
      if c.id in clients && clients[c.id] == c {
        clients := clients - {c.id};
      }
    }

    /** Delivers to the player's current client, and drops that client when it cannot take the frame. */
    method Notify(id: PlayerID, f: Frame)
      requires Valid()
      modifies clients.Values
      ensures Valid() && clients == old(clients)
      ensures id in clients ==>
                var c := clients[id];
                if !old(c.done) && |old(c.send)| < SEND_BUFFER
                then c.send == old(c.send) + [f] && !c.done
                else c.send == old(c.send) && c.done
      ensures forall c :: c in clients.Values && (id in clients ==> c != clients[id]) ==>
                c.send == old(c.send) && c.done == old(c.done)
    {
      if id !in clients {
        return;
      }
      var ok := clients[id].Push(f);
      if !ok {
        clients[id].Close();
      }
    }
  }
}
