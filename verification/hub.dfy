/**
 * The WebSocket connection registry of backend/pkg/websocket/websocket.go.
 *
 * The hub's `Run` loop, its goroutines and its locks are reduced to
 * sequential method calls on one `Hub` object. A client is named by its ID
 * (a fresh UUID, so it also stands for the client pointer the Go maps are
 * keyed by); the per-client state that Go keeps in the `Client` struct
 * (its `Send` channel, whether that channel is closed, `IsActive`, `UserID`)
 * lives in maps of the hub indexed by that ID. A `Send` channel is a bounded
 * FIFO sequence of envelopes; the JSON encoding of an envelope is left
 * abstract (the `encode` parameter of `WireText`).
 */
module Websocket {
  import opened Wrappers

  /** Buffer size of every client's `Send` channel. */
  const SendCapacity: nat := 256

  /** The byte that separates the envelopes batched into one text frame. */
  const Newline: byte := 10

  newtype byte = x: int | 0 <= x < 256

  type Bytes = seq<byte>
  type ClientId = string
  type UserId = string

  /** The JSON envelope `{"type": ..., "payload": ...}`; `None` is a null payload. */
  datatype Message<P> = Message(msgType: string, payload: Option<P>)

  /** What one turn of a client's write pump puts on the connection. */
  datatype Write<P> = Text(batch: seq<Message<P>>) | CloseFrame | Idle

  /** Outcome of the blocking send in `handlePing`. */
  datatype SendOutcome = Sent | Blocked | Panicked

  /** `prepareMessage`: wraps a producer's event, whole, as the payload of an envelope. */
  function PrepareMessage<P>(msgType: string, event: P): (m: Message<P>)
    ensures m.msgType == msgType && m.payload.Some? && m.payload.value == event
  {
    Message(msgType, Some(event))
  }

  /** The reply to a ping: type "pong" with no payload. */
  function Pong<P>(): Message<P>
  {
    Message("pong", None)
  }

  /** A non-blocking send: enqueue when the channel has room, drop otherwise. */
  function Offer<P>(q: seq<Message<P>>, m: Message<P>): seq<Message<P>>
  {
    if |q| < SendCapacity then q + [m] else q
  }

  /** The user's connection list, empty when the user has no entry. */
  function Entry(uc: map<UserId, seq<ClientId>>, u: UserId): seq<ClientId>
  {
    if u in uc then uc[u] else []
  }

  /** `s` without its first occurrence of `c`. */
  function RemoveFirst(s: seq<ClientId>, c: ClientId): seq<ClientId>
  {
    if s == [] then []
    else if s[0] == c then s[1..]
    else [s[0]] + RemoveFirst(s[1..], c)
  }

  /** The index after unregistering `c` of user `u`: its first entry goes, and so does an entry left empty. */
  function Unindex(uc: map<UserId, seq<ClientId>>, u: UserId, c: ClientId): map<UserId, seq<ClientId>>
  {
    if u !in uc then uc
    else
      var s := RemoveFirst(uc[u], c);
      if s == [] then uc - {u} else uc[u := s]
  }

  /**
   * The queues after `BroadcastToUser` has walked `targets` in order with
   * envelope `m`. The boolean is true when a send reached a closed channel:
   * in Go that send panics, so the walk stops there.
   */
  function Deliver<P>(send: map<ClientId, seq<Message<P>>>, active: set<ClientId>, closed: set<ClientId>,
                      targets: seq<ClientId>, m: Message<P>): (map<ClientId, seq<Message<P>>>, bool)
    decreases |targets|
  {
    if targets == [] then (send, false)
    else
      var prior := Deliver(send, active, closed, targets[..|targets| - 1], m);
      var c := targets[|targets| - 1];
      if prior.1 || c !in active then prior
      else if c in closed then (prior.0, true)
      else if c in prior.0 then (prior.0[c := Offer(prior.0[c], m)], false)
      else prior
  }

  /** The queues after a hub broadcast of `m` to the registered `clients`. */
  function BroadcastQueues<P>(send: map<ClientId, seq<Message<P>>>, clients: set<ClientId>, m: Message<P>)
    : map<ClientId, seq<Message<P>>>
  {
    map c | c in send :: if c in clients then Offer(send[c], m) else send[c]
  }

  /** The registered clients whose queue is full, which a hub broadcast evicts. */
  function Overflowing<P>(send: map<ClientId, seq<Message<P>>>, clients: set<ClientId>): set<ClientId>
  {
    set c | c in clients && c in send && |send[c]| >= SendCapacity
  }

  /** Some connection listed for `u` is active. */
  ghost predicate HasActive(uc: map<UserId, seq<ClientId>>, active: set<ClientId>, u: UserId)
  {
    u in uc && exists i :: 0 <= i < |uc[u]| && uc[u][i] in active
  }

  /** The registered, active clients that belong to `u`. */
  function ActiveOf(clients: set<ClientId>, owner: map<ClientId, UserId>, active: set<ClientId>, u: UserId)
    : set<ClientId>
  {
    set c | c in clients && c in owner && owner[c] == u && c in active
  }

  /** Every index entry is a registered client, listed once. */
  ghost predicate IndexedIn(clients: set<ClientId>, uc: map<UserId, seq<ClientId>>)
  {
    (forall u, i :: u in uc && 0 <= i < |uc[u]| ==> uc[u][i] in clients)
    && (forall u, i, j :: u in uc && 0 <= i < j < |uc[u]| ==> uc[u][i] != uc[u][j])
  }

  /** Every registered client is listed under its own user. */
  ghost predicate ReachableIn(clients: set<ClientId>, uc: map<UserId, seq<ClientId>>, owner: map<ClientId, UserId>)
  {
    forall c :: c in clients ==> c in owner && owner[c] in uc && c in uc[owner[c]]
  }

  /** Every index entry is listed under the user that owns it. */
  ghost predicate OwnedIn(uc: map<UserId, seq<ClientId>>, owner: map<ClientId, UserId>)
  {
    forall u, i :: u in uc && 0 <= i < |uc[u]| ==> uc[u][i] in owner && owner[uc[u][i]] == u
  }

  /** The envelopes of a batch, encoded and separated by newlines, as WritePump writes them. */
  function Join(parts: seq<Bytes>): Bytes
  {
    if |parts| == 0 then []
    else if |parts| == 1 then parts[0]
    else parts[0] + [Newline] + Join(parts[1..])
  }

  /** Cuts a frame at every newline. */
  function Split(b: Bytes): seq<Bytes>
    decreases |b|
  {
    if Newline !in b then [b]
    else
      var i := FirstNewline(b);
      [b[..i]] + Split(b[i + 1..])
  }

  function FirstNewline(b: Bytes): (i: nat)
    requires Newline in b
    ensures i < |b| && b[i] == Newline && Newline !in b[..i]
  {
    if b[0] == Newline then 0
    else
      assert Newline in b[1..] by {
        var k :| 0 <= k < |b| && b[k] == Newline;
        assert b[1..][k - 1] == Newline;
      }
      var j := FirstNewline(b[1..]);
      assert b[..j + 1] == [b[0]] + b[1..][..j];
      1 + j
  }

  /** The bytes of the text frame WritePump writes for `batch`. */
  function WireText<P>(batch: seq<Message<P>>, encode: Message<P> -> Bytes): Bytes
  {
    Join(seq(|batch|, i requires 0 <= i < |batch| => encode(batch[i])))
  }

  /** `Split` finds the first part of a join: nothing before the first separator is lost. */
  lemma SplitCons(p: Bytes, rest: seq<Bytes>)
    requires Newline !in p && |rest| > 0
    ensures Split(p + [Newline] + Join(rest)) == [p] + Split(Join(rest))
  {
    var b := p + [Newline] + Join(rest);
    assert b[|p|] == Newline;
    var i := FirstNewline(b);
    assert i == |p|;
    assert b[..i] == p;
    assert b[i + 1..] == Join(rest);
  }

  /**
   * Batching is lossless: when no encoded envelope contains a newline (compact
   * JSON never does), splitting the frame gives back each envelope, in order.
   */
  lemma {:induction false} SplitJoin(parts: seq<Bytes>)
    requires |parts| > 0
    requires forall i :: 0 <= i < |parts| ==> Newline !in parts[i]
    ensures Split(Join(parts)) == parts
    decreases |parts|
  {
    if |parts| > 1 {
      SplitJoin(parts[1..]);
      SplitCons(parts[0], parts[1..]);
      assert [parts[0]] + parts[1..] == parts;
    }
  }

  /** The first occurrence is what `RemoveFirst` takes out. */
  lemma {:induction false} RemoveFirstAt(s: seq<ClientId>, c: ClientId, i: nat)
    requires i < |s| && s[i] == c && c !in s[..i]
    ensures RemoveFirst(s, c) == s[..i] + s[i + 1..]
    decreases |s|
  {
    if i > 0 {
      assert s[0] != c by { assert s[..i][0] == s[0]; }
      assert c !in s[1..][..i - 1] by { assert s[1..][..i - 1] == s[..i][1..]; }
      RemoveFirstAt(s[1..], c, i - 1);
      assert s[..i] == [s[0]] + s[1..][..i - 1];
      assert s[i + 1..] == s[1..][i..];
    }
  }

  /** Removing a client that is not listed changes nothing. */
  lemma {:induction false} RemoveFirstAbsent(s: seq<ClientId>, c: ClientId)
    requires c !in s
    ensures RemoveFirst(s, c) == s
    decreases |s|
  {
    if s != [] {
      RemoveFirstAbsent(s[1..], c);
    }
  }

  /** A walk that has panicked stays panicked and stops changing the queues. */
  lemma {:induction false} DeliverPanicSticks<P>(send: map<ClientId, seq<Message<P>>>, active: set<ClientId>,
                                                 closed: set<ClientId>, targets: seq<ClientId>, k: nat, m: Message<P>)
    requires k <= |targets|
    requires Deliver(send, active, closed, targets[..k], m).1
    ensures Deliver(send, active, closed, targets, m) == Deliver(send, active, closed, targets[..k], m)
    decreases |targets|
  {
    if k < |targets| {
      var init := targets[..|targets| - 1];
      assert init[..k] == targets[..k];
      DeliverPanicSticks(send, active, closed, init, k, m);
    } else {
      assert targets[..k] == targets;
    }
  }

  /** `BroadcastToUser` panics exactly when one of the listed connections is active but closed. */
  lemma {:induction false} DeliverPanicsIff<P>(send: map<ClientId, seq<Message<P>>>, active: set<ClientId>,
                                               closed: set<ClientId>, targets: seq<ClientId>, m: Message<P>)
    ensures Deliver(send, active, closed, targets, m).1
        <==> exists i :: 0 <= i < |targets| && targets[i] in active && targets[i] in closed
    decreases |targets|
  {
    if targets != [] {
      var init := targets[..|targets| - 1];
      DeliverPanicsIff(send, active, closed, init, m);
      if exists i :: 0 <= i < |init| && init[i] in active && init[i] in closed {
        var i :| 0 <= i < |init| && init[i] in active && init[i] in closed;
        assert targets[i] == init[i];
      }
      if exists i :: 0 <= i < |targets| && targets[i] in active && targets[i] in closed {
        var i :| 0 <= i < |targets| && targets[i] in active && targets[i] in closed;
        if i < |init| {
          assert init[i] == targets[i];
        }
      }
    }
  }

  /**
   * `BroadcastToUser` only appends `m` to queues, never beyond the capacity,
   * and leaves the queues of clients it does not list untouched.
   */
  lemma {:induction false} DeliverAppends<P>(send: map<ClientId, seq<Message<P>>>, active: set<ClientId>,
                                             closed: set<ClientId>, targets: seq<ClientId>, m: Message<P>)
    requires forall c :: c in send ==> |send[c]| <= SendCapacity
    ensures Deliver(send, active, closed, targets, m).0.Keys == send.Keys
    ensures forall c :: c in send ==> |Deliver(send, active, closed, targets, m).0[c]| <= SendCapacity
    ensures forall c :: c in send ==> send[c] <= Deliver(send, active, closed, targets, m).0[c]
    ensures forall c, j :: c in send && |send[c]| <= j < |Deliver(send, active, closed, targets, m).0[c]| ==>
      Deliver(send, active, closed, targets, m).0[c][j] == m
    ensures forall c :: c in send && c !in targets ==> Deliver(send, active, closed, targets, m).0[c] == send[c]
    decreases |targets|
  {
    if targets != [] {
      var init := targets[..|targets| - 1];
      DeliverAppends(send, active, closed, init, m);
      var prior := Deliver(send, active, closed, init, m).0;
      var r := Deliver(send, active, closed, targets, m).0;
      var t := targets[|targets| - 1];
      forall c | c in send && c !in targets
        ensures r[c] == send[c]
      {
        assert c != t && c !in init;
      }
    }
  }

  /**
   * A listed connection that is active and has room receives `m` right after
   * what it already held, unless an earlier send panicked.
   */
  lemma {:induction false} DeliverReaches<P>(send: map<ClientId, seq<Message<P>>>, active: set<ClientId>,
                                             closed: set<ClientId>, targets: seq<ClientId>, m: Message<P>, c: ClientId)
    requires forall d :: d in send ==> |send[d]| <= SendCapacity
    requires c in targets && c in active && c in send && |send[c]| < SendCapacity
    requires !Deliver(send, active, closed, targets, m).1
    ensures var r := Deliver(send, active, closed, targets, m).0;
      c in r && |send[c]| < |r[c]| && r[c][|send[c]|] == m
    decreases |targets|
  {
    var init := targets[..|targets| - 1];
    var last := targets[|targets| - 1];
    DeliverAppends(send, active, closed, init, m);
    var prior := Deliver(send, active, closed, init, m);
    if c in init {
      DeliverReaches(send, active, closed, init, m, c);
    } else {
      assert last == c by {
        var k :| 0 <= k < |targets| && targets[k] == c;
      }
      assert prior.0[c] == send[c];
    }
  }

  /** When no listed connection is closed (the hub's intended state), `BroadcastToUser` never panics. */
  lemma DeliverSafeWhenLive<P>(send: map<ClientId, seq<Message<P>>>, active: set<ClientId>, closed: set<ClientId>,
                               targets: seq<ClientId>, m: Message<P>)
    requires forall i :: 0 <= i < |targets| ==> targets[i] !in closed
    ensures !Deliver(send, active, closed, targets, m).1
  {
    DeliverPanicsIff(send, active, closed, targets, m);
  }

  /**
   * The hub broadcast as written strands a full client: it is closed and
   * dropped from `Clients`, but stays listed under its user, so the next
   * `BroadcastToUser` to that user sends on a closed channel and panics.
   */
  lemma BroadcastThenSendToUserPanics<P>(send: map<ClientId, seq<Message<P>>>, clients: set<ClientId>,
                                        closed: set<ClientId>, active: set<ClientId>,
                                        uc: map<UserId, seq<ClientId>>, u: UserId, c: ClientId,
                                        m: Message<P>, next: Message<P>)
    requires c in clients && c in active && c in send && |send[c]| >= SendCapacity
    requires u in uc && c in uc[u]
    ensures c in Overflowing(send, clients)
    ensures Deliver(BroadcastQueues(send, clients, m), active, closed + Overflowing(send, clients), uc[u], next).1
  {
    var k :| 0 <= k < |uc[u]| && uc[u][k] == c;
    DeliverPanicsIff(BroadcastQueues(send, clients, m), active, closed + Overflowing(send, clients), uc[u], next);
  }

  /** The broadcast loop has handled the clients in `done`, and no others. */
  ghost predicate RoundDone<P>(send: map<ClientId, seq<Message<P>>>, closed: set<ClientId>, done: set<ClientId>,
                               m: Message<P>, q: map<ClientId, seq<Message<P>>>, live: set<ClientId>,
                               shut: set<ClientId>, clients: set<ClientId>)
  {
    q.Keys == send.Keys
    && (forall d :: d in q ==> q[d] == if d in done then Offer(send[d], m) else send[d])
    && (forall d :: d in live <==> d in clients && !(d in done && d in send && |send[d]| >= SendCapacity))
    && (forall d :: d in shut <==> d in closed || (d in done && d in send && |send[d]| >= SendCapacity))
  }

  /** One more client handled by the broadcast loop. */
  lemma RoundStep<P>(send: map<ClientId, seq<Message<P>>>, closed: set<ClientId>, done: set<ClientId>,
                     m: Message<P>, q: map<ClientId, seq<Message<P>>>, live: set<ClientId>,
                     shut: set<ClientId>, clients: set<ClientId>, c: ClientId)
    requires RoundDone(send, closed, done, m, q, live, shut, clients)
    requires c in send && c !in done
    ensures c in q && q[c] == send[c]
    ensures |send[c]| < SendCapacity ==>
      RoundDone(send, closed, done + {c}, m, q[c := q[c] + [m]], live, shut, clients)
    ensures |send[c]| >= SendCapacity ==>
      RoundDone(send, closed, done + {c}, m, q, live - {c}, shut + {c}, clients)
  {
  }

  /** Once every registered client is handled, the loop's results are the broadcast's effect. */
  lemma RoundSettles<P>(send: map<ClientId, seq<Message<P>>>, clients: set<ClientId>, closed: set<ClientId>,
                        m: Message<P>, q: map<ClientId, seq<Message<P>>>, live: set<ClientId>, shut: set<ClientId>)
    requires clients <= send.Keys
    requires RoundDone(send, closed, clients, m, q, live, shut, clients)
    ensures q == BroadcastQueues(send, clients, m)
    ensures live == clients - Overflowing(send, clients)
    ensures shut == closed + Overflowing(send, clients)
  {
  }

  /**
   * The loop of the hub broadcast over the registered clients, in any order:
   * each one is offered `m`; a full one is closed and leaves the client set.
   */
  method BroadcastRound<P>(send: map<ClientId, seq<Message<P>>>, clients: set<ClientId>, closed: set<ClientId>,
                           m: Message<P>)
    returns (q: map<ClientId, seq<Message<P>>>, live: set<ClientId>, shut: set<ClientId>)
    requires clients <= send.Keys
    ensures q == BroadcastQueues(send, clients, m)
    ensures live == clients - Overflowing(send, clients)
    ensures shut == closed + Overflowing(send, clients)
  {
    q, live, shut := send, clients, closed;
    var todo := clients;
    ghost var done: set<ClientId> := {};
    while todo != {}
      invariant todo <= clients && forall d :: d in done <==> d in clients && d !in todo
      invariant RoundDone(send, closed, done, m, q, live, shut, clients)
      decreases |todo|
    {
      var c :| c in todo;
      RoundStep(send, closed, done, m, q, live, shut, clients, c);
      if |q[c]| < SendCapacity {
        q := q[c := q[c] + [m]];
      } else {
        shut := shut + {c};
        live := live - {c};
      }
      todo := todo - {c};
      done := done + {c};
    }
    RoundSettles(send, clients, closed, m, q, live, shut);
  }

  /** The hub broadcast never fills a queue beyond its capacity. */
  lemma BroadcastBounded<P>(send: map<ClientId, seq<Message<P>>>, clients: set<ClientId>, m: Message<P>)
    requires forall c :: c in send ==> |send[c]| <= SendCapacity
    ensures var r := BroadcastQueues(send, clients, m);
      r.Keys == send.Keys && forall c :: c in r ==> |r[c]| <= SendCapacity
  {
  }

  /** The listed connections that are active. */
  function Hit(s: seq<ClientId>, active: set<ClientId>): set<ClientId>
  {
    set c | c in s && c in active
  }

  /**
   * The loop of `CloseUserConnections` over a user's list: each connection
   * still active is marked inactive, and its unregister request removes it
   * from `Clients` and closes its channel if it is still registered.
   */
  method DeactivateAll(s: seq<ClientId>, active: set<ClientId>, clients: set<ClientId>, closed: set<ClientId>)
    returns (a: set<ClientId>, live: set<ClientId>, shut: set<ClientId>)
    ensures a == active - Hit(s, active)
    ensures live == clients - Hit(s, active)
    ensures shut == closed + (Hit(s, active) * clients)
  {
    a, live, shut := active, clients, closed;
    var i := 0;
    while i < |s|
      invariant 0 <= i <= |s|
      invariant forall d :: d in a <==> d in active && d !in s[..i]
      invariant forall d :: d in live <==> d in clients && !(d in s[..i] && d in active)
      invariant forall d :: d in shut <==> d in closed || (d in s[..i] && d in active && d in clients)
    {
      var c := s[i];
      assert s[..i + 1] == s[..i] + [c];
      if c in a {
        a := a - {c};
        if c in live {
          live := live - {c};
          shut := shut + {c};
        }
      }
      i := i + 1;
    }
    assert s[..i] == s;
  }

  /** Where position `k` of a list with position `i` removed comes from. */
  function Skip(i: nat, k: nat): nat
  {
    if k < i then k else k + 1
  }

  /** The position of the first `c` in `s`, or `|s|` when it is not there: the scan in `Unregister`. */
  method FindFirst(s: seq<ClientId>, c: ClientId) returns (i: nat)
    ensures i <= |s| && c !in s[..i]
    ensures i < |s| ==> s[i] == c
  {
    i := 0;
    while i < |s| && s[i] != c
      invariant i <= |s| && c !in s[..i]
    {
      i := i + 1;
    }
  }

  /** What `RemoveFirst` leaves was already in the list. */
  lemma {:induction false} RemoveFirstWithin(s: seq<ClientId>, c: ClientId)
    ensures forall k :: 0 <= k < |RemoveFirst(s, c)| ==> RemoveFirst(s, c)[k] in s
    decreases |s|
  {
    if s != [] && s[0] != c {
      RemoveFirstWithin(s[1..], c);
      var r := RemoveFirst(s, c);
      forall k | 0 <= k < |r|
        ensures r[k] in s
      {
        if k > 0 {
          assert r[k] == RemoveFirst(s[1..], c)[k - 1];
        }
      }
    }
  }

  /** `RemoveFirst` on a list without repeats drops exactly `c` and keeps the rest distinct. */
  lemma RemoveFirstDistinct(s: seq<ClientId>, c: ClientId, within: set<ClientId>)
    requires forall i :: 0 <= i < |s| ==> s[i] in within
    requires forall i, j :: 0 <= i < j < |s| ==> s[i] != s[j]
    ensures forall k :: 0 <= k < |RemoveFirst(s, c)| ==> RemoveFirst(s, c)[k] in within && RemoveFirst(s, c)[k] != c
    ensures forall k1, k2 :: 0 <= k1 < k2 < |RemoveFirst(s, c)| ==> RemoveFirst(s, c)[k1] != RemoveFirst(s, c)[k2]
  {
    var r := RemoveFirst(s, c);
    if c in s {
      var i :| 0 <= i < |s| && s[i] == c;
      assert c !in s[..i];
      RemoveFirstAt(s, c, i);
      forall k | 0 <= k < |r|
        ensures r[k] == s[Skip(i, k)] && r[k] != c
      {
        assert Skip(i, k) != i;
      }
      forall k1, k2 | 0 <= k1 < k2 < |r|
        ensures r[k1] != r[k2]
      {
        assert Skip(i, k1) < Skip(i, k2);
      }
    } else {
      RemoveFirstAbsent(s, c);
    }
  }

  /** Unregistering keeps every index entry under its owner, and no entry empty. */
  lemma UnindexOwned(uc: map<UserId, seq<ClientId>>, owner: map<ClientId, UserId>, c: ClientId)
    requires OwnedIn(uc, owner) && (forall u :: u in uc ==> uc[u] != []) && c in owner
    ensures var r := Unindex(uc, owner[c], c);
      OwnedIn(r, owner) && (forall u :: u in r ==> r[u] != [])
  {
    if owner[c] in uc {
      RemoveFirstWithin(uc[owner[c]], c);
    }
  }

  /** An index of registered, distinct clients stays one once `c` leaves `Clients` and the index. */
  lemma UnindexIndexed(clients: set<ClientId>, uc: map<UserId, seq<ClientId>>, owner: map<ClientId, UserId>,
                       c: ClientId)
    requires OwnedIn(uc, owner) && c in owner && IndexedIn(clients, uc)
    ensures IndexedIn(clients - {c}, Unindex(uc, owner[c], c))
  {
    var u := owner[c];
    var r := Unindex(uc, u, c);
    if u in uc {
      RemoveFirstDistinct(uc[u], c, clients);
    }
    forall v, i | v in r && 0 <= i < |r[v]|
      ensures r[v][i] in clients - {c}
    {
      if v == u {
        var rest := RemoveFirst(uc[u], c);
        assert r[v] == rest;
        assert rest[i] in clients - {c};
      } else {
        assert r[v] == uc[v];
        assert owner[uc[v][i]] == v;
        assert uc[v][i] in clients;
        assert uc[v][i] != c;
      }
    }
    forall v, i, j | v in r && 0 <= i < j < |r[v]|
      ensures r[v][i] != r[v][j]
    {
      if v == u {
        assert r[v] == RemoveFirst(uc[u], c);
      } else {
        assert r[v] == uc[v];
      }
    }
  }

  /** `s` without any entry of `gone`, in order. */
  function Drop(s: seq<ClientId>, gone: set<ClientId>): seq<ClientId>
  {
    if s == [] then [] else (if s[0] in gone then [] else [s[0]]) + Drop(s[1..], gone)
  }

  /** The index with every client of `gone` unlisted, in order, and each list left empty deleted. */
  function DropAll(uc: map<UserId, seq<ClientId>>, gone: set<ClientId>): map<UserId, seq<ClientId>>
  {
    map u | u in uc && Drop(uc[u], gone) != [] :: Drop(uc[u], gone)
  }

  /** `Drop` keeps exactly the entries outside `gone`. */
  lemma {:induction false} DropMembers(s: seq<ClientId>, gone: set<ClientId>)
    ensures forall x :: x in Drop(s, gone) <==> x in s && x !in gone
  {
    if s != [] {
      DropMembers(s[1..], gone);
      assert s == [s[0]] + s[1..];
    }
  }

  /** After `DropAll`, a client is listed under a user iff it was listed there before and is not gone; no list is empty. */
  lemma DropAllMembers(uc: map<UserId, seq<ClientId>>, gone: set<ClientId>, u: UserId, c: ClientId)
    ensures u in DropAll(uc, gone) ==> u in uc && DropAll(uc, gone)[u] != []
    ensures u in DropAll(uc, gone) && c in DropAll(uc, gone)[u] <==> u in uc && c in uc[u] && c !in gone
  {
    if u in uc {
      DropMembers(uc[u], gone);
    }
  }

  /** Dropping what a list does not hold leaves it as it is. */
  lemma {:induction false} DropNone(s: seq<ClientId>, gone: set<ClientId>)
    requires forall i :: 0 <= i < |s| ==> s[i] !in gone
    ensures Drop(s, gone) == s
  {
    if s != [] {
      DropNone(s[1..], gone);
    }
  }

  /** Dropping `later` after `gone` is dropping both at once. */
  lemma {:induction false} DropThen(s: seq<ClientId>, gone: set<ClientId>, later: set<ClientId>)
    ensures Drop(Drop(s, gone), later) == Drop(s, gone + later)
  {
    if s != [] {
      DropThen(s[1..], gone, later);
      var rest := Drop(s[1..], gone);
      if s[0] in gone {
        assert Drop(s, gone) == rest;
        assert Drop(s, gone + later) == Drop(s[1..], gone + later);
      } else {
        var t := [s[0]] + rest;
        assert Drop(s, gone) == t;
        assert t[0] == s[0] && t[1..] == rest;
        assert Drop(t, later) == (if s[0] in later then [] else [s[0]]) + Drop(rest, later);
      }
    }
  }

  /** On a list without repeats, removing the first occurrence of `c` removes every occurrence. */
  lemma {:induction false} RemoveFirstIsDrop(s: seq<ClientId>, c: ClientId)
    requires forall i, j :: 0 <= i < j < |s| ==> s[i] != s[j]
    ensures RemoveFirst(s, c) == Drop(s, {c})
  {
    if s != [] {
      if s[0] == c {
        forall i | 0 <= i < |s[1..]|
          ensures s[1..][i] !in {c}
        {
          assert s[1..][i] == s[i + 1];
        }
        DropNone(s[1..], {c});
      } else {
        RemoveFirstIsDrop(s[1..], c);
      }
    }
  }

  /** An index without empty lists is `DropAll` of itself with nothing gone. */
  lemma DropAllNothing(uc: map<UserId, seq<ClientId>>)
    requires forall u :: u in uc ==> uc[u] != []
    ensures DropAll(uc, {}) == uc
  {
    forall u | u in uc
      ensures Drop(uc[u], {}) == uc[u]
    {
      DropNone(uc[u], {});
    }
  }

  /** Dropping a client a list does not hold along with `gone` is dropping `gone` alone. */
  lemma DropAbsent(s: seq<ClientId>, gone: set<ClientId>, c: ClientId)
    requires c !in s
    ensures Drop(s, gone + {c}) == Drop(s, gone)
  {
    var t := Drop(s, gone);
    DropMembers(s, gone);
    forall i | 0 <= i < |t|
      ensures t[i] !in {c}
    {
      assert t[i] in t;
    }
    DropNone(t, {c});
    DropThen(s, gone, {c});
  }

  /**
   * One user's entry after unregistering one more client `c`: the entry of
   * `Unindex` and of `DropAll` with `c` gone agree.
   */
  lemma DropAllStepAt(uc0: map<UserId, seq<ClientId>>, gone: set<ClientId>, c: ClientId,
                      owner: map<ClientId, UserId>, clients: set<ClientId>, v: UserId)
    requires OwnedIn(uc0, owner) && c in owner
    requires IndexedIn(clients, DropAll(uc0, gone))
    ensures var lhs := Unindex(DropAll(uc0, gone), owner[c], c);
            var rhs := DropAll(uc0, gone + {c});
            (v in lhs <==> v in rhs) && (v in lhs ==> lhs[v] == rhs[v])
  {
    var uc := DropAll(uc0, gone);
    var u := owner[c];
    if v in uc0 {
      if v == u {
        DropThen(uc0[v], gone, {c});
        if v in uc {
          RemoveFirstIsDrop(uc[v], c);
        }
      } else {
        forall k | 0 <= k < |uc0[v]|
          ensures uc0[v][k] != c
        {
          assert owner[uc0[v][k]] == v;
        }
        DropAbsent(uc0[v], gone, c);
      }
    }
  }

  /**
   * Unregistering one more client `c` from an owned index whose lists have
   * no repeats drops `c` along with the clients already gone.
   */
  lemma DropAllStep(uc0: map<UserId, seq<ClientId>>, gone: set<ClientId>, c: ClientId,
                    owner: map<ClientId, UserId>, clients: set<ClientId>)
    requires OwnedIn(uc0, owner) && c in owner
    requires IndexedIn(clients, DropAll(uc0, gone))
    ensures Unindex(DropAll(uc0, gone), owner[c], c) == DropAll(uc0, gone + {c})
  {
    var lhs := Unindex(DropAll(uc0, gone), owner[c], c);
    var rhs := DropAll(uc0, gone + {c});
    forall v
      ensures v in lhs <==> v in rhs
      ensures v in lhs ==> lhs[v] == rhs[v]
    {
      DropAllStepAt(uc0, gone, c, owner, clients, v);
    }
    assert lhs == rhs;
  }

  /** Dropping `later` from every list after `gone` is dropping both at once. */
  lemma DropAllThen(uc: map<UserId, seq<ClientId>>, gone: set<ClientId>, later: set<ClientId>)
    ensures DropAll(DropAll(uc, gone), later) == DropAll(uc, gone + later)
  {
    var lhs := DropAll(DropAll(uc, gone), later);
    var rhs := DropAll(uc, gone + later);
    forall v | v in uc
      ensures Drop(Drop(uc[v], gone), later) == Drop(uc[v], gone + later)
    {
      DropThen(uc[v], gone, later);
    }
    assert forall v :: v in lhs <==> v in rhs;
    assert lhs == rhs;
  }

  /**
   * Presence agrees with the connection count when the index and the client
   * set describe the same connections.
   */
  lemma PresenceAgrees(clients: set<ClientId>, uc: map<UserId, seq<ClientId>>, owner: map<ClientId, UserId>,
                       active: set<ClientId>, u: UserId)
    requires IndexedIn(clients, uc) && ReachableIn(clients, uc, owner) && OwnedIn(uc, owner)
    ensures HasActive(uc, active, u) <==> |ActiveOf(clients, owner, active, u)| > 0
  {
    var s := ActiveOf(clients, owner, active, u);
    if HasActive(uc, active, u) {
      var i :| 0 <= i < |uc[u]| && uc[u][i] in active;
      assert uc[u][i] in s;
    }
    if |s| > 0 {
      var c :| c in s;
      var i :| 0 <= i < |uc[owner[c]]| && uc[owner[c]][i] == c;
    }
  }

  /**
   * Writes `m` to each target in turn, as the loop of BroadcastToUser does,
   * stopping at the first closed active target.
   */
  method DeliverAll<P>(send: map<ClientId, seq<Message<P>>>, active: set<ClientId>, closed: set<ClientId>,
                       targets: seq<ClientId>, m: Message<P>)
    returns (q: map<ClientId, seq<Message<P>>>, panicked: bool)
    ensures (q, panicked) == Deliver(send, active, closed, targets, m)
  {
    q, panicked := send, false;
    var i := 0;
    while i < |targets|
      invariant 0 <= i <= |targets|
      invariant Deliver(send, active, closed, targets[..i], m) == (q, false)
    {
      var c := targets[i];
      assert targets[..i + 1][..i] == targets[..i];
      if c in active {
        if c in closed {
          panicked := true;
          DeliverPanicSticks(send, active, closed, targets, i + 1, m);
          return;
        }
        if c in q {
          if |q[c]| < SendCapacity {
            q := q[c := q[c] + [m]];
          } else {
            assert q[c := Offer(q[c], m)] == q;
          }
        }
      }
      i := i + 1;
    }
    assert targets[..i] == targets;
  }

  /** Counts the registered active connections of `u`, one client at a time. */
  method CountActive(clients: set<ClientId>, owner: map<ClientId, UserId>, active: set<ClientId>, u: UserId)
    returns (n: nat)
    requires clients <= owner.Keys
    ensures n == |ActiveOf(clients, owner, active, u)|
  {
    n := 0;
    var todo := clients;
    ghost var done: set<ClientId> := {};
    while todo != {}
      invariant todo + done == clients && todo !! done
      invariant n == |ActiveOf(done, owner, active, u)|
      decreases |todo|
    {
      var c :| c in todo;
      if owner[c] == u && c in active {
        assert ActiveOf(done + {c}, owner, active, u) == ActiveOf(done, owner, active, u) + {c};
        n := n + 1;
      } else {
        assert ActiveOf(done + {c}, owner, active, u) == ActiveOf(done, owner, active, u);
      }
      todo := todo - {c};
      done := done + {c};
    }
  }

  class Hub<P> {
    /** `Clients`: the registered clients. */
    var clients: set<ClientId>
    /** `UserClients`: each user's connections, in registration order. */
    var userClients: map<UserId, seq<ClientId>>
    /** `Client.UserID` of every client built so far. */
    var owner: map<ClientId, UserId>
    /** The envelopes waiting in each client's `Send` channel, oldest first. */
    var send: map<ClientId, seq<Message<P>>>
    /** The clients whose `Send` channel has been closed. */
    var closed: set<ClientId>
    /** The clients whose `IsActive` flag is set. */
    var active: set<ClientId>

    /** What every operation keeps, including the hub broadcast that strands full clients. */
    ghost predicate Valid()
      reads this
    {
      send.Keys == owner.Keys
      && clients <= owner.Keys && closed <= owner.Keys && active <= owner.Keys
      && clients !! closed
      && (forall c :: c in send ==> |send[c]| <= SendCapacity)
      && (forall u :: u in userClients ==> userClients[u] != [])
      && OwnedIn(userClients, owner)
    }

    /** Every index entry is registered and listed once. */
    ghost predicate Indexed()
      reads this
    {
      IndexedIn(clients, userClients)
    }

    /** Every index entry has an open channel, so `BroadcastToUser` cannot panic. */
    ghost predicate Live()
      reads this
    {
      forall u, i :: u in userClients && 0 <= i < |userClients[u]| ==> userClients[u][i] !in closed
    }

    /** An index of registered clients has no closed channel in it. */
    lemma IndexedIsLive()
      requires Valid() && Indexed()
      ensures Live()
    {
    }

    /** `NewHub`: no clients and no index entries. */
    constructor ()
      ensures Valid() && Indexed() && Live()
      ensures clients == {} && userClients == map[] && owner == map[]
      ensures send == map[] && closed == {} && active == {}
    {
      clients := {};
      userClients := map[];
      owner := map[];
      send := map[];
      closed := {};
      active := {};
    }

    /** A client as `HandleConnection` builds it: an empty open `Send` channel and `IsActive` set. */
    method NewClient(id: ClientId, u: UserId)
      requires Valid() && id !in owner
      modifies this
      ensures Valid()
      ensures owner == old(owner)[id := u] && send == old(send)[id := []] && active == old(active) + {id}
      ensures clients == old(clients) && userClients == old(userClients) && closed == old(closed)
      ensures old(Indexed()) ==> Indexed()
      ensures old(Live()) ==> Live()
    {
      owner := owner[id := u];
      send := send[id := []];
      active := active + {id};
    }

    /** The `Register` case of `Run`: into `Clients`, and appended to the end of its user's list. */
    method Register(c: ClientId)
      requires Valid() && c in owner && c !in closed
      modifies this
      ensures Valid()
      ensures clients == old(clients) + {c}
      ensures userClients == old(userClients)[owner[c] := Entry(old(userClients), owner[c]) + [c]]
      ensures owner == old(owner) && send == old(send) && closed == old(closed) && active == old(active)
      ensures old(Indexed()) && c !in old(clients) ==> Indexed()
      ensures old(Live()) ==> Live()
    {
      var u := owner[c];
      clients := clients + {c};
      userClients := userClients[u := Entry(userClients, u) + [c]];
    }

    /**
     * The `Unregister` case of `Run`. A registered client leaves `Clients`,
     * its channel is closed, and its first entry in its user's list is
     * removed, together with a list left empty. Anything else is a no-op, so
     * a second unregister does not close the channel again.
     */
    method Unregister(c: ClientId)
      requires Valid()
      modifies this
      ensures Valid()
      ensures old(c !in clients) ==> clients == old(clients) && userClients == old(userClients) && closed == old(closed)
      ensures old(c in clients) ==>
        clients == old(clients) - {c} && closed == old(closed) + {c}
        && userClients == Unindex(old(userClients), owner[c], c)
      ensures owner == old(owner) && send == old(send) && active == old(active)
      ensures old(Indexed()) ==> Indexed()
    {
      if c in clients {
        var u := owner[c];
        UnindexOwned(userClients, owner, c);
        if Indexed() {
          UnindexIndexed(clients, userClients, owner, c);
        }
        clients := clients - {c};
        closed := closed + {c};
        if u in userClients {
          var s := userClients[u];
          var i := FindFirst(s, c);
          var rest := s;
          if i < |s| {
            RemoveFirstAt(s, c, i);
            rest := s[..i] + s[i + 1..];
          } else {
            assert s[..i] == s;
            RemoveFirstAbsent(s, c);
          }
          if |rest| == 0 {
            userClients := userClients - {u};
          } else {
            userClients := userClients[u := rest];
          }
        }
      }
    }

    /**
     * The `Broadcast` case of `Run`: a non-blocking send to every registered
     * client. A client whose queue is full gets its channel closed and is
     * deleted from `Clients`, but it stays listed in `UserClients`.
     */
    method Broadcast(m: Message<P>)
      requires Valid()
      modifies this
      ensures Valid()
      ensures send == BroadcastQueues(old(send), old(clients), m)
      ensures clients == old(clients) - Overflowing(old(send), old(clients))
      ensures closed == old(closed) + Overflowing(old(send), old(clients))
      ensures userClients == old(userClients) && owner == old(owner) && active == old(active)
    {
      var q, live, shut := BroadcastRound(send, clients, closed, m);
      BroadcastBounded(send, clients, m);
      send, clients, closed := q, live, shut;
    }

    /**
     * The intended broadcast: a full client is evicted exactly as `Unregister`
     * would evict it, so the index never lists a closed channel.
     */
    method BroadcastEvicting(m: Message<P>)
      requires Valid()
      modifies this
      ensures Valid()
      ensures send == BroadcastQueues(old(send), old(clients), m)
      ensures clients == old(clients) - Overflowing(old(send), old(clients))
      ensures closed == old(closed) + Overflowing(old(send), old(clients))
      ensures owner == old(owner) && active == old(active)
      ensures old(Indexed()) ==> userClients == DropAll(old(userClients), Overflowing(old(send), old(clients)))
      ensures old(Indexed()) ==> Indexed()
      ensures old(Indexed()) ==> Live()
    {
      var q, live, shut := BroadcastRound(send, clients, closed, m);
      BroadcastBounded(send, clients, m);
      var evicted := clients - live;
      assert evicted == Overflowing(send, clients);
      UnregisterAll(evicted);
      send := q;
      if old(Indexed()) {
        IndexedIsLive();
      }
    }

    /** Unregisters every client of `evicted`, one at a time. */
    method UnregisterAll(evicted: set<ClientId>)
      requires Valid() && evicted <= clients
      modifies this
      ensures Valid()
      ensures clients == old(clients) - evicted && closed == old(closed) + evicted
      ensures owner == old(owner) && send == old(send) && active == old(active)
      ensures old(Indexed()) ==> userClients == DropAll(old(userClients), evicted)
      ensures old(Indexed()) ==> Indexed()
      decreases evicted
    {
      ghost var uc0 := userClients;
      if evicted == {} {
        DropAllNothing(uc0);
        return;
      }
      var c :| c in evicted;
      if Indexed() {
        DropAllNothing(uc0);
        DropAllStep(uc0, {}, c, owner, clients);
        assert {} + {c} == {c};
      }
      Unregister(c);
      UnregisterAll(evicted - {c});
      DropAllThen(uc0, {c}, evicted - {c});
      assert {c} + (evicted - {c}) == evicted;
    }

    /** `BroadcastToAll`: an envelope of type "broadcast" through the hub broadcast. */
    method BroadcastToAll(event: P)
      requires Valid()
      modifies this
      ensures Valid()
      ensures send == BroadcastQueues(old(send), old(clients), PrepareMessage("broadcast", event))
      ensures clients == old(clients) - Overflowing(old(send), old(clients))
      ensures closed == old(closed) + Overflowing(old(send), old(clients))
      ensures userClients == old(userClients) && owner == old(owner) && active == old(active)
    {
      Broadcast(PrepareMessage("broadcast", event));
    }

    /**
     * `BroadcastToUser`: an envelope of type "user" offered, in list order,
     * to each active connection of `u`; a full queue drops it. Nothing happens
     * for a user without an entry. `panicked` reports a send on a closed
     * channel, where Go stops with a run-time panic.
     */
    method BroadcastToUser(u: UserId, event: P) returns (panicked: bool)
      requires Valid()
      modifies this
      ensures Valid()
      ensures u !in userClients ==> send == old(send) && !panicked
      ensures u in userClients ==>
        (send, panicked) == Deliver(old(send), active, closed, userClients[u], PrepareMessage("user", event))
      ensures clients == old(clients) && userClients == old(userClients) && owner == old(owner)
      ensures closed == old(closed) && active == old(active)
      ensures old(Live()) ==> !panicked
    {
      panicked := false;
      if u !in userClients {
        return;
      }
      var m := PrepareMessage("user", event);
      var q;
      q, panicked := DeliverAll(send, active, closed, userClients[u], m);
      DeliverAppends(send, active, closed, userClients[u], m);
      if Live() {
        DeliverSafeWhenLive(send, active, closed, userClients[u], m);
      }
      send := q;
    }

    /** `HasActiveClient`: some connection listed for `u` is active. */
    method HasActiveClient(u: UserId) returns (r: bool)
      requires Valid()
      ensures r == HasActive(userClients, active, u)
    {
      if u !in userClients {
        return false;
      }
      var s := userClients[u];
      var i := 0;
      while i < |s|
        invariant 0 <= i <= |s|
        invariant forall k :: 0 <= k < i ==> s[k] !in active
      {
        if s[i] in active {
          return true;
        }
        i := i + 1;
      }
      return false;
    }

    /** `GetActiveConnectionCount`: how many registered clients of `u` are active. */
    method GetActiveConnectionCount(u: UserId) returns (n: nat)
      requires Valid()
      ensures n == |ActiveOf(clients, owner, active, u)|
    {
      n := CountActive(clients, owner, active, u);
    }

    /**
     * `CloseUserConnections`: every active connection of `u` is marked
     * inactive and unregistered, and the user's list is dropped. The
     * unregister requests are applied after the list is gone, so they only
     * leave `Clients` and close the channels.
     */
    method CloseUserConnections(u: UserId)
      requires Valid()
      modifies this
      ensures Valid()
      ensures u !in old(userClients) ==>
        clients == old(clients) && closed == old(closed) && active == old(active) && userClients == old(userClients)
      ensures u in old(userClients) ==>
        var hit := Hit(old(userClients)[u], old(active));
        active == old(active) - hit && clients == old(clients) - hit
        && closed == old(closed) + (hit * old(clients)) && userClients == old(userClients) - {u}
      ensures owner == old(owner) && send == old(send)
      ensures old(Indexed()) ==> Indexed()
      ensures old(Live()) ==> Live()
    {
      if u !in userClients {
        return;
      }
      var s := userClients[u];
      active, clients, closed := DeactivateAll(s, active, clients, closed);
      userClients := userClients - {u};
    }

    /**
     * `handlePing`: a blocking send of the pong envelope. On a closed channel
     * Go panics; on a full one the sender waits, which a sequential model
     * reports as `Blocked` with nothing sent.
     */
    method HandlePing(c: ClientId) returns (o: SendOutcome)
      requires Valid() && c in owner
      modifies this
      ensures Valid()
      ensures o == if c in closed then Panicked else if |old(send)[c]| >= SendCapacity then Blocked else Sent
      ensures send == if o == Sent then old(send)[c := old(send)[c] + [Pong()]] else old(send)
      ensures clients == old(clients) && userClients == old(userClients) && owner == old(owner)
      ensures closed == old(closed) && active == old(active)
    {
      if c in closed {
        return Panicked;
      }
      if |send[c]| >= SendCapacity {
        return Blocked;
      }
      send := send[c := send[c] + [Pong()]];
      return Sent;
    }

    /**
     * One message read by `ReadPump`: `decoded` is the envelope type, or
     * `None` when the bytes do not unmarshal (logged and skipped). Only a
     * "ping" is acted on.
     */
    method OnClientMessage(c: ClientId, decoded: Option<string>) returns (o: Option<SendOutcome>)
      requires Valid() && c in owner
      modifies this
      ensures Valid()
      ensures decoded != Some("ping") ==> o == None && send == old(send)
      ensures decoded == Some("ping") ==> o.Some? && (o.value == Sent <==> send == old(send)[c := old(send)[c] + [Pong()]])
      ensures clients == old(clients) && userClients == old(userClients) && owner == old(owner)
      ensures closed == old(closed) && active == old(active)
    {
      if decoded == Some("ping") {
        var r := HandlePing(c);
        if r != Sent {
          assert |send[c] + [Pong()]| != |send[c]|;
        }
        o := Some(r);
      } else {
        o := None;
      }
    }

    /**
     * One turn of `WritePump`. A non-empty queue is drained into one text
     * frame: the envelope received plus every envelope queued at that moment,
     * oldest first. An empty closed queue yields the close frame; an empty
     * open one waits.
     */
    method WriteStep(c: ClientId) returns (w: Write<P>)
      requires Valid() && c in owner
      modifies this
      ensures Valid()
      ensures old(send)[c] != [] ==> w == Text(old(send)[c]) && send == old(send)[c := []]
      ensures old(send)[c] == [] ==> send == old(send) && w == if c in closed then CloseFrame else Idle
      ensures clients == old(clients) && userClients == old(userClients) && owner == old(owner)
      ensures closed == old(closed) && active == old(active)
    {
      if send[c] == [] {
        return if c in closed then CloseFrame else Idle;
      }
      var batch := [send[c][0]];
      send := send[c := send[c][1..]];
      var n := |send[c]|;
      var i := 0;
      while i < n
        invariant 0 <= i <= n
        invariant c in send && |send[c]| == n - i
        invariant batch + send[c] == old(send)[c]
        invariant send == old(send)[c := send[c]]
        invariant clients == old(clients) && userClients == old(userClients) && owner == old(owner)
        invariant closed == old(closed) && active == old(active)
      {
        assert send[c] == [send[c][0]] + send[c][1..];
        batch := batch + [send[c][0]];
        send := send[c := send[c][1..]];
        i := i + 1;
      }
      return Text(batch);
    }
  }
}
