/**
 * The connection registry: the list of open sockets that `connect` appends
 * to, `disconnect` removes from and `broadcast` walks in order. Every send is
 * recorded in an outbox, in the order it was made.
 */
module Registry {

  /** An open socket; two handles are the same socket exactly when equal. */
  datatype Conn = Conn(handle: nat)

  /** What goes over the wire: a JSON-encoded string, or raw text. */
  datatype Payload = Json(text: string) | Plain(text: string)

  /** One `send_text` call. */
  datatype Send = Send(to: Conn, payload: Payload)

  /** The position of the first occurrence of c in s. */
  function FirstIndex(s: seq<Conn>, c: Conn): (i: nat)
    requires c in s
    ensures i < |s| && s[i] == c
    ensures c !in s[..i]
  {
    if s[0] == c then 0
    else
      var j := FirstIndex(s[1..], c);
      assert s[..j + 1] == [s[0]] + s[1..][..j];
      j + 1
  }

  /** `list.remove(c)`: drop the first occurrence of c and keep the rest in order. */
  function RemoveFirst(s: seq<Conn>, c: Conn): (r: seq<Conn>)
    requires c in s
    ensures |r| == |s| - 1
    ensures multiset(r) == multiset(s) - multiset{c}
  {
    var i := FirstIndex(s, c);
    assert s == s[..i] + [c] + s[i + 1..];
    s[..i] + s[i + 1..]
  }

  /**
   * Removal keeps the other connections in their original order: the entries
   * before the removed one stay where they were, those after move up by one.
   */
  lemma RemoveFirstKeepsOrder(s: seq<Conn>, c: Conn, k: nat)
    requires c in s && k < |s| - 1
    ensures RemoveFirst(s, c)[k] == if k < FirstIndex(s, c) then s[k] else s[k + 1]
  {
  }

  /** Registering a connection that was not registered and then removing it restores the list. */
  lemma RemoveAfterAppend(s: seq<Conn>, c: Conn)
    requires c !in s
    ensures c in s + [c]
    ensures RemoveFirst(s + [c], c) == s
  {
  }

  /** One send of payload to each connection of conns, in list order. */
  function Deliveries(conns: seq<Conn>, payload: Payload): (sends: seq<Send>)
    ensures |sends| == |conns|
    ensures forall i :: 0 <= i < |conns| ==> sends[i] == Send(conns[i], payload)
    decreases |conns|
  {
    if conns == [] then []
    else Deliveries(conns[..|conns| - 1], payload) + [Send(conns[|conns| - 1], payload)]
  }

  /**
   * A broadcast reaches every registered connection and nobody else: a socket
   * receives the payload once per time it is registered, and an unregistered
   * socket receives nothing.
   */
  lemma {:induction false} DeliveriesCount(conns: seq<Conn>, payload: Payload, c: Conn)
    ensures multiset(Deliveries(conns, payload))[Send(c, payload)] == multiset(conns)[c]
    ensures c !in conns ==> forall p :: Send(c, p) !in Deliveries(conns, payload)
    decreases |conns|
  {
    if conns != [] {
      var init := conns[..|conns| - 1];
      DeliveriesCount(init, payload, c);
      assert conns == init + [conns[|conns| - 1]];
    }
  }

  /**
   * How far a broadcast over active gets when the sockets in dead raise on
   * send: the index of the first dead socket, or |active| if there is none.
   */
  function Reach(active: seq<Conn>, dead: set<Conn>): (n: nat)
    ensures n <= |active|
    ensures forall j :: 0 <= j < n ==> active[j] !in dead
    ensures n < |active| ==> active[n] in dead
    decreases |active|
  {
    if active == [] || active[0] in dead then 0 else 1 + Reach(active[1..], dead)
  }

  /** With no dead socket registered, a broadcast gets through the whole list. */
  lemma ReachAll(active: seq<Conn>, dead: set<Conn>)
    requires forall c :: c in active ==> c !in dead
    ensures Reach(active, dead) == |active|
  {
  }

  class ConnectionManager {
    /** `active_connections`, in registration order. */
    var active: seq<Conn>
    /** Every `send_text` this manager made, oldest first. */
    var outbox: seq<Send>

    constructor ()
      ensures active == [] && outbox == []
    {
      active := [];
      outbox := [];
    }

    /** `connect`: the accepted socket goes at the end of the list. */
    method Connect(c: Conn)
      modifies this
      ensures active == old(active) + [c]
      ensures outbox == old(outbox)
    {
      active := active + [c];
    }

    /** `disconnect`: `list.remove`, which raises when c is absent, so c must be registered. */
    method Disconnect(c: Conn)
      requires c in active
      modifies this
      ensures active == RemoveFirst(old(active), c)
      ensures outbox == old(outbox)
    {
      active := RemoveFirst(active, c);
    }

    /** `send_personal_message`: one send to one socket. */
    method SendPersonal(message: string, c: Conn)
      modifies this
      ensures active == old(active)
      ensures outbox == old(outbox) + [Send(c, Plain(message))]
    {
      outbox := outbox + [Send(c, Plain(message))];
    }

    /**
     * `broadcast`: send payload to each registered socket in list order. A
     * send to a socket in dead raises, which ends the loop there; delivered
     * tells whether the loop ran to the end.
     */
    method Broadcast(payload: Payload, dead: set<Conn>) returns (delivered: bool)
      modifies this
      ensures active == old(active)
      ensures delivered <==> Reach(active, dead) == |active|
      ensures outbox == old(outbox) + Deliveries(active[..Reach(active, dead)], payload)
    {
      var i := 0;
      while i < |active|
        invariant active == old(active)
        invariant 0 <= i <= |active|
        invariant forall j :: 0 <= j < i ==> active[j] !in dead
        invariant outbox == old(outbox) + Deliveries(active[..i], payload)
      {
        if active[i] in dead {
          return false;
        }
        assert active[..i + 1][..i] == active[..i];
        outbox := outbox + [Send(active[i], payload)];
        i := i + 1;
      }
      assert active[..i] == active;
      return true;
    }
  }
}
