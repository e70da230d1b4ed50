/** What each connection's socket has been sent, and the broadcast loop
    `for client in APP.clients: client.socket.send(...)` as a function of
    those send logs. */
module Outbox {
  import opened Lists

  /** The frames sent so far to `k`; a socket nothing was sent to has sent nothing. */
  function Sent<K, M>(box: map<K, seq<M>>, k: K): seq<M>
  {
    if k in box then box[k] else []
  }

  /** One `socket.send(m)` to `k`. */
  function Send<K, M>(box: map<K, seq<M>>, k: K, m: M): map<K, seq<M>>
  {
    box[k := Sent(box, k) + [m]]
  }

  /** Sending `m` to every recipient of `rs`, one after another, in order. */
  function SendAll<K, M>(box: map<K, seq<M>>, rs: seq<K>, m: M): map<K, seq<M>>
    decreases |rs|
  {
    if rs == [] then box else Send(SendAll(box, rs[..|rs| - 1], m), rs[|rs| - 1], m)
  }

  /** `after` is `before` with `m` appended once to the log of each member of
      `rs`, and every other log untouched. */
  ghost predicate Delivered<K, M>(before: map<K, seq<M>>, after: map<K, seq<M>>, rs: seq<K>, m: M)
  {
    && after.Keys == before.Keys + (set k | k in rs)
    && (forall k :: k in rs ==> after[k] == Sent(before, k) + [m])
    && (forall k :: k in before && k !in rs ==> after[k] == before[k])
  }

  /** A broadcast to distinct recipients delivers exactly one copy to each of
      them and nothing to anybody else. */
  lemma {:induction false} SendAllDelivers<K, M>(box: map<K, seq<M>>, rs: seq<K>, m: M)
    requires Distinct(rs)
    ensures Delivered(box, SendAll(box, rs, m), rs, m)
    decreases |rs|
  {
    if rs != [] {
      var front, last := rs[..|rs| - 1], rs[|rs| - 1];
      assert Distinct(front);
      SendAllDelivers(box, front, m);
      assert last !in front;
      assert forall k :: k in rs <==> k in front || k == last;
    }
  }

  /** A single send is a delivery to one recipient. */
  lemma SendDelivers<K, M>(box: map<K, seq<M>>, k: K, m: M)
    ensures Delivered(box, Send(box, k, m), [k], m)
  {
    assert forall j :: j in [k] <==> j == k;
  }
}
