/**
 * The per-instance subscription registry: each event type keeps its handlers as a
 * JavaScript `Set`, that is, without duplicates and in insertion order.
 */
module Listeners {

  /** Identity of a subscribed callback. */
  type HandlerId = nat

  /** One invocation of a handler by `emit`: which handler, for which type, with which argument. */
  datatype Call = Call(handler: HandlerId, channel: string, payload: real)

  /** No handler occurs twice. */
  ghost predicate NoDup(hs: seq<HandlerId>)
  {
    forall i, j :: 0 <= i < j < |hs| ==> hs[i] != hs[j]
  }

  /** `set.add(cb)`: appends `cb` unless it is already there. */
  function Add(hs: seq<HandlerId>, cb: HandlerId): (r: seq<HandlerId>)
    ensures forall h :: h in r <==> h in hs || h == cb
    ensures |hs| <= |r| && r[..|hs|] == hs
    ensures NoDup(hs) ==> NoDup(r)
  {
    if cb in hs then hs else hs + [cb]
  }

  /** `r` is `hs` with the one occurrence of `cb` taken out, everything else in place. */
  ghost predicate DropsOnce(hs: seq<HandlerId>, r: seq<HandlerId>, cb: HandlerId)
  {
    exists k :: 0 <= k < |hs| && hs[k] == cb && r == hs[..k] + hs[k + 1..]
  }

  /** `set.delete(cb)`: drops `cb` and keeps every other handler in its order. */
  function Remove(hs: seq<HandlerId>, cb: HandlerId): (r: seq<HandlerId>)
    ensures forall h :: h in r <==> h in hs && h != cb
    ensures |r| <= |hs|
    ensures NoDup(hs) ==> NoDup(r)
    ensures cb !in hs ==> r == hs
  {
    if hs == [] then []
    else
      var rest := Remove(hs[1..], cb);
      NoDupTail(hs);
      assert hs == [hs[0]] + hs[1..];
      if hs[0] == cb then rest else [hs[0]] + rest
  }

  /**
   * Over a duplicate-free list that holds `cb`, deleting it takes out its one
   * occurrence and leaves every other handler in its insertion order.
   */
  lemma {:induction false} RemoveKeepsOrder(hs: seq<HandlerId>, cb: HandlerId)
    requires NoDup(hs) && cb in hs
    ensures DropsOnce(hs, Remove(hs, cb), cb)
  {
    NoDupTail(hs);
    var rest := Remove(hs[1..], cb);
    if hs[0] == cb {
      DropHead(hs, rest, cb);
    } else {
      RemoveKeepsOrder(hs[1..], cb);
      var k :| 0 <= k < |hs[1..]| && hs[1..][k] == cb && rest == hs[1..][..k] + hs[1..][k + 1..];
      KeepHead(hs, rest, cb, k);
      assert Remove(hs, cb) == [hs[0]] + rest;
      assert hs[k + 1] == cb && Remove(hs, cb) == hs[..k + 1] + hs[k + 2..];
    }
  }

  /** The tail of a duplicate-free list is duplicate-free and lacks the head. */
  lemma NoDupTail(hs: seq<HandlerId>)
    requires hs != []
    ensures NoDup(hs) ==> NoDup(hs[1..]) && hs[0] !in hs[1..]
  {
  }

  /** Dropping a head equal to `cb` from a duplicate-free list deletes its one occurrence. */
  lemma DropHead(hs: seq<HandlerId>, rest: seq<HandlerId>, cb: HandlerId)
    requires hs != [] && hs[0] == cb
    requires cb !in hs[1..] ==> rest == hs[1..]
    ensures NoDup(hs) ==> DropsOnce(hs, rest, cb)
  {
    if NoDup(hs) {
      NoDupTail(hs);
      assert hs[..0] + hs[1..] == rest;
    }
  }

  /**
   * Deleting the occurrence at `k` of the tail, and keeping the head, deletes the
   * occurrence at `k + 1` of the whole list.
   */
  lemma KeepHead(hs: seq<HandlerId>, rest: seq<HandlerId>, cb: HandlerId, k: nat)
    requires k + 1 < |hs| && hs[k + 1] == cb
    requires rest == hs[1..][..k] + hs[1..][k + 1..]
    ensures [hs[0]] + rest == hs[..k + 1] + hs[k + 2..]
  {
    assert hs[..k + 1] == [hs[0]] + hs[1..][..k];
    assert hs[k + 2..] == hs[1..][k + 1..];
  }

  /** The calls `emit` makes: each handler of the list once, in list order. */
  function Deliveries(hs: seq<HandlerId>, channel: string, payload: real): (r: seq<Call>)
    ensures |r| == |hs|
    ensures forall i :: 0 <= i < |hs| ==> r[i] == Call(hs[i], channel, payload)
  {
    if hs == [] then [] else Deliveries(hs[..|hs| - 1], channel, payload) + [Call(hs[|hs| - 1], channel, payload)]
  }

  /** Adding a handler a second time changes nothing. */
  lemma AddIdempotent(hs: seq<HandlerId>, cb: HandlerId)
    ensures Add(Add(hs, cb), cb) == Add(hs, cb)
  {
  }

  /** Calling the unsubscribe function twice is the same as calling it once. */
  lemma RemoveIdempotent(hs: seq<HandlerId>, cb: HandlerId)
    ensures Remove(Remove(hs, cb), cb) == Remove(hs, cb)
  {
  }

  /** Unsubscribing a handler that was just added for the first time restores the list. */
  lemma {:induction false} RemoveAfterAdd(hs: seq<HandlerId>, cb: HandlerId)
    requires cb !in hs
    ensures Remove(Add(hs, cb), cb) == hs
  {
    var added := hs + [cb];
    assert Add(hs, cb) == added;
    if hs == [] {
      assert Remove(added, cb) == [] + Remove([], cb);
    } else {
      var tail := hs[1..];
      assert hs == [hs[0]] + tail;
      assert cb !in tail && hs[0] != cb;
      assert Add(tail, cb) == tail + [cb];
      RemoveAfterAdd(tail, cb);
      assert added[0] == hs[0] && added[1..] == tail + [cb];
      calc {
        Remove(added, cb);
        [added[0]] + Remove(added[1..], cb);
        [hs[0]] + Remove(Add(tail, cb), cb);
        [hs[0]] + tail;
      }
    }
  }

  /** Over a duplicate-free list, every subscribed handler is called exactly once. */
  lemma DeliveredOnce(hs: seq<HandlerId>, channel: string, payload: real, i: nat, j: nat)
    requires NoDup(hs)
    requires i < |hs| && j < |hs|
    requires Deliveries(hs, channel, payload)[i].handler == Deliveries(hs, channel, payload)[j].handler
    ensures i == j
  {
  }
}
