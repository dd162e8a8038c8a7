/**
  The playback service's android.os.Handler, seen as the list of messages it
  still has to deliver. sendMessageDelayed appends, removeMessages drops every
  message of one kind, hasMessages asks whether one of a kind is pending.
  Delivery time is kept only as the requested delay; wall-clock ordering of
  delivery is not modelled.
 */
module HandlerQueue {

  /** The three internal message kinds of AlarmKlaxon (msg.what 1000, 1001, 1002). */
  datatype What = Killer | VolumeDelay | VibrateDelay

  datatype Message = Message(what: What, delay: int)

  /** How many messages of kind `w` are pending. */
  function Pending(q: seq<Message>, w: What): nat
  {
    if q == [] then 0
    else (if q[0].what == w then 1 else 0) + Pending(q[1..], w)
  }

  /** Handler.hasMessages(w) */
  predicate HasMessages(q: seq<Message>, w: What)
  {
    Pending(q, w) > 0
  }

  /** Handler.removeMessages(w): every message of kind `w` goes, the others stay in order. */
  function RemoveMessages(q: seq<Message>, w: What): (r: seq<Message>)
    ensures Pending(r, w) == 0
    ensures forall k: What :: k != w ==> Pending(r, k) == Pending(q, k)
    ensures forall m :: m in r <==> m in q && m.what != w
    ensures |r| == |q| - Pending(q, w)
  {
    if q == [] then []
    else
      assert q == [q[0]] + q[1..];
      var rest := RemoveMessages(q[1..], w);
      if q[0].what == w then rest else [q[0]] + rest
  }

  /** Pending counts add up over two queues placed one after the other. */
  lemma {:induction false} PendingConcat(a: seq<Message>, b: seq<Message>, w: What)
    ensures Pending(a + b, w) == Pending(a, w) + Pending(b, w)
  {
    if a != [] {
      assert (a + b)[1..] == a[1..] + b;
      PendingConcat(a[1..], b, w);
    } else {
      assert a + b == b;
    }
  }

  /**
    removeMessages keeps the order of what it leaves: removing from two
    queues placed one after the other is removing from each. With the
    single-message case below this fixes the result message by message.
   */
  lemma {:induction false} RemoveMessagesConcat(a: seq<Message>, b: seq<Message>, w: What)
    ensures RemoveMessages(a + b, w) == RemoveMessages(a, w) + RemoveMessages(b, w)
  {
    if a == [] {
      assert a + b == b;
    } else {
      var ab := a + b;
      assert ab[0] == a[0] && ab[1..] == a[1..] + b;
      RemoveMessagesConcat(a[1..], b, w);
      var x, y := RemoveMessages(a[1..], w), RemoveMessages(b, w);
      if a[0].what != w {
        calc {
          RemoveMessages(ab, w);
          [a[0]] + RemoveMessages(a[1..] + b, w);
          [a[0]] + (x + y);
          { assert [a[0]] + (x + y) == ([a[0]] + x) + y; }
          RemoveMessages(a, w) + y;
        }
      }
    }
  }

  /** One message is dropped if it is of kind `w` and kept otherwise. */
  lemma RemoveMessagesOne(m: Message, w: What)
    ensures RemoveMessages([m], w) == if m.what == w then [] else [m]
  {
    assert [m][1..] == [];
  }

  /** Every message not of kind `w` keeps its multiplicity; none of kind `w` is left. */
  lemma {:induction false} RemoveMessagesMultiset(q: seq<Message>, w: What)
    ensures forall m :: multiset(RemoveMessages(q, w))[m] == if m.what == w then 0 else multiset(q)[m]
  {
    if q != [] {
      RemoveMessagesMultiset(q[1..], w);
      assert q == [q[0]] + q[1..];
      assert multiset(q) == multiset([q[0]]) + multiset(q[1..]);
      if q[0].what != w {
        var r := RemoveMessages(q, w);
        assert r == [q[0]] + RemoveMessages(q[1..], w);
        assert multiset(r) == multiset([q[0]]) + multiset(RemoveMessages(q[1..], w));
      }
    }
  }

  /** A queue with no message of kind `w` is left exactly as it was. */
  lemma {:induction false} RemoveMessagesAbsent(q: seq<Message>, w: What)
    requires !HasMessages(q, w)
    ensures RemoveMessages(q, w) == q
  {
    if q != [] {
      RemoveMessagesAbsent(q[1..], w);
      assert q == [q[0]] + q[1..];
    }
  }

  /** Taking message `i` out of a queue lowers the pending count of its kind by one and no other. */
  lemma PendingWithout(q: seq<Message>, i: nat, w: What)
    requires i < |q|
    ensures Pending(q[..i] + q[i + 1..], w) == Pending(q, w) - (if q[i].what == w then 1 else 0)
  {
    assert q == q[..i] + ([q[i]] + q[i + 1..]);
    PendingConcat(q[..i], [q[i]] + q[i + 1..], w);
    PendingConcat([q[i]], q[i + 1..], w);
    PendingConcat(q[..i], q[i + 1..], w);
    assert [q[i]][1..] == [];
  }

  /** A queue in which no kind has a pending message is empty. */
  lemma EmptyWhenNothingPending(q: seq<Message>)
    requires !HasMessages(q, Killer) && !HasMessages(q, VolumeDelay) && !HasMessages(q, VibrateDelay)
    ensures q == []
  {
  }
}
