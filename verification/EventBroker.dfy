/** The fan-out broker: one queue per subscriber, and the history each subscriber is owed. */
module EventBroker {

  /** A subscriber's queue. `consumed` remembers what has been taken from it, in order. */
  class Queue<T> {
    var items: seq<T>
    ghost var consumed: seq<T>

    constructor ()
      ensures items == [] && consumed == []
    {
      items := [];
      consumed := [];
    }

    method PutNowait(item: T)
      modifies this`items
      ensures items == old(items) + [item]
    {
      items := items + [item];
    }

    method Get() returns (item: T)
      requires items != []
      modifies this
      ensures old(items) == [item] + items && consumed == old(consumed) + [item]
    {
      item := items[0];
      items := items[1..];
      consumed := consumed + [item];
    }

    ghost function History(): seq<T>
      reads this
    {
      consumed + items
    }
  }

  /** `log` is everything ever published; `since` is its length when each live queue subscribed. */
  class SSEBroker<T> {
    var queues: seq<Queue<T>>
    ghost var log: seq<T>
    ghost var since: map<Queue<T>, nat>

    /** Live queues are distinct, and each has seen, in order, what was published since it subscribed. */
    ghost predicate Valid()
      reads this, queues
    {
      && (forall i, j :: 0 <= i < j < |queues| ==> queues[i] != queues[j])
      && (forall i :: 0 <= i < |queues| ==> Owed(queues[i]))
    }

    ghost predicate Owed(q: Queue<T>)
      reads this, q
    {
      q in since && since[q] <= |log| && q.History() == log[since[q]..]
    }

    constructor ()
      ensures Valid() && queues == [] && log == []
    {
      queues := [];
      log := [];
      since := map[];
    }

    method Subscribe() returns (q: Queue<T>)
      requires Valid()
      modifies this`queues, this`since
      ensures Valid() && fresh(q) && queues == old(queues) + [q]
      ensures q.History() == [] && since == old(since)[q := |log|]
    {
      q := new Queue();
      queues := queues + [q];
      since := since[q := |log|];
      forall i | 0 <= i < |queues|
        ensures Owed(queues[i])
      {
        if i < |queues| - 1 {
          assert old(Owed(queues[i]));
        }
      }
    }

    /** Dropping a queue that is not live changes nothing. */
    method Unsubscribe(q: Queue<T>)
      requires Valid()
      modifies this`queues
      ensures Valid()
      ensures q !in queues
      ensures queues == if q in old(queues)
        then var i := IndexOf(old(queues), q); old(queues)[..i] + old(queues)[i + 1..] else old(queues)
    {
      var i := 0;
      while i < |queues| && queues[i] != q
        invariant 0 <= i <= |queues|
        invariant q !in queues[..i]
      {
        i := i + 1;
      }
      if i < |queues| {
        IndexIs(queues, q, i);
        queues := queues[..i] + queues[i + 1..];
      }
    }

    method Publish(item: T)
      requires Valid()
      modifies this`log, queues`items
      ensures Valid()
      ensures log == old(log) + [item]
      ensures forall i :: 0 <= i < |queues| ==> queues[i].items == old(queues[i].items) + [item]
    {
      var i := 0;
      while i < |queues|
        invariant 0 <= i <= |queues|
        invariant log == old(log)
        invariant forall k :: 0 <= k < i ==> queues[k].items == old(queues[k].items) + [item]
        invariant forall k :: i <= k < |queues| ==> queues[k].items == old(queues[k].items)
      {
        queues[i].PutNowait(item);
        i := i + 1;
      }
      log := log + [item];
      forall k | 0 <= k < |queues|
        ensures Owed(queues[k])
      {
        assert old(Owed(queues[k]));
        assert queues[k].History() == old(queues[k].History()) + [item];
      }
    }

    /** One subscriber takes its next payload; nobody else notices. */
    method Take(q: Queue<T>) returns (item: T)
      requires Valid() && q in queues && q.items != []
      modifies q
      ensures Valid()
      ensures old(q.items) == [item] + q.items && q.consumed == old(q.consumed) + [item]
    {
      item := q.Get();
      assert q.History() == old(q.History());
      forall k | 0 <= k < |queues|
        ensures Owed(queues[k])
      {
        assert old(Owed(queues[k]));
      }
    }

    /** What waits in a live queue is the log from where the subscriber has got to. */
    lemma QueueIsLogTail(q: Queue<T>)
      requires Valid() && q in queues
      ensures q in since && since[q] + |q.consumed| <= |log|
      ensures q.items == log[since[q] + |q.consumed|..]
      ensures q.consumed == log[since[q]..since[q] + |q.consumed|]
    {
      var i :| 0 <= i < |queues| && queues[i] == q;
      assert Owed(queues[i]);
      assert q.History()[|q.consumed|..] == q.items && q.History()[..|q.consumed|] == q.consumed;
    }

    /** Of two live subscribers, the later one's history is a suffix of the earlier one's. */
    lemma LaterHistoryIsSuffix(q: Queue<T>, r: Queue<T>)
      requires Valid() && q in queues && r in queues
      requires q in since && r in since && since[q] <= since[r]
      ensures since[r] - since[q] <= |q.History()|
      ensures r.History() == q.History()[since[r] - since[q]..]
    {
      var i :| 0 <= i < |queues| && queues[i] == q;
      var j :| 0 <= j < |queues| && queues[j] == r;
      assert Owed(queues[i]) && Owed(queues[j]);
    }
  }

  function IndexOf<T(==)>(s: seq<T>, x: T): (i: nat)
    requires x in s
    ensures i < |s| && s[i] == x && x !in s[..i]
  {
    if s[0] == x then 0
    else
      assert s == [s[0]] + s[1..];
      var i := 1 + IndexOf(s[1..], x);
      assert s[..i] == [s[0]] + s[1..][..i - 1];
      i
  }

  lemma IndexIs<T>(s: seq<T>, x: T, i: nat)
    requires i < |s| && s[i] == x && x !in s[..i]
    ensures IndexOf(s, x) == i
  {
    var k := IndexOf(s, x);
    assert forall j :: 0 <= j < i ==> s[..i][j] != x;
    assert forall j :: 0 <= j < k ==> s[..k][j] != x;
    assert forall j :: 0 <= j < i ==> s[j] == s[..i][j];
    assert forall j :: 0 <= j < k ==> s[j] == s[..k][j];
  }
}
