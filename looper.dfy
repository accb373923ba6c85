/**
 * A model of the part of android.os.Handler the application relies on: a
 * queue of pending callbacks, each a runnable and the delay it was posted
 * with. Time is abstract: which pending entry the looper runs next is chosen
 * by the caller of Handler.Next.
 */
module Looper {

  /** The three runnables the application posts. */
  datatype Runnable = IgniteWatchdogRunnable | SendPressureDataRunnable | SendTempDataRunnable

  /** One pending callback: the runnable and its delay in milliseconds. */
  datatype Entry = Entry(task: Runnable, delay: int)

  /** The number of pending entries for runnable t. */
  function Count(q: seq<Entry>, t: Runnable): nat
  {
    if q == [] then 0
    else (if q[0].task == t then 1 else 0) + Count(q[1..], t)
  }

  /** The queue after removeCallbacks(t): every entry for t is gone, the rest stay in order. */
  function Without(q: seq<Entry>, t: Runnable): seq<Entry>
  {
    if q == [] then []
    else (if q[0].task == t then [] else [q[0]]) + Without(q[1..], t)
  }

  /** Cancel-then-post: the queue after removeCallbacks(t) followed by postDelayed(t, delay). */
  function Rearmed(q: seq<Entry>, t: Runnable, delay: int): seq<Entry>
  {
    Without(q, t) + [Entry(t, delay)]
  }

  /** removeCallbacks(t) keeps exactly the entries of the other runnables. */
  lemma {:induction false} WithoutMembers(q: seq<Entry>, t: Runnable)
    ensures forall e :: e in Without(q, t) <==> e in q && e.task != t
  {
    if q != [] {
      assert q == [q[0]] + q[1..];
      WithoutMembers(q[1..], t);
    }
  }

  lemma {:induction false} CountAppend(a: seq<Entry>, b: seq<Entry>, t: Runnable)
    ensures Count(a + b, t) == Count(a, t) + Count(b, t)
  {
    if a == [] {
      assert a + b == b;
    } else {
      assert (a + b)[0] == a[0];
      assert (a + b)[1..] == a[1..] + b;
      CountAppend(a[1..], b, t);
    }
  }

  lemma {:induction false} WithoutAppend(a: seq<Entry>, b: seq<Entry>, t: Runnable)
    ensures Without(a + b, t) == Without(a, t) + Without(b, t)
  {
    if a == [] {
      assert a + b == b;
    } else {
      assert (a + b)[0] == a[0];
      assert (a + b)[1..] == a[1..] + b;
      WithoutAppend(a[1..], b, t);
    }
  }

  /** removeCallbacks(t) drops every entry for t and no entry of any other runnable. */
  lemma {:induction false} CountWithout(q: seq<Entry>, t: Runnable, u: Runnable)
    ensures Count(Without(q, t), u) == if u == t then 0 else Count(q, u)
  {
    if q != [] {
      CountWithout(q[1..], t, u);
      CountAppend(if q[0].task == t then [] else [q[0]], Without(q[1..], t), u);
    }
  }

  /** Counting in a queue of two entries. */
  lemma CountPair(a: Entry, b: Entry, t: Runnable)
    ensures Count([a, b], t) == (if a.task == t then 1 else 0) + (if b.task == t then 1 else 0)
  {
    assert [a, b][1..] == [b];
    assert [b][1..] == [];
    assert Count([b], t) == (if b.task == t then 1 else 0) + Count([], t);
  }

  /** removeCallbacks(t) on a queue holding only entries for t empties it. */
  lemma {:induction false} WithoutOnly(q: seq<Entry>, t: Runnable)
    requires forall e :: e in q ==> e.task == t
    ensures Without(q, t) == []
  {
    if q != [] {
      assert q[0] in q;
      assert forall e :: e in q[1..] ==> e in q;
      WithoutOnly(q[1..], t);
    }
  }

  /** Taking the entry at index i out of the queue lowers its runnable's count by one, and no other. */
  lemma CountRemoveAt(q: seq<Entry>, i: nat, t: Runnable)
    requires i < |q|
    ensures Count(q[..i] + q[i + 1..], t) + (if q[i].task == t then 1 else 0) == Count(q, t)
  {
    assert q == q[..i] + ([q[i]] + q[i + 1..]);
    CountAppend(q[..i], [q[i]] + q[i + 1..], t);
    CountAppend([q[i]], q[i + 1..], t);
    CountAppend(q[..i], q[i + 1..], t);
  }

  /**
   * The cancel-before-post discipline: whatever was pending for t, exactly one
   * entry for t is pending afterwards (the new one), and the entries of every
   * other runnable are untouched.
   */
  lemma RearmedLeavesOne(q: seq<Entry>, t: Runnable, delay: int)
    ensures Count(Rearmed(q, t, delay), t) == 1
    ensures forall u :: u != t ==> Count(Rearmed(q, t, delay), u) == Count(q, u)
    ensures forall e :: e in Rearmed(q, t, delay) <==> e == Entry(t, delay) || (e in q && e.task != t)
  {
    WithoutMembers(q, t);
    forall u
      ensures Count(Rearmed(q, t, delay), u) == (if u == t then 1 else Count(q, u))
    {
      CountAppend(Without(q, t), [Entry(t, delay)], u);
      CountWithout(q, t, u);
    }
  }

  /** One android.os.Handler: the callbacks posted to it that have not run yet. */
  class Handler {
    var pending: seq<Entry>

    constructor ()
      ensures pending == []
    {
      pending := [];
    }

    /** post(r): run r as soon as possible. */
    method Post(r: Runnable)
      modifies this
      ensures pending == old(pending) + [Entry(r, 0)]
    {
      pending := pending + [Entry(r, 0)];
    }

    /** postDelayed(r, delay). */
    method PostDelayed(r: Runnable, delay: int)
      modifies this
      ensures pending == old(pending) + [Entry(r, delay)]
    {
      pending := pending + [Entry(r, delay)];
    }

    /** removeCallbacks(r): drop every pending entry for r, keep the others in order. */
    method RemoveCallbacks(r: Runnable)
      modifies this
      ensures pending == Without(old(pending), r)
      ensures Count(pending, r) == 0
    {
      var q := pending;
      var kept: seq<Entry> := [];
      var i := 0;
      while i < |q|
        invariant 0 <= i <= |q|
        invariant kept == Without(q[..i], r)
      {
        assert q[..i + 1] == q[..i] + [q[i]];
        WithoutAppend(q[..i], [q[i]], r);
        assert [q[i]][1..] == [];
        if q[i].task != r {
          kept := kept + [q[i]];
        }
        i := i + 1;
      }
      assert q[..i] == q;
      CountWithout(q, r, r);
      pending := kept;
    }

    /** The looper takes the pending entry at index i out of the queue in order to run it. */
    method Next(i: nat) returns (e: Entry)
      requires i < |pending|
      modifies this
      ensures e == old(pending)[i]
      ensures pending == old(pending)[..i] + old(pending)[i + 1..]
    {
      e := pending[i];
      pending := pending[..i] + pending[i + 1..];
    }
  }
}
