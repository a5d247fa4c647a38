/**
 The bounded blocking queue as seen by its one producer and its one consumer.

 Every critical section of the monitor is one atomic function. A thread that
 waits on a condition leaves the mutex and is recorded in its slot:
   Outside    running, not inside a wait
   Waiting    asleep on its condition
   Signalled  picked by notify_one, has not yet re-entered the monitor
   Expired    its timed wait ran out, has not yet re-entered to throw
 */
module Monitor {
  import opened Seqs

  datatype Slot = Outside | Waiting | Signalled | Expired

  datatype Channel<T> = Channel(limit: nat, items: seq<T>, pusher: Slot, popper: Slot)

  datatype PushResult<T> =
    | Pushed(chan: Channel<T>, rest: seq<T>)
    | PushBlocked(chan: Channel<T>)

  datatype PopResult<T> =
    | Popped(chan: Channel<T>, item: T)
    | PopBlocked(chan: Channel<T>)
    | FrontOfEmpty                          // front() of an empty deque

  /** notify_one wakes a sleeper and is forgotten when nobody sleeps. */
  function Notify(s: Slot): Slot {
    if s.Waiting? then Signalled else s
  }

  /** How many elements the drain loop moves. */
  function FillCount(limit: nat, queued: nat, offered: nat): nat {
    if queued >= limit then 0 else Min(offered, limit - queued)
  }

  function Fill<T>(limit: nat, items: seq<T>, batch: seq<T>): (seq<T>, seq<T>) {
    var keep := |batch| - FillCount(limit, |items|, |batch|);
    (items + Rev(batch[keep..]), batch[..keep])
  }

  /** The part of the batch push that runs once the producer holds the monitor for good. */
  function PushBody<T>(c: Channel<T>, batch: seq<T>): PushResult<T> {
    var (items, rest) := Fill(c.limit, c.items, batch);
    Pushed(c.(items := items, pusher := Outside, popper := Notify(c.popper)), rest)
  }

  function PushEnter<T>(c: Channel<T>, batch: seq<T>): PushResult<T> {
    if |c.items| >= c.limit then
      PushBlocked(c.(popper := Notify(c.popper), pusher := Waiting))
    else
      PushBody(c, batch)
  }

  function PopBody<T>(c: Channel<T>): PopResult<T> {
    if c.items == [] then FrontOfEmpty
    else Popped(c.(items := c.items[1..], popper := Outside, pusher := Notify(c.pusher)), c.items[0])
  }

  function PopEnter<T>(c: Channel<T>): PopResult<T> {
    if c.items == [] then
      PopBlocked(c.(pusher := Notify(c.pusher), popper := Waiting))
    else
      PopBody(c)
  }

  /** What every section keeps when there is one producer and one consumer. */
  ghost predicate Sound<T>(c: Channel<T>) {
    && 0 < c.limit
    && |c.items| <= c.limit
    && (c.popper.Waiting? ==> c.items == [])
    && (c.popper.Signalled? ==> c.items != [])
    && (c.pusher.Waiting? ==> |c.items| == c.limit)
    && (c.pusher.Signalled? ==> |c.items| < c.limit)
  }

  // ---------------------------------------------------------------- batch push

  lemma FillConserves<T>(limit: nat, items: seq<T>, batch: seq<T>)
    ensures var (items', rest) := Fill(limit, items, batch);
            && items' + Rev(rest) == items + Rev(batch)
            && items <= items'
            && |items'| + |rest| == |items| + |batch|
            && (rest == [] || |items'| >= limit)
            && (|items| <= limit ==> |items'| <= limit)
            && (|items| < limit && batch != [] ==> |rest| < |batch|)
  {
    var keep := |batch| - FillCount(limit, |items|, |batch|);
    assert batch == batch[..keep] + batch[keep..];
    RevConcat(batch[..keep], batch[keep..]);
  }

  /** A batch push keeps the monitor sound exactly when it cannot signal a sleeping consumer for nothing. */
  lemma PushKeepsSoundIff<T>(c: Channel<T>, batch: seq<T>)
    requires Sound(c) && c.pusher.Outside?
    ensures Sound(PushEnter(c, batch).chan) <==> batch != [] || !c.popper.Waiting?
  {
    FillConserves(c.limit, c.items, batch);
    if batch == [] && c.popper.Waiting? {
      assert Fill(c.limit, c.items, batch).0 == [];
    }
  }

  lemma PushResumeSound<T>(c: Channel<T>, batch: seq<T>)
    requires Sound(c) && c.pusher.Signalled? && batch != []
    ensures Sound(PushBody(c, batch).chan)
    ensures |PushBody(c, batch).rest| < |batch|
  {
    FillConserves(c.limit, c.items, batch);
  }

  lemma PopSound<T>(c: Channel<T>)
    requires Sound(c)
    ensures c.popper.Outside? ==> !PopEnter(c).FrontOfEmpty? && Sound(PopEnter(c).chan)
    ensures c.popper.Signalled? ==> PopBody(c).Popped? && Sound(PopBody(c).chan)
  {
  }

  // ---------------------------------------------------------------- imperative form

  /** sized_queue<T>: the fields the class updates, with the two condition queues as slots. */
  class SizedQueue<T> {
    var limit: nat
    var items: seq<T>
    var pusher: Slot
    var popper: Slot

    ghost function View(): Channel<T>
      reads this
    {
      Channel(limit, items, pusher, popper)
    }

    constructor (size: nat)
      ensures View() == Channel(size, [], Outside, Outside)
    {
      limit, items, pusher, popper := size, [], Outside, Outside;
    }

    method SetSize(size: nat)
      modifies this
      ensures View() == old(View()).(limit := size)
    {
      limit := size;
    }

    method Clear()
      modifies this
      ensures View() == old(View()).(items := [])
    {
      items := [];
    }

    /** The drain loop: takes from the back of the caller's vector while there is room. */
    method Drain(batch: seq<T>) returns (rest: seq<T>)
      modifies this`items
      ensures (items, rest) == Fill(limit, old(items), batch)
    {
      rest := batch;
      while |rest| > 0 && |items| < limit
        invariant |rest| <= |batch| && rest == batch[..|rest|]
        invariant items == old(items) + Rev(batch[|rest|..])
        invariant |rest| == |batch| || |items| <= limit
        decreases |rest|
      {
        ghost var before := rest;
        items := items + [rest[|rest| - 1]];
        rest := rest[..|rest| - 1];
        assert batch[|rest|..] == [batch[|rest|]] + batch[|before|..];
        RevConcat([batch[|rest|]], batch[|before|..]);
      }
    }

    /** push(vector&): up to the wait when the queue is full, to the end otherwise. */
    method Push(batch: seq<T>) returns (blocked: bool, rest: seq<T>)
      requires pusher.Outside?
      modifies this
      ensures View() == PushEnter(old(View()), batch).chan
      ensures blocked == PushEnter(old(View()), batch).PushBlocked?
      ensures rest == if blocked then batch else PushEnter(old(View()), batch).rest
    {
      if |items| >= limit {
        popper := Notify(popper);
        pusher := Waiting;
        return true, batch;
      }
      blocked := false;
      rest := Drain(batch);
      popper := Notify(popper);
    }

    /** push(vector&): from the return of the wait. */
    method PushResume(batch: seq<T>) returns (rest: seq<T>)
      requires pusher.Signalled?
      modifies this
      ensures View() == PushBody(old(View()), batch).chan && rest == PushBody(old(View()), batch).rest
    {
      rest := Drain(batch);
      pusher := Outside;
      popper := Notify(popper);
    }

    /** push(item): up to the wait when the queue is full, to the end otherwise. */
    method PushOne(item: T) returns (blocked: bool)
      requires pusher.Outside?
      modifies this
      ensures blocked <==> old(|items| >= limit)
      ensures View() == PushEnter(old(View()), [item]).chan
    {
      if |items| >= limit {
        popper := Notify(popper);
        pusher := Waiting;
        return true;
      }
      items := items + [item];
      popper := Notify(popper);
      blocked := false;
    }

    /** push(item): from the return of the wait; unlike the batch push it does not look at the limit again. */
    method PushOneResume(item: T)
      requires pusher.Signalled?
      modifies this
      ensures View() == old(View()).(items := old(items) + [item], pusher := Outside, popper := Notify(old(popper)))
      ensures old(|items| < limit) ==> View() == PushBody(old(View()), [item]).chan
    {
      items := items + [item];
      pusher := Outside;
      popper := Notify(popper);
    }

    /** pop(seconds): None is the wait on an empty queue. */
    method Pop() returns (r: Option<T>)
      requires popper.Outside?
      modifies this
      ensures old(Sound(View())) ==> Sound(View())
      ensures match PopEnter(old(View()))
              case Popped(c, x) => View() == c && r == Some(x)
              case PopBlocked(c) => View() == c && r == None
              case FrontOfEmpty => false
    {
      if |items| == 0 {
        pusher := Notify(pusher);
        popper := Waiting;
        return None;
      }
      r := Some(items[0]);
      items := items[1..];
      pusher := Notify(pusher);
    }

    /** pop(seconds): from the return of the wait; front() needs an element, which a sound monitor has. */
    method PopResume() returns (item: T)
      requires popper.Signalled? && items != []
      modifies this
      ensures old(Sound(View())) ==> Sound(View())
      ensures PopBody(old(View())) == Popped(View(), item)
    {
      item := items[0];
      items := items[1..];
      popper := Outside;
      pusher := Notify(pusher);
    }
  }
}
