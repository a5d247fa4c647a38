/**
 The monitor of sized_queue shared by any number of threads, with or without
 spurious wakeups. It says exactly when waits guarded by `if` are enough.
 Threads 0 .. producers-1 push, the others pop.
 */
module ManyThreads {
  import opened Seqs
  import opened Monitor

  datatype Config = Config(limit: nat, producers: nat, consumers: nat, spurious: bool, single: bool)

  /** One call of push(item), push(vector&) or pop. */
  datatype Job = One(item: int) | Many(batch: seq<int>) | Take

  datatype Thread = Idle | Asleep(job: Job) | Woken(job: Job)

  datatype State = State(items: seq<int>, threads: seq<Thread>, fault: bool)

  /** wake is the sleeper notify_one picks. */
  datatype Label =
    | Enter(t: nat, job: Job, wake: Option<nat>)
    | Resume(t: nat, wake: Option<nat>)
    | Spurious(t: nat)

  function Init(cfg: Config): State {
    State([], seq(cfg.producers + cfg.consumers, _ => Idle), false)
  }

  /** Sleeping on m_cond_can_pop (poppers) or on m_cond_can_push. */
  predicate Sleeps(t: Thread, popper: bool) {
    t.Asleep? && t.job.Take? == popper
  }

  predicate WakeOk(threads: seq<Thread>, popper: bool, wake: Option<nat>) {
    match wake
    case None => forall t :: 0 <= t < |threads| ==> !Sleeps(threads[t], popper)
    case Some(t) => t < |threads| && Sleeps(threads[t], popper)
  }

  function Wake(threads: seq<Thread>, wake: Option<nat>): seq<Thread> {
    if wake.Some? && wake.value < |threads| && threads[wake.value].Asleep?
    then threads[wake.value := Woken(threads[wake.value].job)] else threads
  }

  predicate JobOk(cfg: Config, t: nat, job: Job) {
    match job
    case Take => cfg.producers <= t
    case One(_) => t < cfg.producers && cfg.single
    case Many(batch) => t < cfg.producers && !cfg.single && batch != []
  }

  predicate Enabled(cfg: Config, s: State, l: Label) {
    !s.fault &&
    match l
    case Enter(t, job, wake) =>
      t < |s.threads| && s.threads[t].Idle? && JobOk(cfg, t, job) && WakeOk(s.threads, !job.Take?, wake)
    case Resume(t, wake) =>
      t < |s.threads| && s.threads[t].Woken? && WakeOk(s.threads, !s.threads[t].job.Take?, wake)
    case Spurious(t) => cfg.spurious && t < |s.threads| && s.threads[t].Asleep?
  }

  /** The guard of the if in front of the wait. */
  predicate MustWait(limit: nat, items: seq<int>, job: Job) {
    if job.Take? then items == [] else |items| >= limit
  }

  /** The section after the wait, run whether or not the guard holds again. */
  function Body(limit: nat, s: State, t: nat, job: Job, wake: Option<nat>): State
    requires t < |s.threads|
  {
    var threads := Wake(s.threads, wake);
    match job
    case Take => if s.items == [] then s.(fault := true) else State(s.items[1..], threads[t := Idle], false)
    case One(x) => State(s.items + [x], threads[t := Idle], false)
    case Many(batch) =>
      var (items, rest) := Fill(limit, s.items, batch);
      State(items, threads[t := Idle], false)
  }

  function Apply(cfg: Config, s: State, l: Label): State
    requires Enabled(cfg, s, l)
  {
    match l
    case Enter(t, job, wake) =>
      if MustWait(cfg.limit, s.items, job) then s.(threads := Wake(s.threads, wake)[t := Asleep(job)])
      else Body(cfg.limit, s, t, job, wake)
    case Resume(t, wake) => Body(cfg.limit, s, t, s.threads[t].job, wake)
    case Spurious(t) => s.(threads := s.threads[t := Woken(s.threads[t].job)])
  }

  predicate Valid(cfg: Config, s: State, run: seq<Label>)
    decreases |run|
  {
    run == [] || (Enabled(cfg, s, run[0]) && Valid(cfg, Apply(cfg, s, run[0]), run[1..]))
  }

  function Final(cfg: Config, s: State, run: seq<Label>): State
    requires Valid(cfg, s, run)
    decreases |run|
  {
    if run == [] then s else Final(cfg, Apply(cfg, s, run[0]), run[1..])
  }

  ghost predicate Reachable(cfg: Config, s: State) {
    exists run :: Valid(cfg, Init(cfg), run) && Final(cfg, Init(cfg), run) == s
  }

  lemma {:induction false} AppendStep(cfg: Config, s: State, run: seq<Label>, l: Label)
    requires Valid(cfg, s, run) && Enabled(cfg, Final(cfg, s, run), l)
    ensures Valid(cfg, s, run + [l]) && Final(cfg, s, run + [l]) == Apply(cfg, Final(cfg, s, run), l)
    decreases |run|
  {
    var longer := run + [l];
    if run == [] {
      assert longer[0] == l && longer[1..] == [];
      assert Valid(cfg, Apply(cfg, s, l), longer[1..]) && Final(cfg, Apply(cfg, s, l), longer[1..]) == Apply(cfg, s, l);
    } else {
      assert longer[0] == run[0] && longer[1..] == run[1..] + [l];
      AppendStep(cfg, Apply(cfg, s, run[0]), run[1..], l);
    }
  }

  lemma Extend(cfg: Config, s: State, l: Label)
    requires Reachable(cfg, s) && Enabled(cfg, s, l)
    ensures Reachable(cfg, Apply(cfg, s, l))
  {
    var run :| Valid(cfg, Init(cfg), run) && Final(cfg, Init(cfg), run) == s;
    AppendStep(cfg, Init(cfg), run, l);
  }

  /** Any thread takes from the front and adds at the back, a batch last element first. */
  lemma FirstInFirstOut(cfg: Config, s: State, l: Label)
    requires Enabled(cfg, s, l)
    ensures var t := Apply(cfg, s, l);
            || t.items == s.items
            || (s.items != [] && t.items == s.items[1..])
            || exists added :: t.items == s.items + added && Offers(s, l, added)
  {
    if (l.Enter? && l.job.Many? && !MustWait(cfg.limit, s.items, l.job))
       || (l.Resume? && s.threads[l.t].job.Many?)
    {
      var batch := if l.Enter? then l.job.batch else s.threads[l.t].job.batch;
      var keep := |batch| - FillCount(cfg.limit, |s.items|, |batch|);
      assert Offers(s, l, Rev(batch[keep..]));
    } else if (l.Enter? && l.job.One? && !MustWait(cfg.limit, s.items, l.job))
              || (l.Resume? && s.threads[l.t].job.One?)
    {
      var x := if l.Enter? then l.job.item else s.threads[l.t].job.item;
      assert Offers(s, l, [x]);
    }
  }

  /** What this push may put into the queue: its item, or the reversed tail of its batch. */
  ghost predicate Offers(s: State, l: Label, added: seq<int>) {
    !l.Spurious? && (l.Resume? ==> l.t < |s.threads| && !s.threads[l.t].Idle?) &&
    match if l.Enter? then l.job else s.threads[l.t].job
    case Take => false
    case One(x) => added == [x]
    case Many(batch) => |added| <= |batch| && added == Rev(batch)[..|added|]
  }

  // ---------------------------------------------------------------- what holds of all reachable states

  ghost predicate Shape(cfg: Config, s: State) {
    && |s.threads| == cfg.producers + cfg.consumers
    && forall t :: 0 <= t < |s.threads| && !s.threads[t].Idle? ==> JobOk(cfg, t, s.threads[t].job)
  }

  /** A woken consumer has something to take; a woken producer of single items has room. */
  ghost predicate WokenPoppersFed(s: State) {
    forall t :: 0 <= t < |s.threads| && s.threads[t] == Woken(Take) ==> s.items != []
  }

  ghost predicate WokenPushersHaveRoom(cfg: Config, s: State) {
    forall t :: 0 <= t < |s.threads| && s.threads[t].Woken? && s.threads[t].job.One? ==> |s.items| < cfg.limit
  }

  /** The configurations in which the wait of pop(), guarded by `if`, is enough. */
  predicate IfEnough(cfg: Config) {
    cfg.limit > 0 && cfg.consumers == 1 && !cfg.spurious
  }

  /** The configurations in which push(item) keeps the limit. */
  predicate RoomKept(cfg: Config) {
    cfg.single && cfg.limit > 0 && cfg.producers == 1 && !cfg.spurious
  }

  ghost predicate Invariant(cfg: Config, s: State) {
    && Shape(cfg, s)
    && (!cfg.single ==> |s.items| <= cfg.limit)
    && (RoomKept(cfg) ==> |s.items| <= cfg.limit && WokenPushersHaveRoom(cfg, s))
    && (IfEnough(cfg) ==> !s.fault && WokenPoppersFed(s))
  }

  lemma ShapeStep(cfg: Config, s: State, l: Label)
    requires Shape(cfg, s) && Enabled(cfg, s, l)
    ensures Shape(cfg, Apply(cfg, s, l))
  {
  }

  lemma BatchBoundStep(cfg: Config, s: State, l: Label)
    requires Shape(cfg, s) && !cfg.single && |s.items| <= cfg.limit && Enabled(cfg, s, l)
    ensures |Apply(cfg, s, l).items| <= cfg.limit
  {
    match l {
      case Enter(t, Many(batch), _) => FillConserves(cfg.limit, s.items, batch);
      case Resume(t, _) => if s.threads[t].job.Many? { FillConserves(cfg.limit, s.items, s.threads[t].job.batch); }
      case _ =>
    }
  }

  lemma SingleBoundStep(cfg: Config, s: State, l: Label)
    requires Shape(cfg, s) && Enabled(cfg, s, l) && RoomKept(cfg)
    requires |s.items| <= cfg.limit && WokenPushersHaveRoom(cfg, s)
    ensures |Apply(cfg, s, l).items| <= cfg.limit && WokenPushersHaveRoom(cfg, Apply(cfg, s, l))
  {
  }

  lemma FedStep(cfg: Config, s: State, l: Label)
    requires Shape(cfg, s) && Enabled(cfg, s, l) && IfEnough(cfg) && WokenPoppersFed(s)
    ensures !Apply(cfg, s, l).fault && WokenPoppersFed(Apply(cfg, s, l))
  {
    match l {
      case Enter(t, Many(batch), _) => FillConserves(cfg.limit, s.items, batch);
      case Resume(t, _) => if s.threads[t].job.Many? { FillConserves(cfg.limit, s.items, s.threads[t].job.batch); }
      case _ =>
    }
  }

  lemma {:induction false} RunKeeps(cfg: Config, s: State, run: seq<Label>)
    requires Invariant(cfg, s) && Valid(cfg, s, run)
    ensures Invariant(cfg, Final(cfg, s, run))
    decreases |run|
  {
    if run != [] {
      ShapeStep(cfg, s, run[0]);
      if !cfg.single { BatchBoundStep(cfg, s, run[0]); }
      if RoomKept(cfg) { SingleBoundStep(cfg, s, run[0]); }
      if IfEnough(cfg) { FedStep(cfg, s, run[0]); }
      RunKeeps(cfg, Apply(cfg, s, run[0]), run[1..]);
    }
  }

  lemma ReachableInvariant(cfg: Config, s: State)
    requires Reachable(cfg, s)
    ensures Invariant(cfg, s)
  {
    var run :| Valid(cfg, Init(cfg), run) && Final(cfg, Init(cfg), run) == s;
    RunKeeps(cfg, Init(cfg), run);
  }

  // ---------------------------------------------------------------- theorems

  /** Batch pushes never exceed the limit, however many threads there are and however they are woken. */
  lemma BatchPushBounded(cfg: Config, s: State)
    requires !cfg.single && Reachable(cfg, s)
    ensures |s.items| <= cfg.limit
  {
    ReachableInvariant(cfg, s);
  }

  /** The `if` in pop is enough exactly when the limit is positive, there is one consumer and no spurious wakeup. */
  lemma IfSufficesIff(cfg: Config)
    requires cfg.producers >= 1 && cfg.consumers >= 1
    ensures (forall s :: Reachable(cfg, s) ==> !s.fault) <==> IfEnough(cfg)
  {
    if IfEnough(cfg) {
      forall s | Reachable(cfg, s) ensures !s.fault { ReachableInvariant(cfg, s); }
    } else if cfg.spurious {
      var s := SpuriousPop(cfg);
    } else if cfg.limit == 0 {
      var s := ZeroLimitPop(cfg);
    } else {
      var s := StolenItem(cfg);
    }
  }

  /** push(item) stays within the limit exactly when the limit is positive, there is one producer and no spurious
      wakeup. */
  lemma SinglePushBoundedIff(cfg: Config)
    requires cfg.producers >= 1 && cfg.consumers >= 1 && cfg.single
    ensures (forall s :: Reachable(cfg, s) ==> |s.items| <= cfg.limit) <==> RoomKept(cfg)
  {
    if RoomKept(cfg) {
      forall s | Reachable(cfg, s) ensures |s.items| <= cfg.limit { ReachableInvariant(cfg, s); }
    } else if cfg.spurious {
      var s := SpuriousPush(cfg);
    } else if cfg.limit == 0 {
      var s := ZeroLimitPush(cfg);
    } else {
      var s := StolenRoom(cfg);
    }
  }

  // ---------------------------------------------------------------- consumers left asleep

  /** Consumers that have been woken and are about to take. */
  function Takers(s: State): set<nat> {
    set t | 0 <= t < |s.threads| && s.threads[t] == Woken(Take)
  }

  ghost predicate SomeoneSleeps(s: State) {
    exists t :: 0 <= t < |s.threads| && s.threads[t] == Asleep(Take)
  }

  /** Items wait in the queue, a consumer sleeps, and nobody is on the way to take them. */
  ghost predicate Stranded(s: State) {
    s.items != [] && SomeoneSleeps(s) && Takers(s) == {}
  }

  /** While a consumer sleeps, every queued item has a woken consumer coming for it. */
  ghost predicate Served(s: State) {
    SomeoneSleeps(s) ==> |s.items| <= |Takers(s)|
  }

  /** The configurations in which one notify_one per push is enough. */
  predicate OneWakeEnough(cfg: Config) {
    cfg.single || cfg.limit <= 1 || cfg.consumers == 1
  }

  /** The lone consumer sleeps only on an empty queue. */
  ghost predicate LoneSleeperHungry(s: State) {
    SomeoneSleeps(s) ==> s.items == []
  }

  lemma WakeTakers(s: State, t: State, c: nat)
    requires c < |s.threads| && s.threads[c] == Asleep(Take)
    requires |t.threads| == |s.threads| && t.threads[c] == Woken(Take)
    requires forall i :: 0 <= i < |s.threads| && i != c
                         ==> (t.threads[i] == Woken(Take) <==> s.threads[i] == Woken(Take))
    ensures |Takers(t)| == |Takers(s)| + 1
  {
    assert Takers(t) == Takers(s) + {c};
  }

  lemma TakerLeaves(s: State, t: State, c: nat)
    requires c < |s.threads| && s.threads[c] == Woken(Take)
    requires |t.threads| == |s.threads| && t.threads[c] != Woken(Take)
    requires forall i :: 0 <= i < |s.threads| && i != c
                         ==> (t.threads[i] == Woken(Take) <==> s.threads[i] == Woken(Take))
    ensures |Takers(t)| == |Takers(s)| - 1
  {
    assert Takers(t) == Takers(s) - {c};
    assert c in Takers(s);
  }

  lemma SameTakers(s: State, t: State)
    requires |t.threads| == |s.threads|
    requires forall i :: 0 <= i < |s.threads| ==> (t.threads[i] == Woken(Take) <==> s.threads[i] == Woken(Take))
    ensures Takers(t) == Takers(s)
  {
  }

  /** A push, completed or blocked, of at most one item. */
  lemma PushServes(cfg: Config, s: State, l: Label)
    requires Shape(cfg, s) && Served(s) && Enabled(cfg, s, l) && (cfg.single || cfg.limit <= 1)
    requires (l.Enter? && !l.job.Take?) || (l.Resume? && !s.threads[l.t].job.Take?)
    ensures Served(Apply(cfg, s, l))
  {
    var t := Apply(cfg, s, l);
    var wake := l.wake;
    assert |t.items| <= |s.items| + 1;
    if wake.Some? {
      WakeTakers(s, t, wake.value);
      assert SomeoneSleeps(s);
    } else {
      assert !SomeoneSleeps(t);
    }
  }

  lemma ServedStep(cfg: Config, s: State, l: Label)
    requires Shape(cfg, s) && Served(s) && Enabled(cfg, s, l) && (cfg.single || cfg.limit <= 1)
    ensures Served(Apply(cfg, s, l))
  {
    var t := Apply(cfg, s, l);
    match l {
      case Spurious(c) =>
        if s.threads[c].job.Take? { WakeTakers(s, t, c); assert SomeoneSleeps(s); } else { SameTakers(s, t); }
      case Enter(c, job, wake) =>
        if !job.Take? { PushServes(cfg, s, l); } else { SameTakers(s, t); }
      case Resume(c, wake) =>
        if !s.threads[c].job.Take? { PushServes(cfg, s, l); }
        else if s.items != [] { TakerLeaves(s, t, c); }
    }
  }

  lemma HungryStep(cfg: Config, s: State, l: Label)
    requires Shape(cfg, s) && LoneSleeperHungry(s) && Enabled(cfg, s, l) && cfg.consumers == 1
    ensures LoneSleeperHungry(Apply(cfg, s, l))
  {
  }

  lemma {:induction false} AwakeAlong(cfg: Config, s: State, run: seq<Label>)
    requires Shape(cfg, s) && Valid(cfg, s, run)
    requires if cfg.consumers == 1 then LoneSleeperHungry(s) else Served(s) && (cfg.single || cfg.limit <= 1)
    ensures !Stranded(Final(cfg, s, run))
    decreases |run|
  {
    if run != [] {
      ShapeStep(cfg, s, run[0]);
      if cfg.consumers == 1 { HungryStep(cfg, s, run[0]); } else { ServedStep(cfg, s, run[0]); }
      AwakeAlong(cfg, Apply(cfg, s, run[0]), run[1..]);
    }
  }

  /** A push wakes one consumer however many items it brings: no consumer is ever left asleep beside a queue nobody
      is coming to empty exactly when pushes are single, the limit is at most 1, or there is one consumer. */
  lemma NobodyStrandedIff(cfg: Config)
    requires cfg.producers >= 1 && cfg.consumers >= 1
    ensures (forall s :: Reachable(cfg, s) ==> !Stranded(s)) <==> OneWakeEnough(cfg)
  {
    if OneWakeEnough(cfg) {
      forall s | Reachable(cfg, s) ensures !Stranded(s) {
        var run :| Valid(cfg, Init(cfg), run) && Final(cfg, Init(cfg), run) == s;
        AwakeAlong(cfg, Init(cfg), run);
      }
    } else {
      var s := StrandedConsumer(cfg);
    }
  }

  // ---------------------------------------------------------------- runs that break the bounds

  lemma Go(cfg: Config, s: State, l: Label) returns (s': State)
    requires Reachable(cfg, s) && Enabled(cfg, s, l)
    ensures Reachable(cfg, s') && s' == Apply(cfg, s, l)
  {
    Extend(cfg, s, l);
    s' := Apply(cfg, s, l);
  }

  lemma Begin(cfg: Config) returns (s: State)
    ensures Reachable(cfg, s) && s == Init(cfg)
  {
    s := Init(cfg);
    assert Valid(cfg, s, []) && Final(cfg, s, []) == s;
  }

  function Item(cfg: Config): Job {
    if cfg.single then One(0) else Many([0])
  }

  lemma SpuriousPop(cfg: Config) returns (s: State)
    requires cfg.consumers >= 1 && cfg.spurious
    ensures Reachable(cfg, s) && s.fault
  {
    var c := cfg.producers;
    s := Begin(cfg);
    s := Go(cfg, s, Enter(c, Take, None));
    s := Go(cfg, s, Spurious(c));
    s := Go(cfg, s, Resume(c, None));
  }

  /** With limit 0 a producer finds the empty queue full, wakes the consumer and goes to sleep itself. */
  lemma ZeroLimitPop(cfg: Config) returns (s: State)
    requires cfg.limit == 0 && cfg.producers >= 1 && cfg.consumers >= 1
    ensures Reachable(cfg, s) && s.fault
  {
    var c := cfg.producers;
    s := Begin(cfg);
    s := Go(cfg, s, Enter(c, Take, None));
    s := Go(cfg, s, Enter(0, Item(cfg), Some(c)));
    s := Go(cfg, s, Resume(c, Some(0)));
  }

  /** With limit 0 a consumer lets the waiting producer append past the limit. */
  lemma ZeroLimitPush(cfg: Config) returns (s: State)
    requires cfg.single && cfg.limit == 0 && cfg.producers >= 1 && cfg.consumers >= 1
    ensures Reachable(cfg, s) && |s.items| == 1
  {
    var c := cfg.producers;
    s := Begin(cfg);
    s := Go(cfg, s, Enter(0, One(0), None));
    s := Go(cfg, s, Enter(c, Take, Some(0)));
    s := Go(cfg, s, Resume(0, Some(c)));
  }

  lemma OneAsleep(cfg: Config) returns (s: State)
    requires cfg.consumers >= 1
    ensures Reachable(cfg, s)
    ensures s == State([], Init(cfg).threads[cfg.producers := Asleep(Take)], false)
  {
    s := Begin(cfg);
    s := Go(cfg, s, Enter(cfg.producers, Take, None));
  }

  lemma OneFilled(limit: nat)
    requires limit > 0
    ensures |Fill(limit, [], [0]).0| == 1
  {
    FillConserves(limit, [], [0]);
  }

  lemma OneWoken(cfg: Config) returns (s: State)
    requires cfg.limit > 0 && cfg.producers >= 1 && cfg.consumers >= 1
    ensures Reachable(cfg, s) && !s.fault && |s.items| == 1
    ensures s.threads == Init(cfg).threads[cfg.producers := Woken(Take)]
  {
    var c := cfg.producers;
    s := OneAsleep(cfg);
    OneFilled(cfg.limit);
    s := Go(cfg, s, Enter(0, Item(cfg), Some(c)));
    assert s.threads == Init(cfg).threads[c := Woken(Take)];
  }

  /** A second consumer takes the item between the signal and the first one's return. */
  lemma StolenItem(cfg: Config) returns (s: State)
    requires cfg.limit > 0 && cfg.producers >= 1 && cfg.consumers >= 2
    ensures Reachable(cfg, s) && s.fault
  {
    var c := cfg.producers;
    s := OneWoken(cfg);
    s := Go(cfg, s, Enter(c + 1, Take, None));
    s := Go(cfg, s, Resume(c, None));
  }

  lemma {:induction false} Filled(cfg: Config, n: nat) returns (s: State)
    requires cfg.single && cfg.producers >= 1 && n <= cfg.limit
    ensures Reachable(cfg, s) && |s.items| == n && s.threads == Init(cfg).threads && !s.fault
  {
    if n == 0 {
      s := Begin(cfg);
    } else {
      s := Filled(cfg, n - 1);
      s := Go(cfg, s, Enter(0, One(0), None));
      assert s.threads == Init(cfg).threads;
    }
  }

  lemma SpuriousPush(cfg: Config) returns (s: State)
    requires cfg.single && cfg.producers >= 1 && cfg.spurious
    ensures Reachable(cfg, s) && |s.items| == cfg.limit + 1
  {
    s := Filled(cfg, cfg.limit);
    s := Go(cfg, s, Enter(0, One(0), None));
    s := Go(cfg, s, Spurious(0));
    s := Go(cfg, s, Resume(0, None));
  }

  lemma RoomMade(cfg: Config) returns (s: State)
    requires cfg.single && cfg.limit > 0 && cfg.producers >= 1 && cfg.consumers >= 1
    ensures Reachable(cfg, s) && !s.fault && |s.items| == cfg.limit - 1
    ensures s.threads == Init(cfg).threads[0 := Woken(One(0))]
  {
    s := Filled(cfg, cfg.limit);
    s := Go(cfg, s, Enter(0, One(0), None));
    assert s.threads == Init(cfg).threads[0 := Asleep(One(0))];
    s := Go(cfg, s, Enter(cfg.producers, Take, Some(0)));
    assert s.threads == Init(cfg).threads[0 := Woken(One(0))];
  }

  /** A second producer fills the room a pop made for the first one. */
  lemma StolenRoom(cfg: Config) returns (s: State)
    requires cfg.single && cfg.limit > 0 && cfg.producers >= 2 && cfg.consumers >= 1
    ensures Reachable(cfg, s) && |s.items| == cfg.limit + 1
  {
    s := RoomMade(cfg);
    s := Go(cfg, s, Enter(1, One(0), None));
    s := Go(cfg, s, Resume(0, None));
  }

  lemma TwoAsleep(cfg: Config) returns (s: State)
    requires cfg.consumers >= 2
    ensures Reachable(cfg, s) && !s.fault && s.items == []
    ensures s.threads == Init(cfg).threads[cfg.producers := Asleep(Take)][cfg.producers + 1 := Asleep(Take)]
  {
    s := Begin(cfg);
    s := Go(cfg, s, Enter(cfg.producers, Take, None));
    s := Go(cfg, s, Enter(cfg.producers + 1, Take, None));
  }

  /** Two sleeping consumers and one batch of two items: the one that was woken takes one item and goes. */
  lemma StrandedConsumer(cfg: Config) returns (s: State)
    requires !cfg.single && cfg.limit >= 2 && cfg.producers >= 1 && cfg.consumers >= 2
    ensures Reachable(cfg, s) && Stranded(s)
  {
    var c := cfg.producers;
    s := TwoAsleep(cfg);
    FillConserves(cfg.limit, [], [0, 0]);
    s := Go(cfg, s, Enter(0, Many([0, 0]), Some(c)));
    assert s.threads == Init(cfg).threads[c := Woken(Take)][c + 1 := Asleep(Take)];
    s := Go(cfg, s, Resume(c, None));
    assert s.threads == Init(cfg).threads[c + 1 := Asleep(Take)];
    assert s.threads[c + 1] == Asleep(Take);
  }
}
