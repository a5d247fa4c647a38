/** The write path: exactly-once application in order, and what shutdown leaves behind. */
module WriteTheorems {
  import opened Seqs
  import opened Monitor
  import opened WriteMachine

  ghost predicate Safe(s: State) {
    && !s.fault
    && Sound(s.chan)
    && (s.io.Pushing? ==> s.io.rest != [])
    && (!s.chan.pusher.Outside? ==> s.io.Pushing?)
    && (!s.chan.popper.Outside? ==> s.updater.Popping?)
    && s.exit == (s.io.Joining? || s.io.Joined?)
    && (s.updater.Done? ==> s.exit)
    && (s.io.Joined? ==> s.updater.Done?)
    && (s.chan.popper.Expired? || s.updater.Done? ==> s.chan.items == s.log.sinceExpiry)
    && s.count == |s.log.applied|
  }

  function InHand(io: Io): seq<Update> {
    if io.Looping? || io.Pushing? then io.rest else []
  }

  function InApply(u: Updater): seq<Update> {
    if u.Applying? then [u.update] else []
  }

  /** Every update accepted so far, in the order it reaches the database. */
  function Stream(s: State): seq<Update> {
    s.log.applied + (InApply(s.updater) + (s.chan.items + Rev(InHand(s.io))))
  }

  ghost predicate Invariant(s: State) {
    Safe(s) && Stream(s) == Unrolled(s.log.written)
  }

  // ---------------------------------------------------------------- one step

  lemma PushStep(s: State, p: PushResult<Update>)
    requires Safe(s) && s.io.Pushing?
    requires (s.chan.pusher.Outside? && p == PushEnter(s.chan, s.io.rest))
          || (s.chan.pusher.Signalled? && p == PushBody(s.chan, s.io.rest))
    ensures Safe(AfterPush(s, p)) && Stream(AfterPush(s, p)) == Stream(s)
    ensures p.Pushed? ==> |AfterPush(s, p).io.rest| < |s.io.rest|
  {
    FillConserves(s.chan.limit, s.chan.items, s.io.rest);
    if s.chan.pusher.Outside? { PushKeepsSoundIff(s.chan, s.io.rest); } else { PushResumeSound(s.chan, s.io.rest); }
    if p.Pushed? {
      assert s.chan.items <= p.chan.items;
      assert p.chan.items == s.chan.items + p.chan.items[|s.chan.items|..];
    }
  }

  lemma PopStep(s: State, p: PopResult<Update>)
    requires Safe(s) && s.updater.Popping?
    requires (s.chan.popper.Outside? && p == PopEnter(s.chan)) || (s.chan.popper.Signalled? && p == PopBody(s.chan))
    ensures Safe(AfterPop(s, p)) && Stream(AfterPop(s, p)) == Stream(s)
  {
    PopSound(s.chan);
    if p.Popped? {
      var hand := Rev(InHand(s.io));
      assert s.chan.items + hand == [p.item] + (p.chan.items + hand);
      assert [] + (s.chan.items + hand) == s.chan.items + hand;
    }
  }

  lemma NewBatch(applied: seq<Update>, current: seq<Update>, items: seq<Update>,
                 batches: seq<seq<Update>>, docs: seq<Update>)
    requires applied + (current + (items + [])) == Unrolled(batches)
    ensures applied + (current + (items + Rev(docs))) == Unrolled(batches + [docs])
  {
    UnrolledAppend(batches, docs);
    assert current + (items + Rev(docs)) == current + (items + []) + Rev(docs);
    assert applied + (current + (items + []) + Rev(docs)) == applied + (current + (items + [])) + Rev(docs);
  }

  lemma WriteStep(s: State, docs: seq<Update>)
    requires Invariant(s) && Enabled(s, Write(docs))
    ensures Invariant(Apply(s, Write(docs)))
  {
    assert Rev(InHand(s.io)) == [];
    NewBatch(s.log.applied, InApply(s.updater), s.chan.items, s.log.written, docs);
  }

  lemma ApplyStep(s: State)
    requires Safe(s) && s.updater.Applying?
    ensures Stream(Apply(s, ApplyUpdate)) == Stream(s)
  {
    var tail := s.chan.items + Rev(InHand(s.io));
    assert s.log.applied + [s.updater.update] + ([] + tail) == s.log.applied + ([s.updater.update] + tail);
  }

  lemma StepKeeps(s: State, l: Label)
    requires Invariant(s) && Enabled(s, l)
    ensures Invariant(Apply(s, l))
  {
    match l {
      case Write(docs) => WriteStep(s, docs);
      case EnterPush => PushStep(s, PushEnter(s.chan, s.io.rest));
      case ResumePush => PushStep(s, PushBody(s.chan, s.io.rest));
      case EnterPop => PopStep(s, PopEnter(s.chan));
      case ResumePop => PopStep(s, PopBody(s.chan));
      case ApplyUpdate => ApplyStep(s);
      case _ =>
    }
  }

  lemma {:induction false} RunKeeps(s: State, run: seq<Label>)
    requires Invariant(s) && Valid(s, run)
    ensures Invariant(Final(s, run))
    decreases |run|
  {
    if run != [] {
      StepKeeps(s, run[0]);
      RunKeeps(Apply(s, run[0]), run[1..]);
    }
  }

  lemma FromStart(capacity: nat, run: seq<Label>)
    requires capacity > 0 && Valid(Init(capacity), run)
    ensures Invariant(Final(Init(capacity), run))
  {
    RunKeeps(Init(capacity), run);
  }

  // ---------------------------------------------------------------- theorems

  /** An idle io thread takes any WRITE and the last CLOSE alike. */
  lemma Unrestricted(capacity: nat, run: seq<Label>)
    requires capacity > 0 && Valid(Init(capacity), run) && Final(Init(capacity), run).io.Idle?
    ensures Enabled(Final(Init(capacity), run), SetExit)
    ensures forall docs :: Enabled(Final(Init(capacity), run), Write(docs))
  {
    FromStart(capacity, run);
  }

  /** In every interleaving updates reach the database once each, in queue order, and the counter counts them. */
  lemma AppliedOnceInOrder(capacity: nat, run: seq<Label>)
    requires capacity > 0 && Valid(Init(capacity), run)
    ensures var s := Final(Init(capacity), run);
            && !s.fault && s.count == |s.log.applied|
            && s.log.applied + InApply(s.updater) + s.chan.items + Rev(InHand(s.io)) == Unrolled(s.log.written)
            && s.log.applied <= Unrolled(s.log.written)
  {
    FromStart(capacity, run);
    var s := Final(Init(capacity), run);
    assert Stream(s) == s.log.applied + InApply(s.updater) + s.chan.items + Rev(InHand(s.io));
  }

  /** A WRITE request is answered only when its documents are all queued, last document first. */
  lemma WriteQueuesAll(capacity: nat, run: seq<Label>)
    requires capacity > 0 && Valid(Init(capacity), run)
    ensures var s := Final(Init(capacity), run);
            s.io.Idle? ==> s.log.applied + InApply(s.updater) + s.chan.items == Unrolled(s.log.written)
  {
    AppliedOnceInOrder(capacity, run);
  }

  /** Every push that returns to the loop of do_write has shortened the vector; the updater is awake whenever
      do_write sleeps. */
  lemma WriteLoopProgress(capacity: nat, run: seq<Label>, l: Label)
    requires capacity > 0 && Valid(Init(capacity), run)
    requires Final(Init(capacity), run).io.Pushing? && Enabled(Final(Init(capacity), run), l)
    ensures var s := Final(Init(capacity), run);
            && (Apply(s, l).io.Looping? ==> |Apply(s, l).io.rest| < |s.io.rest|)
            && (s.chan.pusher.Waiting? ==> !s.updater.Done? && !s.chan.popper.Waiting?)
  {
    FromStart(capacity, run);
    var s := Final(Init(capacity), run);
    if l.EnterPush? { PushStep(s, PushEnter(s.chan, s.io.rest)); }
    if l.ResumePush? { PushStep(s, PushBody(s.chan, s.io.rest)); }
  }

  // ---------------------------------------------------------------- a WRITE returns

  predicate Writing(io: Io) {
    io.Looping? || io.Pushing?
  }

  predicate IsIo(l: Label) {
    l.Write? || l.TestLoop? || l.EnterPush? || l.ResumePush? || l.SetExit? || l.Join?
  }

  /** Steps the io thread can still take inside do_write. */
  function WriteRank(io: Io, slot: Slot): int {
    match io
    case Looping(rest) => 3 * |rest| + 1
    case Pushing(rest) => 3 * |rest| - (if slot.Outside? then 0 else 1)
    case _ => 0
  }

  lemma WriteRankStep(s: State, l: Label)
    requires Invariant(s) && Enabled(s, l) && Writing(s.io)
    ensures WriteRank(Apply(s, l).io, Apply(s, l).chan.pusher) + (if IsIo(l) then 1 else 0)
         <= WriteRank(s.io, s.chan.pusher)
  {
    match l {
      case EnterPush => PushStep(s, PushEnter(s.chan, s.io.rest));
      case ResumePush => PushStep(s, PushBody(s.chan, s.io.rest));
      case EnterPop => PopSound(s.chan);
      case ResumePop => PopSound(s.chan);
      case _ =>
    }
  }

  function IoSteps(run: seq<Label>): nat {
    if run == [] then 0 else (if IsIo(run[0]) then 1 else 0) + IoSteps(run[1..])
  }

  /** The request is still being served after every step. */
  ghost predicate StillWriting(s: State, run: seq<Label>)
    requires Valid(s, run)
    decreases |run|
  {
    Writing(s.io) && (run == [] || StillWriting(Apply(s, run[0]), run[1..]))
  }

  lemma {:induction false} WriteStepsBounded(s: State, run: seq<Label>)
    requires Invariant(s) && Valid(s, run) && StillWriting(s, run)
    ensures IoSteps(run) < WriteRank(s.io, s.chan.pusher) && Writing(Final(s, run).io)
    decreases |run|
  {
    if run != [] {
      StepKeeps(s, run[0]);
      WriteRankStep(s, run[0]);
      WriteStepsBounded(Apply(s, run[0]), run[1..]);
    }
  }

  /** A step of the io thread, unless it sleeps; then the updater's. */
  function WriteMover(s: State): Label {
    match s.io
    case Looping(_) => TestLoop
    case _ =>
      match s.chan.pusher
      case Outside => EnterPush
      case Signalled => ResumePush
      case _ => Mover(s)
  }

  /** do_write asleep on a full queue, however the updater is busy. */
  ghost predicate Asleep(s: State, run: seq<Label>)
    requires Valid(s, run)
    decreases |run|
  {
    s.chan.pusher.Waiting? && (run == [] || Asleep(Apply(s, run[0]), run[1..]))
  }

  lemma {:induction false} SleepIsShort(s: State, run: seq<Label>)
    requires Invariant(s) && Valid(s, run) && Asleep(s, run)
    ensures |run| <= if s.updater.Popping? && !s.chan.popper.Expired? then 0 else 1
    decreases |run|
  {
    if run != [] {
      StepKeeps(s, run[0]);
      PopSound(s.chan);
      SleepIsShort(Apply(s, run[0]), run[1..]);
    }
  }

  /** A WRITE of these documents is answered before its io thread has taken 3*|docs|+1 steps; until then a step is
      always possible, and a sleep on a full queue is over after at most two steps of the updater. */
  lemma WriteIsAnswered(capacity: nat, run: seq<Label>, docs: seq<Update>, more: seq<Label>)
    requires capacity > 0 && Valid(Init(capacity), run) && Enabled(Final(Init(capacity), run), Write(docs))
    requires var s := Apply(Final(Init(capacity), run), Write(docs)); Valid(s, more) && StillWriting(s, more)
    ensures var s := Apply(Final(Init(capacity), run), Write(docs));
            && IoSteps(more) <= 3 * |docs|
            && Enabled(Final(s, more), WriteMover(Final(s, more)))
            && forall nap :: Valid(Final(s, more), nap) && Asleep(Final(s, more), nap) ==> |nap| <= 1
  {
    FromStart(capacity, run);
    var s := Apply(Final(Init(capacity), run), Write(docs));
    StepKeeps(Final(Init(capacity), run), Write(docs));
    WriteStepsBounded(s, more);
    RunKeeps(s, more);
    var t := Final(s, more);
    forall nap | Valid(t, nap) && Asleep(t, nap) ensures |nap| <= 1 { SleepIsShort(t, nap); }
  }

  // ---------------------------------------------------------------- draining

  /** update() returns only after the exit flag is set. What it leaves behind is exactly what was queued
      between the expiry of its last wait and its return; it is drained exactly when nothing was. */
  lemma DrainedIff(capacity: nat, run: seq<Label>)
    requires capacity > 0 && Valid(Init(capacity), run) && Final(Init(capacity), run).updater.Done?
    ensures var s := Final(Init(capacity), run);
            && s.exit
            && s.log.applied + s.log.sinceExpiry == Unrolled(s.log.written)
            && (s.log.applied == Unrolled(s.log.written) <==> s.log.sinceExpiry == [])
  {
    FromStart(capacity, run);
    var s := Final(Init(capacity), run);
    assert Rev(InHand(s.io)) == [];
    assert Stream(s) == s.log.applied + s.log.sinceExpiry;
  }

  /** What an updater on its way out of an expired wait will leave behind. */
  function Leftover(s: State): seq<Update> {
    if s.chan.popper.Expired? then s.chan.items else []
  }

  lemma {:induction false} DoneStays(s: State, run: seq<Label>)
    requires Invariant(s) && s.updater.Done? && Valid(s, run)
    ensures Final(s, run).chan == s.chan && Final(s, run).log == s.log
    decreases |run|
  {
    if run != [] {
      StepKeeps(s, run[0]);
      DoneStays(Apply(s, run[0]), run[1..]);
    }
  }

  /** Once the exit flag is set the outcome is fixed: nothing is queued any more, and the updater goes on until it
      meets an empty queue unless it is already past its last look at it. */
  lemma {:induction false} LeftoverFixed(s: State, run: seq<Label>)
    requires Invariant(s) && s.exit && !s.updater.Done? && Valid(s, run) && Final(s, run).updater.Done?
    ensures Final(s, run).chan.items == Leftover(s) && Final(s, run).log.written == s.log.written
    decreases |run|
  {
    if run != [] {
      var t := Apply(s, run[0]);
      StepKeeps(s, run[0]);
      PopSound(s.chan);
      if t.updater.Done? {
        DoneStays(t, run[1..]);
      } else {
        LeftoverFixed(t, run[1..]);
      }
    }
  }

  /** Whether every accepted update is applied before update() returns is decided when term sets the exit flag:
      exactly when the updater's wait is not expired at that moment, or nothing is queued. */
  lemma DrainDecidedAtExit(capacity: nat, run: seq<Label>, more: seq<Label>)
    requires capacity > 0 && Valid(Init(capacity), run) && Enabled(Final(Init(capacity), run), SetExit)
    requires Valid(Apply(Final(Init(capacity), run), SetExit), more)
    requires Final(Apply(Final(Init(capacity), run), SetExit), more).updater.Done?
    ensures var s := Final(Init(capacity), run);
            var t := Final(Apply(s, SetExit), more);
            && t.log.written == s.log.written
            && t.log.applied + Leftover(s) == Unrolled(s.log.written)
            && (t.log.applied == Unrolled(s.log.written) <==> !s.chan.popper.Expired? || s.chan.items == [])
  {
    FromStart(capacity, run);
    var s := Final(Init(capacity), run);
    StepKeeps(s, SetExit);
    LeftoverFixed(Apply(s, SetExit), more);
    RunKeeps(Apply(s, SetExit), more);
    var t := Final(Apply(s, SetExit), more);
    StaysOut(Apply(s, SetExit), more);
    assert Rev(InHand(t.io)) == [];
    assert Stream(t) == t.log.applied + t.chan.items;
  }

  lemma {:induction false} StaysOut(s: State, run: seq<Label>)
    requires Invariant(s) && s.exit && Valid(s, run)
    ensures Final(s, run).exit
    decreases |run|
  {
    if run != [] {
      StepKeeps(s, run[0]);
      StaysOut(Apply(s, run[0]), run[1..]);
    }
  }

  // ---------------------------------------------------------------- undefined behaviour

  /** The updater sleeps on the empty queue; do_write finds it full and wakes the updater for nothing. */
  lemma ZeroCapacityFaults(u: Update)
    ensures var run := [EnterPop] + ([Write([u])] + ([TestLoop] + ([EnterPush] + ([ResumePop] + []))));
            Valid(Init(0), run) && Final(Init(0), run).fault
  {
    var s0 := Init(0);
    var s1 := Apply(s0, EnterPop);
    var s2 := Apply(s1, Write([u]));
    var s3 := Apply(s2, TestLoop);
    var s4 := Apply(s3, EnterPush);
    assert s4.chan == Channel(0, [], Waiting, Signalled);
    var s5 := Apply(s4, ResumePop);
    assert Valid(s5, []) && Final(s5, []) == s5;
    Step(s4, ResumePop, []);
    Step(s3, EnterPush, [ResumePop] + []);
    Step(s2, TestLoop, [EnterPush] + ([ResumePop] + []));
    Step(s1, Write([u]), [TestLoop] + ([EnterPush] + ([ResumePop] + [])));
    Step(s0, EnterPop, [Write([u])] + ([TestLoop] + ([EnterPush] + ([ResumePop] + []))));
  }

  /** The updater takes from an empty queue on some run exactly when the capacity is 0. */
  lemma FaultFreeIff(capacity: nat)
    ensures (forall run :: Valid(Init(capacity), run) ==> !Final(Init(capacity), run).fault) <==> capacity > 0
  {
    if capacity > 0 {
      forall run | Valid(Init(capacity), run) ensures !Final(Init(capacity), run).fault { FromStart(capacity, run); }
    } else {
      ZeroCapacityFaults(Update(""));
    }
  }

  // ---------------------------------------------------------------- prompt timeouts

  /** No step comes between the expiry of a wait and the exception it raises. */
  ghost predicate Prompt(s: State, run: seq<Label>)
    requires Valid(s, run)
    decreases |run|
  {
    run == [] || ((s.chan.popper.Expired? ==> run[0].ThrowPop?) && Prompt(Apply(s, run[0]), run[1..]))
  }

  lemma {:induction false} PromptLeavesNothing(s: State, run: seq<Label>)
    requires Safe(s) && s.log.sinceExpiry == [] && Valid(s, run) && Prompt(s, run) && Invariant(s)
    ensures Final(s, run).log.sinceExpiry == []
    decreases |run|
  {
    if run != [] {
      StepKeeps(s, run[0]);
      PromptLeavesNothing(Apply(s, run[0]), run[1..]);
    }
  }

  /** When a timeout fires only on an empty queue, every accepted update is applied before update() returns. */
  lemma PromptRunsDrain(capacity: nat, run: seq<Label>)
    requires capacity > 0 && Valid(Init(capacity), run) && Prompt(Init(capacity), run)
    requires Final(Init(capacity), run).updater.Done?
    ensures var s := Final(Init(capacity), run);
            s.log.applied == Unrolled(s.log.written) && s.count == |Unrolled(s.log.written)| && s.chan.items == []
  {
    FromStart(capacity, run);
    PromptLeavesNothing(Init(capacity), run);
    DrainedIff(capacity, run);
  }

  lemma Step(s: State, l: Label, rest: seq<Label>)
    requires Enabled(s, l) && Valid(Apply(s, l), rest)
    ensures Valid(s, [l] + rest) && Final(s, [l] + rest) == Final(Apply(s, l), rest)
  {
    assert ([l] + rest)[1..] == rest;
  }

  /** The race the code admits: an update accepted while the updater is on its way out of an expired wait is lost. */
  lemma AcceptedUpdateCanBeLost(capacity: nat, u: Update) returns (run: seq<Label>)
    requires capacity > 0
    ensures Valid(Init(capacity), run)
    ensures var s := Final(Init(capacity), run);
            s.updater.Done? && Unrolled(s.log.written) == [u] && s.log.applied == [] && s.chan.items == [u]
  {
    var late := LateWrite(capacity, u);
    var asleep := Apply(Init(capacity), EnterPop);
    Step(asleep, ExpirePop, late);
    Step(Init(capacity), EnterPop, [ExpirePop] + late);
    run := [EnterPop] + ([ExpirePop] + late);
  }

  lemma FillOne(capacity: nat, u: Update)
    requires capacity > 0
    ensures Fill(capacity, [], [u]) == ([u], [])
  {
    var none: seq<Update> := [];
    assert FillCount(capacity, 0, 1) == 1;
    assert [u][0..] == [u] && [u][..0] == none;
    assert none + Rev([u]) == [u];
  }

  lemma LateWrite(capacity: nat, u: Update) returns (run: seq<Label>)
    requires capacity > 0
    ensures var e := Init(capacity).(chan := Channel(capacity, [], Outside, Expired));
            && Valid(e, run)
            && var s := Final(e, run);
               s.updater.Done? && Unrolled(s.log.written) == [u] && s.log.applied == [] && s.chan.items == [u]
  {
    var e := Init(capacity).(chan := Channel(capacity, [], Outside, Expired));
    var s1 := Apply(e, Write([u]));
    var s2 := Apply(s1, TestLoop);
    FillOne(capacity, u);
    var s3 := Apply(s2, EnterPush);
    assert s3.chan == Channel(capacity, [u], Outside, Expired) && s3.io == Looping([]);
    var s4 := Apply(s3, TestLoop);
    var s5 := Apply(s4, SetExit);
    var s6 := Apply(s5, ThrowPop);
    assert s6.log.written == [[u]];
    UnrolledAppend([], [u]);
    assert [] + [[u]] == [[u]] && Rev([u]) == [u];
    Step(s5, ThrowPop, []);
    Step(s4, SetExit, [ThrowPop]);
    Step(s3, TestLoop, [SetExit] + [ThrowPop]);
    Step(s2, EnterPush, [TestLoop] + ([SetExit] + [ThrowPop]));
    Step(s1, TestLoop, [EnterPush] + ([TestLoop] + ([SetExit] + [ThrowPop])));
    Step(e, Write([u]), [TestLoop] + ([EnterPush] + ([TestLoop] + ([SetExit] + [ThrowPop]))));
    run := [Write([u])] + ([TestLoop] + ([EnterPush] + ([TestLoop] + ([SetExit] + [ThrowPop]))));
    assert [ThrowPop] + [] == [ThrowPop];
  }

  // ---------------------------------------------------------------- shutdown

  function UpdaterRank(u: Updater, slot: Slot): nat {
    match u
    case Done => 0
    case Applying(_) => 4
    case Popping => match slot case Outside => 3 case Waiting => 2 case Signalled => 1 case Expired => 1
  }

  /** How many steps remain once the exit flag is set. */
  function Rank(s: State): nat {
    4 * |s.chan.items| + UpdaterRank(s.updater, s.chan.popper) + if s.io.Joined? then 0 else 1
  }

  lemma RankDecreases(s: State, l: Label)
    requires Safe(s) && s.exit && Enabled(s, l)
    ensures Rank(Apply(s, l)) < Rank(s)
  {
    if l.EnterPop? || l.ResumePop? { PopSound(s.chan); }
  }

  function Mover(s: State): Label {
    match s.updater
    case Done => Join
    case Applying(_) => ApplyUpdate
    case Popping =>
      match s.chan.popper
      case Outside => EnterPop
      case Waiting => ExpirePop
      case Signalled => ResumePop
      case Expired => ThrowPop
  }

  lemma {:induction false} StepsBounded(s: State, run: seq<Label>)
    requires Invariant(s) && s.exit && Valid(s, run)
    ensures Final(s, run).exit && |run| + Rank(Final(s, run)) <= Rank(s)
    decreases |run|
  {
    if run != [] {
      RankDecreases(s, run[0]);
      StepKeeps(s, run[0]);
      StepsBounded(Apply(s, run[0]), run[1..]);
    }
  }

  /** After set_exit the updater ends and is joined, within a number of steps linear in what is queued. */
  lemma TermJoins(capacity: nat, run: seq<Label>, more: seq<Label>)
    requires capacity > 0 && Valid(Init(capacity), run)
    requires Final(Init(capacity), run).exit && Valid(Final(Init(capacity), run), more)
    ensures var s := Final(Init(capacity), run);
            var t := Final(s, more);
            && |more| <= 4 * |s.chan.items| + 5
            && ((forall l :: !Enabled(t, l)) <==> t.io.Joined?)
            && (t.io.Joined? ==> t.updater.Done?)
  {
    FromStart(capacity, run);
    var s := Final(Init(capacity), run);
    StepsBounded(s, more);
    RunKeeps(s, more);
    var t := Final(s, more);
    if !t.io.Joined? { assert Enabled(t, Mover(t)); }
  }
}
