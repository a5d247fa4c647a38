/** Every batch_pop of the read path, step by step: what ends it, and what comes out. */
module ReadPops {
  import opened Seqs
  import opened Monitor
  import opened ReadMachine
  import opened ReadInvariants
  import opened ReadEnumeration
  import opened ReadShutdown
  import opened ReadTheorems
  import opened ReadRequests
  import B = BatchPop

  // ---------------------------------------------------------------- counting what happened

  /** Waits that ran out, seen by the io thread. */
  function Throws(run: seq<Label>): nat {
    if run == [] then 0 else (if run[0] == I(ThrowPop) then 1 else 0) + Throws(run[1..])
  }

  /** Documents taken in a row since the last timeout, k of them before the run. */
  function Streak(s: State, run: seq<Label>, k: nat): nat
    requires Valid(s, run)
    decreases |run|
  {
    if run == [] then k
    else
      var t := Apply(s, run[0]);
      Streak(t, run[1..],
             if run[0] == I(ThrowPop) then 0 else if |t.log.popped| > |s.log.popped| then k + 1 else k)
  }

  /** A batch_pop that began when from documents had been popped. */
  ghost predicate Tally(s: State, forTerm: bool, size: nat, from: nat, throws: nat, streak: nat) {
    && s.io.Popping? && s.io.forTerm == forTerm && s.io.batch.status.Running?
    && s.io.batch.size == size && s.io.batch.retries == s.cfg.retries
    && s.io.batch.retry == throws <= s.cfg.retries && s.io.batch.got == streak < size
    && from <= |s.log.popped| && s.io.batch.docs == s.log.popped[from..]
  }

  lemma TakenTally(popped: seq<int>, x: int, from: nat)
    requires from <= |popped|
    ensures (popped + [x])[from..] == popped[from..] + [x]
  {
  }

  lemma PopTally(s: State, p: PopResult<int>, forTerm: bool, size: nat, from: nat, throws: nat, streak: nat)
    requires Tally(s, forTerm, size, from, throws, streak)
    requires p == PopEnter(s.chan) || p == PopBody(s.chan)
    ensures p.Popped? && streak + 1 < size ==> Tally(AfterPop(s, p), forTerm, size, from, throws, streak + 1)
    ensures !p.Popped? ==> Tally(AfterPop(s, p), forTerm, size, from, throws, streak)
    ensures p.Popped? <==> |AfterPop(s, p).log.popped| > |s.log.popped|
    ensures AfterPop(s, p).io.Popping? <==> !p.Popped? || streak + 1 < size
  {
    if p.Popped? { TakenTally(s.log.popped, p.item, from); }
  }

  lemma OtherTally(s: State, l: Label, forTerm: bool, size: nat, from: nat, throws: nat, streak: nat)
    requires Tally(s, forTerm, size, from, throws, streak) && Enabled(s, l)
    requires l != I(EnterPop) && l != I(ResumePop) && l != I(ThrowPop)
    ensures Tally(Apply(s, l), forTerm, size, from, throws, streak) && |Apply(s, l).log.popped| == |s.log.popped|
  {
    match l {
      case Db(_) =>
      case R(r) => ReaderBooks(s, r);
      case I(i) =>
    }
  }

  /** The reader has no part in what is popped. */
  lemma ReaderBooks(s: State, r: ReaderStep)
    requires ReaderEnabled(s, r)
    ensures var t := ReaderApply(s, r);
            t.io == s.io && t.cfg == s.cfg && t.log.popped == s.log.popped && t.log.discarded == s.log.discarded
  {
  }

  lemma TallyStep(s: State, l: Label, forTerm: bool, size: nat, from: nat, throws: nat, streak: nat)
    requires Tally(s, forTerm, size, from, throws, streak) && Enabled(s, l) && Apply(s, l).io.Popping?
    ensures Tally(Apply(s, l), forTerm, size, from, throws + Throws([l]), Streak(s, [l], streak))
  {
    assert [l][1..] == [];
    assert Streak(Apply(s, l), [l][1..], 0) == 0;
    if l == I(EnterPop) {
      PopTally(s, PopEnter(s.chan), forTerm, size, from, throws, streak);
    } else if l == I(ResumePop) {
      PopTally(s, PopBody(s.chan), forTerm, size, from, throws, streak);
    } else if l != I(ThrowPop) {
      OtherTally(s, l, forTerm, size, from, throws, streak);
    }
  }

  lemma {:induction false} TallyAlong(s: State, run: seq<Label>,
                                      forTerm: bool, size: nat, from: nat, throws: nat, streak: nat)
    requires Tally(s, forTerm, size, from, throws, streak) && Valid(s, run) && StillPopping(s, run)
    ensures Tally(Final(s, run), forTerm, size, from, throws + Throws(run), Streak(s, run, streak))
    decreases |run|
  {
    if run != [] {
      var t := Apply(s, run[0]);
      assert [run[0]][0] == run[0] && [run[0]][1..] == [];
      assert t.io.Popping?;
      TallyStep(s, run[0], forTerm, size, from, throws, streak);
      OneStep(s, run, streak);
      TallyAlong(t, run[1..], forTerm, size, from, throws + Throws([run[0]]), Streak(s, [run[0]], streak));
    }
  }

  lemma OneStep(s: State, run: seq<Label>, k: nat)
    requires run != [] && Valid(s, run) && Valid(s, [run[0]])
    ensures Throws(run) == Throws([run[0]]) + Throws(run[1..])
    ensures Streak(s, run, k) == Streak(Apply(s, run[0]), run[1..], Streak(s, [run[0]], k))
  {
    assert [run[0]][1..] == [];
  }

  /** The step that ends a batch_pop. */
  lemma LastPop(s: State, l: Label, forTerm: bool, size: nat, from: nat, throws: nat, streak: nat)
    requires Tally(s, forTerm, size, from, throws, streak) && Safe(s) && Enabled(s, l) && !Apply(s, l).io.Popping?
    ensures var t := Apply(s, l);
            && |s.log.popped| <= |t.log.popped| <= |s.log.popped| + (if l == I(ThrowPop) then 0 else 1)
            && (if l == I(ThrowPop) then throws == s.cfg.retries
                else (l == I(EnterPop) || l == I(ResumePop)) && streak + 1 == size && |t.log.popped[from..]| >= size)
            && (if forTerm then t.io.Joining? && t.log.discarded == s.log.discarded + t.log.popped[from..]
                else t.io.Idle? && t.log.replies == s.log.replies + [ReplyFor(t.log.popped[from..])])
  {
    if l == I(EnterPop) {
      LastItem(s, PopEnter(s.chan), forTerm, size, from, throws, streak);
    } else if l == I(ResumePop) {
      LastItem(s, PopBody(s.chan), forTerm, size, from, throws, streak);
    } else if l != I(ThrowPop) {
      OtherTally(s, l, forTerm, size, from, throws, streak);
    }
  }

  /** The answer to a READ that popped these documents. */
  function ReplyFor(docs: seq<int>): B.ReadReply<int> {
    if docs == [] then B.NoMoreItem else B.Documents(docs)
  }

  lemma LastItem(s: State, p: PopResult<int>, forTerm: bool, size: nat, from: nat, throws: nat, streak: nat)
    requires Tally(s, forTerm, size, from, throws, streak) && Safe(s)
    requires (p == PopEnter(s.chan) || p == PopBody(s.chan)) && !AfterPop(s, p).io.Popping?
    ensures var t := AfterPop(s, p);
            && |t.log.popped| == |s.log.popped| + 1
            && streak + 1 == size && |t.log.popped[from..]| >= size
            && (if forTerm then t.io.Joining? && t.log.discarded == s.log.discarded + t.log.popped[from..]
                else t.io.Idle? && t.log.replies == s.log.replies + [ReplyFor(t.log.popped[from..])])
  {
    PopTally(s, p, forTerm, size, from, throws, streak);
    TakenTally(s.log.popped, p.item, from);
  }

  // ---------------------------------------------------------------- READ

  /** A READ under way has timed out at most as often as it may retry and is short of a full batch; one that has
      ended did so either with its last permitted timeout or with the last of cfg.limit documents in a row, and is
      answered with exactly the documents popped since the request, NoMoreItem if there were none. */
  lemma ReadOutcome(cfg: Config, s: State, run: seq<Label>, l: Label)
    requires Proper(cfg) && Reachable(cfg, s) && Enabled(s, I(Read))
    requires Valid(Apply(s, I(Read)), run) && StillPopping(Apply(s, I(Read)), run)
    requires Enabled(Final(Apply(s, I(Read)), run), l)
    ensures Throws(run) <= cfg.retries && Streak(Apply(s, I(Read)), run, 0) < cfg.limit
    ensures var t := Apply(Final(Apply(s, I(Read)), run), l);
            !t.io.Popping? ==>
              && |s.log.popped| <= |t.log.popped|
              && t.io.Idle?
              && t.log.replies == Final(Apply(s, I(Read)), run).log.replies + [ReplyFor(t.log.popped[|s.log.popped|..])]
              && (if l == I(ThrowPop) then Throws(run) == cfg.retries
                  else (l == I(EnterPop) || l == I(ResumePop))
                       && Streak(Apply(s, I(Read)), run, 0) == cfg.limit - 1
                       && |t.log.popped[|s.log.popped|..]| >= cfg.limit)
  {
    var s1 := Apply(s, I(Read));
    ReachableInvariant(cfg, s);
    StepKeeps(s, I(Read));
    RunKeeps(s1, run);
    TallyAlong(s1, run, false, cfg.limit, |s.log.popped|, 0, 0);
    var u := Final(s1, run);
    if !Apply(u, l).io.Popping? {
      LastPop(u, l, false, cfg.limit, |s.log.popped|, Throws(run), Streak(s1, run, 0));
    }
  }

  // ---------------------------------------------------------------- term

  predicate AtJoin(io: Io) {
    io.Joining? || io.Joined?
  }

  lemma JoinStep(s: State, l: Label)
    requires AtJoin(s.io) && Enabled(s, l)
    ensures AtJoin(Apply(s, l).io) && l != I(ThrowPop)
    ensures Apply(s, l).log.discarded == s.log.discarded && Apply(s, l).log.popped == s.log.popped
  {
    if l.R? { ReaderBooks(s, l.r); }
  }

  lemma {:induction false} JoinStays(s: State, run: seq<Label>)
    requires AtJoin(s.io) && Valid(s, run)
    ensures var t := Final(s, run);
            AtJoin(t.io) && t.log.discarded == s.log.discarded && t.log.popped == s.log.popped && Throws(run) == 0
    decreases |run|
  {
    if run != [] {
      JoinStep(s, run[0]);
      JoinStays(Apply(s, run[0]), run[1..]);
    }
  }

  /** From a batch_pop of term to the join. */
  lemma {:induction false} TermTally(s: State, run: seq<Label>, from: nat, throws: nat)
    requires Tally(s, true, 1, from, throws, 0) && s.log.discarded == [] && Invariant(s)
    requires Valid(s, run) && AtJoin(Final(s, run).io)
    ensures var t := Final(s, run);
            && from <= |t.log.popped| && t.log.discarded == t.log.popped[from..]
            && (|t.log.discarded| == 1 || (t.log.discarded == [] && throws + Throws(run) == s.cfg.retries + 1))
    decreases |run|
  {
    if run != [] {
      var t := Apply(s, run[0]);
      StepKeeps(s, run[0]);
      if t.io.Popping? {
        OneTallyStep(s, run[0], from, throws);
        TermTally(t, run[1..], from, throws + Throws([run[0]]));
        assert [run[0]][1..] == [];
      } else {
        TermEnds(s, run[0], from, throws);
        JoinStays(t, run[1..]);
      }
    }
  }

  lemma OneTallyStep(s: State, l: Label, from: nat, throws: nat)
    requires Tally(s, true, 1, from, throws, 0) && s.log.discarded == [] && Enabled(s, l) && Apply(s, l).io.Popping?
    requires Invariant(Apply(s, l))
    ensures Tally(Apply(s, l), true, 1, from, throws + Throws([l]), 0) && Apply(s, l).log.discarded == []
  {
    assert [l][0] == l && [l][1..] == [];
    TallyStep(s, l, true, 1, from, throws, 0);
  }

  lemma TermEnds(s: State, l: Label, from: nat, throws: nat)
    requires Tally(s, true, 1, from, throws, 0) && s.log.discarded == [] && Safe(s)
    requires Enabled(s, l) && !Apply(s, l).io.Popping?
    ensures var t := Apply(s, l);
            && from <= |t.log.popped| && AtJoin(t.io) && t.log.discarded == t.log.popped[from..]
            && (|t.log.discarded| == 1 || (t.log.discarded == [] && throws + Throws([l]) == s.cfg.retries + 1))
  {
    assert [l][0] == l && [l][1..] == [];
    assert |s.io.batch.docs| <= s.io.batch.retry * 0;
    LastPop(s, l, true, 1, from, throws, 0);
  }

  /** term on a non-empty queue throws away exactly its oldest document. */
  lemma TermTakesFront(cfg: Config, s: State, run: seq<Label>)
    requires Proper(cfg) && Reachable(cfg, s) && Enabled(s, I(CheckSize)) && s.chan.items != []
    requires Valid(Apply(s, I(CheckSize)), run) && AtJoin(Final(Apply(s, I(CheckSize)), run).io)
    ensures Final(Apply(s, I(CheckSize)), run).log.discarded == [s.chan.items[0]]
  {
    ReachableInvariant(cfg, s);
    StepKeeps(s, I(CheckSize));
    FrontTaken(Apply(s, I(CheckSize)), run);
  }

  lemma {:induction false} FrontTaken(s: State, run: seq<Label>)
    requires Invariant(s) && s.io == Popping(true, B.Begin(1, s.cfg.retries))
    requires s.chan.popper.Outside? && s.chan.items != [] && s.log.discarded == []
    requires Valid(s, run) && AtJoin(Final(s, run).io)
    ensures Final(s, run).log.discarded == [s.chan.items[0]]
    decreases |run|
  {
    if run != [] {
      var t := Apply(s, run[0]);
      StepKeeps(s, run[0]);
      match run[0] {
        case Db(_) => FrontTaken(t, run[1..]);
        case R(r) => ReaderBooks(s, r); ReaderAppends(s, r); FrontTaken(t, run[1..]);
        case I(_) => JoinStays(t, run[1..]);
      }
    }
  }

  /** The reader only ever adds at the back of the queue. */
  lemma ReaderAppends(s: State, r: ReaderStep)
    requires ReaderEnabled(s, r)
    ensures s.chan.items <= ReaderApply(s, r).chan.items
    ensures s.chan.popper.Outside? ==> ReaderApply(s, r).chan.popper.Outside?
  {
    if r.EnterPush? {
      PushAppends(s, PushEnter(s.chan, s.reader.docs));
    } else if r.ResumePush? {
      PushAppends(s, PushBody(s.chan, s.reader.docs));
    } else {
      assert ReaderApply(s, r).chan.items == s.chan.items;
    }
  }

  lemma PushAppends(s: State, p: PushResult<int>)
    requires s.reader.Pushing? && (p == PushEnter(s.chan, s.reader.docs) || p == PushBody(s.chan, s.reader.docs))
    ensures s.chan.items <= AfterPush(s, p).chan.items
    ensures s.chan.popper.Outside? ==> AfterPush(s, p).chan.popper.Outside?
  {
    var keep := |s.reader.docs| - FillCount(s.chan.limit, |s.chan.items|, |s.reader.docs|);
    if p.Pushed? { assert p.chan.items == s.chan.items + Rev(s.reader.docs[keep..]); }
  }

  /** term on an empty queue takes nothing before it has looked at the end flag. */
  lemma TermLooksAtEnd(cfg: Config, s: State)
    requires Proper(cfg) && Reachable(cfg, s) && Enabled(s, I(CheckSize)) && s.chan.items == []
    ensures Enabled(Apply(s, I(CheckSize)), I(CheckEnd)) && Apply(s, I(CheckSize)).log == s.log
  {
    ReachableInvariant(cfg, s);
  }

  /** With the end flag down term joins only after taking one document or running out of all its retries. */
  lemma TermWaits(cfg: Config, s: State, run: seq<Label>)
    requires Proper(cfg) && Reachable(cfg, s) && Enabled(s, I(CheckEnd)) && !s.reachEnd
    requires Valid(Apply(s, I(CheckEnd)), run) && AtJoin(Final(Apply(s, I(CheckEnd)), run).io)
    ensures var t := Final(Apply(s, I(CheckEnd)), run);
            && |s.log.popped| <= |t.log.popped| && t.log.discarded == t.log.popped[|s.log.popped|..]
            && (|t.log.discarded| == 1 || (t.log.discarded == [] && Throws(run) == cfg.retries + 1))
  {
    ReachableInvariant(cfg, s);
    StepKeeps(s, I(CheckEnd));
    assert s.log.popped[|s.log.popped|..] == [];
    TermTally(Apply(s, I(CheckEnd)), run, |s.log.popped|, 0);
  }

  /** With the end flag up term takes no document and waits for none: whatever the read timeout, it goes to the join,
      and the run can stop only with the reader joined. */
  lemma TermSkipsPop(cfg: Config, s: State, run: seq<Label>)
    requires Proper(cfg) && Reachable(cfg, s) && Enabled(s, I(CheckEnd)) && s.reachEnd
    requires Valid(Apply(s, I(CheckEnd)), run)
    ensures var t := Final(Apply(s, I(CheckEnd)), run);
            && AtJoin(t.io) && t.log.discarded == [] && t.log.popped == s.log.popped && Throws(run) == 0
            && ((forall l: Label :: !l.Db? ==> !Enabled(t, l)) ==> t.io.Joined? && t.reader.Done?)
  {
    ReachableInvariant(cfg, s);
    StepKeeps(s, I(CheckEnd));
    JoinStays(Apply(s, I(CheckEnd)), run);
    RunKeeps(Apply(s, I(CheckEnd)), run);
    var t := Final(Apply(s, I(CheckEnd)), run);
    if !t.io.Joined? { JoinNotStuck(t); }
  }

  lemma JoinNotStuck(s: State)
    requires Safe(s) && Closing(s) && s.io.Joining?
    ensures Mover(s).Some? && Enabled(s, Mover(s).value) && !Mover(s).value.Db?
  {
  }
}
