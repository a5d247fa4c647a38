/** READ requests: each one is answered, and on a collection nobody touches the answers are known in advance. */
module ReadRequests {
  import opened Arith
  import opened Seqs
  import opened Monitor
  import opened Pager
  import opened ReadMachine
  import opened ReadInvariants
  import opened ReadEnumeration
  import opened ReadOrder
  import opened ReadTheorems
  import B = BatchPop

  // ---------------------------------------------------------------- a READ returns

  function SlotRank(slot: Slot): nat {
    match slot case Outside => 3 case Waiting => 2 case Signalled => 1 case Expired => 1
  }

  /** Steps the io thread can still take inside one batch_pop. */
  function PopRank(b: B.Batch<int>, slot: Slot): int {
    (b.retries - b.retry) * (3 * b.size) + 3 * (b.size - b.got) + SlotRank(slot)
  }

  lemma OutcomeDecreases(b: B.Batch<int>, o: B.Outcome<int>, slot: Slot)
    requires B.Bounded(b) && b.status.Running?
    ensures B.On(b, o).status.Running? ==> PopRank(B.On(b, o), Outside) < PopRank(b, slot)
  {
    if b.retry < b.retries { TimesSucc(b.retries - b.retry - 1, 3 * b.size); }
  }

  lemma RankPositive(b: B.Batch<int>, slot: Slot)
    requires B.Bounded(b) && b.status.Running?
    ensures 0 < PopRank(b, slot) <= (b.retries + 1) * (3 * b.size) + 3
  {
    TimesMonotone(b.retries - b.retry, b.retries, 3 * b.size);
    TimesSucc(b.retries, 3 * b.size);
  }

  lemma IoPopDecreases(s: State, i: IoStep)
    requires Safe(s) && s.io.Popping? && IoEnabled(s, i) && IoApply(s, i).io.Popping?
    ensures PopRank(IoApply(s, i).io.batch, IoApply(s, i).chan.popper) < PopRank(s.io.batch, s.chan.popper)
  {
    PopSound(s.chan);
    if i.ThrowPop? {
      OutcomeDecreases(s.io.batch, B.Timeout, s.chan.popper);
    } else if (i.EnterPop? || i.ResumePop?) && s.chan.items != [] {
      OutcomeDecreases(s.io.batch, B.Item(s.chan.items[0]), s.chan.popper);
    }
  }

  /** Other threads can only wake the io thread up. */
  lemma ReaderOnlyWakes(s: State, r: ReaderStep)
    requires ReaderEnabled(s, r)
    ensures ReaderApply(s, r).io == s.io
    ensures ReaderApply(s, r).chan.popper == s.chan.popper || ReaderApply(s, r).chan.popper == Notify(s.chan.popper)
  {
    match r {
      case EnterPush => assert PushEnter(s.chan, s.reader.docs).chan.popper == Notify(s.chan.popper);
      case ResumePush => assert PushBody(s.chan, s.reader.docs).chan.popper == Notify(s.chan.popper);
      case _ =>
    }
  }

  /** Each step of the io thread uses up rank, and no other step gives any back. */
  lemma PopRankStep(s: State, l: Label)
    requires Safe(s) && Enabled(s, l) && s.io.Popping? && Apply(s, l).io.Popping?
    ensures PopRank(Apply(s, l).io.batch, Apply(s, l).chan.popper) + (if l.I? then 1 else 0)
         <= PopRank(s.io.batch, s.chan.popper)
  {
    match l {
      case Db(_) =>
      case R(r) => ReaderOnlyWakes(s, r);
      case I(i) => IoPopDecreases(s, i);
    }
  }

  function IoSteps(run: seq<Label>): nat {
    if run == [] then 0 else (if run[0].I? then 1 else 0) + IoSteps(run[1..])
  }

  /** The request is still being served after every step. */
  ghost predicate StillPopping(s: State, run: seq<Label>)
    requires Valid(s, run)
    decreases |run|
  {
    s.io.Popping? && (run == [] || StillPopping(Apply(s, run[0]), run[1..]))
  }

  lemma {:induction false} PopStepsBounded(s: State, run: seq<Label>)
    requires Invariant(s) && Valid(s, run) && StillPopping(s, run)
    ensures IoSteps(run) < PopRank(s.io.batch, s.chan.popper)
    decreases |run|
  {
    RankPositive(s.io.batch, s.chan.popper);
    if run != [] {
      var t := Apply(s, run[0]);
      StepKeeps(s, run[0]);
      PopStepsBounded(t, run[1..]);
      PopRankStep(s, run[0]);
    }
  }

  /** With a positive read timeout the io thread is never held up in a READ, and the READ is answered
      before its io thread has taken (retries+1)*3*limit+3 steps, whatever the reader does. */
  lemma ReadIsAnswered(cfg: Config, s: State, run: seq<Label>)
    requires Proper(cfg) && cfg.timedPop && Reachable(cfg, s) && s.io.Popping? && !s.io.forTerm
    requires Valid(s, run) && StillPopping(s, run)
    ensures IoSteps(run) <= (cfg.retries + 1) * (3 * cfg.limit) + 3
    ensures exists i :: Enabled(Final(s, run), I(i))
  {
    ReachableInvariant(cfg, s);
    PopStepsBounded(s, run);
    RankPositive(s.io.batch, s.chan.popper);
    RunKeeps(s, run);
    LastPopping(s, run);
    var t := Final(s, run);
    var i := match t.chan.popper
      case Outside => EnterPop
      case Waiting => ExpirePop
      case Signalled => ResumePop
      case Expired => ThrowPop;
    assert Enabled(t, I(i));
  }

  lemma {:induction false} LastPopping(s: State, run: seq<Label>)
    requires Valid(s, run) && StillPopping(s, run)
    ensures Final(s, run).io.Popping?
    decreases |run|
  {
    if run != [] { LastPopping(Apply(s, run[0]), run[1..]); }
  }

  // ---------------------------------------------------------------- a collection nobody touches

  ghost predicate Quiet(s: State, db: seq<int>) {
    var n := |s.log.pages|;
    && s.db == db
    && (forall k :: 0 <= k < n ==> s.log.pages[k] == PageAt(db, s.cfg.skip, s.cfg.limit, k))
    && match s.reader
       case Sent(from) => from == s.cursor == CursorAt(db, s.cfg.skip, s.cfg.limit, n)
       case Got(_, page) =>
         && n > 0 && page == PageAt(db, s.cfg.skip, s.cfg.limit, n - 1)
         && s.cursor == CursorAt(db, s.cfg.skip, s.cfg.limit, n - 1)
       case _ => s.cursor == CursorAt(db, s.cfg.skip, s.cfg.limit, n)
  }

  lemma QuietSnapshot(s: State, db: seq<int>)
    requires Quiet(s, db) && ReaderEnabled(s, Snapshot)
    ensures Quiet(ReaderApply(s, Snapshot), db)
  {
    var n := |s.log.pages|;
    assert ReaderApply(s, Snapshot).reader.page == PageAt(db, s.cfg.skip, s.cfg.limit, n);
  }

  lemma QuietStore(s: State, db: seq<int>)
    requires Quiet(s, db) && ReaderEnabled(s, Store)
    ensures Quiet(ReaderApply(s, Store), db)
  {
    var n := |s.log.pages|;
    assert CursorAt(db, s.cfg.skip, s.cfg.limit, n) == Advance(s.cursor, s.reader.page);
  }

  /** Nothing Quiet speaks of changes. */
  lemma QuietSame(s: State, t: State, db: seq<int>)
    requires Quiet(s, db) && t.db == s.db && t.cfg == s.cfg && t.cursor == s.cursor && t.log.pages == s.log.pages
    requires t.reader == s.reader || (!s.reader.Got? && !s.reader.Sent? && !t.reader.Got? && !t.reader.Sent?)
    ensures Quiet(t, db)
  {
  }

  lemma QuietStep(s: State, l: Label, db: seq<int>)
    requires Quiet(s, db) && Enabled(s, l) && !l.Db? && l != I(Rewind)
    ensures Quiet(Apply(s, l), db) && Apply(s, l).cfg == s.cfg
  {
    if l.I? {
      IoFrame(s, l.i);
      QuietSame(s, Apply(s, l), db);
    } else if l.r.Snapshot? {
      QuietSnapshot(s, db);
    } else if l.r.Store? {
      QuietStore(s, db);
    } else if !l.r.Prepare? {
      ReaderFrame(s, l.r);
      QuietSame(s, Apply(s, l), db);
    }
  }

  ghost predicate Untouched(run: seq<Label>) {
    forall l :: l in run ==> !l.Db? && l != I(Rewind)
  }

  lemma {:induction false} QuietRun(s: State, run: seq<Label>, db: seq<int>)
    requires Quiet(s, db) && Valid(s, run) && Untouched(run)
    ensures Quiet(Final(s, run), db) && Final(s, run).cfg == s.cfg
    decreases |run|
  {
    if run != [] {
      assert run[0] in run;
      QuietStep(s, run[0], db);
      QuietRun(Apply(s, run[0]), run[1..], db);
    }
  }

  /** Over a fixed collection the k-th page fetched is the closed form, in every interleaving. */
  lemma FixedCollection(cfg: Config, db: seq<int>, run: seq<Label>, k: nat)
    requires Proper(cfg) && Ascending(db) && Valid(Init(cfg, db), run) && Untouched(run)
    requires k < |Final(Init(cfg, db), run).log.pages|
    ensures k * (cfg.skip + cfg.limit) >= 0
    ensures Final(Init(cfg, db), run).log.pages[k]
         == db[Min(|db|, k * (cfg.skip + cfg.limit) + cfg.skip)..Min(|db|, (k + 1) * (cfg.skip + cfg.limit))]
  {
    QuietRun(Init(cfg, db), run, db);
    PageClosedForm(db, cfg.skip, cfg.limit, k);
  }
}
