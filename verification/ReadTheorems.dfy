/** The properties of the read path over whole runs. */
module ReadTheorems {
  import opened Seqs
  import opened Monitor
  import opened Pager
  import opened ReadMachine
  import opened ReadInvariants
  import opened ReadEnumeration
  import opened ReadShutdown

  ghost predicate Invariant(s: State) {
    Safe(s) && Conserved(s) && Closing(s) && (s.cfg.skip == 0 ==> Enumerated(s) && EndSound(s))
  }

  lemma DbStepKeeps(s: State, db: seq<int>)
    requires Invariant(s) && Enabled(s, Db(db))
    ensures Invariant(Apply(s, Db(db)))
  {
    DbUntouched(s, db);
    if s.cfg.skip == 0 {
      DbEnumerates(s, db);
      DbKeepsEnd(s, db);
    }
  }

  lemma DbUntouched(s: State, db: seq<int>)
    requires Safe(s) && Conserved(s) && Closing(s) && Enabled(s, Db(db))
    ensures Safe(Apply(s, Db(db))) && Conserved(Apply(s, Db(db))) && Closing(Apply(s, Db(db)))
  {
  }

  lemma ReaderStepKeeps(s: State, r: ReaderStep)
    requires Invariant(s) && ReaderEnabled(s, r)
    ensures Invariant(ReaderApply(s, r))
  {
    ReaderKeepsSafe(s, r);
    ReaderConserves(s, r);
    ReaderCloses(s, r);
    if s.cfg.skip == 0 {
      ReaderEnumerates(s, r);
      ReaderKeepsEnd(s, r);
    }
    ReaderKeepsConfig(s, r);
  }

  lemma ReaderKeepsConfig(s: State, r: ReaderStep)
    requires ReaderEnabled(s, r)
    ensures ReaderApply(s, r).cfg == s.cfg
  {
  }

  lemma IoStepKeeps(s: State, i: IoStep)
    requires Invariant(s) && IoEnabled(s, i)
    ensures Invariant(IoApply(s, i))
  {
    IoKeepsSafe(s, i);
    IoConserves(s, i);
    IoCloses(s, i);
    IoFrame(s, i);
    if s.cfg.skip == 0 {
      IoEnumerates(s, i);
      IoKeepsEnd(s, i);
    }
  }

  lemma StepKeeps(s: State, l: Label)
    requires Invariant(s) && Enabled(s, l)
    ensures Invariant(Apply(s, l)) && Apply(s, l).cfg == s.cfg
  {
    match l {
      case Db(db) => DbStepKeeps(s, db);
      case R(r) => ReaderStepKeeps(s, r); ReaderKeepsConfig(s, r);
      case I(i) => IoStepKeeps(s, i); IoFrame(s, i);
    }
  }

  lemma {:induction false} RunKeeps(s: State, run: seq<Label>)
    requires Invariant(s) && Valid(s, run)
    ensures Invariant(Final(s, run)) && Final(s, run).cfg == s.cfg
    decreases |run|
  {
    if run != [] {
      StepKeeps(s, run[0]);
      RunKeeps(Apply(s, run[0]), run[1..]);
    }
  }

  lemma ReachableInvariant(cfg: Config, s: State)
    requires Proper(cfg) && Reachable(cfg, s)
    ensures Invariant(s) && s.cfg == cfg
  {
    var db, run :| Ascending(db) && Valid(Init(cfg, db), run) && Final(Init(cfg, db), run) == s;
    RunKeeps(Init(cfg, db), run);
  }

  lemma Extend(cfg: Config, s: State, l: Label)
    requires Reachable(cfg, s) && Enabled(s, l)
    ensures Reachable(cfg, Apply(s, l))
  {
    var db, run :| Ascending(db) && Valid(Init(cfg, db), run) && Final(Init(cfg, db), run) == s;
    var one := [l];
    assert one[0] == l && one[1..] == [];
    assert Valid(Apply(s, l), one[1..]) && Final(Apply(s, l), one[1..]) == Apply(s, l);
    assert Valid(s, one) && Final(s, one) == Apply(s, l);
    RunConcat(Init(cfg, db), run, one);
  }

  lemma Begins(cfg: Config, db: seq<int>)
    requires Ascending(db)
    ensures Reachable(cfg, Init(cfg, db))
  {
    assert Valid(Init(cfg, db), []) && Final(Init(cfg, db), []) == Init(cfg, db);
  }

  // ---------------------------------------------------------------- what the model leaves open

  /** Nothing restricts the collection or the clients: it may become any other at any moment, and an idle io thread
      takes READ, REWIND and the last CLOSE alike, and a timed wait may run out before it is signalled. */
  lemma Unrestricted(cfg: Config, s: State)
    requires Proper(cfg) && Reachable(cfg, s)
    ensures forall db :: Ascending(db) ==> Enabled(s, Db(db)) && Apply(s, Db(db)).db == db
    ensures s.io.Idle? ==> Enabled(s, I(Read)) && Enabled(s, I(Rewind)) && Enabled(s, I(SetExit))
    ensures cfg.timedPush && s.chan.pusher.Waiting? ==> Enabled(s, R(ExpirePush))
    ensures cfg.timedPop && s.chan.popper.Waiting? ==> Enabled(s, I(ExpirePop))
  {
    ReachableInvariant(cfg, s);
  }

  /** Until it returns, the reader can be held up only asleep on a full queue, and the io thread only asleep on an
      empty queue or in the join. */
  lemma HeldUpIff(cfg: Config, s: State)
    requires Proper(cfg) && Reachable(cfg, s)
    ensures (exists r :: Enabled(s, R(r))) <==> !s.reader.Done? && !(s.chan.pusher.Waiting? && !cfg.timedPush)
    ensures (exists i :: Enabled(s, I(i))) <==>
              !s.io.Joined? && !(s.io.Joining? && !s.reader.Done?) && !(s.chan.popper.Waiting? && !cfg.timedPop)
    ensures s.chan.pusher.Waiting? ==> s.reader.Pushing? && |s.chan.items| == cfg.capacity
    ensures s.chan.popper.Waiting? ==> s.io.Popping? && s.chan.items == []
  {
    ReachableInvariant(cfg, s);
    ReaderMoves(s);
    IoMoves(s);
  }

  lemma ReaderMoves(s: State)
    requires Safe(s)
    ensures (exists r :: Enabled(s, R(r))) <==> !s.reader.Done? && !(s.chan.pusher.Waiting? && !s.cfg.timedPush)
  {
    if !s.reader.Done? && !(s.chan.pusher.Waiting? && !s.cfg.timedPush) {
      assert Enabled(s, ReaderMover(s).value) && ReaderMover(s).value.R?;
    }
  }

  lemma IoMoves(s: State)
    requires Safe(s)
    ensures (exists i :: Enabled(s, I(i))) <==>
              !s.io.Joined? && !(s.io.Joining? && !s.reader.Done?) && !(s.chan.popper.Waiting? && !s.cfg.timedPop)
  {
    match s.io {
      case Idle => assert Enabled(s, I(Rewind));
      case Popping(_, _) => if s.chan.popper.Waiting? && s.cfg.timedPop { assert Enabled(s, I(ExpirePop)); }
      case TermSize => assert Enabled(s, I(CheckSize));
      case TermEnd => assert Enabled(s, I(CheckEnd));
      case Joining => if s.reader.Done? { assert Enabled(s, I(Join)); }
      case Joined =>
    }
    if s.io.Popping? && !s.chan.popper.Waiting? { assert Enabled(s, Mover(s).value) && Mover(s).value.I?; }
  }

  /** Only timed waits expire. */
  ghost predicate ExpiryAllowed(s: State) {
    && (s.chan.pusher.Expired? ==> s.cfg.timedPush)
    && (s.chan.popper.Expired? ==> s.cfg.timedPop)
  }

  lemma ReaderExpiry(s: State, r: ReaderStep)
    requires ReaderEnabled(s, r) && ExpiryAllowed(s)
    ensures ExpiryAllowed(ReaderApply(s, r))
  {
  }

  lemma IoExpiry(s: State, i: IoStep)
    requires IoEnabled(s, i) && ExpiryAllowed(s)
    ensures ExpiryAllowed(IoApply(s, i))
  {
  }

  lemma {:induction false} ExpiryAlong(s: State, run: seq<Label>)
    requires ExpiryAllowed(s) && Valid(s, run)
    ensures ExpiryAllowed(Final(s, run))
    decreases |run|
  {
    if run != [] {
      match run[0] {
        case Db(_) =>
        case R(r) => ReaderExpiry(s, r);
        case I(i) => IoExpiry(s, i);
      }
      ExpiryAlong(Apply(s, run[0]), run[1..]);
    }
  }

  /** A wait without a timeout ends only with a signal. */
  lemma UntimedNeverExpires(cfg: Config, s: State)
    requires Reachable(cfg, s) && s.cfg == cfg
    ensures s.chan.pusher.Expired? ==> cfg.timedPush
    ensures s.chan.popper.Expired? ==> cfg.timedPop
  {
    var db, run :| Ascending(db) && Valid(Init(cfg, db), run) && Final(Init(cfg, db), run) == s;
    ExpiryAlong(Init(cfg, db), run);
  }

  // ---------------------------------------------------------------- the queue between the two threads

  /** In every interleaving a woken thread finds what it waited for, the queue keeps its bound, and the threads
      never wait for each other. */
  lemma QueueIsSafe(cfg: Config, s: State)
    requires Proper(cfg) && Reachable(cfg, s)
    ensures !s.fault && |s.chan.items| <= cfg.capacity
    ensures s.chan.popper.Signalled? ==> s.chan.items != []
    ensures s.chan.pusher.Signalled? ==> |s.chan.items| < cfg.capacity
    ensures !(s.chan.popper.Waiting? && s.chan.pusher.Waiting?)
    ensures s.io.Popping? && !s.exit ==> Mover(s).Some? && Enabled(s, Mover(s).value) && !Mover(s).value.Db?
  {
    ReachableInvariant(cfg, s);
  }

  /** front() of an empty queue is reachable exactly when the configured capacity is 0. */
  lemma FaultFreeIff(cfg: Config)
    requires cfg.limit > 0
    ensures (forall s :: Reachable(cfg, s) ==> !s.fault) <==> cfg.capacity > 0
  {
    if cfg.capacity > 0 {
      forall s | Reachable(cfg, s) ensures !s.fault { QueueIsSafe(cfg, s); }
    } else {
      var s := ZeroCapacityFaults(cfg);
    }
  }

  lemma ZeroCapacityFaults(cfg: Config) returns (s: State)
    requires cfg.limit > 0 && cfg.capacity == 0
    ensures Reachable(cfg, s) && s.fault
  {
    s := BlockedReader(cfg);
    Extend(cfg, s, I(Read));       s := Apply(s, I(Read));
    Extend(cfg, s, I(EnterPop));   s := Apply(s, I(EnterPop));
    Extend(cfg, s, R(ResumePush)); s := Apply(s, R(ResumePush));
    assert s.chan.items == [] && s.chan.popper.Signalled?;
    Extend(cfg, s, I(ResumePop));  s := Apply(s, I(ResumePop));
  }

  lemma BlockedReader(cfg: Config) returns (s: State)
    requires cfg.limit > 0 && cfg.capacity == 0
    ensures Reachable(cfg, s) && !s.fault && s.cfg == cfg && s.io.Idle?
    ensures s.chan == Channel(0, [], Waiting, Outside) && s.reader.Pushing?
  {
    s := FirstAnswer(cfg, seq(cfg.skip + 1, i => i));
    assert s.reader.page != [];
    Extend(cfg, s, R(Store));     s := Apply(s, R(Store));
    Extend(cfg, s, R(Mark));      s := Apply(s, R(Mark));
    Extend(cfg, s, R(TestInner)); s := Apply(s, R(TestInner));
    Extend(cfg, s, R(EnterPush)); s := Apply(s, R(EnterPush));
  }

  lemma Prepend(s: State, l: Label, rest: seq<Label>)
    requires Enabled(s, l) && Valid(Apply(s, l), rest)
    ensures Valid(s, [l] + rest) && Final(s, [l] + rest) == Final(Apply(s, l), rest)
  {
    assert ([l] + rest)[1..] == rest;
  }

  /** The run that gets the reader the answer to its first query. */
  const FirstQuery: seq<Label> := [R(Test)] + ([R(Prepare)] + ([R(Snapshot)] + []))

  /** The reader has that answer in hand and nothing else has happened. */
  lemma FirstAnswer(cfg: Config, db: seq<int>) returns (s: State)
    requires Ascending(db)
    ensures Reachable(cfg, s) && Valid(Init(cfg, db), FirstQuery) && s == Final(Init(cfg, db), FirstQuery)
    ensures var page := db[Min(cfg.skip, |db|)..Min(cfg.skip + cfg.limit, |db|)];
            s == Init(cfg, db).(reader := Got(Start, page),
                                log := Init(cfg, db).log.(pages := [page], stable := Elems(db)))
  {
    var s0 := Init(cfg, db);
    var s1 := Apply(s0, R(Test));
    var s2 := Apply(s1, R(Prepare));
    s := Apply(s2, R(Snapshot));
    assert Valid(s, []) && Final(s, []) == s;
    Prepend(s2, R(Snapshot), []);
    Prepend(s1, R(Prepare), [R(Snapshot)] + []);
    Prepend(s0, R(Test), [R(Prepare)] + ([R(Snapshot)] + []));
    PageFromStart(db, cfg.skip, cfg.limit);
    assert [] + [s.reader.page] == [s.reader.page];
  }

  // ---------------------------------------------------------------- conservation

  /** What clients were sent, what is being popped, the queue and the reader's hand together are the pages fetched,
      each reversed. */
  lemma NothingLost(cfg: Config, s: State)
    requires Proper(cfg) && Reachable(cfg, s)
    ensures Delivered(s.log.replies) + s.log.discarded + InFlight(s.io) + s.chan.items + Rev(InHand(s.reader))
         == Unrolled(s.log.pages)
    ensures !s.exit ==> s.log.discarded == []
  {
    ReachableInvariant(cfg, s);
    assert Stream(s) == s.log.popped + s.chan.items + Rev(InHand(s.reader));
  }

  /** No step rearranges what is already on its way. */
  lemma {:induction false} StreamGrows(s: State, run: seq<Label>)
    requires Invariant(s) && Valid(s, run)
    ensures Stream(s) <= Stream(Final(s, run))
    decreases |run|
  {
    if run != [] {
      var t := Apply(s, run[0]);
      StepKeeps(s, run[0]);
      StepStream(s, run[0]);
      StreamGrows(t, run[1..]);
    }
  }

  lemma StepStream(s: State, l: Label)
    requires Invariant(s) && Enabled(s, l)
    ensures Stream(s) <= Stream(Apply(s, l))
  {
    match l {
      case Db(_) => assert Stream(Apply(s, l)) == Stream(s);
      case R(r) => if r.Snapshot? { SnapshotStream(s); } else { ReaderStream(s, r); }
      case I(i) => IoStream(s, i);
    }
  }

  lemma ReaderPages(s: State, r: ReaderStep)
    requires ReaderEnabled(s, r)
    ensures var pages := ReaderApply(s, r).log.pages;
            pages == s.log.pages ||
            (r.Snapshot? && pages == s.log.pages + [ReaderApply(s, r).reader.page]
             && |ReaderApply(s, r).reader.page| <= s.cfg.limit)
  {
  }

  // ---------------------------------------------------------------- enumeration

  /** No query starts from scratch during the run, and x stays in the collection. */
  ghost predicate Undisturbed(s: State, run: seq<Label>, x: int)
    requires Valid(s, run)
    decreases |run|
  {
    run == [] ||
    (&& (run[0].Db? ==> x in run[0].db)
     && (run[0] == R(Prepare) ==> !s.cursor.Start?)
     && Undisturbed(Apply(s, run[0]), run[1..], x))
  }

  lemma {:induction false} StableMeans(s: State, run: seq<Label>, x: int)
    requires Valid(s, run) && Undisturbed(s, run, x) && x in s.log.stable
    ensures x in Final(s, run).log.stable
    decreases |run|
  {
    if run != [] {
      if run[0].I? { IoFrame(s, run[0].i); }
      StableMeans(Apply(s, run[0]), run[1..], x);
    }
  }

  /** When a pass that started from scratch meets an empty page, every document that stayed in the
      collection throughout the pass has been fetched in it exactly once, whatever came and went meanwhile. */
  lemma PassIsComplete(cfg: Config, s: State, run: seq<Label>, x: int)
    requires Proper(cfg) && cfg.skip == 0 && Reachable(cfg, s)
    requires Enabled(s, R(Prepare)) && s.cursor.Start? && x in s.db
    requires Valid(Apply(s, R(Prepare)), run) && Undisturbed(Apply(s, R(Prepare)), run, x)
    requires Final(Apply(s, R(Prepare)), run).reader.Got? && Final(Apply(s, R(Prepare)), run).reader.page == []
    ensures var e := Epoch(Final(Apply(s, R(Prepare)), run).log);
            Ascending(e) && OccursOnce(e, x)
  {
    var s1 := Apply(s, R(Prepare));
    ReachableInvariant(cfg, s);
    StepKeeps(s, R(Prepare));
    StableMeans(s1, run, x);
    RunKeeps(s1, run);
  }

  ghost predicate OccursOnce(e: seq<int>, x: int) {
    x in e && forall i, j :: 0 <= i < j < |e| ==> !(e[i] == x && e[j] == x)
  }

  /** Ids fetched since the last fresh start strictly increase, in every reachable state. */
  lemma PassIncreases(cfg: Config, s: State)
    requires Proper(cfg) && cfg.skip == 0 && Reachable(cfg, s)
    ensures s.log.epochStart <= |s.log.pages| && Ascending(Flat(s.log.pages[s.log.epochStart..]))
  {
    ReachableInvariant(cfg, s);
  }

  /** When m_reach_end is seen between two queries, every document that stayed in the collection since the pass
      began has been fetched in it, and all that was ever fetched is delivered, being popped, or in the queue. */
  lemma ReachEndMeans(cfg: Config, s: State)
    requires Proper(cfg) && cfg.skip == 0 && Reachable(cfg, s) && s.reachEnd && !s.exit && Resting(s.reader)
    ensures forall x :: x in s.log.stable ==> OccursOnce(Epoch(s.log), x)
    ensures Delivered(s.log.replies) + InFlight(s.io) + s.chan.items == Unrolled(s.log.pages)
  {
    ReachableInvariant(cfg, s);
    assert forall x :: x in s.log.stable ==> OccursOnce(Epoch(s.log), x);
    NothingLost(cfg, s);
    EmptyHand(Delivered(s.log.replies), s.log.discarded, InFlight(s.io), s.chan.items, Rev(InHand(s.reader)));
  }

  lemma EmptyHand(a: seq<int>, b: seq<int>, c: seq<int>, d: seq<int>, e: seq<int>)
    requires b == [] && e == []
    ensures a + b + c + d + e == a + c + d
  {
  }

  // ---------------------------------------------------------------- rewind

  lemma PageFromStart(db: seq<int>, skip: nat, limit: nat)
    ensures Page(db, Start, skip, limit) == db[Min(skip, |db|)..Min(skip + limit, |db|)]
  {
    SelectTakes(db, Start, 0);
  }

  /** A query that returned documents stores its cursor somewhere in the run. */
  ghost predicate Overwritten(s: State, run: seq<Label>)
    requires Valid(s, run)
    decreases |run|
  {
    run != [] &&
    ((run[0] == R(Store) && s.reader.page != []) || Overwritten(Apply(s, run[0]), run[1..]))
  }

  ghost predicate NoNewQuery(run: seq<Label>) {
    R(Prepare) !in run && I(Rewind) !in run
  }

  /** What a step does to the cursor: a rewind clears it, a query that returned documents sets it. */
  function CursorEvent(s: State, l: Label): Option<Cursor> {
    if l == I(Rewind) then Some(Start)
    else if l == R(Store) && s.reader.Got? && s.reader.page != [] then Some(After(s.reader.page[|s.reader.page| - 1]))
    else None
  }

  /** The last such event of a run. */
  function LastEvent(s: State, run: seq<Label>): Option<Cursor>
    requires Valid(s, run)
    decreases |run|
  {
    if run == [] then None
    else
      var later := LastEvent(Apply(s, run[0]), run[1..]);
      if later.Some? then later else CursorEvent(s, run[0])
  }

  lemma CursorStep(s: State, l: Label)
    requires Enabled(s, l)
    ensures Apply(s, l).cursor == (if CursorEvent(s, l).Some? then CursorEvent(s, l).value else s.cursor)
  {
    match l {
      case Db(_) =>
      case R(r) => if !r.Store? { ReaderKeepsCursor(s, r); }
      case I(i) => IoFrame(s, i);
    }
  }

  lemma ReaderKeepsCursor(s: State, r: ReaderStep)
    requires ReaderEnabled(s, r) && !r.Store?
    ensures ReaderApply(s, r).cursor == s.cursor
  {
  }

  /** On every run from every state the cursor is what the most recent rewind or store of documents left. */
  lemma {:induction false} CursorIsLatest(s: State, run: seq<Label>)
    requires Valid(s, run)
    ensures Final(s, run).cursor == (if LastEvent(s, run).Some? then LastEvent(s, run).value else s.cursor)
    decreases |run|
  {
    if run != [] {
      CursorStep(s, run[0]);
      CursorIsLatest(Apply(s, run[0]), run[1..]);
    }
  }

  lemma {:induction false} NoEvent(s: State, run: seq<Label>)
    requires Valid(s, run) && I(Rewind) !in run
    ensures LastEvent(s, run).None? <==> !Overwritten(s, run)
    ensures LastEvent(s, run).Some? ==> LastEvent(s, run).value.After?
    decreases |run|
  {
    if run != [] {
      assert run[0] in run;
      NoEvent(Apply(s, run[0]), run[1..]);
    }
  }

  /** After a rewind, or after the store of a page with documents, the cursor is Start, or the last id of that page,
      until the next rewind or store of documents. */
  lemma CursorAfter(s: State, l: Label, later: seq<Label>)
    requires Enabled(s, l) && (l == I(Rewind) || (l == R(Store) && s.reader.page != []))
    requires Valid(Apply(s, l), later) && I(Rewind) !in later && !Overwritten(Apply(s, l), later)
    ensures Final(Apply(s, l), later).cursor == if l.I? then Start else After(s.reader.page[|s.reader.page| - 1])
  {
    CursorStep(s, l);
    CursorIsLatest(Apply(s, l), later);
    NoEvent(Apply(s, l), later);
  }

  /** Answers are only ever added. */
  lemma {:induction false} PagesGrow(s: State, run: seq<Label>)
    requires Valid(s, run)
    ensures s.log.pages <= Final(s, run).log.pages
    decreases |run|
  {
    if run != [] {
      match run[0] {
        case Db(_) =>
        case R(r) => ReaderPages(s, r);
        case I(i) => IoFrame(s, i);
      }
      PagesGrow(Apply(s, run[0]), run[1..]);
    }
  }

  /** The query under way in s has, or by the time of t has got, an answer with documents. */
  predicate LateAnswer(s: State, t: State) {
    || (s.reader.Got? && s.reader.page != [])
    || (s.reader.Sent? && |s.log.pages| < |t.log.pages| && t.log.pages[|s.log.pages|] != [])
  }

  /** The cursor is overwritten exactly by the one query already under way, exactly when its answer has documents. */
  lemma {:induction false} OverwrittenIff(s: State, run: seq<Label>)
    requires Valid(s, run) && NoNewQuery(run) && !Final(s, run).reader.Got? && !Final(s, run).reader.Sent?
    ensures Overwritten(s, run) <==> LateAnswer(s, Final(s, run))
    decreases |run|
  {
    if run != [] {
      var t := Apply(s, run[0]);
      assert run[0] in run;
      OverwrittenIff(t, run[1..]);
      match run[0] {
        case Db(_) =>
        case I(i) => IoFrame(s, i);
        case R(r) =>
          ReaderPages(s, r);
          if r.Snapshot? { PagesGrow(t, run[1..]); }
      }
    }
  }

  /** What a step does to the end flag: a rewind lowers it, the return of a query sets it if the page was empty and
      lowers it otherwise. */
  function EndEvent(s: State, l: Label): Option<bool> {
    if l == I(Rewind) then Some(false)
    else if l == R(Mark) && s.reader.Fetched? then Some(s.reader.page == [])
    else None
  }

  /** The last such event of a run. */
  function LastEndEvent(s: State, run: seq<Label>): Option<bool>
    requires Valid(s, run)
    decreases |run|
  {
    if run == [] then None
    else
      var later := LastEndEvent(Apply(s, run[0]), run[1..]);
      if later.Some? then later else EndEvent(s, run[0])
  }

  lemma EndStep(s: State, l: Label)
    requires Enabled(s, l)
    ensures Apply(s, l).reachEnd == (if EndEvent(s, l).Some? then EndEvent(s, l).value else s.reachEnd)
  {
    match l {
      case Db(_) =>
      case R(r) => if !r.Mark? { ReaderKeepsFlag(s, r); }
      case I(i) => EndFrame(s, i);
    }
  }

  lemma ReaderKeepsFlag(s: State, r: ReaderStep)
    requires ReaderEnabled(s, r) && !r.Mark?
    ensures ReaderApply(s, r).reachEnd == s.reachEnd
  {
  }

  /** On every run from every state the end flag is what the most recent rewind or returned query left: up exactly
      when that was a query with an empty page. */
  lemma {:induction false} EndFlagIsLatest(s: State, run: seq<Label>)
    requires Valid(s, run)
    ensures Final(s, run).reachEnd == (if LastEndEvent(s, run).Some? then LastEndEvent(s, run).value else s.reachEnd)
    decreases |run|
  {
    if run != [] {
      EndStep(s, run[0]);
      EndFlagIsLatest(Apply(s, run[0]), run[1..]);
    }
  }

  /** After a rewind the end flag stays down until a query has returned. */
  lemma {:induction false} EndStaysDown(s: State, run: seq<Label>)
    requires !s.reachEnd && Valid(s, run) && R(Mark) !in run
    ensures !Final(s, run).reachEnd
    decreases |run|
  {
    if run != [] {
      assert run[0] in run;
      if run[0].I? { EndFrame(s, run[0].i); }
      EndStaysDown(Apply(s, run[0]), run[1..]);
    }
  }

  /** The first query after a rewind starts from the smallest id exactly when no query was under way at the
      rewind whose answer, already there or still to come, has documents; what was fetched before still comes first. */
  lemma RewindTakesEffectIff(cfg: Config, s: State, run: seq<Label>)
    requires Proper(cfg) && Reachable(cfg, s) && Enabled(s, I(Rewind))
    requires Valid(Apply(s, I(Rewind)), run) && NoNewQuery(run)
    requires Enabled(Final(Apply(s, I(Rewind)), run), R(Prepare))
    ensures var u := Apply(Final(Apply(s, I(Rewind)), run), R(Prepare));
            && (u.reader == Sent(Start) <==> !LateAnswer(s, u))
            && Stream(s) <= Stream(u)
            && (R(Mark) !in run ==> !u.reachEnd)
  {
    var s1 := Apply(s, I(Rewind));
    if R(Mark) !in run { EndStaysDown(s1, run); }
    CursorIsLatest(s1, run);
    NoEvent(s1, run);
    OverwrittenIff(s1, run);
    RewindStream(cfg, s, run);
  }

  lemma RewindStream(cfg: Config, s: State, run: seq<Label>)
    requires Proper(cfg) && Reachable(cfg, s) && Enabled(s, I(Rewind)) && Valid(Apply(s, I(Rewind)), run)
    ensures Stream(s) <= Stream(Final(Apply(s, I(Rewind)), run))
  {
    ReachableInvariant(cfg, s);
    StepKeeps(s, I(Rewind));
    StepStream(s, I(Rewind));
    StreamGrows(Apply(s, I(Rewind)), run);
  }

  /** The lost rewind: it falls between an answer with documents and the store, and the cursor is set again. */
  lemma RewindCanBeLost(cfg: Config) returns (s: State)
    requires Proper(cfg)
    ensures Reachable(cfg, s) && Enabled(s, I(Rewind)) && Enabled(Apply(s, I(Rewind)), R(Store))
    ensures Apply(Apply(s, I(Rewind)), R(Store)).cursor == After(cfg.skip)
  {
    var db := seq(cfg.skip + 1, i => i);
    s := FirstAnswer(cfg, db);
    assert s.reader.page == [cfg.skip];
  }

  /** A query that starts from scratch fetches the smallest ids of the collection as it then stands. */
  lemma RestartsAtSmallest(s: State)
    requires Enabled(s, R(Snapshot)) && s.reader.from.Start?
    ensures Apply(s, R(Snapshot)).reader.page ==
            s.db[Min(s.cfg.skip, |s.db|)..Min(s.cfg.skip + s.cfg.limit, |s.db|)]
  {
    PageFromStart(s.db, s.cfg.skip, s.cfg.limit);
  }

  // ---------------------------------------------------------------- shutdown

  function ThreadSteps(run: seq<Label>): nat {
    if run == [] then 0 else (if run[0].Db? then 0 else 1) + ThreadSteps(run[1..])
  }

  lemma {:induction false} StepsBounded(s: State, run: seq<Label>)
    requires Invariant(s) && s.exit && Valid(s, run)
    ensures Final(s, run).exit && ThreadSteps(run) + Rank(Final(s, run)) <= Rank(s)
    decreases |run|
  {
    if run != [] {
      match run[0] {
        case Db(_) =>
        case R(r) => ReaderDecreases(s, r);
        case I(i) => IoDecreases(s, i);
      }
      StepKeeps(s, run[0]);
      StepsBounded(Apply(s, run[0]), run[1..]);
    }
  }

  /** Calls of push that return during the run. */
  function Pushes(s: State, run: seq<Label>): nat
    requires Valid(s, run)
    decreases |run|
  {
    if run == [] then 0
    else
      var t := Apply(s, run[0]);
      (if (run[0] == R(EnterPush) || run[0] == R(ResumePush)) && !t.reader.Pushing? then 1 else 0) + Pushes(t, run[1..])
  }

  lemma LastPush(s: State, l: Label)
    requires s.exit && Enabled(s, l)
    ensures Apply(s, l).exit && (Apply(s, l).reader.Pushing? ==> s.reader.Pushing?)
  {
    if l.I? { IoFrame(s, l.i); }
  }

  /** With the exit flag set the reader completes the push it is in, and starts no other. */
  lemma {:induction false} PushesBounded(s: State, run: seq<Label>)
    requires s.exit && Valid(s, run)
    ensures Pushes(s, run) <= (if s.reader.Pushing? then 1 else 0)
    decreases |run|
  {
    if run != [] {
      LastPush(s, run[0]);
      PushesBounded(Apply(s, run[0]), run[1..]);
    }
  }

  lemma RankBounded(s: State)
    requires s.exit && Safe(s)
    ensures Rank(s) <= 12 + 3 * s.cfg.retries
  {
  }

  /** Once term has set the exit flag: the reader completes the push it is in and no other, the two threads take a
      bounded number of steps, and they cannot stop before the reader has returned and been joined. */
  lemma TermJoins(cfg: Config, s: State, run: seq<Label>)
    requires Proper(cfg) && cfg.timedPop && Reachable(cfg, s) && s.exit && Valid(s, run)
    ensures var t := Final(s, run);
            && Pushes(s, run) <= (if s.reader.Pushing? then 1 else 0)
            && ThreadSteps(run) <= 12 + 3 * cfg.retries
            && ((forall l: Label :: !l.Db? ==> !Enabled(t, l)) ==> t.io.Joined? && t.reader.Done?)
            && (t.io.Joining? ==> !t.chan.pusher.Waiting?)
  {
    var t := Final(s, run);
    ReachableInvariant(cfg, s);
    StepsBounded(s, run);
    PushesBounded(s, run);
    RankBounded(s);
    RunKeeps(s, run);
    if !t.io.Joined? { NotStuck(t); }
  }

  /** term is free of deadlock exactly when the read timeout is positive. */
  lemma DeadlockFreeIff(cfg: Config)
    requires Proper(cfg)
    ensures (forall s :: Reachable(cfg, s) && s.exit && !s.io.Joined? ==> exists l: Label :: !l.Db? && Enabled(s, l))
            <==> cfg.timedPop
  {
    if cfg.timedPop {
      forall s | Reachable(cfg, s) && s.exit && !s.io.Joined?
        ensures exists l: Label :: !l.Db? && Enabled(s, l)
      {
        ReachableInvariant(cfg, s);
        NotStuck(s);
      }
    } else {
      var s := UntimedTermHangs(cfg);
    }
  }

  /** The reader leaves before its first query, and term waits for ever for a document. */
  lemma UntimedTermHangs(cfg: Config) returns (s: State)
    requires Proper(cfg) && !cfg.timedPop
    ensures Reachable(cfg, s) && s.exit && !s.io.Joined?
    ensures forall l: Label :: !l.Db? ==> !Enabled(s, l)
  {
    s := ReaderGone(cfg);
    Extend(cfg, s, I(CheckSize)); s := Apply(s, I(CheckSize));
    Extend(cfg, s, I(CheckEnd));  s := Apply(s, I(CheckEnd));
    Extend(cfg, s, I(EnterPop));  s := Apply(s, I(EnterPop));
    assert s.reader.Done? && s.io.Popping? && s.chan.popper.Waiting?;
    forall l: Label | !l.Db? ensures !Enabled(s, l) { AsleepBoth(s, l); }
  }

  lemma ReaderGone(cfg: Config) returns (s: State)
    ensures Reachable(cfg, s)
    ensures s == Init(cfg, []).(exit := true, reader := Done([]), io := TermSize)
  {
    Begins(cfg, []);
    s := Init(cfg, []);
    Extend(cfg, s, I(SetExit));   s := Apply(s, I(SetExit));
    Extend(cfg, s, R(Test));      s := Apply(s, R(Test));
  }

  lemma AsleepBoth(s: State, l: Label)
    requires s.reader.Done? && s.io.Popping? && s.chan.popper.Waiting? && !s.cfg.timedPop && !l.Db?
    ensures !Enabled(s, l)
  {
  }
}
