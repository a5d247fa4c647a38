/**
 The read path of one processor as a transition system: the reader thread
 (broker::read), the single io thread (do_read, do_rewind, term), the bounded
 queue between them, and a collection that anybody may change at any time.

 Each label is one atomic step: a critical section of the queue monitor, an
 access to a shared flag or to the cursor, or one answer of the database.
 */
module ReadMachine {
  import opened Seqs
  import opened Monitor
  import opened Pager
  import B = BatchPop

  /** timedPop is read_timeout > 0; timedPush is read(seconds) with seconds > 0 (the server passes 0). */
  datatype Config = Config(skip: nat, limit: nat, capacity: nat, retries: nat, timedPop: bool, timedPush: bool)

  /** Where broker::read stands. */
  datatype Reader =
    | Check(left: seq<int>)                  // at while(!m_do_exit), with what the inner loop left over
    | Ask                                    // calling query()
    | Sent(from: Cursor)                     // prepare_condition has read the cursor
    | Got(from: Cursor, page: seq<int>)      // the database has answered, the cursor is not stored yet
    | Fetched(page: seq<int>)                // query() has returned
    | Sleeping                               // sleep(3) after an empty page
    | Loop(docs: seq<int>)                   // at while(docs.size() > 0 && !m_do_exit)
    | Pushing(docs: seq<int>)                // inside m_queue.push(docs); the slot of the channel says where
    | Done(left: seq<int>)                   // returned, dropping what it still held

  /** Where the io thread stands. */
  datatype Io =
    | Idle                                   // between requests
    | Popping(forTerm: bool, batch: B.Batch<int>)
    | TermSize                               // exit set, about to test size()
    | TermEnd                                // size() was 0, about to test reach_end()
    | Joining                                // in pthread_join
    | Joined

  /** What happened so far; no step reads it. */
  datatype Log = Log(
    pages: seq<seq<int>>,                    // every answer of the database, in order
    popped: seq<int>,                        // every document taken from the queue, in order
    replies: seq<B.ReadReply<int>>,          // what READ requests were answered
    discarded: seq<int>,                     // documents popped by term
    epochStart: nat,                         // index in pages of the last query that started from scratch
    stable: set<int>)                        // ids present in the collection ever since that query

  datatype State = State(
    cfg: Config, db: seq<int>, chan: Channel<int>, cursor: Cursor, reachEnd: bool, exit: bool,
    reader: Reader, io: Io, fault: bool, log: Log)

  function Init(cfg: Config, db: seq<int>): State {
    State(cfg, db, Channel(cfg.capacity, [], Outside, Outside), Start, false, false,
          Check([]), Idle, false, Log([], [], [], [], 0, {}))
  }

  datatype ReaderStep =
    | Test | Prepare | Snapshot | Store | Mark | Wake | TestInner
    | EnterPush | ResumePush | ExpirePush | ThrowPush

  datatype IoStep =
    | Read | EnterPop | ResumePop | ExpirePop | ThrowPop | Rewind
    | SetExit | CheckSize | CheckEnd | Join

  datatype Label = Db(db: seq<int>) | R(r: ReaderStep) | I(i: IoStep)

  // ---------------------------------------------------------------- reader thread

  predicate ReaderEnabled(s: State, r: ReaderStep) {
    match r
    case Test => s.reader.Check?
    case Prepare => s.reader.Ask?
    case Snapshot => s.reader.Sent?
    case Store => s.reader.Got?
    case Mark => s.reader.Fetched?
    case Wake => s.reader.Sleeping?
    case TestInner => s.reader.Loop?
    case EnterPush => s.reader.Pushing? && s.chan.pusher.Outside?
    case ResumePush => s.reader.Pushing? && s.chan.pusher.Signalled?
    case ExpirePush => s.cfg.timedPush && s.reader.Pushing? && s.chan.pusher.Waiting?
    case ThrowPush => s.reader.Pushing? && s.chan.pusher.Expired?
  }

  function AfterPush(s: State, p: PushResult<int>): State {
    match p
    case PushBlocked(c) => s.(chan := c)
    case Pushed(c, rest) => s.(chan := c, reader := Loop(rest))
  }

  function ReaderApply(s: State, r: ReaderStep): State
    requires ReaderEnabled(s, r)
  {
    match r
    case Test => s.(reader := if s.exit then Done(s.reader.left) else Ask)
    case Prepare =>
      s.(reader := Sent(s.cursor),
         log := if s.cursor.Start? then s.log.(epochStart := |s.log.pages|, stable := Elems(s.db)) else s.log)
    case Snapshot =>
      var page := Page(s.db, s.reader.from, s.cfg.skip, s.cfg.limit);
      s.(reader := Got(s.reader.from, page), log := s.log.(pages := s.log.pages + [page]))
    case Store => s.(cursor := Advance(s.cursor, s.reader.page), reader := Fetched(s.reader.page))
    case Mark =>
      if s.reader.page == [] then s.(reachEnd := true, reader := Sleeping)
      else s.(reachEnd := false, reader := Loop(s.reader.page))
    case Wake => s.(reader := Check([]))
    case TestInner =>
      s.(reader := if s.reader.docs == [] then Check([])
                   else if s.exit then Check(s.reader.docs) else Pushing(s.reader.docs))
    case EnterPush => AfterPush(s, PushEnter(s.chan, s.reader.docs))
    case ResumePush => AfterPush(s, PushBody(s.chan, s.reader.docs))
    case ExpirePush => s.(chan := s.chan.(pusher := Expired))
    case ThrowPush =>
      s.(chan := s.chan.(pusher := Outside),
         reader := if s.exit then Check(s.reader.docs) else Loop(s.reader.docs))
  }

  // ---------------------------------------------------------------- io thread

  predicate IoEnabled(s: State, i: IoStep) {
    match i
    case Read => s.io.Idle? && s.cfg.limit > 0
    case EnterPop => s.io.Popping? && s.chan.popper.Outside?
    case ResumePop => s.io.Popping? && s.chan.popper.Signalled?
    case ExpirePop => s.cfg.timedPop && s.io.Popping? && s.chan.popper.Waiting?
    case ThrowPop => s.io.Popping? && s.chan.popper.Expired?
    case Rewind => s.io.Idle?
    case SetExit => s.io.Idle?
    case CheckSize => s.io.TermSize?
    case CheckEnd => s.io.TermEnd?
    case Join => s.io.Joining? && s.reader.Done?
  }

  /** batch_pop goes on, or returns to do_read or to term. */
  function Settle(s: State, b: B.Batch<int>): State
    requires s.io.Popping?
  {
    if b.status.Running? then s.(io := Popping(s.io.forTerm, b))
    else if s.io.forTerm then s.(io := Joining, log := s.log.(discarded := s.log.discarded + b.docs))
    else s.(io := Idle, log := s.log.(replies := s.log.replies + [B.Reply(b)]))
  }

  function AfterPop(s: State, p: PopResult<int>): State
    requires s.io.Popping?
  {
    match p
    case PopBlocked(c) => s.(chan := c)
    case FrontOfEmpty => s.(fault := true)
    case Popped(c, x) =>
      Settle(s.(chan := c, log := s.log.(popped := s.log.popped + [x])), B.OnItem(s.io.batch, x))
  }

  function IoApply(s: State, i: IoStep): State
    requires IoEnabled(s, i)
  {
    match i
    case Read => s.(io := Popping(false, B.Begin(s.cfg.limit, s.cfg.retries)))
    case EnterPop => AfterPop(s, PopEnter(s.chan))
    case ResumePop => AfterPop(s, PopBody(s.chan))
    case ExpirePop => s.(chan := s.chan.(popper := Expired))
    case ThrowPop => Settle(s.(chan := s.chan.(popper := Outside)), B.OnTimeout(s.io.batch))
    case Rewind => s.(cursor := Start, reachEnd := false)
    case SetExit => s.(exit := true, io := TermSize)
    case CheckSize => s.(io := if |s.chan.items| > 0 then Popping(true, B.Begin(1, s.cfg.retries)) else TermEnd)
    case CheckEnd => s.(io := if !s.reachEnd then Popping(true, B.Begin(1, s.cfg.retries)) else Joining)
    case Join => s.(io := Joined)
  }

  // ---------------------------------------------------------------- runs

  /** After undefined behaviour nothing more is claimed, so nothing is enabled. */
  predicate Enabled(s: State, l: Label) {
    !s.fault &&
    match l
    case Db(db) => Ascending(db)
    case R(r) => ReaderEnabled(s, r)
    case I(i) => IoEnabled(s, i)
  }

  function Apply(s: State, l: Label): State
    requires Enabled(s, l)
  {
    match l
    case Db(db) => s.(db := db, log := s.log.(stable := s.log.stable * Elems(db)))
    case R(r) => ReaderApply(s, r)
    case I(i) => IoApply(s, i)
  }

  predicate Valid(s: State, run: seq<Label>)
    decreases |run|
  {
    run == [] || (Enabled(s, run[0]) && Valid(Apply(s, run[0]), run[1..]))
  }

  function Final(s: State, run: seq<Label>): State
    requires Valid(s, run)
    decreases |run|
  {
    if run == [] then s else Final(Apply(s, run[0]), run[1..])
  }

  lemma {:induction false} RunConcat(s: State, a: seq<Label>, b: seq<Label>)
    requires Valid(s, a) && Valid(Final(s, a), b)
    ensures Valid(s, a + b) && Final(s, a + b) == Final(Final(s, a), b)
    decreases |a|
  {
    if a == [] {
      assert a + b == b;
    } else {
      assert (a + b)[0] == a[0] && (a + b)[1..] == a[1..] + b;
      RunConcat(Apply(s, a[0]), a[1..], b);
    }
  }

  ghost predicate Reachable(cfg: Config, s: State) {
    exists db, run :: Ascending(db) && Valid(Init(cfg, db), run) && Final(Init(cfg, db), run) == s
  }
}
