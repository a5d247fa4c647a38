/** asio_processor::term against the reader thread: at most one more push, never left asleep, always joined. */
module ReadShutdown {
  import opened Seqs
  import opened Monitor
  import opened ReadMachine
  import opened ReadInvariants

  /** The reader will not go to sleep on a full queue any more. */
  ghost predicate Calm(s: State) {
    s.reader.Pushing? ==> !s.chan.pusher.Waiting? && |s.chan.items| < s.chan.limit
  }

  ghost predicate Closing(s: State) {
    match s.io
    case TermEnd => Calm(s)
    case Joining => Calm(s)
    case Joined => s.reader.Done?
    case Popping(forTerm, b) => forTerm ==> Calm(s) || (s.chan.popper.Outside? && s.chan.items != [])
    case _ => true
  }

  lemma ReaderCloses(s: State, r: ReaderStep)
    requires Safe(s) && Closing(s) && ReaderEnabled(s, r)
    ensures Closing(ReaderApply(s, r))
  {
    match r {
      case EnterPush => FillConserves(s.chan.limit, s.chan.items, s.reader.docs);
      case ResumePush => FillConserves(s.chan.limit, s.chan.items, s.reader.docs);
      case _ =>
    }
  }

  lemma IoCloses(s: State, i: IoStep)
    requires Safe(s) && Closing(s) && IoEnabled(s, i)
    ensures Closing(IoApply(s, i))
  {
  }

  // ---------------------------------------------------------------- the decreasing measure

  function ReaderRank(r: Reader, slot: Slot): nat {
    match r
    case Done(_) => 0
    case Check(_) => 1
    case Sleeping => 2
    case Loop(_) => 2
    case Fetched(_) => 3
    case Got(_, _) => 4
    case Sent(_) => 5
    case Ask => 6
    case Pushing(_) =>
      match slot
      case Outside => 6
      case Waiting => 5
      case Signalled => 4
      case Expired => 4
  }

  function IoRank(io: Io, retries: nat, slot: Slot): nat {
    match io
    case Joined => 0
    case Joining => 1
    case Popping(_, b) =>
      var attempt := match slot case Outside => 3 case Waiting => 2 case Signalled => 1 case Expired => 1;
      1 + 3 * (if b.retry <= retries then retries - b.retry else 0) + attempt
    case TermEnd => 5 + 3 * retries
    case TermSize => 6 + 3 * retries
    case Idle => 7 + 3 * retries
  }

  /** How many steps the two threads can still take once the exit flag is set. */
  function Rank(s: State): nat {
    ReaderRank(s.reader, s.chan.pusher) + IoRank(s.io, s.cfg.retries, s.chan.popper)
  }

  lemma ReaderDecreases(s: State, r: ReaderStep)
    requires Safe(s) && s.exit && ReaderEnabled(s, r)
    ensures Rank(ReaderApply(s, r)) < Rank(s)
  {
  }

  lemma IoDecreases(s: State, i: IoStep)
    requires Safe(s) && s.exit && IoEnabled(s, i)
    ensures Rank(IoApply(s, i)) < Rank(s)
  {
    match i {
      case EnterPop => PopSound(s.chan);
      case ResumePop => PopSound(s.chan);
      case _ =>
    }
  }

  /** A thread that can move, when there is one. */
  function Mover(s: State): Option<Label> {
    match s.io
    case TermSize => Some(I(CheckSize))
    case TermEnd => Some(I(CheckEnd))
    case Popping(_, _) =>
      (match s.chan.popper
       case Outside => Some(I(EnterPop))
       case Signalled => Some(I(ResumePop))
       case Expired => Some(I(ThrowPop))
       case Waiting => if s.cfg.timedPop then Some(I(ExpirePop)) else ReaderMover(s))
    case Joining => if s.reader.Done? then Some(I(Join)) else ReaderMover(s)
    case _ => ReaderMover(s)
  }

  function ReaderMover(s: State): Option<Label> {
    match s.reader
    case Check(_) => Some(R(Test))
    case Ask => Some(R(Prepare))
    case Sent(_) => Some(R(Snapshot))
    case Got(_, _) => Some(R(Store))
    case Fetched(_) => Some(R(Mark))
    case Sleeping => Some(R(Wake))
    case Loop(_) => Some(R(TestInner))
    case Done(_) => None
    case Pushing(_) =>
      match s.chan.pusher
      case Outside => Some(R(EnterPush))
      case Signalled => Some(R(ResumePush))
      case Expired => Some(R(ThrowPush))
      case Waiting => if s.cfg.timedPush then Some(R(ExpirePush)) else None
  }

  /** With a positive read timeout term never deadlocks: until the join, some thread can step. */
  lemma NotStuck(s: State)
    requires Safe(s) && Closing(s) && s.exit && s.cfg.timedPop && !s.io.Joined?
    ensures Mover(s).Some? && Enabled(s, Mover(s).value) && !Mover(s).value.Db?
  {
  }
}
