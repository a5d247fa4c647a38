/** What every step of the read path keeps. */
module ReadInvariants {
  import opened Seqs
  import opened Monitor
  import opened ReadMachine
  import B = BatchPop

  predicate Proper(cfg: Config) {
    cfg.limit > 0 && cfg.capacity > 0
  }

  // ---------------------------------------------------------------- the monitor and the program counters

  ghost predicate Safe(s: State) {
    && Proper(s.cfg)
    && !s.fault
    && Ascending(s.db)
    && Sound(s.chan) && s.chan.limit == s.cfg.capacity
    && (s.reader.Pushing? ==> s.reader.docs != [])
    && (!s.chan.pusher.Outside? ==> s.reader.Pushing?)
    && (!s.chan.popper.Outside? ==> s.io.Popping?)
    && (s.reader.Check? && s.reader.left != [] ==> s.exit)
    && (s.reader.Done? ==> s.exit)
    && s.exit == (match s.io case Idle => false case Popping(forTerm, _) => forTerm case _ => true)
    && (s.io.Popping? ==> BatchOk(s.cfg, s.io))
  }

  ghost predicate BatchOk(cfg: Config, io: Io)
    requires io.Popping?
  {
    && B.Bounded(io.batch) && io.batch.status.Running? && io.batch.retries == cfg.retries
    && io.batch.size == if io.forTerm then 1 else cfg.limit
  }

  lemma ReaderKeepsSafe(s: State, r: ReaderStep)
    requires Safe(s) && ReaderEnabled(s, r)
    ensures Safe(ReaderApply(s, r))
  {
    match r {
      case EnterPush => PushKeepsSoundIff(s.chan, s.reader.docs);
      case ResumePush => PushResumeSound(s.chan, s.reader.docs);
      case _ =>
    }
  }

  lemma SettleKeepsSafe(s: State, b: B.Batch<int>)
    requires s.io.Popping? && s.chan.popper.Outside? && B.Bounded(b)
    requires b.size == s.io.batch.size && b.retries == s.io.batch.retries
    requires Safe(s)
    ensures Safe(Settle(s, b))
  {
  }

  lemma PopKeepsSafe(s: State, p: PopResult<int>)
    requires Safe(s) && s.io.Popping?
    requires (s.chan.popper.Outside? && p == PopEnter(s.chan)) || (s.chan.popper.Signalled? && p == PopBody(s.chan))
    ensures Safe(AfterPop(s, p))
  {
    PopSound(s.chan);
    if p.Popped? {
      B.BoundedStep(s.io.batch, B.Item(p.item));
      SettleKeepsSafe(Taken(s, p), B.OnItem(s.io.batch, p.item));
    }
  }

  lemma IoKeepsSafe(s: State, i: IoStep)
    requires Safe(s) && IoEnabled(s, i)
    ensures Safe(IoApply(s, i))
  {
    match i {
      case EnterPop => PopKeepsSafe(s, PopEnter(s.chan));
      case ResumePop => PopKeepsSafe(s, PopBody(s.chan));
      case ThrowPop =>
        B.BoundedStep(s.io.batch, B.Timeout);
        SettleKeepsSafe(s.(chan := s.chan.(popper := Outside)), B.OnTimeout(s.io.batch));
      case _ =>
    }
  }

  // ---------------------------------------------------------------- conservation

  /** What the reader holds: fetched, not yet in the queue. */
  function InHand(r: Reader): seq<int> {
    match r
    case Got(_, page) => page
    case Fetched(page) => page
    case Loop(docs) => docs
    case Pushing(docs) => docs
    case Check(left) => left
    case Done(left) => left
    case _ => []
  }

  function DocsOf(r: B.ReadReply<int>): seq<int> {
    if r.Documents? then r.docs else []
  }

  function Delivered(replies: seq<B.ReadReply<int>>): seq<int> {
    if replies == [] then [] else Delivered(replies[..|replies| - 1]) + DocsOf(replies[|replies| - 1])
  }

  /** Documents a batch_pop under way has taken but not handed over. */
  function InFlight(io: Io): seq<int> {
    if io.Popping? then io.batch.docs else []
  }

  /** Everything fetched, in the order it leaves the broker. */
  function Stream(s: State): seq<int> {
    s.log.popped + (s.chan.items + Rev(InHand(s.reader)))
  }

  ghost predicate Conserved(s: State) {
    && Stream(s) == Unrolled(s.log.pages)
    && s.log.popped == Accounted(s)
    && (s.log.discarded != [] ==> s.io.Joining? || s.io.Joined?)
  }

  lemma PushConserves(s: State, p: PushResult<int>)
    requires s.reader.Pushing? && (p == PushEnter(s.chan, s.reader.docs) || p == PushBody(s.chan, s.reader.docs))
    ensures Stream(AfterPush(s, p)) == Stream(s)
  {
    if p.Pushed? {
      FillConserves(s.chan.limit, s.chan.items, s.reader.docs);
    }
  }

  lemma NewPage(popped: seq<int>, items: seq<int>, pages: seq<seq<int>>, page: seq<int>)
    requires popped + (items + []) == Unrolled(pages)
    ensures popped + (items + Rev(page)) == Unrolled(pages + [page])
  {
    UnrolledAppend(pages, page);
    assert popped + (items + Rev(page)) == popped + (items + []) + Rev(page);
  }

  lemma SnapshotStream(s: State)
    requires ReaderEnabled(s, Snapshot) && Stream(s) == Unrolled(s.log.pages)
    ensures Stream(ReaderApply(s, Snapshot)) == Unrolled(ReaderApply(s, Snapshot).log.pages)
    ensures Stream(s) <= Stream(ReaderApply(s, Snapshot))
  {
    var t := ReaderApply(s, Snapshot);
    assert Rev(InHand(s.reader)) == [];
    NewPage(s.log.popped, s.chan.items, s.log.pages, t.reader.page);
    assert t.log.pages == s.log.pages + [t.reader.page];
    UnrolledAppend(s.log.pages, t.reader.page);
  }

  /** Apart from fetching, the reader only moves documents along. */
  lemma ReaderStream(s: State, r: ReaderStep)
    requires Safe(s) && ReaderEnabled(s, r) && !r.Snapshot?
    ensures Stream(ReaderApply(s, r)) == Stream(s) && ReaderApply(s, r).log.pages == s.log.pages
  {
    if r.EnterPush? {
      PushConserves(s, PushEnter(s.chan, s.reader.docs));
    } else if r.ResumePush? {
      PushConserves(s, PushBody(s.chan, s.reader.docs));
    } else {
      assert InHand(ReaderApply(s, r).reader) == InHand(s.reader);
    }
  }

  lemma ReaderConserves(s: State, r: ReaderStep)
    requires Safe(s) && Conserved(s) && ReaderEnabled(s, r)
    ensures Conserved(ReaderApply(s, r))
  {
    if r.Snapshot? { SnapshotStream(s); } else { ReaderStream(s, r); }
    assert ReaderApply(s, r).io == s.io;
  }

  lemma DeliveredAppend(replies: seq<B.ReadReply<int>>, r: B.ReadReply<int>)
    ensures Delivered(replies + [r]) == Delivered(replies) + DocsOf(r)
  {
    assert (replies + [r])[..|replies|] == replies;
  }

  /** Documents handed over, thrown away by term, or still held by batch_pop. */
  function Accounted(s: State): seq<int> {
    Delivered(s.log.replies) + s.log.discarded + InFlight(s.io)
  }

  lemma SettleAccounts(s: State, b: B.Batch<int>)
    requires s.io.Popping? && B.Bounded(b) && s.log.discarded == []
    ensures Accounted(Settle(s, b)) == Delivered(s.log.replies) + b.docs
  {
    if !b.status.Running? && !s.io.forTerm {
      B.NoMoreItemIff(b);
      DeliveredAppend(s.log.replies, B.Reply(b));
    }
  }

  lemma SettleFrame(s: State, b: B.Batch<int>)
    requires s.io.Popping?
    ensures var t := Settle(s, b);
            && t.chan == s.chan && t.reader == s.reader && t.log.pages == s.log.pages && t.log.popped == s.log.popped
            && (t.io.Joining? || t.log.discarded == s.log.discarded)
  {
  }

  lemma SettleConserves(s: State, b: B.Batch<int>)
    requires s.io.Popping? && B.Bounded(b) && s.log.discarded == []
    requires Stream(s) == Unrolled(s.log.pages) && s.log.popped == Delivered(s.log.replies) + b.docs
    ensures Conserved(Settle(s, b))
  {
    SettleAccounts(s, b);
    SettleFrame(s, b);
    assert Stream(Settle(s, b)) == Stream(s);
  }

  lemma TakeFront(popped: seq<int>, items: seq<int>, hand: seq<int>)
    requires items != []
    ensures popped + [items[0]] + (items[1..] + hand) == popped + (items + hand)
  {
    assert items + hand == [items[0]] + (items[1..] + hand);
  }

  /** The state between taking a document and letting batch_pop see it. */
  function Taken(s: State, p: PopResult<int>): State
    requires p.Popped?
  {
    s.(chan := p.chan, log := s.log.(popped := s.log.popped + [p.item]))
  }

  lemma TakenStream(s: State, p: PopResult<int>)
    requires p.Popped? && (p == PopBody(s.chan) || p == PopEnter(s.chan))
    ensures Stream(Taken(s, p)) == Stream(s)
  {
    TakeFront(s.log.popped, s.chan.items, Rev(InHand(s.reader)));
  }

  lemma PopConserves(s: State, p: PopResult<int>)
    requires Safe(s) && Conserved(s) && s.io.Popping?
    requires p == PopBody(s.chan) || p == PopEnter(s.chan)
    ensures Conserved(AfterPop(s, p))
  {
    if p.Popped? {
      B.BoundedStep(s.io.batch, B.Item(p.item));
      TakenStream(s, p);
      assert Taken(s, p).log.popped == Delivered(s.log.replies) + (s.io.batch.docs + [p.item]);
      SettleConserves(Taken(s, p), B.OnItem(s.io.batch, p.item));
    }
  }

  lemma IoConserves(s: State, i: IoStep)
    requires Safe(s) && Conserved(s) && IoEnabled(s, i)
    ensures Conserved(IoApply(s, i))
  {
    match i {
      case EnterPop => PopConserves(s, PopEnter(s.chan));
      case ResumePop => PopConserves(s, PopBody(s.chan));
      case ThrowPop =>
        B.BoundedStep(s.io.batch, B.Timeout);
        SettleConserves(s.(chan := s.chan.(popper := Outside)), B.OnTimeout(s.io.batch));
      case _ => OtherIoFrame(s, i);
    }
  }

  /** Requests and the tests of term leave the documents where they are. */
  lemma OtherIoFrame(s: State, i: IoStep)
    requires IoEnabled(s, i) && !i.EnterPop? && !i.ResumePop? && !i.ThrowPop?
    ensures var t := IoApply(s, i);
            && Stream(t) == Stream(s) && Accounted(t) == Accounted(s) && t.log == s.log
            && (s.io.Joining? || s.io.Joined? ==> t.io.Joined?)
  {
    var t := IoApply(s, i);
    assert t.reader == s.reader && t.chan.items == s.chan.items && t.log == s.log && InFlight(t.io) == InFlight(s.io);
  }

  /** Popping moves a document from the queue to the popped; nothing else the io thread does touches the stream. */
  lemma IoStream(s: State, i: IoStep)
    requires IoEnabled(s, i)
    ensures Stream(IoApply(s, i)) == Stream(s)
  {
    if i.EnterPop? {
      PopStream(s, PopEnter(s.chan));
    } else if i.ResumePop? {
      PopStream(s, PopBody(s.chan));
    } else if i.ThrowPop? {
      SettleFrame(s.(chan := s.chan.(popper := Outside)), B.OnTimeout(s.io.batch));
    }
  }

  lemma PopStream(s: State, p: PopResult<int>)
    requires s.io.Popping? && (p == PopBody(s.chan) || p == PopEnter(s.chan))
    ensures Stream(AfterPop(s, p)) == Stream(s)
  {
    if p.Popped? {
      TakenStream(s, p);
      SettleFrame(Taken(s, p), B.OnItem(s.io.batch, p.item));
    }
  }
}
