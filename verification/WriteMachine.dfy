/**
 The write path of one processor: the io thread (do_write, term) produces, the
 updater thread (broker::update) consumes. Its pops are always timed (3 s); the
 pushes of do_write never are.
 */
module WriteMachine {
  import opened Monitor

  /** One update document, opaque to the broker. */
  datatype Update = Update(json: string)

  datatype Io =
    | Idle
    | Looping(rest: seq<Update>)             // at while(tmp.size() > 0)
    | Pushing(rest: seq<Update>)             // inside push(tmp)
    | Joining                                // exit set; wait_update_done and pthread_join
    | Joined

  datatype Updater =
    | Popping                                // in m_queue.pop(3)
    | Applying(update: Update)               // in m_connection.update
    | Done

  /** What happened so far; no step reads it. */
  datatype Log = Log(
    written: seq<seq<Update>>,               // the documents of each WRITE request
    applied: seq<Update>,                    // updates sent to the database, in order
    sinceExpiry: seq<Update>)                // queued between the last expiry of the updater's wait and its return

  datatype State = State(chan: Channel<Update>, exit: bool, count: nat, io: Io, updater: Updater, fault: bool, log: Log)

  function Init(capacity: nat): State {
    State(Channel(capacity, [], Outside, Outside), false, 0, Idle, Popping, false, Log([], [], []))
  }

  datatype Label =
    | Write(docs: seq<Update>) | TestLoop | EnterPush | ResumePush | SetExit | Join
    | EnterPop | ResumePop | ExpirePop | ThrowPop | ApplyUpdate

  predicate Enabled(s: State, l: Label) {
    !s.fault &&
    match l
    case Write(_) => s.io.Idle?
    case TestLoop => s.io.Looping?
    case EnterPush => s.io.Pushing? && s.chan.pusher.Outside?
    case ResumePush => s.io.Pushing? && s.chan.pusher.Signalled?
    case SetExit => s.io.Idle?
    case Join => s.io.Joining? && s.updater.Done?
    case EnterPop => s.updater.Popping? && s.chan.popper.Outside?
    case ResumePop => s.updater.Popping? && s.chan.popper.Signalled?
    case ExpirePop => s.updater.Popping? && s.chan.popper.Waiting?
    case ThrowPop => s.updater.Popping? && s.chan.popper.Expired?
    case ApplyUpdate => s.updater.Applying?
  }

  function AfterPush(s: State, p: PushResult<Update>): State
    requires s.io.Pushing?
  {
    match p
    case PushBlocked(c) => s.(chan := c)
    case Pushed(c, rest) =>
      s.(chan := c, io := Looping(rest),
         log := if s.chan.popper.Expired? && |s.chan.items| <= |c.items|
                then s.log.(sinceExpiry := s.log.sinceExpiry + c.items[|s.chan.items|..]) else s.log)
  }

  function AfterPop(s: State, p: PopResult<Update>): State {
    match p
    case PopBlocked(c) => s.(chan := c)
    case FrontOfEmpty => s.(fault := true)
    case Popped(c, x) => s.(chan := c, updater := Applying(x))
  }

  function Apply(s: State, l: Label): State
    requires Enabled(s, l)
  {
    match l
    case Write(docs) => s.(io := Looping(docs), log := s.log.(written := s.log.written + [docs]))
    case TestLoop => s.(io := if s.io.rest == [] then Idle else Pushing(s.io.rest))
    case EnterPush => AfterPush(s, PushEnter(s.chan, s.io.rest))
    case ResumePush => AfterPush(s, PushBody(s.chan, s.io.rest))
    case SetExit => s.(exit := true, io := Joining)
    case Join => s.(io := Joined)
    case EnterPop => AfterPop(s, PopEnter(s.chan))
    case ResumePop => AfterPop(s, PopBody(s.chan))
    case ExpirePop => s.(chan := s.chan.(popper := Expired), log := s.log.(sinceExpiry := []))
    case ThrowPop => s.(chan := s.chan.(popper := Outside), updater := if s.exit then Done else Popping)
    case ApplyUpdate =>
      s.(updater := Popping, count := s.count + 1, log := s.log.(applied := s.log.applied + [s.updater.update]))
  }

  predicate Valid(s: State, run: seq<Label>)
    decreases |run|
  {
    run == [] || (Enabled(s, run[0]) && Valid(Apply(s, run[0]), run[1..]))
  }

  function Final(s: State, run: seq<Label>): State
    requires Valid(s, run)
    decreases |run|
  {
    if run == [] then s else Final(Apply(s, run[0]), run[1..])
  }
}
