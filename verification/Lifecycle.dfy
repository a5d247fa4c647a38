/**
 Connections, the processor table and the reference count. The hash of the open
 options is taken as injective, so a processor is named by its options; the
 purpose is part of them.
 */
module Lifecycle {
  import opened Seqs
  import BrokerState

  datatype Purpose = ToRead | ToWrite | Invalid

  datatype Options = Options(settings: BrokerState.Options, purpose: Purpose)

  /** broker::init has no complaint about them. */
  predicate Accepted(o: Options) {
    BrokerState.Complaint(o.settings).None?
  }

  datatype Command = Open(options: Options) | Close | Read | Write | Rewind | Unknown

  /** reading and writing say whether the read and the write broker are connected, i.e. have a worker thread. */
  datatype Processor = Processor(refcount: nat, reading: bool, writing: bool)

  datatype Connection = Connection(live: bool, processor: Option<Options>, isOpen: bool)

  /** crashed: an assertion failed or an exception left the io loop. */
  datatype State = State(processors: map<Options, Processor>, conns: map<nat, Connection>, crashed: bool)

  const Start: State := State(map[], map[], false)

  /** dbUp: whether MongoDB accepts a connection should this request need one. */
  datatype Label = Accept(c: nat) | Request(c: nat, cmd: Command, dbUp: bool) | Disconnect(c: nat)

  function Find(processors: map<Options, Processor>, key: Options): map<Options, Processor> {
    if key in processors then processors else processors[key := Processor(0, false, false)]
  }

  function Connected(p: Processor, purpose: Purpose): bool {
    match purpose case ToRead => p.reading case ToWrite => p.writing case Invalid => false
  }

  /** asio_processor::open; None when it throws. Only a broker that is not connected yet looks at the options. */
  function OpenProcessor(p: Processor, o: Options, dbUp: bool): Option<Processor> {
    if o.purpose.Invalid? || (!Connected(p, o.purpose) && !(Accepted(o) && dbUp)) then None
    else Some(Processor(p.refcount + 1, p.reading || o.purpose.ToRead?, p.writing || o.purpose.ToWrite?))
  }

  /** asio_processor::close, with term on the last reference. */
  function CloseProcessor(p: Processor): Processor {
    if p.refcount > 1 then p.(refcount := p.refcount - 1) else Processor(0, false, false)
  }

  function Crash(s: State): State {
    s.(crashed := true)
  }

  function OpenOn(s: State, c: nat, key: Options, o: Options, dbUp: bool): State
    requires c in s.conns && key in s.processors
  {
    match OpenProcessor(s.processors[key], o, dbUp)
    case None => Crash(s)
    case Some(p) => s.(processors := s.processors[key := p], conns := s.conns[c := s.conns[c].(isOpen := true)])
  }

  /** asio_processor::process for a connection that has its processor. */
  function Serve(s: State, c: nat, key: Options, cmd: Command, dbUp: bool): State
    requires c in s.conns && key in s.processors
  {
    var p := s.processors[key];
    match cmd
    case Open(o) => if s.conns[c].isOpen then s else OpenOn(s, c, key, o, dbUp)
    case Close => s.(processors := s.processors[key := CloseProcessor(p)])
    case Read => if p.reading then s else Crash(s)
    case Write => if p.writing then s else Crash(s)
    case Rewind => s
    case Unknown => Crash(s)
  }

  /** connection::process. The packet id of a request is never unpacked, so a connection that does not
      begin with OPEN looks up the empty id, which no processor accepts. */
  function Process(s: State, c: nat, cmd: Command, dbUp: bool): State
    requires c in s.conns
    requires s.conns[c].processor.Some? ==> s.conns[c].processor.value in s.processors
  {
    match s.conns[c].processor
    case Some(key) => Serve(s, c, key, cmd, dbUp)
    case None =>
      if cmd.Open? then
        Serve(s.(processors := Find(s.processors, cmd.options),
                 conns := s.conns[c := s.conns[c].(processor := Some(cmd.options))]),
              c, cmd.options, cmd, dbUp)
      else Crash(s)
  }

  /** connection::handle_read_header with an error. */
  function Drop(s: State, c: nat): State
    requires c in s.conns
    requires s.conns[c].processor.Some? ==> s.conns[c].processor.value in s.processors
  {
    var gone := s.conns[c].(live := false, processor := None);
    match s.conns[c].processor
    case None => s.(conns := s.conns[c := gone])
    case Some(key) =>
      State(s.processors[key := CloseProcessor(s.processors[key])], s.conns[c := gone], s.crashed)
  }

  predicate Enabled(s: State, l: Label) {
    !s.crashed &&
    match l
    case Accept(c) => c !in s.conns
    case Request(c, _, _) =>
      c in s.conns && s.conns[c].live && (s.conns[c].processor.Some? ==> s.conns[c].processor.value in s.processors)
    case Disconnect(c) =>
      c in s.conns && s.conns[c].live && (s.conns[c].processor.Some? ==> s.conns[c].processor.value in s.processors)
  }

  function Apply(s: State, l: Label): State
    requires Enabled(s, l)
  {
    match l
    case Accept(c) => s.(conns := s.conns[c := Connection(true, None, false)])
    case Request(c, cmd, dbUp) => Process(s, c, cmd, dbUp)
    case Disconnect(c) => Drop(s, c)
  }

  predicate Valid(s: State, run: seq<Label>)
    decreases |run|
  {
    run == [] || (Enabled(s, run[0]) && Valid(Apply(s, run[0]), run[1..]))
  }

  function Final(s: State, run: seq<Label>): State
    requires Valid(s, run)
    decreases |run|
  {
    if run == [] then s else Final(Apply(s, run[0]), run[1..])
  }

  // ---------------------------------------------------------------- imperative form

  /** The handler's processor table and the connections' mutable fields. */
  class Server {
    var processors: map<Options, Processor>
    var processorCount: nat
    var conns: map<nat, Connection>
    var crashed: bool

    ghost function View(): State
      reads this
    {
      State(processors, conns, crashed)
    }

    /** m_processor_count counts the table. */
    ghost predicate Counted()
      reads this
    {
      processorCount == |processors|
    }

    constructor ()
      ensures View() == Start && Counted()
    {
      processors, processorCount, conns, crashed := map[], 0, map[], false;
    }

    method FindProcessor(key: Options)
      requires Counted()
      modifies this`processors, this`processorCount
      ensures Counted() && processors == Find(old(processors), key) && key in processors
    {
      if key !in processors {
        processorCount := processorCount + 1;
        processors := processors[key := Processor(0, false, false)];
      }
    }

    method OpenFor(c: nat, key: Options, o: Options, dbUp: bool)
      requires Counted() && c in conns && key in processors
      modifies this
      ensures Counted() && View() == OpenOn(old(View()), c, key, o, dbUp)
    {
      var p := processors[key];
      if o.purpose.Invalid? {
        crashed := true;
        return;
      }
      if !Connected(p, o.purpose) && (!Accepted(o) || !dbUp) {
        crashed := true;
        return;
      }
      if o.purpose.ToRead? { p := p.(reading := true); } else { p := p.(writing := true); }
      p := p.(refcount := p.refcount + 1);
      processors := processors[key := p];
      conns := conns[c := conns[c].(isOpen := true)];
    }

    method CloseFor(key: Options)
      requires Counted() && key in processors
      modifies this`processors
      ensures Counted() && processors == old(processors)[key := CloseProcessor(old(processors)[key])]
    {
      var p := processors[key];
      if p.refcount > 1 {
        p := p.(refcount := p.refcount - 1);
      } else {
        p := Processor(0, false, false);
      }
      processors := processors[key := p];
    }

    method HandleRequest(c: nat, cmd: Command, dbUp: bool)
      requires Counted() && Enabled(View(), Request(c, cmd, dbUp))
      modifies this
      ensures Counted() && View() == Apply(old(View()), Request(c, cmd, dbUp))
    {
      if conns[c].processor.None? {
        if !cmd.Open? {
          crashed := true;
          return;
        }
        FindProcessor(cmd.options);
        conns := conns[c := conns[c].(processor := Some(cmd.options))];
      }
      var key := conns[c].processor.value;
      match cmd {
        case Open(o) => if !conns[c].isOpen { OpenFor(c, key, o, dbUp); }
        case Close => CloseFor(key);
        case Read => crashed := crashed || !processors[key].reading;
        case Write => crashed := crashed || !processors[key].writing;
        case Rewind =>
        case Unknown => crashed := true;
      }
    }

    method HandleDisconnect(c: nat)
      requires Counted() && Enabled(View(), Disconnect(c))
      modifies this
      ensures Counted() && View() == Apply(old(View()), Disconnect(c))
    {
      if conns[c].processor.Some? {
        CloseFor(conns[c].processor.value);
      }
      conns := conns[c := conns[c].(live := false, processor := None)];
    }
  }
}
