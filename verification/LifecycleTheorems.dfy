/** The reference count against the connections that hold a processor open. */
module LifecycleTheorems {
  import opened Seqs
  import opened Lifecycle

  /** Live connections whose OPEN was served by this processor. */
  function Holders(s: State, key: Options): set<nat> {
    set c | c in s.conns && s.conns[c].live && s.conns[c].isOpen && s.conns[c].processor == Some(key)
  }

  function Refs(s: State, key: Options): nat {
    if key in s.processors then s.processors[key].refcount else 0
  }

  ghost predicate ConnOk(s: State, c: nat)
    requires c in s.conns
  {
    var n := s.conns[c];
    match n.processor
    case Some(key) => n.live && n.isOpen && key in s.processors
    case None => n.live ==> !n.isOpen
  }

  /** A processor serves one purpose, and its broker is connected exactly while it is referenced. */
  ghost predicate ProcessorOk(s: State, key: Options)
    requires key in s.processors
  {
    var p := s.processors[key];
    && p.reading == (p.refcount > 0 && key.purpose.ToRead?)
    && p.writing == (p.refcount > 0 && key.purpose.ToWrite?)
    && (key.purpose.Invalid? ==> p.refcount == 0)
  }

  ghost predicate Invariant(s: State) {
    && (forall c :: c in s.conns ==> ConnOk(s, c))
    && (forall key :: key in s.processors ==> ProcessorOk(s, key))
    && (forall key :: Refs(s, key) <= |Holders(s, key)|)
  }

  ghost predicate Balanced(s: State) {
    forall key :: Refs(s, key) == |Holders(s, key)|
  }

  /** The options an OPEN needs: host, port, database and collection. */
  lemma AcceptedIff(o: Options)
    ensures Accepted(o) <==> o.settings.host != "" && o.settings.port != -0x8000_0000
                             && o.settings.database != "" && o.settings.collection != ""
  {
  }

  // ---------------------------------------------------------------- how each step changes the holders

  lemma HoldersGain(s: State, t: State, c: nat, key: Options)
    requires c in t.conns && t.conns == s.conns[c := Connection(true, Some(key), true)]
    requires c in s.conns && s.conns[c].processor.None?
    ensures |Holders(t, key)| == |Holders(s, key)| + 1
    ensures forall k :: k != key ==> Holders(t, k) == Holders(s, k)
  {
    assert Holders(t, key) == Holders(s, key) + {c};
    forall k | k != key ensures Holders(t, k) == Holders(s, k) { }
  }

  lemma HoldersLose(s: State, t: State, c: nat, key: Options)
    requires c in s.conns && s.conns[c].live && s.conns[c].isOpen && s.conns[c].processor == Some(key)
    requires t.conns == s.conns[c := s.conns[c].(live := false, processor := None)]
    ensures |Holders(t, key)| == |Holders(s, key)| - 1
    ensures forall k :: k != key ==> Holders(t, k) == Holders(s, k)
  {
    assert Holders(t, key) == Holders(s, key) - {c};
    assert c in Holders(s, key);
    forall k | k != key ensures Holders(t, k) == Holders(s, k) { }
  }

  lemma HoldersSame(s: State, t: State)
    requires forall c :: c in t.conns && t.conns[c].live && t.conns[c].isOpen
                         ==> c in s.conns && t.conns[c] == s.conns[c]
    requires forall c :: c in s.conns && s.conns[c].live && s.conns[c].isOpen
                         ==> c in t.conns && t.conns[c] == s.conns[c]
    ensures forall k :: Holders(t, k) == Holders(s, k)
  {
    forall k ensures Holders(t, k) == Holders(s, k) { }
  }

  // ---------------------------------------------------------------- steps

  lemma AcceptStep(s: State, c: nat)
    requires Invariant(s) && Enabled(s, Accept(c))
    ensures Invariant(Apply(s, Accept(c))) && (Balanced(s) ==> Balanced(Apply(s, Accept(c))))
  {
    var t := Apply(s, Accept(c));
    HoldersSame(s, t);
    forall n | n in t.conns ensures ConnOk(t, n) { if n != c { assert ConnOk(s, n); } }
    forall key | key in t.processors ensures ProcessorOk(t, key) { assert ProcessorOk(s, key); }
  }

  lemma DisconnectStep(s: State, c: nat)
    requires Invariant(s) && Enabled(s, Disconnect(c))
    ensures Invariant(Apply(s, Disconnect(c))) && (Balanced(s) ==> Balanced(Apply(s, Disconnect(c))))
  {
    var t := Apply(s, Disconnect(c));
    assert ConnOk(s, c);
    match s.conns[c].processor {
      case None => HoldersSame(s, t);
      case Some(key) =>
        HoldersLose(s, t, c, key);
        assert Refs(s, key) <= |Holders(s, key)|;
    }
    forall n | n in t.conns ensures ConnOk(t, n) { if n != c { assert ConnOk(s, n); } }
    forall key | key in t.processors ensures ProcessorOk(t, key) { assert ProcessorOk(s, key); }
    forall key ensures Refs(t, key) <= |Holders(t, key)| && (Balanced(s) ==> Refs(t, key) == |Holders(t, key)|) {
      assert Refs(s, key) <= |Holders(s, key)|;
    }
  }

  /** The first OPEN of a connection. */
  lemma OpenStep(s: State, c: nat, o: Options, dbUp: bool)
    requires Invariant(s) && Enabled(s, Request(c, Open(o), dbUp)) && s.conns[c].processor.None?
    requires !Apply(s, Request(c, Open(o), dbUp)).crashed
    ensures Invariant(Apply(s, Request(c, Open(o), dbUp)))
    ensures Balanced(s) ==> Balanced(Apply(s, Request(c, Open(o), dbUp)))
  {
    var t := Apply(s, Request(c, Open(o), dbUp));
    assert ConnOk(s, c);
    HoldersGain(s, t, c, o);
    forall n | n in t.conns ensures ConnOk(t, n) { if n != c { assert ConnOk(s, n); } }
    forall key | key in t.processors ensures ProcessorOk(t, key) {
      if key in s.processors { assert ProcessorOk(s, key); }
    }
    forall key ensures Refs(t, key) <= |Holders(t, key)| && (Balanced(s) ==> Refs(t, key) == |Holders(t, key)|) {
      assert Refs(s, key) <= |Holders(s, key)|;
    }
  }

  /** Any other request on a connection that has its processor. */
  lemma ServeStep(s: State, c: nat, cmd: Command, dbUp: bool)
    requires Invariant(s) && Enabled(s, Request(c, cmd, dbUp)) && s.conns[c].processor.Some?
    requires !Apply(s, Request(c, cmd, dbUp)).crashed
    ensures Invariant(Apply(s, Request(c, cmd, dbUp)))
    ensures !cmd.Close? ==> Apply(s, Request(c, cmd, dbUp)) == s
    ensures cmd.Close? && Balanced(s) ==> !Balanced(Apply(s, Request(c, cmd, dbUp)))
  {
    var t := Apply(s, Request(c, cmd, dbUp));
    var key := s.conns[c].processor.value;
    assert ConnOk(s, c);
    if cmd.Close? {
      HoldersSame(s, t);
      assert c in Holders(s, key);
      assert Refs(s, key) <= |Holders(s, key)|;
      assert Balanced(s) ==> Refs(t, key) < |Holders(t, key)|;
      forall n | n in t.conns ensures ConnOk(t, n) { assert ConnOk(s, n); }
      forall k | k in t.processors ensures ProcessorOk(t, k) { assert ProcessorOk(s, k); }
      forall k ensures Refs(t, k) <= |Holders(t, k)| { assert Refs(s, k) <= |Holders(s, k)|; }
    }
  }

  predicate IsClose(l: Label) {
    l.Request? && l.cmd.Close?
  }

  lemma StepKeeps(s: State, l: Label)
    requires Invariant(s) && Enabled(s, l) && !Apply(s, l).crashed
    ensures Invariant(Apply(s, l))
    ensures Balanced(s) ==> (Balanced(Apply(s, l)) <==> !IsClose(l))
  {
    match l {
      case Accept(c) => AcceptStep(s, c);
      case Disconnect(c) => DisconnectStep(s, c);
      case Request(c, cmd, dbUp) =>
        if s.conns[c].processor.None? { OpenStep(s, c, cmd.options, dbUp); } else { ServeStep(s, c, cmd, dbUp); }
    }
  }

  lemma {:induction false} RunKeeps(s: State, run: seq<Label>)
    requires Invariant(s) && Valid(s, run) && !Final(s, run).crashed
    ensures Invariant(Final(s, run))
    decreases |run|
  {
    if run != [] {
      StepKeeps(s, run[0]);
      RunKeeps(Apply(s, run[0]), run[1..]);
    }
  }

  // ---------------------------------------------------------------- theorems

  lemma StartInvariant()
    ensures Invariant(Start) && Balanced(Start)
  {
    forall key ensures Holders(Start, key) == {} { }
  }

  /** On every run the server survives, no processor counts more references than live connections that opened it. */
  lemma RefcountBounded(run: seq<Label>, key: Options)
    requires Valid(Start, run) && !Final(Start, run).crashed
    ensures Refs(Final(Start, run), key) <= |Holders(Final(Start, run), key)|
    ensures forall c, cmd, up :: c in Final(Start, run).conns && Final(Start, run).conns[c].live
                                 ==> Enabled(Final(Start, run), Request(c, cmd, up))
  {
    StartInvariant();
    RunKeeps(Start, run);
    var s := Final(Start, run);
    forall c, cmd, up | c in s.conns && s.conns[c].live
      ensures Enabled(s, Request(c, cmd, up))
    {
      assert ConnOk(s, c);
    }
  }

  ghost predicate AlwaysBalanced(s: State, run: seq<Label>)
    requires Valid(s, run)
    decreases |run|
  {
    Balanced(s) && (run == [] || AlwaysBalanced(Apply(s, run[0]), run[1..]))
  }

  lemma {:induction false} BalancedAlong(s: State, run: seq<Label>)
    requires Invariant(s) && Balanced(s) && Valid(s, run) && !Final(s, run).crashed
    ensures AlwaysBalanced(s, run) <==> forall l :: l in run ==> !IsClose(l)
    decreases |run|
  {
    if run != [] {
      StepKeeps(s, run[0]);
      assert run == [run[0]] + run[1..];
      if !IsClose(run[0]) { BalancedAlong(Apply(s, run[0]), run[1..]); }
    }
  }

  /** The count equals the number of live holders throughout a run exactly when nobody sends CLOSE. */
  lemma RefcountExactIff(run: seq<Label>)
    requires Valid(Start, run) && !Final(Start, run).crashed
    ensures AlwaysBalanced(Start, run) <==> forall l :: l in run ==> !IsClose(l)
  {
    StartInvariant();
    BalancedAlong(Start, run);
  }

  lemma {:induction false} BalancedAtEnd(s: State, run: seq<Label>)
    requires Invariant(s) && Valid(s, run) && AlwaysBalanced(s, run)
    ensures Balanced(Final(s, run))
    decreases |run|
  {
    if run != [] {
      if Apply(s, run[0]).crashed { assert run[1..] == []; } else {
        StepKeeps(s, run[0]);
        BalancedAtEnd(Apply(s, run[0]), run[1..]);
      }
    }
  }

  /** What stops the server: a request it does not accept here, or one on a processor without references. */
  predicate Misuse(s: State, c: nat, cmd: Command, dbUp: bool)
    requires c in s.conns
  {
    var n := s.conns[c];
    match cmd
    case Open(o) => !n.isOpen && (o.purpose.Invalid? || (Refs(s, o) == 0 && !(Accepted(o) && dbUp)))
    case Close => !n.isOpen
    case Rewind => !n.isOpen
    case Read =>
      !n.isOpen || n.processor.None? || !n.processor.value.purpose.ToRead? || Refs(s, n.processor.value) == 0
    case Write =>
      !n.isOpen || n.processor.None? || !n.processor.value.purpose.ToWrite? || Refs(s, n.processor.value) == 0
    case Unknown => true
  }

  /** The broker this connection opened is connected. */
  predicate BrokerUp(s: State, n: Connection) {
    && n.processor.Some? && n.processor.value in s.processors
    && Connected(s.processors[n.processor.value], n.processor.value.purpose)
  }

  /** On every run the server survives, CLOSE or not: the broker of a live opened connection is connected exactly
      while its processor is referenced, and a request trips an assertion or an exception exactly when it is misused. */
  lemma CrashIffMisuse(run: seq<Label>, c: nat, cmd: Command, dbUp: bool)
    requires Valid(Start, run) && !Final(Start, run).crashed
    requires Enabled(Final(Start, run), Request(c, cmd, dbUp))
    ensures var s := Final(Start, run);
            && (s.conns[c].isOpen ==>
                s.conns[c].processor.Some? && (BrokerUp(s, s.conns[c]) <==> Refs(s, s.conns[c].processor.value) > 0))
            && (Apply(s, Request(c, cmd, dbUp)).crashed <==> Misuse(s, c, cmd, dbUp))
  {
    StartInvariant();
    RunKeeps(Start, run);
    var s := Final(Start, run);
    assert ConnOk(s, c);
    if s.conns[c].isOpen {
      assert ProcessorOk(s, s.conns[c].processor.value);
    } else if cmd.Open? && cmd.options in s.processors {
      assert ProcessorOk(s, cmd.options);
    }
  }

  /** The same seen from the clients when nobody has sent CLOSE: references are live holders. */
  predicate ClientMisuse(s: State, c: nat, cmd: Command, dbUp: bool)
    requires c in s.conns
  {
    var n := s.conns[c];
    match cmd
    case Open(o) => !n.isOpen && (o.purpose.Invalid? || (Holders(s, o) == {} && !(Accepted(o) && dbUp)))
    case Close => !n.isOpen
    case Rewind => !n.isOpen
    case Read => !n.isOpen || n.processor.None? || !n.processor.value.purpose.ToRead?
    case Write => !n.isOpen || n.processor.None? || !n.processor.value.purpose.ToWrite?
    case Unknown => true
  }

  /** Without CLOSE every live opened connection has its broker, and only the client's own mistakes crash the server. */
  lemma CrashWithoutClose(run: seq<Label>, c: nat, cmd: Command, dbUp: bool)
    requires Valid(Start, run) && !Final(Start, run).crashed && forall l :: l in run ==> !IsClose(l)
    requires Enabled(Final(Start, run), Request(c, cmd, dbUp))
    ensures var s := Final(Start, run);
            && (s.conns[c].isOpen ==> BrokerUp(s, s.conns[c]))
            && (Apply(s, Request(c, cmd, dbUp)).crashed <==> ClientMisuse(s, c, cmd, dbUp))
  {
    StartInvariant();
    RunKeeps(Start, run);
    RefcountExactIff(run);
    BalancedAtEnd(Start, run);
    CrashIffMisuse(run, c, cmd, dbUp);
    var s := Final(Start, run);
    assert ConnOk(s, c);
    if s.conns[c].isOpen {
      var key := s.conns[c].processor.value;
      assert c in Holders(s, key);
      assert Refs(s, key) == |Holders(s, key)|;
    } else if cmd.Open? {
      assert Refs(s, cmd.options) == |Holders(s, cmd.options)|;
      assert Holders(s, cmd.options) == {} <==> |Holders(s, cmd.options)| == 0;
    }
  }

  // ---------------------------------------------------------------- when a broker stays up

  /** Every live connection that opened this processor still has its broker connected. */
  predicate Held(s: State, key: Options) {
    forall c :: c in Holders(s, key) ==> BrokerUp(s, s.conns[c])
  }

  lemma HeldIsReferenced(s: State, key: Options)
    requires Invariant(s)
    ensures Held(s, key) <==> (Holders(s, key) != {} ==> Refs(s, key) > 0)
  {
    if Holders(s, key) != {} {
      var c :| c in Holders(s, key);
      assert ConnOk(s, c) && ProcessorOk(s, key);
    }
  }

  ghost predicate AlwaysHeld(s: State, run: seq<Label>, key: Options)
    requires Valid(s, run)
    decreases |run|
  {
    Held(s, key) && (run == [] || AlwaysHeld(Apply(s, run[0]), run[1..], key))
  }

  /** A CLOSE request sent to this processor. */
  predicate ClosesKey(s: State, l: Label, key: Options) {
    IsClose(l) && l.c in s.conns && s.conns[l.c].processor == Some(key)
  }

  /** At every point of the run the live holders outnumber the CLOSE requests sent so far. */
  ghost predicate Outnumbered(s: State, run: seq<Label>, key: Options, closes: nat)
    requires Valid(s, run)
    decreases |run|
  {
    && (Holders(s, key) != {} ==> closes < |Holders(s, key)|)
    && (run == [] ||
        Outnumbered(Apply(s, run[0]), run[1..], key, closes + if ClosesKey(s, run[0], key) then 1 else 0))
  }

  /** References this processor is short of its live holders. */
  function Gap(s: State, key: Options): int {
    |Holders(s, key)| - Refs(s, key)
  }

  lemma DisconnectGap(s: State, c: nat, key: Options)
    requires Invariant(s) && Enabled(s, Disconnect(c)) && Held(s, key)
    ensures Gap(Apply(s, Disconnect(c)), key) == Gap(s, key)
  {
    var t := Apply(s, Disconnect(c));
    HeldIsReferenced(s, key);
    assert ConnOk(s, c);
    if s.conns[c].processor.None? { HoldersSame(s, t); } else {
      HoldersLose(s, t, c, s.conns[c].processor.value);
      assert c in Holders(s, s.conns[c].processor.value);
    }
  }

  lemma OpenGap(s: State, c: nat, o: Options, dbUp: bool, key: Options)
    requires Invariant(s) && Enabled(s, Request(c, Open(o), dbUp)) && s.conns[c].processor.None?
    requires !Apply(s, Request(c, Open(o), dbUp)).crashed
    ensures Gap(Apply(s, Request(c, Open(o), dbUp)), key) == Gap(s, key)
  {
    assert ConnOk(s, c);
    HoldersGain(s, Apply(s, Request(c, Open(o), dbUp)), c, o);
  }

  lemma CloseGap(s: State, c: nat, dbUp: bool, key: Options)
    requires Invariant(s) && Enabled(s, Request(c, Close, dbUp)) && s.conns[c].processor.Some? && Held(s, key)
    ensures Gap(Apply(s, Request(c, Close, dbUp)), key)
         == Gap(s, key) + if s.conns[c].processor == Some(key) then 1 else 0
  {
    HeldIsReferenced(s, key);
    assert ConnOk(s, c);
    HoldersSame(s, Apply(s, Request(c, Close, dbUp)));
    assert c in Holders(s, s.conns[c].processor.value);
  }

  /** While the broker is held, each CLOSE widens the gap by one, and nothing else does. */
  lemma GapStep(s: State, l: Label, key: Options)
    requires Invariant(s) && Enabled(s, l) && !Apply(s, l).crashed && Held(s, key)
    ensures Gap(Apply(s, l), key) == Gap(s, key) + if ClosesKey(s, l, key) then 1 else 0
  {
    match l {
      case Accept(c) => HoldersSame(s, Apply(s, l));
      case Disconnect(c) => DisconnectGap(s, c, key);
      case Request(c, cmd, dbUp) =>
        if s.conns[c].processor.None? { OpenGap(s, c, cmd.options, dbUp, key); }
        else if cmd.Close? { CloseGap(s, c, dbUp, key); }
        else { ServeStep(s, c, cmd, dbUp); }
    }
  }

  lemma HeldIffOutnumbered(s: State, key: Options, closes: nat)
    requires Invariant(s) && closes == Gap(s, key)
    ensures Held(s, key) <==> (Holders(s, key) != {} ==> closes < |Holders(s, key)|)
  {
    HeldIsReferenced(s, key);
  }

  lemma {:induction false} HeldAlong(s: State, run: seq<Label>, key: Options, closes: nat)
    requires Invariant(s) && Valid(s, run) && !Final(s, run).crashed
    requires closes == Gap(s, key)
    ensures AlwaysHeld(s, run, key) <==> Outnumbered(s, run, key, closes)
    decreases |run|
  {
    HeldIffOutnumbered(s, key, closes);
    if run != [] && Held(s, key) {
      StepKeeps(s, run[0]);
      GapStep(s, run[0], key);
      HeldAlong(Apply(s, run[0]), run[1..], key, closes + if ClosesKey(s, run[0], key) then 1 else 0);
    }
  }

  /** A processor's broker is never torn down under a live connection that opened it, anywhere in a run the server
      survives, exactly when its live holders always outnumber the CLOSE requests sent to it so far. */
  lemma NeverTornDownIff(run: seq<Label>, key: Options)
    requires Valid(Start, run) && !Final(Start, run).crashed
    ensures AlwaysHeld(Start, run, key) <==> Outnumbered(Start, run, key, 0)
  {
    StartInvariant();
    assert Holders(Start, key) == {};
    HeldAlong(Start, run, key, 0);
  }

  /** CLOSE followed by a disconnect gives up two references: the broker goes down under another live reader. */
  lemma DoubleCloseTearsDown(o: Options) returns (run: seq<Label>)
    requires o.purpose.ToRead? && Accepted(o)
    ensures Valid(Start, run) && !Final(Start, run).crashed
    ensures var s := Final(Start, run);
            && Holders(s, o) == {2} && Refs(s, o) == 0
            && Enabled(s, Request(2, Read, true)) && Apply(s, Request(2, Read, true)).crashed
  {
    var two := TwoReaders(o);
    var s := State(map[o := Processor(2, true, false)],
                   map[1 := Connection(true, Some(o), true), 2 := Connection(true, Some(o), true)], false);
    var s1 := Apply(s, Request(1, Close, true));
    var s2 := Apply(s1, Disconnect(1));
    assert s2.processors[o] == Processor(0, false, false);
    assert Valid(s2, []) && Final(s2, []) == s2;
    Prepend(s1, Disconnect(1), []);
    Prepend(s, Request(1, Close, true), [Disconnect(1)] + []);
    var tail := [Request(1, Close, true)] + ([Disconnect(1)] + []);
    RunConcat(Start, two, tail);
    run := two + tail;
  }

  lemma TwoReaders(o: Options) returns (run: seq<Label>)
    requires o.purpose.ToRead? && Accepted(o)
    ensures Valid(Start, run)
    ensures Final(Start, run) == State(map[o := Processor(2, true, false)],
              map[1 := Connection(true, Some(o), true), 2 := Connection(true, Some(o), true)], false)
  {
    var s1 := Apply(Start, Accept(1));
    var s2 := Apply(s1, Request(1, Open(o), true));
    assert s2 == State(map[o := Processor(1, true, false)], map[1 := Connection(true, Some(o), true)], false);
    var s3 := Apply(s2, Accept(2));
    var s4 := Apply(s3, Request(2, Open(o), true));
    assert s4 == State(map[o := Processor(2, true, false)],
              map[1 := Connection(true, Some(o), true), 2 := Connection(true, Some(o), true)], false);
    assert Valid(s4, []) && Final(s4, []) == s4;
    Prepend(s3, Request(2, Open(o), true), []);
    Prepend(s2, Accept(2), [Request(2, Open(o), true)] + []);
    Prepend(s1, Request(1, Open(o), true), [Accept(2)] + ([Request(2, Open(o), true)] + []));
    run := [Request(1, Open(o), true)] + ([Accept(2)] + ([Request(2, Open(o), true)] + []));
    Prepend(Start, Accept(1), run);
    run := [Accept(1)] + run;
  }

  lemma Prepend(s: State, l: Label, rest: seq<Label>)
    requires Enabled(s, l) && Valid(Apply(s, l), rest)
    ensures Valid(s, [l] + rest) && Final(s, [l] + rest) == Final(Apply(s, l), rest)
  {
    assert ([l] + rest)[1..] == rest;
  }

  lemma {:induction false} RunConcat(s: State, a: seq<Label>, b: seq<Label>)
    requires Valid(s, a) && Valid(Final(s, a), b)
    ensures Valid(s, a + b) && Final(s, a + b) == Final(Final(s, a), b)
    decreases |a|
  {
    if a == [] {
      assert a + b == b;
    } else {
      assert (a + b)[0] == a[0] && (a + b)[1..] == a[1..] + b;
      RunConcat(Apply(s, a[0]), a[1..], b);
    }
  }
}
