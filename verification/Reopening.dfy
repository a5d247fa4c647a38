/** From the options of an OPEN to the read path it starts. */
module Reopening {
  import opened Seqs
  import opened Monitor
  import opened BrokerState
  import RM = ReadMachine
  import RT = ReadTheorems
  import RO = ReadOrder
  import RP = ReadPops
  import RR = ReadRequests

  /** Options within what the cursor assumes: a positive page size and no negative skip. */
  predicate Pageable(o: Options) {
    WellTyped(o) && LimitOf(o) > 0 && SettingsOf(o).skip >= 0
  }

  /** The machine the two threads run on a broker in this state; the server reads with seconds = 0. */
  function MachineOf(v: View, db: seq<int>): RM.State
    requires v.settings.limit > 0 && v.settings.skip >= 0 && v.settings.readRetry >= 0
  {
    RM.State(RM.Config(v.settings.skip, v.settings.limit, v.capacity, v.settings.readRetry,
                       v.settings.readTimeout > 0, false),
             db, Channel(v.capacity, v.queued, Outside, Outside), v.cursor, v.status.reachEnd, v.status.doExit,
             RM.Check([]), RM.Idle, false, RM.Log([], [], [], [], 0, {}))
  }

  function ConfigOf(o: Options): RM.Config
    requires Pageable(o)
  {
    RM.Config(SettingsOf(o).skip, LimitOf(o), AsSize(QueueSizeOf(o)), 1, o.readTimeout != 0, false)
  }

  /** A broker opened afresh, whatever its object went through before, starts the read path from its initial state. */
  lemma OpensAtInit(o: Options, db: seq<int>)
    requires Pageable(o)
    ensures MachineOf(FreshlyOpened(o), db) == RM.Init(ConfigOf(o), db)
  {
  }

  /** Close and open again: the broker is back at the initial state of the read path for the new options. */
  method ReopenAtInit(b: Broker, o: Options, dbUp: bool, db: seq<int>) returns (r: Outcome)
    requires Pageable(o) && (b.options.Some? ==> WellTyped(b.options.value))
    modifies b
    ensures r.Ok? <==> Complaint(o).None? && dbUp
    ensures r.Ok? ==> b.Look() == FreshlyOpened(o) && MachineOf(b.Look(), db) == RM.Init(ConfigOf(o), db)
  {
    r := b.Reopen(o, dbUp);
  }

  /** A READ under options o ends with the second wait that runs out, never the first, or with limit documents in a
      row; nothing else ends it. */
  lemma ReadRetriesOnce(o: Options, s: RM.State, run: seq<RM.Label>, l: RM.Label)
    requires Pageable(o) && QueueSizeOf(o) != 0 && RM.Reachable(ConfigOf(o), s) && RM.Enabled(s, RM.I(RM.Read))
    requires var s1 := RM.Apply(s, RM.I(RM.Read));
             RM.Valid(s1, run) && RR.StillPopping(s1, run) && RM.Enabled(RM.Final(s1, run), l)
    requires !RM.Apply(RM.Final(RM.Apply(s, RM.I(RM.Read)), run), l).io.Popping?
    ensures if l == RM.I(RM.ThrowPop) then RP.Throws(run) == 1
            else RP.Throws(run) <= 1 && RP.Streak(RM.Apply(s, RM.I(RM.Read)), run, 0) == LimitOf(o) - 1
  {
    RP.ReadOutcome(ConfigOf(o), s, run, l);
  }

  /** What the options must say for the read path to have no undefined behaviour, hanging shutdown or reordering. */
  lemma OptionsDecide(o: Options)
    requires Pageable(o)
    ensures (forall s :: RM.Reachable(ConfigOf(o), s) ==> !s.fault) <==> QueueSizeOf(o) != 0
    ensures QueueSizeOf(o) != 0 ==>
              ((forall s :: RM.Reachable(ConfigOf(o), s) && s.exit && !s.io.Joined?
                            ==> exists l: RM.Label :: !l.Db? && RM.Enabled(s, l))
               <==> o.readTimeout != 0)
    ensures QueueSizeOf(o) != 0 && SettingsOf(o).skip == 0 ==>
              (RO.KeepsOrder(ConfigOf(o)) <==> LimitOf(o) == 1)
    ensures QueueSizeOf(o) != 0 ==> forall s :: RM.Reachable(ConfigOf(o), s) ==> !s.chan.pusher.Expired?
  {
    var cfg := ConfigOf(o);
    RT.FaultFreeIff(cfg);
    if QueueSizeOf(o) != 0 {
      forall s | RM.Reachable(cfg, s) ensures !s.chan.pusher.Expired? {
        RT.ReachableInvariant(cfg, s);
        RT.UntimedNeverExpires(cfg, s);
      }
      RT.DeadlockFreeIff(cfg);
      if SettingsOf(o).skip == 0 { RO.OrderKeptByConfigIff(cfg); }
    }
  }
}
