/** The broker object: configuration, status and statistics, and how close and open renew them. */
module BrokerState {
  import opened Seqs
  import opened Pager

  /** What getIntField returns for a missing field. */
  const INT_MIN: int := -0x8000_0000

  datatype Options = Options(
    host: string, port: int, database: string, collection: string,
    limit: int, skip: int, queueSize: int, readTimeout: int, conditions: string, fields: string)

  datatype Outcome = Ok | ArgumentError(message: string) | ConnectError | AssertionFailed

  /** The configuration fields, as init() fills them. */
  datatype Settings = Settings(
    host: string, port: int, database: string, collection: string, docset: string,
    limit: int, skip: int, queueSize: int, readTimeout: int, readRetry: int,
    conditions: string, fields: string, hasFields: bool)

  datatype Status = Status(doExit: bool, querying: bool, inited: bool, connected: bool, reachEnd: bool)

  datatype Stats = Stats(queryDocCount: nat, queryCount: nat, updateCount: nat)

  /** Everything the object remembers except m_json_doc_cache, which every query overwrites before use. */
  datatype View = View(
    options: Option<Options>, settings: Settings, status: Status, stats: Stats,
    cursor: Cursor, capacity: nat, queued: seq<int>)

  /** int to size_t: negative sizes become huge. */
  function AsSize(n: int): (r: nat)
    requires INT_MIN <= n < 0x8000_0000
    ensures n >= 0 ==> r == n
    ensures n < 0 ==> r == 18446744073709551616 + n
  {
    if n >= 0 then n else n + 0x1_0000_0000_0000_0000
  }

  /** 32-bit wrap-around of an int product. */
  function Wrap32(n: int): (r: int)
    ensures INT_MIN <= r < 0x8000_0000
    ensures INT_MIN <= n < 0x8000_0000 ==> r == n
  {
    (n + 0x8000_0000) % 0x1_0000_0000 - 0x8000_0000
  }

  /** The wrapped value is the one int that differs from the number by a multiple of 2^32. */
  lemma Wrap32Is(n: int, r: int)
    requires IsInt(r)
    ensures r == Wrap32(n) <==> (r - n) % 4294967296 == 0
  {
  }

  predicate IsInt(n: int) {
    INT_MIN <= n < 0x8000_0000
  }

  predicate WellTyped(o: Options) {
    IsInt(o.port) && IsInt(o.limit) && IsInt(o.skip) && IsInt(o.queueSize) && IsInt(o.readTimeout)
  }

  function LimitOf(o: Options): int {
    if o.limit == INT_MIN then 1000 else o.limit
  }

  function QueueSizeOf(o: Options): int {
    if o.queueSize == INT_MIN then Wrap32(LimitOf(o) * 5) else o.queueSize
  }

  function TimeoutOf(o: Options): int {
    if o.readTimeout < 0 then 1 else o.readTimeout
  }

  /** The first complaint init() raises about the options. */
  function Complaint(o: Options): Option<string> {
    ComplaintAbout(o.host, o.port, o.database, o.collection)
  }

  function ComplaintAbout(host: string, port: int, database: string, collection: string): Option<string> {
    if host == "" then Some("host must not be empty")
    else if port == INT_MIN then Some("port must be set")
    else if database == "" then Some("database must not be empty")
    else if collection == "" then Some("collection must not be empty")
    else None
  }

  const NoStatus: Status := Status(false, false, false, false, false)
  const NoStats: Stats := Stats(0, 0, 0)

  /** What reset() does to the configuration: names, conditions and fields survive it. */
  function ResetSettings(c: Settings): Settings {
    c.(port := 0, limit := 0, skip := 0, queueSize := 0, readTimeout := 1, readRetry := 1, hasFields := false)
  }

  /** broker::reset: everything but options, names, conditions, fields and the queue. */
  function Reset(v: View): View {
    v.(settings := ResetSettings(v.settings), status := NoStatus, stats := NoStats, cursor := Start)
  }

  /** The configuration the options ask for, defaults filled in. */
  function SettingsOf(o: Options): Settings {
    Settings(o.host, o.port, o.database, o.collection, o.database + "." + o.collection,
             LimitOf(o), if o.skip == INT_MIN then 0 else o.skip, QueueSizeOf(o), TimeoutOf(o), 1,
             o.conditions, o.fields, o.fields != "")
  }

  /** The fields init() has assigned when it looks for mistakes: nothing defaulted, the docset not joined yet. */
  function RawSettings(o: Options, before: Settings): Settings {
    Settings(o.host, o.port, o.database, o.collection, before.docset, o.limit, o.skip, o.queueSize, o.readTimeout,
             before.readRetry, o.conditions, o.fields, o.fields != "")
  }

  /** A broker configured with acceptable options and connected, written from the options alone. */
  function FreshlyOpened(o: Options): View
    requires WellTyped(o)
  {
    View(Some(o), SettingsOf(o), NoStatus.(inited := true, connected := true), NoStats, Start,
         AsSize(QueueSizeOf(o)), [])
  }

  /** What the outcome of init says about the options: the first thing missing is named, nothing else is an error. */
  ghost predicate Judged(o: Options, r: Outcome) {
    && (r.ArgumentError? <==> o.host == "" || o.port == -0x8000_0000 || o.database == "" || o.collection == "")
    && (o.host == "" ==> r == ArgumentError("host must not be empty"))
    && (o.host != "" && o.port == -0x8000_0000 ==> r == ArgumentError("port must be set"))
    && (o.host != "" && o.port != -0x8000_0000 && o.database == "" ==> r == ArgumentError("database must not be empty"))
    && (o.host != "" && o.port != -0x8000_0000 && o.database != "" && o.collection == ""
        ==> r == ArgumentError("collection must not be empty"))
  }

  /** A missing limit means 1000, a missing skip 0, a missing queue size five pages in 32 bits, a missing or negative
      timeout 1; the rest is taken over, and a negative queue size becomes a huge capacity. */
  ghost predicate Defaulted(o: Options, c: Settings, capacity: nat) {
    && c.host == o.host && c.port == o.port && c.database == o.database && c.collection == o.collection
    && c.conditions == o.conditions && c.fields == o.fields && (c.hasFields <==> o.fields != "")
    && c.limit == (if o.limit == -0x8000_0000 then 1000 else o.limit)
    && c.skip == (if o.skip == -0x8000_0000 then 0 else o.skip)
    && (o.queueSize != -0x8000_0000 ==> c.queueSize == o.queueSize)
    && (o.queueSize == -0x8000_0000 ==>
          -0x8000_0000 <= c.queueSize < 0x8000_0000 && (c.queueSize - 5 * c.limit) % 0x1_0000_0000 == 0)
    && capacity == (if c.queueSize >= 0 then c.queueSize else c.queueSize + 0x1_0000_0000_0000_0000)
    && c.readTimeout == (if o.readTimeout < 0 then 1 else o.readTimeout)
    && c.docset == o.database + "." + o.collection
  }

  lemma DefaultsFilled(o: Options, retry: int)
    requires WellTyped(o)
    ensures Defaulted(o, SettingsOf(o).(readRetry := retry), AsSize(QueueSizeOf(o)))
  {
    Wrap32Is(LimitOf(o) * 5, Wrap32(LimitOf(o) * 5));
  }

  class Broker {
    var options: Option<Options>
    var settings: Settings
    var status: Status
    var stats: Stats
    var cursor: Cursor
    var capacity: nat
    var queued: seq<int>
    var docCache: seq<int>

    ghost function Look(): View
      reads this
    {
      View(options, settings, status, stats, cursor, capacity, queued)
    }

    constructor ()
      ensures Look() == View(None, Settings("", 0, "", "", "", 0, 0, 0, 1, 1, "", "", false), NoStatus, NoStats,
                             Start, 100, [])
    {
      options, settings := None, Settings("", 0, "", "", "", 0, 0, 0, 1, 1, "", "", false);
      status, stats, cursor := NoStatus, NoStats, Start;
      capacity, queued, docCache := 100, [], [];
    }

    /** close() is reset(). */
    method Close()
      modifies this
      ensures Look() == Reset(old(Look())) && docCache == old(docCache)
      ensures !status.doExit && !status.inited && !status.connected && !status.reachEnd && !status.querying
      ensures stats.queryCount == stats.updateCount == stats.queryDocCount == 0 && cursor == Start
      ensures settings.port == settings.limit == settings.skip == settings.queueSize == 0 && !settings.hasFields
      ensures settings.readTimeout == settings.readRetry == 1
      ensures options == old(options) && queued == old(queued) && capacity == old(capacity)
    {
      status := Status(false, false, false, false, false);
      settings := settings.(port := 0, limit := 0, skip := 0, queueSize := 0, readTimeout := 1, readRetry := 1);
      stats := Stats(0, 0, 0);
      settings := settings.(hasFields := false);
      cursor := Start;
    }

    /** The tests of init() on the names and the port, in their order. */
    method CheckNames(c: Settings) returns (complaint: Option<string>)
      ensures complaint == ComplaintAbout(c.host, c.port, c.database, c.collection)
    {
      if |c.host| == 0 { return Some("host must not be empty"); }
      if c.port == INT_MIN { return Some("port must be set"); }
      if |c.database| == 0 { return Some("database must not be empty"); }
      if |c.collection| == 0 { return Some("collection must not be empty"); }
      complaint := None;
    }

    /** The defaults init() fills in for missing parameters. */
    method FillDefaults(c: Settings) returns (d: Settings)
      ensures d == c.(limit := if c.limit == INT_MIN then 1000 else c.limit,
                      skip := if c.skip == INT_MIN then 0 else c.skip,
                      queueSize := if c.queueSize == INT_MIN then Wrap32(d.limit * 5) else c.queueSize,
                      readTimeout := if c.readTimeout < 0 then 1 else c.readTimeout,
                      docset := c.database + "." + c.collection)
    {
      d := c;
      if d.limit == INT_MIN { d := d.(limit := 1000); }
      if d.skip == INT_MIN { d := d.(skip := 0); }
      if d.queueSize == INT_MIN { d := d.(queueSize := Wrap32(d.limit * 5)); }
      if d.readTimeout == INT_MIN {
        d := d.(readTimeout := 1);
      } else if d.readTimeout < 0 {
        d := d.(readTimeout := 1);
      }
      d := d.(docset := d.database + "." + d.collection);
    }

    /** broker::init: does nothing on an initialised broker, whatever options it is given. */
    method Init(given: Option<Options>) returns (r: Outcome)
      requires given.Some? ==> WellTyped(given.value)
      requires options.Some? ==> WellTyped(options.value)
      modifies this
      ensures old(status.inited) ==> r == Ok && Look() == old(Look())
      ensures !old(status.inited) && given.None? && old(options).None? ==> r == AssertionFailed && Look() == old(Look())
      ensures !old(status.inited) && (given.Some? || old(options).Some?) ==>
                && options == (if given.Some? then given else old(options))
                && stats == old(stats) && cursor == old(cursor)
                && match Complaint(options.value)
                   case Some(msg) =>
                     && r == ArgumentError(msg) && settings == RawSettings(options.value, old(settings))
                     && status == old(status) && capacity == old(capacity) && queued == old(queued)
                   case None =>
                     && r == Ok && settings == SettingsOf(options.value).(readRetry := old(settings.readRetry))
                     && status == old(status).(inited := true)
                     && capacity == AsSize(QueueSizeOf(options.value)) && queued == []
      ensures !old(status.inited) && (given.Some? || old(options).Some?) ==> Judged(options.value, r)
      ensures !old(status.inited) && r.Ok? ==> Defaulted(options.value, settings, capacity)
    {
      if status.inited { return Ok; }
      if options.None? && given.None? { return AssertionFailed; }
      if given.Some? { options := given; }
      var o := options.value;
      settings := Settings(o.host, o.port, o.database, o.collection, settings.docset,
                           o.limit, o.skip, o.queueSize, o.readTimeout, settings.readRetry,
                           o.conditions, o.fields, o.fields != "");
      var complaint := CheckNames(settings);
      if complaint.Some? { return ArgumentError(complaint.value); }
      settings := FillDefaults(settings);
      queued := [];
      capacity := AsSize(settings.queueSize);
      status := status.(inited := true);
      DefaultsFilled(o, settings.readRetry);
      r := Ok;
    }

    /** broker::open: an initialised broker keeps its old options; on a closed one success is the fresh state. */
    method Open(o: Options, dbUp: bool) returns (r: Outcome)
      requires WellTyped(o) && (options.Some? ==> WellTyped(options.value))
      modifies this
      ensures old(status.inited) ==> r == (if dbUp then Ok else ConnectError)
      ensures old(status.inited) ==>
                Look() == old(Look()).(status := old(status).(connected := dbUp || old(status.connected)))
      ensures !old(status.inited) ==> r == (match Complaint(o)
                                            case Some(msg) => ArgumentError(msg)
                                            case None => if dbUp then Ok else ConnectError)
      ensures !old(status.inited) ==> Judged(o, r)
      ensures old(Look()) == Reset(old(Look())) && r.Ok? ==> Look() == FreshlyOpened(o)
      ensures old(Look()) == Reset(old(Look())) && r.Ok? ==>
                Defaulted(o, settings, capacity) && queued == [] && cursor == Start
                && status.inited && status.connected && !status.doExit && !status.reachEnd
    {
      r := Init(Some(o));
      if !r.Ok? { return; }
      if !dbUp { return ConnectError; }
      status := status.(connected := true);
    }

    /** Last close followed by open: the outcome and the resulting state depend on the new options only. */
    method Reopen(o: Options, dbUp: bool) returns (r: Outcome)
      requires WellTyped(o) && (options.Some? ==> WellTyped(options.value))
      modifies this
      ensures r.Ok? <==> Complaint(o).None? && dbUp
      ensures r.Ok? ==> Look() == FreshlyOpened(o)
    {
      Close();
      r := Open(o, dbUp);
    }

    method Rewind()
      modifies this
      ensures Look() == old(Look()).(cursor := Start, status := old(status).(reachEnd := false))
    {
      cursor := Start;
      status := status.(reachEnd := false);
    }

    /** broker::query against the collection as it stands: the loop over the database cursor, then the stored id. */
    method Query(db: seq<int>)
      requires settings.limit > 0 && settings.skip >= 0
      modifies this
      ensures docCache == Page(db, old(cursor), old(settings).skip, old(settings).limit)
      ensures Look() == old(Look()).(cursor := Advance(old(cursor), docCache),
                                     stats := old(stats).(queryCount := old(stats).queryCount + 1),
                                     status := old(status).(querying := false))
    {
      status := status.(querying := true);
      var answer := Page(db, cursor, settings.skip, settings.limit);
      var hasDocs := |answer| > 0;
      var doc, i := 0, 0;
      docCache := [];
      while i < |answer|
        invariant i <= |answer| && docCache == answer[..i]
        invariant i > 0 ==> doc == answer[i - 1]
        invariant Look() == old(Look()).(status := old(status).(querying := true))
      {
        doc := answer[i];
        docCache := docCache + [doc];
        i := i + 1;
      }
      if hasDocs {
        cursor := After(doc);
      }
      stats := stats.(queryCount := stats.queryCount + 1);
      status := status.(querying := false);
    }
  }
}
