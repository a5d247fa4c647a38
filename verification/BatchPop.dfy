/** broker::batch_pop: the retrying consumer loop, apart from how each pop comes out. */
module BatchPop {
  import opened Arith

  /** How one pop ends. Every broker exception is the same C++ type, so an
      unopened broker is indistinguishable from a timeout here. */
  datatype Outcome<T> = Item(value: T) | Timeout

  datatype Status = Running | Success | Failure

  /** size and retries are the call's parameters; got counts the pops of the current attempt. */
  datatype Batch<T> = Batch(size: nat, retries: nat, docs: seq<T>, retry: nat, got: nat, status: Status)

  function Begin<T>(size: nat, retries: nat): Batch<T> {
    Batch(size, retries, [], 0, 0, Running)
  }

  function OnItem<T>(b: Batch<T>, x: T): Batch<T> {
    b.(docs := b.docs + [x], got := b.got + 1, status := if b.got + 1 >= b.size then Success else Running)
  }

  function OnTimeout<T>(b: Batch<T>): Batch<T> {
    b.(retry := b.retry + 1, got := 0, status := if b.retries >= b.retry + 1 then Running else Failure)
  }

  function On<T>(b: Batch<T>, o: Outcome<T>): Batch<T> {
    match o case Item(x) => OnItem(b, x) case Timeout => OnTimeout(b)
  }

  /** The call after n pops whose results are given by the script. */
  function Played<T>(size: nat, retries: nat, script: nat -> Outcome<T>, n: nat): Batch<T> {
    if n == 0 then Begin(size, retries) else On(Played(size, retries, script, n - 1), script(n - 1))
  }

  function Items<T>(script: nat -> Outcome<T>, n: nat): seq<T> {
    if n == 0 then []
    else Items(script, n - 1) + (match script(n - 1) case Item(x) => [x] case Timeout => [])
  }

  /** What holds throughout a call: bounded attempts, and documents bounded by what failed attempts left behind. */
  ghost predicate Bounded<T>(b: Batch<T>) {
    && b.size > 0
    && b.got <= |b.docs| <= b.retry * (b.size - 1) + b.got
    && (b.status.Running? ==> b.retry <= b.retries && b.got < b.size)
    && (b.status.Success? ==> b.retry <= b.retries && b.got == b.size)
    && (b.status.Failure? ==> b.retry == b.retries + 1 && b.got == 0)
  }

  lemma BoundedStep<T>(b: Batch<T>, o: Outcome<T>)
    requires Bounded(b) && b.status.Running?
    ensures Bounded(On(b, o))
    ensures On(b, o).status.Failure? ==> o.Timeout?
    ensures On(b, o).status.Success? ==> o.Item?
  {
    TimesSucc(b.retry, b.size - 1);
  }

  /** The bound a caller sees. */
  lemma BoundedTotal<T>(b: Batch<T>)
    requires Bounded(b)
    ensures |b.docs| <= b.retries * (b.size - 1) + b.size
    ensures b.status.Success? ==> b.docs != []
  {
    if b.status.Failure? { TimesSucc(b.retries, b.size - 1); } else { TimesMonotone(b.retry, b.retries, b.size - 1); }
  }

  /** Before it ends, the state of the call is determined by the outcomes: documents are the arrivals in order. */
  lemma {:induction false} PlayedKeeps<T>(size: nat, retries: nat, script: nat -> Outcome<T>, n: nat)
    requires size > 0
    requires forall m: nat :: m < n ==> Played(size, retries, script, m).status.Running?
    ensures var b := Played(size, retries, script, n);
            b.size == size && b.retries == retries && Bounded(b) && b.docs == Items(script, n)
  {
    if n > 0 {
      PlayedKeeps(size, retries, script, n - 1);
      assert Played(size, retries, script, n - 1).status.Running?;
      BoundedStep(Played(size, retries, script, n - 1), script(n - 1));
    }
  }

  /** One attempt: the pops of the try block, up to a full batch or the first timeout. */
  method Attempt<T>(size: nat, retries: nat, script: nat -> Outcome<T>, had: seq<T>, retry: nat, base: nat)
    returns (docs: seq<T>, pops: nat, timedOut: bool)
    requires size > 0 && had == Items(script, base)
    requires Played(size, retries, script, base) == Batch(size, retries, had, retry, 0, Running)
    requires forall m: nat :: m < base ==> Played(size, retries, script, m).status.Running?
    ensures docs == Items(script, pops) && base < pops && (timedOut <==> script(pops - 1).Timeout?)
    ensures !timedOut ==> pops == base + size && forall i :: base <= i < pops ==> script(i).Item?
    ensures forall m: nat :: m < pops ==> Played(size, retries, script, m).status.Running?
    ensures Played(size, retries, script, pops) ==
            if timedOut then Batch(size, retries, docs, retry + 1, 0, if retries >= retry + 1 then Running else Failure)
            else Batch(size, retries, docs, retry, size, Success)
  {
    docs, pops, timedOut := had, base, false;
    while pops - base < size
      invariant base <= pops <= base + size && docs == Items(script, pops)
      invariant forall i :: base <= i < pops ==> script(i).Item?
      invariant forall m: nat :: m < pops ==> Played(size, retries, script, m).status.Running?
      invariant Played(size, retries, script, pops) ==
                Batch(size, retries, docs, retry, pops - base, if pops - base == size then Success else Running)
    {
      var o := script(pops);
      pops := pops + 1;
      if o.Timeout? {
        timedOut := true;
        return;
      }
      docs := docs + [o.value];
    }
  }

  /** The do/while loop, the i-th pop ending as the script says. */
  method Run<T>(size: nat, retries: nat, script: nat -> Outcome<T>)
    returns (docs: seq<T>, ok: bool, pops: nat, attempts: nat)
    requires size > 0
    ensures docs == Items(script, pops)
    ensures 1 <= attempts <= retries + 1
    ensures |docs| <= retries * (size - 1) + size
    ensures pops > 0 && (!ok <==> script(pops - 1).Timeout?)
    ensures !ok ==> attempts == retries + 1
    ensures ok ==> size <= pops && forall i :: pops - size <= i < pops ==> script(i).Item?
    ensures forall m: nat :: m < pops ==> Played(size, retries, script, m).status.Running?
    ensures Played(size, retries, script, pops).status == if ok then Success else Failure
  {
    docs, ok, pops, attempts := [], false, 0, 0;
    var retry := 0;
    while true
      invariant retry == attempts <= retries
      invariant docs == Items(script, pops)
      invariant Played(size, retries, script, pops) == Batch(size, retries, docs, retry, 0, Running)
      invariant forall m: nat :: m < pops ==> Played(size, retries, script, m).status.Running?
      decreases retries - retry
    {
      attempts := attempts + 1;
      var timedOut;
      docs, pops, timedOut := Attempt(size, retries, script, docs, retry, pops);
      PlayedKeeps(size, retries, script, pops);
      BoundedTotal(Played(size, retries, script, pops));
      if !timedOut {
        ok := true;
        return;
      }
      retry := retry + 1;
      if !(retries >= retry) {
        ok := false;
        return;
      }
    }
  }

  /** The response code do_read picks. */
  datatype ReadReply<T> = Documents(docs: seq<T>) | NoMoreItem

  function Reply<T>(b: Batch<T>): ReadReply<T> {
    if b.status.Success? || |b.docs| > 0 then Documents(b.docs) else NoMoreItem
  }

  /** NoMoreItem is sent exactly when nothing was popped. */
  lemma NoMoreItemIff<T>(b: Batch<T>)
    requires Bounded(b) && !b.status.Running?
    ensures Reply(b).NoMoreItem? <==> b.docs == []
  {
    BoundedTotal(b);
  }
}
