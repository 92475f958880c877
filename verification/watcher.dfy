/**
 * The watcher of monitor/monitor.go: fan-out to notifiers and writers, and the
 * probe loop of one monitor, driven by a sequence of ticks and logged as a
 * trace of observable events.
 */
module Watcher {
  import opened Wrappers
  import opened Message
  import N = Notifier
  import opened Monitor

  /** What the loop observably does, in order. */
  datatype Event =
    | Request(url: string, timestamp: string)
    | Sleep(duration: int)
    | Notified(notifier: nat, record: Message, err: Option<string>)
    | Written(writer: nat, record: Message)

  /**
   * What the loop finds at the top of an iteration: the shared cancellation
   * already signalled, or one probe together with what each notifier's remote
   * end would answer if it were called during this iteration.
   */
  datatype Tick = Cancelled | Attempt(probe: Probe, replies: seq<Option<string>>)

  /** A notifier without a scripted answer succeeds. */
  function ReplyAt(replies: seq<Option<string>>, i: nat): Option<string>
  {
    if i < |replies| then replies[i] else None
  }

  // ---------------------------------------------------------------------------
  // Fan-out.

  /** The calls `callNotifiers` makes, from the `k`-th notifier on. */
  function NotifyFrom(notifiers: seq<N.Notifier>, m: Message, replies: seq<Option<string>>, k: nat): seq<Event>
    decreases |notifiers| - k
  {
    if k >= |notifiers| then []
    else [Notified(k, m, N.Notify(notifiers[k], m, ReplyAt(replies, k)))] + NotifyFrom(notifiers, m, replies, k + 1)
  }

  /** Every notifier from the `k`-th on is called exactly once, in slice order, whatever the others answered. */
  lemma {:induction false} NotifyFromCallsEachOnce(notifiers: seq<N.Notifier>, m: Message, replies: seq<Option<string>>, k: nat)
    requires k <= |notifiers|
    ensures var evs := NotifyFrom(notifiers, m, replies, k);
      && |evs| == |notifiers| - k
      && forall i :: k <= i < |notifiers| ==>
           evs[i - k] == Notified(i, m, N.Notify(notifiers[i], m, ReplyAt(replies, i)))
    decreases |notifiers| - k
  {
    if k < |notifiers| {
      NotifyFromCallsEachOnce(notifiers, m, replies, k + 1);
    }
  }

  /** The writer goroutines `callWriters` launches, from the `k`-th writer on. */
  function WriteFrom(writers: seq<Writer>, m: Message, k: nat): seq<Event>
    decreases |writers| - k
  {
    if k >= |writers| then [] else [Written(k, m)] + WriteFrom(writers, m, k + 1)
  }

  lemma {:induction false} WriteFromHandsEachTheRecord(writers: seq<Writer>, m: Message, k: nat)
    requires k <= |writers|
    ensures var evs := WriteFrom(writers, m, k);
      && |evs| == |writers| - k
      && forall j :: k <= j < |writers| ==> evs[j - k] == Written(j, m)
    decreases |writers| - k
  {
    if k < |writers| {
      WriteFromHandsEachTheRecord(writers, m, k + 1);
    }
  }

  // ---------------------------------------------------------------------------
  // The probe loop as a function of its ticks.

  /** The parts of a monitor and a watcher the loop reads. */
  datatype Setup = Setup(url: string, retry: int, interval: int, notifiers: seq<N.Notifier>, writers: seq<Writer>)

  /**
   * One iteration's events: the request, the backoff sleep, the alerts, the
   * writes and, after a success, the closing sleep.
   */
  function IterationEvents(s: Setup, t: Transition, p: Probe, replies: seq<Option<string>>): seq<Event>
  {
    [Request(s.url, p.timestamp)]
    + (if t.backoff then [Sleep(s.interval)] else [])
    + (if t.notify then NotifyFrom(s.notifiers, t.record, replies, 0) else [])
    + WriteFrom(s.writers, t.record, 0)
    + (if t.pause then [Sleep(s.interval)] else [])
  }

  datatype RunResult = RunResult(state: State, counter: nat, events: seq<Event>, stopped: bool)

  /** Probes made before the first cancellation. */
  function Probes(ticks: seq<Tick>): nat
  {
    if ticks == [] || ticks[0].Cancelled? then 0 else 1 + Probes(ticks[1..])
  }

  /**
   * The loop from state `st` and counter `counter` over `ticks`; `stopped`
   * says it returned because cancellation was observed.
   */
  function Run(s: Setup, st: State, counter: nat, ticks: seq<Tick>): (r: RunResult)
    ensures Consistent(s.retry, st, counter) ==> Consistent(s.retry, r.state, r.counter)
    ensures r.stopped <==> Cancelled in ticks
    ensures r.state == INIT <==> st == INIT && Probes(ticks) == 0
    decreases |ticks|
  {
    if ticks == [] then RunResult(st, counter, [], false)
    else match ticks[0]
      case Cancelled => RunResult(st, counter, [], true)
      case Attempt(p, replies) =>
        var t := Next(s.retry, s.url, st, counter, p);
        var rest := Run(s, t.state, t.counter, ticks[1..]);
        assert ticks == [ticks[0]] + ticks[1..];
        RunResult(rest.state, rest.counter, IterationEvents(s, t, p, replies) + rest.events, rest.stopped)
  }

  /** One attempt unfolds into its iteration's events followed by the rest of the run. */
  lemma RunStep(s: Setup, st: State, counter: nat, ticks: seq<Tick>)
    requires ticks != [] && ticks[0].Attempt?
    ensures var t := Next(s.retry, s.url, st, counter, ticks[0].probe);
      var rest := Run(s, t.state, t.counter, ticks[1..]);
      Run(s, st, counter, ticks)
        == RunResult(rest.state, rest.counter, IterationEvents(s, t, ticks[0].probe, ticks[0].replies) + rest.events, rest.stopped)
  {
  }

  /** A run resumed after the events `done` have already happened. */
  function Resume(done: seq<Event>, rest: RunResult): RunResult
  {
    RunResult(rest.state, rest.counter, done + rest.events, rest.stopped)
  }

  /** A run whose next tick is a cancellation stops at once, with nothing more done. */
  lemma RunCancelled(s: Setup, st: State, counter: nat, ticks: seq<Tick>)
    requires ticks != [] && ticks[0].Cancelled?
    ensures Run(s, st, counter, ticks) == RunResult(st, counter, [], true)
  {
  }

  lemma ResumeStep(s: Setup, st: State, counter: nat, ticks: seq<Tick>, done: seq<Event>)
    requires ticks != [] && ticks[0].Attempt?
    ensures var t := Next(s.retry, s.url, st, counter, ticks[0].probe);
      Resume(done, Run(s, st, counter, ticks))
        == Resume(done + IterationEvents(s, t, ticks[0].probe, ticks[0].replies), Run(s, t.state, t.counter, ticks[1..]))
  {
    RunStep(s, st, counter, ticks);
  }

  // ---------------------------------------------------------------------------
  // Counting events.

  datatype Kind = RequestKind | SleepKind | NotifyKind | WriteKind

  function KindOf(e: Event): Kind
  {
    match e
    case Request(_, _) => RequestKind
    case Sleep(_) => SleepKind
    case Notified(_, _, _) => NotifyKind
    case Written(_, _) => WriteKind
  }

  function Count(evs: seq<Event>, k: Kind): nat
  {
    if evs == [] then 0 else (if KindOf(evs[0]) == k then 1 else 0) + Count(evs[1..], k)
  }

  lemma {:induction false} CountAppend(a: seq<Event>, b: seq<Event>, k: Kind)
    ensures Count(a + b, k) == Count(a, k) + Count(b, k)
  {
    if a == [] {
      assert a + b == b;
    } else {
      assert (a + b)[0] == a[0];
      assert (a + b)[1..] == a[1..] + b;
      CountAppend(a[1..], b, k);
    }
  }

  lemma {:induction false} CountNotifyFrom(notifiers: seq<N.Notifier>, m: Message, replies: seq<Option<string>>, i: nat, k: Kind)
    requires i <= |notifiers|
    ensures Count(NotifyFrom(notifiers, m, replies, i), k) == if k == NotifyKind then |notifiers| - i else 0
    decreases |notifiers| - i
  {
    if i < |notifiers| {
      var e := Notified(i, m, N.Notify(notifiers[i], m, ReplyAt(replies, i)));
      CountAppend([e], NotifyFrom(notifiers, m, replies, i + 1), k);
      CountNotifyFrom(notifiers, m, replies, i + 1, k);
    }
  }

  lemma {:induction false} CountWriteFrom(writers: seq<Writer>, m: Message, j: nat, k: Kind)
    requires j <= |writers|
    ensures Count(WriteFrom(writers, m, j), k) == if k == WriteKind then |writers| - j else 0
    decreases |writers| - j
  {
    if j < |writers| {
      CountAppend([Written(j, m)], WriteFrom(writers, m, j + 1), k);
      CountWriteFrom(writers, m, j + 1, k);
    }
  }

  lemma CountSmall(e: Event, k: Kind)
    ensures Count([], k) == 0
    ensures Count([e], k) == if KindOf(e) == k then 1 else 0
  {
    assert [e][1..] == [];
  }

  /** One iteration makes one request, hands the record to every writer, and alerts every notifier or none. */
  lemma CountIteration(s: Setup, t: Transition, p: Probe, replies: seq<Option<string>>, k: Kind)
    ensures Count(IterationEvents(s, t, p, replies), k)
         == (if k == RequestKind then 1 else 0)
          + (if k == SleepKind then SleepsBeforeNextRequest(t) else 0)
          + (if k == NotifyKind && t.notify then |s.notifiers| else 0)
          + (if k == WriteKind then |s.writers| else 0)
  {
    var req: seq<Event> := [Request(s.url, p.timestamp)];
    var back: seq<Event> := if t.backoff then [Sleep(s.interval)] else [];
    var alerts := if t.notify then NotifyFrom(s.notifiers, t.record, replies, 0) else [];
    var writes := WriteFrom(s.writers, t.record, 0);
    var pause: seq<Event> := if t.pause then [Sleep(s.interval)] else [];
    assert IterationEvents(s, t, p, replies) == req + back + alerts + writes + pause;
    CountAppend(req, back, k);
    CountAppend(req + back, alerts, k);
    CountAppend(req + back + alerts, writes, k);
    CountAppend(req + back + alerts + writes, pause, k);
    CountSmall(Request(s.url, p.timestamp), k);
    CountSmall(Sleep(s.interval), k);
    CountNotifyFrom(s.notifiers, t.record, replies, 0, k);
    CountWriteFrom(s.writers, t.record, 0, k);
  }

  /** Over a run, one request per probe. */
  lemma {:induction false} RunRequestsEveryProbe(s: Setup, st: State, counter: nat, ticks: seq<Tick>)
    ensures Count(Run(s, st, counter, ticks).events, RequestKind) == Probes(ticks)
    decreases |ticks|
  {
    if ticks != [] && ticks[0].Attempt? {
      var p, replies := ticks[0].probe, ticks[0].replies;
      var t := Next(s.retry, s.url, st, counter, p);
      var rest := Run(s, t.state, t.counter, ticks[1..]);
      RunRequestsEveryProbe(s, t.state, t.counter, ticks[1..]);
      var evs := IterationEvents(s, t, p, replies);
      RunStep(s, st, counter, ticks);
      CountIteration(s, t, p, replies, RequestKind);
      CountAppend(evs, rest.events, RequestKind);
    }
  }

  lemma MultiplySuccessor(n: nat, w: nat)
    ensures (n + 1) * w == w + n * w
  {
  }

  /**
   * Over a run, with `w` writers, exactly `n * w` writer calls for `n`
   * probes, whether or not anything was notified.
   */
  lemma {:induction false} RunWritesEveryProbe(s: Setup, st: State, counter: nat, ticks: seq<Tick>)
    ensures Count(Run(s, st, counter, ticks).events, WriteKind) == Probes(ticks) * |s.writers|
    decreases |ticks|
  {
    if ticks != [] && ticks[0].Attempt? {
      var p, replies := ticks[0].probe, ticks[0].replies;
      var t := Next(s.retry, s.url, st, counter, p);
      var rest := Run(s, t.state, t.counter, ticks[1..]);
      RunWritesEveryProbe(s, t.state, t.counter, ticks[1..]);
      var evs := IterationEvents(s, t, p, replies);
      RunStep(s, st, counter, ticks);
      assert Probes(ticks) == Probes(ticks[1..]) + 1;
      MultiplySuccessor(Probes(ticks[1..]), |s.writers|);
      CountIteration(s, t, p, replies, WriteKind);
      CountAppend(evs, rest.events, WriteKind);
    }
  }

  // ---------------------------------------------------------------------------
  // Debounce.

  /** The records one notifier received, in order. */
  function AlertsTo(evs: seq<Event>, i: nat): seq<Message>
  {
    if evs == [] then []
    else (if evs[0].Notified? && evs[0].notifier == i then [evs[0].record] else []) + AlertsTo(evs[1..], i)
  }

  lemma {:induction false} AlertsToAppend(a: seq<Event>, b: seq<Event>, i: nat)
    ensures AlertsTo(a + b, i) == AlertsTo(a, i) + AlertsTo(b, i)
  {
    if a == [] {
      assert a + b == b;
    } else {
      assert (a + b)[0] == a[0];
      assert (a + b)[1..] == a[1..] + b;
      AlertsToAppend(a[1..], b, i);
    }
  }

  lemma {:induction false} AlertsToNotifyFrom(notifiers: seq<N.Notifier>, m: Message, replies: seq<Option<string>>, k: nat, i: nat)
    requires k <= |notifiers|
    ensures AlertsTo(NotifyFrom(notifiers, m, replies, k), i) == if k <= i < |notifiers| then [m] else []
    decreases |notifiers| - k
  {
    if k < |notifiers| {
      var e := Notified(k, m, N.Notify(notifiers[k], m, ReplyAt(replies, k)));
      AlertsToAppend([e], NotifyFrom(notifiers, m, replies, k + 1), i);
      AlertsToNotifyFrom(notifiers, m, replies, k + 1, i);
    }
  }

  lemma {:induction false} AlertsToWriteFrom(writers: seq<Writer>, m: Message, j: nat, i: nat)
    requires j <= |writers|
    ensures AlertsTo(WriteFrom(writers, m, j), i) == []
    decreases |writers| - j
  {
    if j < |writers| {
      AlertsToAppend([Written(j, m)], WriteFrom(writers, m, j + 1), i);
      AlertsToWriteFrom(writers, m, j + 1, i);
    }
  }

  lemma AlertsToSmall(e: Event, i: nat)
    requires !e.Notified?
    ensures AlertsTo([], i) == []
    ensures AlertsTo([e], i) == []
  {
    assert [e][1..] == [];
  }

  /** A notifier receives an iteration's record exactly when the iteration alerts. */
  lemma AlertsToIteration(s: Setup, t: Transition, p: Probe, replies: seq<Option<string>>, i: nat)
    requires i < |s.notifiers|
    ensures AlertsTo(IterationEvents(s, t, p, replies), i) == if t.notify then [t.record] else []
  {
    var req: seq<Event> := [Request(s.url, p.timestamp)];
    var back: seq<Event> := if t.backoff then [Sleep(s.interval)] else [];
    var alerts := if t.notify then NotifyFrom(s.notifiers, t.record, replies, 0) else [];
    var writes := WriteFrom(s.writers, t.record, 0);
    var pause: seq<Event> := if t.pause then [Sleep(s.interval)] else [];
    assert IterationEvents(s, t, p, replies) == req + back + alerts + writes + pause;
    AlertsToAppend(req, back, i);
    AlertsToAppend(req + back, alerts, i);
    AlertsToAppend(req + back + alerts, writes, i);
    AlertsToAppend(req + back + alerts + writes, pause, i);
    AlertsToSmall(Request(s.url, p.timestamp), i);
    AlertsToSmall(Sleep(s.interval), i);
    AlertsToNotifyFrom(s.notifiers, t.record, replies, 0, i);
    AlertsToWriteFrom(s.writers, t.record, 0, i);
    assert AlertsTo(req, i) == [] && AlertsTo(back, i) == [] && AlertsTo(pause, i) == [];
    assert AlertsTo(alerts, i) == if t.notify then [t.record] else [];
  }

  /** Alert statuses alternate, starting with `first`. */
  ghost predicate Alternate(ms: seq<Message>, first: string)
  {
    forall j :: 0 <= j < |ms| ==> ms[j].status == (if j % 2 == 0 then first else Flip(first))
  }

  function Flip(status: string): string
  {
    if status == "ERROR" then "OK" else "ERROR"
  }

  /** The status of the next alert due from state `st`. */
  function Due(st: State): string
  {
    if st == ERROR then "OK" else "ERROR"
  }

  lemma AlternateCons(m: Message, ms: seq<Message>, first: string)
    requires first == "ERROR" || first == "OK"
    requires m.status == first && Alternate(ms, Flip(first))
    ensures Alternate([m] + ms, first)
  {
    forall j | 0 <= j < |[m] + ms|
      ensures ([m] + ms)[j].status == (if j % 2 == 0 then first else Flip(first))
    {
      if j > 0 {
        assert ([m] + ms)[j] == ms[j - 1];
        assert Flip(Flip(first)) == first;
      }
    }
  }

  /**
   * Every notifier sees outage and recovery alerts strictly alternating: no
   * two outage alerts without a recovery between them and vice versa, the
   * first one being an outage unless the run starts in ERROR.
   */
  lemma {:induction false} AlertsAlternate(s: Setup, st: State, counter: nat, ticks: seq<Tick>, i: nat)
    requires Consistent(s.retry, st, counter)
    requires i < |s.notifiers|
    ensures Alternate(AlertsTo(Run(s, st, counter, ticks).events, i), Due(st))
    decreases |ticks|
  {
    if ticks != [] && ticks[0].Attempt? {
      var p, replies := ticks[0].probe, ticks[0].replies;
      var t := Next(s.retry, s.url, st, counter, p);
      var rest := Run(s, t.state, t.counter, ticks[1..]);
      AlertsAlternate(s, t.state, t.counter, ticks[1..], i);
      RunStep(s, st, counter, ticks);
      AlertsToIteration(s, t, p, replies, i);
      AlertsToAppend(IterationEvents(s, t, p, replies), rest.events, i);
      if t.notify {
        assert t.record.status == Due(st);
        assert Due(t.state) == Flip(Due(st));
        AlternateCons(t.record, AlertsTo(rest.events, i), Due(st));
      } else {
        assert Due(t.state) == Due(st);
        assert [] + AlertsTo(rest.events, i) == AlertsTo(rest.events, i);
      }
    }
  }

  /** No attempt after the first one fails twice in a row. */
  ghost predicate NoTwoFailuresInARow(ticks: seq<Tick>)
  {
    forall j :: 0 <= j < |ticks| - 1 && ticks[j].Attempt? && Failed(ticks[j].probe.outcome) ==>
      !(ticks[j + 1].Attempt? && Failed(ticks[j + 1].probe.outcome))
  }

  /**
   * With a retry budget of at least one, an outcome stream that never fails
   * twice in a row only moves between OK and PENDING and never alerts.
   */
  lemma {:induction false} FlappingIsSilent(s: Setup, st: State, counter: nat, ticks: seq<Tick>)
    requires s.retry >= 1
    requires st == INIT || st == OK || (st == PENDING && counter == 1)
    requires st != PENDING ==> counter == 0
    requires st == PENDING && ticks != [] && ticks[0].Attempt? ==> !Failed(ticks[0].probe.outcome)
    requires NoTwoFailuresInARow(ticks)
    ensures Run(s, st, counter, ticks).state != ERROR
    ensures Count(Run(s, st, counter, ticks).events, NotifyKind) == 0
    decreases |ticks|
  {
    if ticks != [] && ticks[0].Attempt? {
      var p, replies := ticks[0].probe, ticks[0].replies;
      var t := Next(s.retry, s.url, st, counter, p);
      var rest := Run(s, t.state, t.counter, ticks[1..]);
      assert NoTwoFailuresInARow(ticks[1..]) by {
        forall j | 0 <= j < |ticks[1..]| - 1 && ticks[1..][j].Attempt? && Failed(ticks[1..][j].probe.outcome)
          ensures !(ticks[1..][j + 1].Attempt? && Failed(ticks[1..][j + 1].probe.outcome))
        {
          assert ticks[1..][j] == ticks[j + 1] && ticks[1..][j + 1] == ticks[j + 2];
        }
      }
      if Failed(p.outcome) && |ticks| > 1 {
        assert ticks[1..][0] == ticks[1];
      }
      FlappingIsSilent(s, t.state, t.counter, ticks[1..]);
      var evs := IterationEvents(s, t, p, replies);
      RunStep(s, st, counter, ticks);
      CountIteration(s, t, p, replies, NotifyKind);
      CountAppend(evs, rest.events, NotifyKind);
    }
  }

  // ---------------------------------------------------------------------------
  // Worked scenarios, one transition at a time.

  /** Budget 2, three failures from INIT: PENDING, PENDING, then ERROR with the only alert. */
  lemma ScenarioThreeFailures(url: string, p1: Probe, p2: Probe, p3: Probe)
    requires Failed(p1.outcome) && Failed(p2.outcome) && Failed(p3.outcome)
    ensures var t1 := Next(2, url, INIT, 0, p1);
      var t2 := Next(2, url, t1.state, t1.counter, p2);
      var t3 := Next(2, url, t2.state, t2.counter, p3);
      && [t1.state, t2.state, t3.state] == [PENDING, PENDING, ERROR]
      && [t1.notify, t2.notify, t3.notify] == [false, false, true]
  {
  }

  /** From a confirmed outage a single success recovers, alerts once and resets the counter. */
  lemma ScenarioRecovery(retry: int, url: string, counter: nat, p: Probe)
    requires Consistent(retry, ERROR, counter) && !Failed(p.outcome)
    ensures var t := Next(retry, url, ERROR, counter, p);
      t.state == OK && t.notify && t.counter == 0 && t.record.status == "OK"
  {
  }

  /** With budget 0 the first failure is already a confirmed outage. */
  lemma ScenarioZeroBudget(url: string, p: Probe)
    requires Failed(p.outcome)
    ensures var t := Next(0, url, INIT, 0, p);
      t.state == ERROR && t.notify
  {
  }

  lemma ConcatFive(o: seq<Event>, a: seq<Event>, b: seq<Event>, c: seq<Event>, d: seq<Event>, e: seq<Event>)
    ensures o + a + b + c + d + e == o + (a + b + c + d + e)
  {
  }

  // ---------------------------------------------------------------------------
  // The watcher object.

  /** A slice value that may be nil. */
  datatype Slice<T> = Nil | Items(items: seq<T>)

  /** `len` of a slice; a nil slice has length 0. */
  function Len<T>(s: Slice<T>): nat
  {
    if s.Nil? then 0 else |s.items|
  }

  datatype RuntimePanic = IndexOutOfRange(index: int, length: int)

  /**
   * The element assignment `s[i] = v`: it panics unless `i` is within the
   * slice's length, and otherwise replaces element `i` alone.
   */
  function StoreAt<T>(s: Slice<T>, i: int, v: T): (r: Result<seq<T>, RuntimePanic>)
    ensures r.Ok? <==> 0 <= i < Len(s)
    ensures r.Err? ==> r.error == IndexOutOfRange(i, Len(s))
    ensures r.Ok? ==> |r.value| == Len(s) && r.value[i] == v
    ensures r.Ok? ==> forall j :: 0 <= j < Len(s) && j != i ==> r.value[j] == s.items[j]
  {
    if 0 <= i < Len(s) then Ok(s.items[i := v]) else Err(IndexOutOfRange(i, Len(s)))
  }

  /** `Watch`'s default-writer guard as written: when the slice is nil it stores into index 0. */
  function WritersAsWritten(writers: Slice<Writer>): (r: Result<seq<Writer>, RuntimePanic>)
    ensures writers.Items? ==> r == Ok(writers.items)
  {
    if writers.Nil? then StoreAt(writers, 0, ConsoleWriter) else Ok(writers.items)
  }

  /**
   * The guard's own branch is the only way to reach the store, and the store
   * into a nil slice is out of range: `Watch` panics exactly when the writers
   * are left unset, and then before any monitor starts.
   */
  lemma NilWritersPanic(writers: Slice<Writer>)
    ensures WritersAsWritten(writers).Err? <==> writers.Nil?
    ensures writers.Nil? ==> WritersAsWritten(writers) == Err(IndexOutOfRange(0, 0))
  {
  }

  /**
   * The guard as intended: an unset writers slice means records go to the
   * console. A non-nil slice, even an empty one, is kept as given, as the
   * guard tests only for nil.
   */
  function DefaultWriters(writers: Slice<Writer>): (ws: seq<Writer>)
    ensures writers.Nil? ==> ws == [ConsoleWriter]
    ensures writers.Items? ==> ws == writers.items
    ensures WritersAsWritten(writers).Ok? ==> ws == WritersAsWritten(writers).value
    ensures ws == [] <==> writers == Items([])
  {
    if writers.Nil? then [ConsoleWriter] else writers.items
  }

  class Watcher {
    const monitors: seq<Monitor>
    const notifiers: seq<N.Notifier>
    const writers: seq<Writer>
    /** Everything the watcher's loops have done so far. */
    var events: seq<Event>

    /** A watcher as `Watch` prepares it, before any loop starts. */
    constructor (monitors: seq<Monitor>, notifiers: seq<N.Notifier>, writers: Slice<Writer>)
      ensures this.monitors == monitors && this.notifiers == notifiers
      ensures this.writers == DefaultWriters(writers) && events == []
    {
      this.monitors := monitors;
      this.notifiers := notifiers;
      this.writers := DefaultWriters(writers);
      events := [];
    }

    function SetupOf(m: Monitor): Setup
    {
      Setup(m.url, m.retry, m.interval, notifiers, writers)
    }

    /** Hands `m` to every notifier in order; a failing notifier is only logged. */
    method CallNotifiers(m: Message, replies: seq<Option<string>>)
      modifies this`events
      ensures events == old(events) + NotifyFrom(notifiers, m, replies, 0)
      ensures |events| == |old(events)| + |notifiers|
      ensures forall i :: 0 <= i < |notifiers| ==>
        events[|old(events)| + i] == Notified(i, m, N.Notify(notifiers[i], m, ReplyAt(replies, i)))
    {
      var i := 0;
      while i < |notifiers|
        invariant 0 <= i <= |notifiers|
        invariant events + NotifyFrom(notifiers, m, replies, i) == old(events) + NotifyFrom(notifiers, m, replies, 0)
      {
        var err := N.Notify(notifiers[i], m, ReplyAt(replies, i));
        events := events + [Notified(i, m, err)];
        i := i + 1;
      }
      NotifyFromCallsEachOnce(notifiers, m, replies, 0);
    }

    /** Launches one write of the record per writer. */
    method CallWriters(m: Message)
      modifies this`events
      ensures events == old(events) + WriteFrom(writers, m, 0)
      ensures |events| == |old(events)| + |writers|
      ensures forall j :: 0 <= j < |writers| ==> events[|old(events)| + j] == Written(j, m)
    {
      var j := 0;
      while j < |writers|
        invariant 0 <= j <= |writers|
        invariant events + WriteFrom(writers, m, j) == old(events) + WriteFrom(writers, m, 0)
      {
        events := events + [Written(j, m)];
        j := j + 1;
      }
      WriteFromHandsEachTheRecord(writers, m, 0);
    }

    /**
     * The tail of a failed iteration, shared by the transport-error and the
     * non-200 branches: the new state, the alert on entering ERROR, the writes.
     */
    method Fail(m: Monitor, lastState: State, msg: Message, replies: seq<Option<string>>, counter: nat)
      modifies this`events, m`state
      ensures m.state == (if counter > m.retry then ERROR else PENDING)
      ensures events == old(events)
        + (if counter > m.retry && lastState != ERROR then NotifyFrom(notifiers, msg, replies, 0) else [])
        + WriteFrom(writers, msg, 0)
    {
      if counter > m.retry {
        m.state := ERROR;
        if lastState != ERROR {
          CallNotifiers(msg, replies);
        }
      } else {
        m.state := PENDING;
      }
      CallWriters(msg);
    }

    /** The tail of a successful iteration: OK, the recovery alert, the writes, the closing sleep. */
    method Succeed(m: Monitor, lastState: State, msg: Message, replies: seq<Option<string>>)
      modifies this`events, m`state
      ensures m.state == OK
      ensures events == old(events)
        + (if lastState == ERROR then NotifyFrom(notifiers, msg, replies, 0) else [])
        + WriteFrom(writers, msg, 0)
        + [Sleep(m.interval)]
    {
      m.state := OK;
      if lastState == ERROR {
        CallNotifiers(msg, replies);
      }
      CallWriters(msg);
      events := events + [Sleep(m.interval)];
    }

    /**
     * One pass of `watchMonitor`'s loop body after the cancellation check:
     * request, backoff, classification, alert, write and closing sleep.
     * `retryCounter` is the loop's local failure counter.
     */
    method Iterate(m: Monitor, p: Probe, replies: seq<Option<string>>, retryCounter: nat) returns (counter: nat)
      modifies this`events, m`state
      ensures var t := Next(m.retry, m.url, old(m.state), retryCounter, p);
        && m.state == t.state && counter == t.counter
        && events == old(events) + IterationEvents(SetupOf(m), t, p, replies)
    {
      ghost var t := Next(m.retry, m.url, m.state, retryCounter, p);
      ghost var s := SetupOf(m);
      ghost var alerts := if t.notify then NotifyFrom(notifiers, t.record, replies, 0) else [];
      ghost var writes := WriteFrom(writers, t.record, 0);
      ghost var pause: seq<Event> := if t.pause then [Sleep(m.interval)] else [];
      events := events + [Request(m.url, p.timestamp)];
      var lastState := m.state;
      if lastState == ERROR || lastState == PENDING {
        events := events + [Sleep(m.interval)];
      }
      ghost var head := events;
      var latency := p.elapsedNs / NanosPerMilli;
      if p.outcome.TransportError? {
        counter := retryCounter + 1;
        var msg := Message(p.timestamp, StateString(ERROR), latency, m.url, p.outcome.err);
        assert msg == t.record;
        Fail(m, lastState, msg, replies, counter);
      } else if p.outcome.code != StatusOK {
        counter := retryCounter + 1;
        var msg := Message(p.timestamp, StateString(ERROR), latency, m.url, p.outcome.status);
        assert msg == t.record;
        Fail(m, lastState, msg, replies, counter);
      } else {
        counter := 0;
        var msg := Message(p.timestamp, StateString(OK), latency, m.url, p.outcome.status);
        assert msg == t.record;
        Succeed(m, lastState, msg, replies);
      }
      ghost var back: seq<Event> := if t.backoff then [Sleep(m.interval)] else [];
      assert head == old(events) + [Request(m.url, p.timestamp)] + back;
      assert events == head + alerts + writes + pause;
      assert IterationEvents(s, t, p, replies) == [Request(m.url, p.timestamp)] + back + alerts + writes + pause;
      ConcatFive(old(events), [Request(m.url, p.timestamp)], back, alerts, writes, pause);
    }

    /**
     * `watchMonitor` for one monitor over a finite stretch of ticks; it
     * returns `true` when it stopped because cancellation was observed.
     */
    method WatchMonitor(m: Monitor, ticks: seq<Tick>) returns (stopped: bool)
      requires m in monitors
      modifies this`events, m`state
      ensures var r := Run(SetupOf(m), INIT, 0, ticks);
        m.state == r.state && events == old(events) + r.events && stopped == r.stopped
      ensures Consistent(m.retry, m.state, Run(SetupOf(m), INIT, 0, ticks).counter)
      ensures m.state == INIT <==> Probes(ticks) == 0
    {
      ghost var s := SetupOf(m);
      ghost var whole := Resume(events, Run(s, INIT, 0, ticks));
      var retryCounter: nat := 0;
      m.state := INIT;
      var i := 0;
      assert ticks[i..] == ticks;
      while i < |ticks|
        invariant 0 <= i <= |ticks|
        invariant whole == Resume(events, Run(s, m.state, retryCounter, ticks[i..]))
      {
        if ticks[i].Cancelled? {
          RunCancelled(s, m.state, retryCounter, ticks[i..]);
          return true;
        }
        assert ticks[i..][1..] == ticks[i + 1..];
        ResumeStep(s, m.state, retryCounter, ticks[i..], events);
        retryCounter := Iterate(m, ticks[i].probe, ticks[i].replies, retryCounter);
        i := i + 1;
      }
      assert ticks[i..] == [];
      return false;
    }
  }
}
