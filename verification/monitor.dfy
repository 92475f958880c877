/**
 * The per-target health state machine (monitor/monitor.go): the `state`
 * enumeration, the `Monitor` record, and one iteration of the probe loop as a
 * pure transition from the previous state and failure counter.
 */
module Monitor {
  import opened Message

  /** Health of one target, in the source's declaration order (INIT is 0). */
  datatype State = INIT | ERROR | PENDING | OK

  /** The integer value of each state (`iota`). */
  function Code(s: State): (c: nat)
    ensures c < 4
    ensures c == 0 <==> s == INIT
    ensures c == 1 <==> s == ERROR
    ensures c == 2 <==> s == PENDING
    ensures c == 3 <==> s == OK
  {
    match s
    case INIT => 0
    case ERROR => 1
    case PENDING => 2
    case OK => 3
  }

  /** `state.String`; INIT has no case of its own and falls into the default. */
  function StateString(s: State): (r: string)
    ensures r == "UNKNOWN STATE" <==> s == INIT
  {
    match s
    case ERROR => "ERROR"
    case OK => "OK"
    case PENDING => "PENDING"
    case INIT => "UNKNOWN STATE"
  }

  lemma CodeAndStringAreInjective(s: State, t: State)
    ensures Code(s) == Code(t) ==> s == t
    ensures StateString(s) == StateString(t) ==> s == t
  {
  }

  /**
   * A monitored endpoint. URL, timeout, retry budget and interval are set at
   * creation; `status`, `state` and `errorMsg` are runtime fields. Durations
   * are integer nanoseconds.
   */
  class Monitor {
    const url: string
    const timeout: int
    const retry: int
    const interval: int
    var status: string
    var state: State
    var errorMsg: string

    /** A monitor with its runtime fields at Go's zero values. */
    constructor (url: string, timeout: int, retry: int, interval: int)
      ensures this.url == url && this.timeout == timeout
      ensures this.retry == retry && this.interval == interval
      ensures status == "" && state == INIT && errorMsg == ""
    {
      this.url := url;
      this.timeout := timeout;
      this.retry := retry;
      this.interval := interval;
      status := "";
      state := INIT;
      errorMsg := "";
    }
  }

  // ---------------------------------------------------------------------------
  // One probe.

  /** What one GET produced: a transport error, or a response with its code and status text. */
  datatype Outcome = TransportError(err: string) | Response(code: int, status: string)

  const StatusOK := 200
  const NanosPerMilli := 1_000_000

  /** A transport error and every status other than 200 count as failures. */
  function Failed(o: Outcome): (failed: bool)
    ensures !failed <==> o.Response? && o.code == StatusOK
  {
    o.TransportError? || o.code != StatusOK
  }

  /** The text a record carries: the error description, or the HTTP status text. */
  function Text(o: Outcome): string
  {
    match o
    case TransportError(err) => err
    case Response(_, status) => status
  }

  /**
   * One probe as the loop observes it: the formatted start time, the elapsed
   * time in nanoseconds (from a monotonic clock, so never negative) and the outcome.
   */
  datatype Probe = Probe(timestamp: string, elapsedNs: nat, outcome: Outcome)

  /**
   * What one iteration decides: the new state and counter, whether notifiers
   * are called, the record written, whether the "give it a breath" sleep
   * follows the request (`backoff`) and whether the iteration ends with a
   * sleep (`pause`).
   */
  datatype Transition = Transition(
    state: State,
    counter: nat,
    notify: bool,
    record: Message,
    backoff: bool,
    pause: bool)

  /** The state-vs-counter invariant of the loop. */
  predicate Consistent(retry: int, s: State, counter: nat)
  {
    match s
    case INIT => counter == 0
    case OK => counter == 0
    case PENDING => 1 <= counter <= retry
    case ERROR => counter > retry
  }

  /** Alert-worthy transitions: into ERROR from elsewhere, or from ERROR to OK. */
  predicate IsEdge(from: State, to: State)
  {
    (from != ERROR && to == ERROR) || (from == ERROR && to == OK)
  }

  /** One loop iteration after the request has returned. */
  function Next(retry: int, url: string, last: State, counter: nat, p: Probe): (t: Transition)
    ensures t.state != INIT
    ensures Consistent(retry, t.state, t.counter)
    ensures t.notify <==> IsEdge(last, t.state)
    ensures t.backoff <==> (last == ERROR || last == PENDING)
    ensures t.pause <==> t.state == OK
    ensures t.record.status == StateString(if Failed(p.outcome) then ERROR else OK)
    ensures t.record.url == url && t.record.timestamp == p.timestamp
    ensures t.record.message == Text(p.outcome)
    ensures t.record.latencyMs * NanosPerMilli <= p.elapsedNs < (t.record.latencyMs + 1) * NanosPerMilli
  {
    var backoff := last == ERROR || last == PENDING;
    var latency := p.elapsedNs / NanosPerMilli;
    if Failed(p.outcome) then
      var c := counter + 1;
      var s := if c > retry then ERROR else PENDING;
      Transition(s, c, s == ERROR && last != ERROR,
                 Message(p.timestamp, StateString(ERROR), latency, url, Text(p.outcome)),
                 backoff, false)
    else
      Transition(OK, 0, last == ERROR,
                 Message(p.timestamp, StateString(OK), latency, url, Text(p.outcome)),
                 backoff, true)
  }

  /** A failure adds exactly one to the counter; a 200 response resets it. */
  lemma NextCounter(retry: int, url: string, last: State, counter: nat, p: Probe)
    ensures var t := Next(retry, url, last, counter, p);
      && (Failed(p.outcome) ==> t.counter == counter + 1 && (t.state == ERROR <==> t.counter > retry))
      && (!Failed(p.outcome) ==> t.counter == 0 && t.state == OK)
  {
  }

  // ---------------------------------------------------------------------------
  // The transition table, written out independently of `Next`.

  datatype Verdict = Success | FailureWithinBudget | FailureOverBudget

  function Classify(retry: int, counter: nat, o: Outcome): Verdict
  {
    if !Failed(o) then Success
    else if counter + 1 > retry then FailureOverBudget
    else FailureWithinBudget
  }

  /** The (new state, notify?) row for each (state, verdict) pair. */
  function Table(from: State, v: Verdict): (State, bool)
  {
    match (from, v)
    case (INIT, Success) => (OK, false)
    case (INIT, FailureWithinBudget) => (PENDING, false)
    case (INIT, FailureOverBudget) => (ERROR, true)
    case (PENDING, Success) => (OK, false)
    case (PENDING, FailureWithinBudget) => (PENDING, false)
    case (PENDING, FailureOverBudget) => (ERROR, true)
    case (ERROR, Success) => (OK, true)
    case (ERROR, _) => (ERROR, false)
    case (OK, Success) => (OK, false)
    case (OK, FailureWithinBudget) => (PENDING, false)
    case (OK, FailureOverBudget) => (ERROR, true)
  }

  /** From any reachable (state, counter) pair the loop follows the table. */
  lemma NextFollowsTable(retry: int, url: string, last: State, counter: nat, p: Probe)
    requires Consistent(retry, last, counter)
    ensures var t := Next(retry, url, last, counter, p);
      (t.state, t.notify) == Table(last, Classify(retry, counter, p.outcome))
  {
  }

  /**
   * Sleeps between this iteration's request and the next one: the backoff
   * sleep (which the source places after the request) and the closing sleep
   * of a success. None at all exactly when a failure follows INIT or OK; two
   * when a success follows PENDING or ERROR.
   */
  function SleepsBeforeNextRequest(t: Transition): nat
  {
    (if t.backoff then 1 else 0) + (if t.pause then 1 else 0)
  }

  lemma RequestsBackToBackOnlyAfterFirstFailure(retry: int, url: string, last: State, counter: nat, p: Probe)
    ensures var t := Next(retry, url, last, counter, p);
      && (SleepsBeforeNextRequest(t) == 0 <==> Failed(p.outcome) && (last == INIT || last == OK))
      && (SleepsBeforeNextRequest(t) == 2 <==> !Failed(p.outcome) && (last == ERROR || last == PENDING))
  {
  }
}
