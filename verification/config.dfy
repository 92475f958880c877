/**
 * Turning the already-read configuration entries into monitors and notifiers
 * (config/config.go, `LoadMonitors` and `LoadNotifiers`). The entries are
 * passed in rather than read from the package-level slices.
 */
module Config {
  import opened Wrappers
  import opened Notifier
  import Monitor

  /** One `monitors` entry; durations are integer nanoseconds. */
  datatype MonitorConfig = MonitorConfig(url: string, retry: int, interval: int, timeout: int)

  /** One `notifiers` entry. */
  datatype NotifierConfig = NotifierConfig(name: string, options: Options)

  /** One fresh monitor per entry, in order, configuration copied and runtime fields at zero values. */
  method LoadMonitors(configs: seq<MonitorConfig>) returns (monitors: seq<Monitor.Monitor>)
    ensures |monitors| == |configs|
    ensures forall i :: 0 <= i < |configs| ==>
      && fresh(monitors[i])
      && monitors[i].url == configs[i].url
      && monitors[i].timeout == configs[i].timeout
      && monitors[i].retry == configs[i].retry
      && monitors[i].interval == configs[i].interval
      && monitors[i].status == "" && monitors[i].state == Monitor.INIT && monitors[i].errorMsg == ""
    ensures forall i, j :: 0 <= i < j < |monitors| ==> monitors[i] != monitors[j]
  {
    monitors := [];
    for k := 0 to |configs|
      invariant |monitors| == k
      invariant forall i :: 0 <= i < k ==>
        && fresh(monitors[i])
        && monitors[i].url == configs[i].url
        && monitors[i].timeout == configs[i].timeout
        && monitors[i].retry == configs[i].retry
        && monitors[i].interval == configs[i].interval
        && monitors[i].status == "" && monitors[i].state == Monitor.INIT && monitors[i].errorMsg == ""
      invariant forall i, j :: 0 <= i < j < k ==> monitors[i] != monitors[j]
    {
      var c := configs[k];
      var m := new Monitor.Monitor(c.url, c.timeout, c.retry, c.interval);
      monitors := monitors + [m];
    }
  }

  /** The notifier entry `c` yields, or the panic it raises. */
  function Load(c: NotifierConfig): Result<Notifier, Panic>
  {
    Build(MakeNotifierFactory(c.name), c.options)
  }

  /** Entry `k` is the first whose notifier cannot be built. */
  predicate FirstPanic(configs: seq<NotifierConfig>, k: int)
  {
    && 0 <= k < |configs|
    && Load(configs[k]).Err?
    && forall i :: 0 <= i < k ==> Load(configs[i]).Ok?
  }

  /**
   * One notifier per entry, in order: entry `i` yields the notifier its
   * name's factory builds from its options. Building panics at the first
   * entry whose factory fails, and the panic escapes `LoadNotifiers`.
   */
  method LoadNotifiers(configs: seq<NotifierConfig>) returns (r: Result<seq<Notifier>, Panic>)
    ensures r.Ok? <==> forall i :: 0 <= i < |configs| ==> Load(configs[i]).Ok?
    ensures r.Ok? ==> |r.value| == |configs|
    ensures r.Ok? ==> forall i :: 0 <= i < |configs| ==> r.value[i] == Load(configs[i]).value
    ensures r.Err? ==> exists k :: FirstPanic(configs, k) && Load(configs[k]) == Err(r.error)
  {
    var notifiers: seq<Notifier> := [];
    for k := 0 to |configs|
      invariant |notifiers| == k
      invariant forall i :: 0 <= i < k ==> Load(configs[i]).Ok? && notifiers[i] == Load(configs[i]).value
    {
      var factory := MakeNotifierFactory(configs[k].name);
      var built := Build(factory, configs[k].options);
      if built.Err? {
        return Err(built.error);
      }
      notifiers := notifiers + [built.value];
    }
    return Ok(notifiers);
  }
}
