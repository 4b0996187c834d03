/** RegistryScanner.Scan: start a scan, then poll until it is decided or the time is up. */
module RegistryScan {
  import opened Models

  const DEFAULT_POLL_INTERVAL := 5 * SECOND

  // ---- Configuration ----

  /** The settings that a scan reads.  `parse` stands for time.ParseDuration. */
  datatype RegistryEntry = RegistryEntry(name: string, timeout: string)
  datatype Settings = Settings(present: bool, pollInterval: string, defaultTimeout: string,
                               registries: seq<RegistryEntry>, parse: string -> Option<int>)

  predicate OverridesTimeout(r: RegistryEntry, registryName: string) {
    r.name == registryName && r.timeout != ""
  }

  /** The text of the first override for the registry, or else of the default. */
  function TimeoutText(rs: seq<RegistryEntry>, registryName: string, default_: string): string {
    if rs == [] then default_
    else if OverridesTimeout(rs[0], registryName) then rs[0].timeout
    else TimeoutText(rs[1..], registryName, default_)
  }

  /** The first entry with the name that sets a timeout. */
  predicate SetsTimeoutFirst(rs: seq<RegistryEntry>, registryName: string, i: nat) {
    && i < |rs| && rs[i].name == registryName && rs[i].timeout != ""
    && forall j :: 0 <= j < i && rs[j].name == registryName ==> rs[j].timeout == ""
  }

  /** The timeout of a scan: what the first entry with the name that sets one says, or else the default. */
  ghost predicate TimeoutIs(cfg: Settings, registryName: string, timeout: Option<int>) {
    && (forall i: nat :: SetsTimeoutFirst(cfg.registries, registryName, i) ==>
          timeout == cfg.parse(cfg.registries[i].timeout))
    && ((forall i :: 0 <= i < |cfg.registries| && cfg.registries[i].name == registryName ==>
           cfg.registries[i].timeout == "") ==> timeout == cfg.parse(cfg.defaultTimeout))
  }

  lemma {:induction false} TextOfNone(rs: seq<RegistryEntry>, registryName: string, default_: string)
    requires forall i :: 0 <= i < |rs| && rs[i].name == registryName ==> rs[i].timeout == ""
    ensures TimeoutText(rs, registryName, default_) == default_
  {
    if rs != [] {
      TextOfNone(rs[1..], registryName, default_);
    }
  }

  lemma {:induction false} TextOfFirst(rs: seq<RegistryEntry>, registryName: string, default_: string, i: nat)
    requires SetsTimeoutFirst(rs, registryName, i)
    ensures TimeoutText(rs, registryName, default_) == rs[i].timeout
  {
    if i > 0 {
      assert rs[1..][i - 1] == rs[i];
      assert forall j :: 0 <= j < i - 1 ==> rs[1..][j] == rs[j + 1];
      TextOfFirst(rs[1..], registryName, default_, i - 1);
    }
  }

  lemma TextIsTimeout(cfg: Settings, registryName: string)
    ensures TimeoutIs(cfg, registryName, cfg.parse(TimeoutText(cfg.registries, registryName, cfg.defaultTimeout)))
  {
    var rs := cfg.registries;
    hide TimeoutText;
    forall i: nat | SetsTimeoutFirst(rs, registryName, i)
      ensures TimeoutText(rs, registryName, cfg.defaultTimeout) == rs[i].timeout
    {
      TextOfFirst(rs, registryName, cfg.defaultTimeout, i);
    }
    if forall i :: 0 <= i < |rs| && rs[i].name == registryName ==> rs[i].timeout == "" {
      TextOfNone(rs, registryName, cfg.defaultTimeout);
    }
  }

  method GetTimeout(cfg: Settings, registryName: string) returns (timeout: Option<int>)
    ensures timeout == cfg.parse(TimeoutText(cfg.registries, registryName, cfg.defaultTimeout))
    ensures TimeoutIs(cfg, registryName, timeout)
  {
    TextIsTimeout(cfg, registryName);
    for i := 0 to |cfg.registries|
      invariant TimeoutText(cfg.registries, registryName, cfg.defaultTimeout) ==
                TimeoutText(cfg.registries[i..], registryName, cfg.defaultTimeout)
    {
      var reg := cfg.registries[i];
      if reg.name == registryName && reg.timeout != "" {
        return cfg.parse(reg.timeout);
      }
      assert cfg.registries[i..][1..] == cfg.registries[i + 1..];
    }
    timeout := cfg.parse(cfg.defaultTimeout);
  }

  function PollInterval(cfg: Settings): int {
    match cfg.parse(cfg.pollInterval)
    case Some(d) => d
    case None => DEFAULT_POLL_INTERVAL
  }

  // ---- The environment ----

  datatype Fetch = FetchError(message: string) | Fetched(status: string, error: string)

  /** What the select of the poll loop sees, in order: a tick, when it is consumed and what the fetch
      brings, or the deadline. */
  datatype Event = Tick(at: int, fetch: Fetch) | Deadline

  predicate InProgress(e: Event) {
    e.Tick? && e.fetch.Fetched? && (e.fetch.status == "running" || e.fetch.status == "pending")
  }

  /** How many ticks can fire before the deadline. */
  function TicksWithin(interval: int, timeout: int): nat
    requires interval > 0
  {
    if timeout < 0 then 0 else timeout / interval
  }

  /** Tick j fires no earlier than j + 1 intervals after the start, and past the timeout a fetch fails,
      since its context has expired.  The script covers the ticks that fit the timeout and one event more. */
  predicate Sound(script: seq<Event>, interval: int, timeout: int) {
    && interval > 0 && |script| > TicksWithin(interval, timeout)
    && (forall j :: 0 <= j < |script| && script[j].Tick? ==> (j + 1) * interval <= script[j].at)
    && (forall j :: 0 <= j < |script| && script[j].Tick? && script[j].at > timeout ==> script[j].fetch.FetchError?)
  }

  // ---- Polling ----

  datatype PollResult =
    | PollCompleted(polls: nat, note: string)
    | PollTimedOut(polls: nat)
    | PollFetchFailed(polls: nat, message: string)
    | PollScanFailed(polls: nat, error: string)
    | PollUnknownStatus(polls: nat, status: string)

  /** The first event that is not a status of running or pending. */
  predicate Decides(script: seq<Event>, k: nat) {
    k < |script| && !InProgress(script[k]) && forall j :: 0 <= j < k ==> InProgress(script[j])
  }

  function Verdict(e: Event, k: nat): PollResult
    requires !InProgress(e)
  {
    match e
    case Deadline => PollTimedOut(k)
    case Tick(_, FetchError(message)) => PollFetchFailed(k + 1, message)
    case Tick(_, Fetched(status, error)) =>
      if status == "completed" then PollCompleted(k + 1, error)
      else if status == "failed" then PollScanFailed(k + 1, error)
      else PollUnknownStatus(k + 1, status)
  }

  predicate SaysStatus(e: Event, status: string) {
    e.Tick? && e.fetch.Fetched? && e.fetch.status == status
  }

  method PollScanStatus(interval: int, timeout: int, script: seq<Event>) returns (r: PollResult, ghost k: nat)
    requires Sound(script, interval, timeout)
    ensures Decides(script, k) && r == Verdict(script[k], k)
    ensures forall j :: 0 <= j < k ==> SaysStatus(script[j], "running") || SaysStatus(script[j], "pending")
    ensures r.PollCompleted? <==> SaysStatus(script[k], "completed")
    ensures r.PollScanFailed? <==> SaysStatus(script[k], "failed")
    ensures r.PollTimedOut? <==> script[k].Deadline?
    ensures r.PollFetchFailed? <==> script[k].Tick? && script[k].fetch.FetchError?
    ensures r.PollUnknownStatus? <==> script[k].Tick? && script[k].fetch.Fetched?
                                      && script[k].fetch.status !in {"completed", "failed", "running", "pending"}
    ensures r.polls == if script[k].Deadline? then k else k + 1
    ensures r.polls <= TicksWithin(interval, timeout) + 1
  {
    var pollAttempts := 0;
    k := 0;
    while true
      invariant pollAttempts == k <= |script|
      invariant forall j :: 0 <= j < k ==> InProgress(script[j])
      decreases |script| - k
    {
      PollsFitTheTimeout(interval, timeout, script, k);
      var event := script[pollAttempts];
      match event {
        case Deadline => return PollTimedOut(pollAttempts), k;
        case Tick(_, fetch) =>
          pollAttempts := pollAttempts + 1;
          match fetch {
            case FetchError(message) => return PollFetchFailed(pollAttempts, message), k;
            case Fetched(status, error) =>
              if status == "completed" {
                return PollCompleted(pollAttempts, error), k;
              } else if status == "failed" {
                return PollScanFailed(pollAttempts, error), k;
              } else if status != "running" && status != "pending" {
                return PollUnknownStatus(pollAttempts, status), k;
              }
          }
      }
      k := k + 1;
    }
  }

  /** A poll that did not fail began within the timeout, so only the last can come after it; the loop
      therefore comes to a decision. */
  lemma PollsFitTheTimeout(interval: int, timeout: int, script: seq<Event>, k: nat)
    requires Sound(script, interval, timeout) && k <= |script|
    requires forall j :: 0 <= j < k ==> InProgress(script[j])
    ensures k <= TicksWithin(interval, timeout) < |script|
  {
    if k > 0 {
      assert InProgress(script[k - 1]);
      assert k * interval <= timeout;
      QuotientBound(k, interval, timeout);
    }
  }

  lemma QuotientBound(k: nat, interval: int, timeout: int)
    requires interval > 0 && k > 0 && k * interval <= timeout
    ensures timeout >= 0 && k <= timeout / interval
  {
    AtLeastOnce(k, interval);
    var q, rest := timeout / interval, timeout % interval;
    assert timeout == q * interval + rest;
    assert (k - q) * interval == k * interval - q * interval;
    if k > q {
      AtLeastOnce(k - q, interval);
    }
  }

  lemma AtLeastOnce(x: int, n: int)
    requires x >= 1 && n > 0
    ensures x * n >= n
  {
    assert (x - 1) * n >= 0;
  }

  lemma {:induction false} DecisionIsUnique(script: seq<Event>, i: nat, k: nat)
    requires Decides(script, i) && Decides(script, k)
    ensures i == k
  {
    assert !(i < k) && !(k < i);
  }

  // ---- The scan ----

  /** The answer to the request that starts the scan; a body that does not decode is None. */
  datatype StartAnswer = NotSent | Answered(statusCode: int, scanId: Option<string>)

  function InitiateScan(a: StartAnswer): (r: Option<string>)
    ensures r.Some? <==> a.Answered? && a.statusCode in {200, 201} && a.scanId.Some? && a.scanId.value != ""
    ensures r.Some? ==> r == a.scanId
  {
    match a
    case NotSent => None
    case Answered(statusCode, scanId) =>
      if statusCode != 200 && statusCode != 201 then None
      else if scanId.None? || scanId.value == "" then None
      else scanId
  }

  /** A ticker with a non-positive interval panics; otherwise Scan returns a result and perhaps an error. */
  datatype ScanOutcome = TickerPanics | Returned(result: ScanResult, error: Option<string>)

  /** The poll script is that of the interval and timeout that the settings give; an interval that does not
      parse is five seconds. */
  ghost predicate ScriptFits(cfg: Settings, req: ScanRequest, script: seq<Event>) {
    var interval := if cfg.parse(cfg.pollInterval).Some? then cfg.parse(cfg.pollInterval).value else 5_000_000_000;
    forall timeout :: TimeoutIs(cfg, req.registryName, Some(timeout)) && interval > 0 ==>
      Sound(script, interval, timeout)
  }

  /** The scan is started: an answer 200 or 201 that carries an id. */
  predicate StartsScan(start: StartAnswer) {
    start.Answered? && start.statusCode in {200, 201} && start.scanId.Some? && start.scanId.value != ""
  }

  /** The first status that is neither running nor pending is completed, and nothing goes wrong before it. */
  ghost predicate ReportsCompletion(script: seq<Event>) {
    exists k: nat ::
      && k < |script| && SaysStatus(script[k], "completed")
      && forall j :: 0 <= j < k ==> SaysStatus(script[j], "running") || SaysStatus(script[j], "pending")
  }

  method Scan(cfg: Settings, req: ScanRequest, start: StartAnswer, script: seq<Event>, startTime: int, endTime: int)
    returns (r: ScanOutcome, ghost timeout: Option<int>)
    requires ScriptFits(cfg, req, script)
    ensures TimeoutIs(cfg, req.registryName, timeout)
    ensures r.TickerPanics? <==>
              && cfg.present && StartsScan(start) && timeout.Some?
              && cfg.parse(cfg.pollInterval).Some? && cfg.parse(cfg.pollInterval).value <= 0
    ensures r.Returned? ==> (r.error.None? <==> r.result.status == Success)
    ensures r.Returned? ==>
              (r.error.None? <==> cfg.present && StartsScan(start) && timeout.Some? && ReportsCompletion(script))
    ensures r.Returned? ==> (r.error.Some? ==> r.result.status == Failed && r.result.error != "")
    ensures r.Returned? ==>
              && r.result.imageRef == req.imageRef && r.result.requestId == req.requestId
              && r.result.startedAt == startTime && r.result.completedAt == endTime
              && r.result.duration == endTime - startTime
  {
    TextIsTimeout(cfg, req.registryName);
    timeout := cfg.parse(TimeoutText(cfg.registries, req.registryName, cfg.defaultTimeout));
    var result := ScanResult(req.imageRef, req.requestId, Running, "", startTime, 0, 0);
    if !cfg.present {
      result := result.(status := Failed, error := "registry scanner configuration is missing");
      result := result.(completedAt := endTime, duration := endTime - startTime);
      return Returned(result, Some("registry scanner configuration is missing")), timeout;
    }
    var scanId := InitiateScan(start);
    if scanId.None? {
      result := result.(status := Failed, error := "failed to initiate scan");
      result := result.(completedAt := endTime, duration := endTime - startTime);
      return Returned(result, Some("failed to initiate scan")), timeout;
    }
    var interval := PollInterval(cfg);
    var limit := GetTimeout(cfg, req.registryName);
    if limit.None? {
      result := result.(status := Failed, error := "scan polling failed: invalid timeout");
      result := result.(completedAt := endTime, duration := endTime - startTime);
      return Returned(result, Some("invalid timeout")), timeout;
    }
    if interval <= 0 {
      return TickerPanics, timeout;
    }
    var poll, k := PollScanStatus(interval, limit.value, script);
    forall i: nat | Decides(script, i) ensures i == k {
      DecisionIsUnique(script, i, k);
    }
    if !poll.PollCompleted? {
      result := result.(status := Failed, error := "scan polling failed");
      result := result.(completedAt := endTime, duration := endTime - startTime);
      return Returned(result, Some("scan polling failed")), timeout;
    }
    var scanResult := ScanResult(req.imageRef, req.requestId, Success, poll.note,
                                 startTime, endTime, endTime - startTime);
    r := Returned(scanResult, None);
  }
}
