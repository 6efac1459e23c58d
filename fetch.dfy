/**
 * The metadata fetch of `fetch_youtube_details`: a bounded retry loop with
 * exponential backoff around the metadata tool. Attempt `k` of the tool is
 * the oracle value `runs(k)`; its launches and the sleeps between them are
 * recorded in a trace.
 */
module Fetch {
  import opened JsonValue
  import opened Details
  import opened Events

  const MAX_RETRIES := 3
  const BASE_DELAY := 5

  /** What decoding the tool's standard output gives. */
  datatype Decoded = Malformed | Object(fields: Fields) | NotObject(value: Json)

  /** One finished run of the metadata tool. */
  datatype ToolRun = ToolRun(returnCode: int, stderr: string, stdout: Decoded)

  datatype FetchOutcome = Fetched(details: VideoDetails) | NoDetails | Raised(fault: Fault)

  /** Only a run that failed AND wrote to stderr is retried; any other run is parsed. */
  predicate Retryable(run: ToolRun) {
    |run.stderr| > 0 && run.returnCode != 0
  }

  function Pow2(k: nat): nat {
    if k == 0 then 1 else 2 * Pow2(k - 1)
  }

  /** The wait after a retryable failure of attempt `k` (counting from 0). */
  function Backoff(baseDelay: int, k: nat): int {
    baseDelay * Pow2(k)
  }

  /** The try-block: a decode error gives up, anything else a `.get` cannot handle escapes. */
  function Interpret(run: ToolRun, cfg: Config): FetchOutcome {
    match run.stdout
    case Malformed => NoDetails
    case NotObject(_) => Raised(GetOnNonObject)
    case Object(fields) =>
      match FilterDetails(fields, cfg)
      case Ok(d) => Fetched(d)
      case Err(e) => Raised(e)
  }

  /** The loop from attempt `attempt` on: its outcome and what it does. */
  function FetchFrom(url: string, attempt: nat, maxRetries: int, baseDelay: int,
                     runs: nat -> ToolRun, cfg: Config): (FetchOutcome, seq<Event>)
    decreases maxRetries - attempt
  {
    if attempt >= maxRetries then (NoDetails, [])
    else
      var run := runs(attempt);
      if Retryable(run) then
        var wait := if attempt < maxRetries - 1 then [Sleep(Backoff(baseDelay, attempt))] else [];
        var rest := FetchFrom(url, attempt + 1, maxRetries, baseDelay, runs, cfg);
        (rest.0, [RunMetadataTool(url)] + wait + rest.1)
      else
        (Interpret(run, cfg), [RunMetadataTool(url)])
  }

  /** `n` launches of the tool with the backoff sleeps between them and none after the last. */
  function BackoffTrace(url: string, baseDelay: int, n: nat): seq<Event> {
    BackoffFrom(url, baseDelay, 0, n)
  }

  function BackoffFrom(url: string, baseDelay: int, k: nat, n: nat): seq<Event>
    decreases n - k
  {
    if k >= n then []
    else [RunMetadataTool(url)] + (if k + 1 < n then [Sleep(Backoff(baseDelay, k))] else [])
         + BackoffFrom(url, baseDelay, k + 1, n)
  }

  /** The sleeps of a trace, in order. */
  function Sleeps(trace: seq<Event>): seq<int>
    decreases |trace|
  {
    if trace == [] then []
    else (if trace[0].Sleep? then [trace[0].seconds] else []) + Sleeps(trace[1..])
  }

  /** How many times a trace launches the metadata tool. */
  function Launches(trace: seq<Event>): nat
    decreases |trace|
  {
    if trace == [] then 0 else (if trace[0].RunMetadataTool? then 1 else 0) + Launches(trace[1..])
  }

  method FetchYoutubeDetails(url: string, maxRetries: int, baseDelay: int,
                             runs: nat -> ToolRun, cfg: Config)
    returns (outcome: FetchOutcome, trace: seq<Event>)
    ensures (outcome, trace) == FetchFrom(url, 0, maxRetries, baseDelay, runs, cfg)
  {
    trace := [];
    var attempt: nat := 0;
    assert trace + FetchFrom(url, 0, maxRetries, baseDelay, runs, cfg).1
      == FetchFrom(url, 0, maxRetries, baseDelay, runs, cfg).1;
    while attempt < maxRetries
      invariant attempt == 0 || attempt <= maxRetries
      invariant FetchFrom(url, 0, maxRetries, baseDelay, runs, cfg).0
        == FetchFrom(url, attempt, maxRetries, baseDelay, runs, cfg).0
      invariant FetchFrom(url, 0, maxRetries, baseDelay, runs, cfg).1
        == trace + FetchFrom(url, attempt, maxRetries, baseDelay, runs, cfg).1
      decreases maxRetries - attempt
    {
      var run := runs(attempt);
      ghost var before := trace;
      ghost var rest := FetchFrom(url, attempt + 1, maxRetries, baseDelay, runs, cfg);
      trace := trace + [RunMetadataTool(url)];
      if Retryable(run) {
        ghost var wait := if attempt < maxRetries - 1 then [Sleep(Backoff(baseDelay, attempt))] else [];
        if attempt < maxRetries - 1 {
          trace := trace + [Sleep(Backoff(baseDelay, attempt))];
        }
        assert trace == before + [RunMetadataTool(url)] + wait;
        assert before + ([RunMetadataTool(url)] + wait + rest.1) == trace + rest.1;
      } else {
        outcome := Interpret(run, cfg);
        return;
      }
      attempt := attempt + 1;
    }
    outcome := NoDetails;
    assert trace + [] == trace;
  }

  lemma {:induction false} FetchFromShape(url: string, attempt: nat, maxRetries: int, baseDelay: int,
                                          runs: nat -> ToolRun, cfg: Config)
    returns (n: nat)
    ensures attempt >= maxRetries ==> n == 0
    ensures attempt < maxRetries ==> 1 <= n <= maxRetries - attempt
    ensures FetchFrom(url, attempt, maxRetries, baseDelay, runs, cfg).1
      == BackoffFrom(url, baseDelay, attempt, attempt + n)
    ensures forall k :: attempt <= k < attempt + n - 1 ==> Retryable(runs(k))
    ensures n >= 1 && !Retryable(runs(attempt + n - 1)) ==>
      FetchFrom(url, attempt, maxRetries, baseDelay, runs, cfg).0 == Interpret(runs(attempt + n - 1), cfg)
    ensures n >= 1 && Retryable(runs(attempt + n - 1)) ==>
      attempt + n == maxRetries && FetchFrom(url, attempt, maxRetries, baseDelay, runs, cfg).0 == NoDetails
    ensures n == 0 ==> FetchFrom(url, attempt, maxRetries, baseDelay, runs, cfg).0 == NoDetails
    decreases maxRetries - attempt
  {
    if attempt >= maxRetries {
      n := 0;
    } else if !Retryable(runs(attempt)) {
      n := 1;
    } else {
      var m := FetchFromShape(url, attempt + 1, maxRetries, baseDelay, runs, cfg);
      n := m + 1;
      if m == 0 {
        assert BackoffFrom(url, baseDelay, attempt + 1, attempt + 1) == [];
      }
    }
  }

  /**
   * The whole fetch: it launches the tool `n` times, `n` at most
   * `max(maxRetries, 0)`; every attempt but the last was a retryable failure;
   * the trace is `n` launches with sleeps of `baseDelay * 2^k` after attempt
   * `k` for `k < n - 1` only; the result is that of the last attempt's output,
   * or none when every attempt failed.
   */
  lemma FetchShape(url: string, maxRetries: int, baseDelay: int, runs: nat -> ToolRun, cfg: Config)
    returns (n: nat)
    ensures maxRetries <= 0 ==> n == 0
    ensures maxRetries > 0 ==> 1 <= n <= maxRetries
    ensures FetchFrom(url, 0, maxRetries, baseDelay, runs, cfg).1 == BackoffTrace(url, baseDelay, n)
    ensures forall k :: 0 <= k < n - 1 ==> Retryable(runs(k))
    ensures n >= 1 && !Retryable(runs(n - 1)) ==>
      FetchFrom(url, 0, maxRetries, baseDelay, runs, cfg).0 == Interpret(runs(n - 1), cfg)
    ensures n >= 1 && Retryable(runs(n - 1)) ==>
      n == maxRetries && FetchFrom(url, 0, maxRetries, baseDelay, runs, cfg).0 == NoDetails
    ensures n == 0 ==> FetchFrom(url, 0, maxRetries, baseDelay, runs, cfg) == (NoDetails, [])
  {
    n := FetchFromShape(url, 0, maxRetries, baseDelay, runs, cfg);
  }

  lemma {:induction false} BackoffFromLaunches(url: string, baseDelay: int, k: nat, n: nat)
    requires k <= n
    ensures Launches(BackoffFrom(url, baseDelay, k, n)) == n - k
    ensures k < n ==>
      (BackoffFrom(url, baseDelay, k, n)[|BackoffFrom(url, baseDelay, k, n)| - 1] == RunMetadataTool(url))
    decreases n - k
  {
    if k < n {
      var head := [RunMetadataTool(url)] + (if k + 1 < n then [Sleep(Backoff(baseDelay, k))] else []);
      var rest := BackoffFrom(url, baseDelay, k + 1, n);
      BackoffFromLaunches(url, baseDelay, k + 1, n);
      assert BackoffFrom(url, baseDelay, k, n) == head + rest;
      LaunchesConcat(head, rest);
    }
  }

  lemma {:induction false} BackoffFromSleeps(url: string, baseDelay: int, k: nat, n: nat)
    requires k <= n
    ensures |Sleeps(BackoffFrom(url, baseDelay, k, n))| == if k < n then n - k - 1 else 0
    ensures forall i :: 0 <= i < |Sleeps(BackoffFrom(url, baseDelay, k, n))| ==>
      Sleeps(BackoffFrom(url, baseDelay, k, n))[i] == Backoff(baseDelay, k + i)
    decreases n - k
  {
    if k < n {
      var head := [RunMetadataTool(url)] + (if k + 1 < n then [Sleep(Backoff(baseDelay, k))] else []);
      var rest := BackoffFrom(url, baseDelay, k + 1, n);
      BackoffFromSleeps(url, baseDelay, k + 1, n);
      assert BackoffFrom(url, baseDelay, k, n) == head + rest;
      SleepsConcat(head, rest);
      if k + 1 < n {
        assert Sleeps(head) == [Backoff(baseDelay, k)];
      } else {
        assert Sleeps(head) == [];
        assert rest == [];
      }
    }
  }

  /**
   * The reference trace launches the tool `n` times, sleeps `baseDelay * 2^k`
   * after attempt `k` for each `k < n - 1` and ends with a launch, never a sleep.
   */
  lemma BackoffTraceCounts(url: string, baseDelay: int, n: nat)
    ensures Launches(BackoffTrace(url, baseDelay, n)) == n
    ensures |Sleeps(BackoffTrace(url, baseDelay, n))| == if n >= 1 then n - 1 else 0
    ensures forall k :: 0 <= k < |Sleeps(BackoffTrace(url, baseDelay, n))| ==>
      Sleeps(BackoffTrace(url, baseDelay, n))[k] == Backoff(baseDelay, k)
    ensures n >= 1 ==>
      (BackoffTrace(url, baseDelay, n)[|BackoffTrace(url, baseDelay, n)| - 1] == RunMetadataTool(url))
  {
    BackoffFromLaunches(url, baseDelay, 0, n);
    BackoffFromSleeps(url, baseDelay, 0, n);
  }

  lemma {:induction false} LaunchesConcat(a: seq<Event>, b: seq<Event>)
    ensures Launches(a + b) == Launches(a) + Launches(b)
    decreases |a|
  {
    if a == [] {
      assert a + b == b;
    } else {
      assert (a + b)[1..] == a[1..] + b;
      LaunchesConcat(a[1..], b);
    }
  }

  lemma {:induction false} SleepsConcat(a: seq<Event>, b: seq<Event>)
    ensures Sleeps(a + b) == Sleeps(a) + Sleeps(b)
    decreases |a|
  {
    if a == [] {
      assert a + b == b;
    } else {
      var h := if a[0].Sleep? then [a[0].seconds] else [];
      assert (a + b)[0] == a[0];
      assert (a + b)[1..] == a[1..] + b;
      SleepsConcat(a[1..], b);
      assert Sleeps(a + b) == h + (Sleeps(a[1..]) + Sleeps(b));
      assert h + (Sleeps(a[1..]) + Sleeps(b)) == (h + Sleeps(a[1..])) + Sleeps(b);
    }
  }

  /**
   * Two retryable failures then a good run, with three attempts allowed and a
   * base delay of 1: two sleeps of 1 and 2 seconds, and the parsed details.
   */
  lemma TwoFailuresThenSuccess(url: string, runs: nat -> ToolRun, cfg: Config)
    requires Retryable(runs(0)) && Retryable(runs(1)) && !Retryable(runs(2))
    requires runs(2).stdout.Object? && FilterDetails(runs(2).stdout.fields, cfg).Ok?
    ensures FetchFrom(url, 0, 3, 1, runs, cfg) ==
      (Fetched(FilterDetails(runs(2).stdout.fields, cfg).value),
       [RunMetadataTool(url), Sleep(1), RunMetadataTool(url), Sleep(2), RunMetadataTool(url)])
  {
    var d := Fetched(FilterDetails(runs(2).stdout.fields, cfg).value);
    assert FetchFrom(url, 2, 3, 1, runs, cfg) == (d, [RunMetadataTool(url)]);
    assert Backoff(1, 1) == 2 && Backoff(1, 0) == 1;
    var tool := RunMetadataTool(url);
    assert [tool] + [Sleep(2)] + [tool] == [tool, Sleep(2), tool];
    assert FetchFrom(url, 1, 3, 1, runs, cfg) == (d, [tool, Sleep(2), tool]);
    assert [tool] + [Sleep(1)] + [tool, Sleep(2), tool] == [tool, Sleep(1), tool, Sleep(2), tool];
  }

  /** Output that does not decode ends the fetch at once: no retry and no sleep. */
  lemma MalformedOutputStops(url: string, k: nat, maxRetries: int, baseDelay: int,
                             runs: nat -> ToolRun, cfg: Config)
    requires k < maxRetries && !Retryable(runs(k)) && runs(k).stdout.Malformed?
    ensures FetchFrom(url, k, maxRetries, baseDelay, runs, cfg) == (NoDetails, [RunMetadataTool(url)])
  {
  }

  predicate OnlyFetchEvents(url: string, trace: seq<Event>) {
    forall i :: 0 <= i < |trace| ==> trace[i] == RunMetadataTool(url) || trace[i].Sleep?
  }

  /** The trace of a fetch holds only launches of the metadata tool and sleeps. */
  lemma {:induction false} FetchEventsKinds(url: string, attempt: nat, maxRetries: int, baseDelay: int,
                                            runs: nat -> ToolRun, cfg: Config)
    ensures OnlyFetchEvents(url, FetchFrom(url, attempt, maxRetries, baseDelay, runs, cfg).1)
    decreases maxRetries - attempt
  {
    if attempt < maxRetries && Retryable(runs(attempt)) {
      var wait := if attempt < maxRetries - 1 then [Sleep(Backoff(baseDelay, attempt))] else [];
      var rest := FetchFrom(url, attempt + 1, maxRetries, baseDelay, runs, cfg).1;
      FetchEventsKinds(url, attempt + 1, maxRetries, baseDelay, runs, cfg);
      var trace := FetchFrom(url, attempt, maxRetries, baseDelay, runs, cfg).1;
      assert trace == [RunMetadataTool(url)] + wait + rest;
      forall i | 0 <= i < |trace|
        ensures trace[i] == RunMetadataTool(url) || trace[i].Sleep?
      {
        if i >= 1 + |wait| {
          var j := i - 1 - |wait|;
          assert trace[i] == rest[j];
        } else if i == 0 {
          assert trace[i] == RunMetadataTool(url);
        } else {
          assert trace[i] == wait[0];
        }
      }
    }
  }
}
