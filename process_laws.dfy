/** What process_text guarantees over a whole run: the retry budget of each
    iteration, which files it may change and with what, and how each
    iteration's saved output becomes the next iteration's draft. */
module ProcessLaws {
  import opened Errors
  import opened Json
  import opened Prompt
  import Paths
  import opened Process

  /** The number of requests a trace records. */
  function Requests(t: seq<Event>): nat {
    if t == [] then 0 else (if t[0].Request? then 1 else 0) + Requests(t[1..])
  }

  /** The number of waits before another attempt a trace records. */
  function Backoffs(t: seq<Event>): nat {
    if t == [] then 0 else (if t[0].Backoff? then 1 else 0) + Backoffs(t[1..])
  }

  lemma {:induction false} CountSnoc(t: seq<Event>, e: Event)
    ensures Requests(t + [e]) == Requests(t) + (if e.Request? then 1 else 0)
    ensures Backoffs(t + [e]) == Backoffs(t) + (if e.Backoff? then 1 else 0)
    decreases |t|
  {
    if t != [] {
      assert (t + [e])[1..] == t[1..] + [e];
      CountSnoc(t[1..], e);
    }
  }

  /** The files a part of a run may change, by what it may leave in them:
      snapshots at output names, text at debug-log names, images at image names. */
  datatype Footprint = Footprint(outputs: set<string>, logs: set<string>, images: set<string>)

  function FootprintOf(names: Names): Footprint {
    Footprint({names.output}, {names.debug}, {names.image})
  }

  /** The files iterations lo up to (not including) hi may change. */
  function RunFootprint(base: string, lo: nat, hi: int): Footprint {
    Footprint(
      set j: nat | lo <= j < hi :: NamesFor(base, j).output,
      set j: nat | lo <= j < hi :: NamesFor(base, j).debug,
      set j: nat | lo <= j < hi :: NamesFor(base, j).image)
  }

  predicate Covers(w: Footprint, v: Footprint) {
    v.outputs <= w.outputs && v.logs <= w.logs && v.images <= w.images
  }

  predicate Allowed(w: Footprint, k: string, c: FileContent) {
    || (k in w.outputs && c.JsonText? && IsSnapshotShape(c.json))
    || (k in w.logs && c == PlainText)
    || (k in w.images && c == Picture)
  }

  /** f1 is f0 with nothing removed, where every entry that changed holds
      what the footprint w allows under its name. */
  predicate WritesOnly(f0: map<string, FileContent>, f1: map<string, FileContent>, w: Footprint) {
    && f0.Keys <= f1.Keys
    && forall k :: k in f1 ==> (k in f0 && f1[k] == f0[k]) || Allowed(w, k, f1[k])
  }

  lemma WritesOnlyChain(f0: map<string, FileContent>, f1: map<string, FileContent>, f2: map<string, FileContent>,
                        a: Footprint, b: Footprint, c: Footprint)
    requires WritesOnly(f0, f1, a) && WritesOnly(f1, f2, b)
    requires Covers(c, a) && Covers(c, b)
    ensures WritesOnly(f0, f2, c)
  {
    forall k | k in f2
      ensures (k in f0 && f2[k] == f0[k]) || Allowed(c, k, f2[k])
    {
      if !(k in f1 && f2[k] == f1[k]) {
        assert Allowed(b, k, f2[k]);
      } else if !(k in f0 && f1[k] == f0[k]) {
        assert Allowed(a, k, f1[k]);
      }
    }
  }

  /** A file outside the footprint keeps its content. */
  lemma WritesOnlyOutside(f0: map<string, FileContent>, f1: map<string, FileContent>, w: Footprint, k: string)
    requires WritesOnly(f0, f1, w)
    requires k in f0
    requires k !in w.outputs && k !in w.logs && k !in w.images
    ensures k in f1 && f1[k] == f0[k]
  {
    assert k in f0.Keys;
  }

  /** The names two iterations use: a debug log is never an output file, two
      iterations never share an output file, and an image is the output file
      of no other iteration, and of its own iteration exactly when the base's
      suffix is ".png". */
  lemma NamesApart(base: string, a: nat, b: nat)
    ensures NamesFor(base, a).debug != NamesFor(base, b).output
    ensures a != b ==> NamesFor(base, a).output != NamesFor(base, b).output
    ensures NamesFor(base, a).image == NamesFor(base, b).output
        <==> a == b && Paths.Suffix(Paths.Name(Paths.Parse(base))) == ".png"
  {
    Paths.DebugIsNoOutput(base, a, b);
    Paths.ImageIsOutput(base, a, b);
    if a != b {
      Paths.OutputFilenamesDistinct(base, a, b);
    }
  }

  /** Iteration i's output file lies outside the footprint of the iterations after it. */
  lemma LaterIterationsMissOutput(base: string, i: nat, hi: int)
    ensures var later, out := RunFootprint(base, i + 1, hi), NamesFor(base, i).output;
      out !in later.outputs && out !in later.logs && out !in later.images
  {
    var out := NamesFor(base, i).output;
    forall j: nat | i + 1 <= j < hi
      ensures NamesFor(base, j).output != out && NamesFor(base, j).debug != out && NamesFor(base, j).image != out
    {
      NamesApart(base, j, i);
    }
  }

  /** The responses the try block accepts: a snapshot that, when plotting, plots. */
  predicate Accepted(cfg: Config, response: Response) {
    && response.Delivered? && response.content.Ok?
    && IsSnapshotShape(response.content.value)
    && (cfg.plotGraph ==> PlotOf(response.content.value).Ok?)
  }

  /** How one attempt ends, given only the response: make_request raising,
      the content's extraction raising, validation's ValueError, the plot's
      exception, or success. */
  function AttemptOutcome(cfg: Config, response: Response): Attempt {
    match response
    case Unavailable => Failed(RequestFailed)
    case Delivered(content) =>
      if content.Err? then Failed(content.error)
      else if !IsSnapshotShape(content.value) then Failed(ValueError)
      else if cfg.plotGraph && PlotOf(content.value).Err? then Failed(PlotOf(content.value).error)
      else Succeeded
  }

  /** What accepting `response` leaves at the output file: the snapshot it
      carries, unless a plot was drawn whose image has the same name (an
      output file whose suffix is ".png"), which then holds the image. */
  predicate Saved(cfg: Config, names: Names, files: map<string, FileContent>, response: Response) {
    && Accepted(cfg, response)
    && names.output in files
    && files[names.output] == (if cfg.plotGraph && names.image == names.output then Picture
                               else JsonText(response.content.value))
  }

  // ---------------------------------------------------------------------------
  // One attempt

  /** One pass through the try block makes exactly one request and never
      backs off; it writes only its debug log, its output (a snapshot) and
      its image, and succeeds exactly when the response is accepted, which
      it then leaves saved. */
  lemma AttemptStep(cfg: Config, names: Names, i: nat, attempt: nat, m: Messages, st: State, response: Response)
    ensures var (a, st1) := Attempted(cfg, names, i, attempt, m, st, response);
      && st1.requests == st.requests + 1
      && st.trace < st1.trace
      && Requests(st1.trace) == Requests(st.trace) + 1
      && Backoffs(st1.trace) == Backoffs(st.trace)
      && WritesOnly(st.files, st1.files, FootprintOf(names))
      && (a.Succeeded? <==> Accepted(cfg, response))
      && (a.Succeeded? ==> Saved(cfg, names, st1.files, response))
  {
    var t1 := st.trace + [Request(i, attempt, m)];
    CountSnoc(st.trace, Request(i, attempt, m));
    if response.Delivered? {
      var t2 := t1 + [Debug(names.debug, attempt)];
      CountSnoc(t1, Debug(names.debug, attempt));
      assert st.trace < t2 by { assert t2[..|st.trace|] == st.trace; }
      if response.content.Ok? && IsSnapshotShape(response.content.value) {
        var c := response.content.value;
        var t3 := t2 + [Write(names.output, c)];
        CountSnoc(t2, Write(names.output, c));
        assert st.trace < t3 by { assert t3[..|st.trace|] == st.trace; }
        if cfg.plotGraph && PlotOf(c).Ok? {
          CountSnoc(t3, Plot(names.image, PlotOf(c).value));
          var t4 := t3 + [Plot(names.image, PlotOf(c).value)];
          assert st.trace < t4 by { assert t4[..|st.trace|] == st.trace; }
        }
      }
    }
  }

  /** How an attempt fails: a request that raises changes no file; a
      response whose content cannot be extracted, or that fails validation,
      is logged and not saved, and validation raises ValueError; a snapshot
      that does not plot stays saved, and the plot's exception is raised. */
  lemma AttemptFailures(cfg: Config, names: Names, i: nat, attempt: nat, m: Messages, st: State, response: Response)
    ensures var (a, st1) := Attempted(cfg, names, i, attempt, m, st, response);
      var logged := st.files[names.debug := PlainText];
      && (response.Unavailable? ==> a == Failed(RequestFailed) && st1.files == st.files)
      && (response.Delivered? && response.content.Err? ==>
            a == Failed(response.content.error) && st1.files == logged)
      && (response.Delivered? && response.content.Ok? && !IsSnapshotShape(response.content.value) ==>
            a == Failed(ValueError) && st1.files == logged)
      && (response.Delivered? && response.content.Ok? && IsSnapshotShape(response.content.value)
          && cfg.plotGraph && PlotOf(response.content.value).Err? ==>
            && a == Failed(PlotOf(response.content.value).error)
            && st1.files == logged[names.output := JsonText(response.content.value)])
  {
  }

  /** An attempt ends as its response alone decides, whatever the names,
      the iteration, the attempt number, the messages and the state; it
      succeeds exactly for an accepted response. */
  lemma AttemptOutcomeOnly(cfg: Config, names: Names, i: nat, attempt: nat, m: Messages, st: State, response: Response)
    ensures Attempted(cfg, names, i, attempt, m, st, response).0 == AttemptOutcome(cfg, response)
    ensures AttemptOutcome(cfg, response) == Succeeded <==> Accepted(cfg, response)
  {
  }

  /** What an attempt adds to the trace starts with its request and holds no wait. */
  lemma AttemptTrace(cfg: Config, names: Names, i: nat, attempt: nat, m: Messages, st: State, response: Response)
    ensures var st1 := Attempted(cfg, names, i, attempt, m, st, response).1;
      && |st.trace| < |st1.trace|
      && st1.trace[|st.trace|] == Request(i, attempt, m)
      && forall k :: |st.trace| <= k < |st1.trace| ==> !st1.trace[k].Backoff?
  {
  }

  // ---------------------------------------------------------------------------
  // The retry loop of one iteration

  /** What the retry loop, entered at `attempt` in state st, leaves as (o, st1):
      between one request and the attempts left; it fails only by an
      exception it does not catch, or by giving up on iteration i after
      using every attempt left. */
  predicate WithinBudget(st: State, attempt: nat, i: nat, r: (Outcome, State)) {
    var (o, st1) := r;
    && st.requests < st1.requests <= st.requests + (MaxRetries - attempt)
    && st.trace < st1.trace
    && (o.Abort? ==> !Retried(o.error))
    && (o.GaveUp? ==> o.iteration == i && st1.requests == st.requests + (MaxRetries - attempt))
  }

  lemma {:induction false} RetryBudget(cfg: Config, names: Names, i: nat, attempt: nat, m: Messages, st: State,
                                       oracle: (nat, Messages) -> Response)
    requires attempt < MaxRetries
    decreases MaxRetries - attempt
    ensures WithinBudget(st, attempt, i, Retry(cfg, names, i, attempt, m, st, oracle))
  {
    var response := oracle(st.requests, m);
    var (a, st1) := Attempted(cfg, names, i, attempt, m, st, response);
    AttemptStep(cfg, names, i, attempt, m, st, response);
    if !a.Succeeded? && Retried(a.error) && attempt < MaxRetries - 1 {
      var st2 := st1.(trace := st1.trace + [Backoff(RetryDelay)]);
      RetryBudget(cfg, names, i, attempt + 1, m, st2, oracle);
    }
  }

  /** The loop, entered in state st, stops at the first accepted response:
      it ends well exactly when the last response it got was accepted, and
      none of the responses before that was. */
  predicate StopsAtFirstSuccess(cfg: Config, m: Messages, oracle: (nat, Messages) -> Response, st: State, r: (Outcome, State)) {
    var (o, st1) := r;
    && st.requests < st1.requests
    && (o.Done? <==> Accepted(cfg, oracle(st1.requests - 1, m)))
    && forall n: nat :: st.requests <= n < st1.requests - 1 ==> !Accepted(cfg, oracle(n, m))
  }

  lemma {:induction false} RetryStopsAtFirstSuccess(cfg: Config, names: Names, i: nat, attempt: nat, m: Messages,
                                                    st: State, oracle: (nat, Messages) -> Response)
    requires attempt < MaxRetries
    decreases MaxRetries - attempt
    ensures StopsAtFirstSuccess(cfg, m, oracle, st, Retry(cfg, names, i, attempt, m, st, oracle))
  {
    var response := oracle(st.requests, m);
    var (a, st1) := Attempted(cfg, names, i, attempt, m, st, response);
    AttemptStep(cfg, names, i, attempt, m, st, response);
    if !a.Succeeded? && Retried(a.error) && attempt < MaxRetries - 1 {
      var st2 := st1.(trace := st1.trace + [Backoff(RetryDelay)]);
      RetryStopsAtFirstSuccess(cfg, names, i, attempt + 1, m, st2, oracle);
    }
  }

  /** The loop's exception filter, in both directions: every attempt before
      the last failed with an exception the loop catches; an abort carries
      the exception of the last attempt, which the loop does not catch, and
      conversely a last attempt raising such an exception aborts with it;
      giving up follows a last attempt that failed with a caught one. */
  predicate Filtered(cfg: Config, m: Messages, oracle: (nat, Messages) -> Response, st: State, r: (Outcome, State)) {
    var (o, st1) := r;
    && st.requests < st1.requests
    && (forall n: nat :: st.requests <= n < st1.requests - 1 ==>
          AttemptOutcome(cfg, oracle(n, m)).Failed? && Retried(AttemptOutcome(cfg, oracle(n, m)).error))
    && var last := AttemptOutcome(cfg, oracle(st1.requests - 1, m));
    && (o.Abort? ==> last == Failed(o.error))
    && (last.Failed? && !Retried(last.error) ==> o == Abort(last.error))
    && (o.GaveUp? ==> last.Failed? && Retried(last.error))
  }

  lemma {:induction false} RetryFilters(cfg: Config, names: Names, i: nat, attempt: nat, m: Messages,
                                        st: State, oracle: (nat, Messages) -> Response)
    requires attempt < MaxRetries
    decreases MaxRetries - attempt
    ensures Filtered(cfg, m, oracle, st, Retry(cfg, names, i, attempt, m, st, oracle))
  {
    var response := oracle(st.requests, m);
    var (a, st1) := Attempted(cfg, names, i, attempt, m, st, response);
    AttemptOutcomeOnly(cfg, names, i, attempt, m, st, response);
    assert st1.requests == st.requests + 1;
    if !a.Succeeded? && Retried(a.error) && attempt < MaxRetries - 1 {
      var st2 := st1.(trace := st1.trace + [Backoff(RetryDelay)]);
      RetryFilters(cfg, names, i, attempt + 1, m, st2, oracle);
    }
  }

  /** Every request the loop makes is recorded in the trace. */
  predicate Recorded(st: State, st1: State) {
    Requests(st1.trace) - Requests(st.trace) == st1.requests - st.requests
  }

  lemma {:induction false} RetryRecords(cfg: Config, names: Names, i: nat, attempt: nat, m: Messages, st: State,
                                        oracle: (nat, Messages) -> Response)
    requires attempt < MaxRetries
    decreases MaxRetries - attempt
    ensures Recorded(st, Retry(cfg, names, i, attempt, m, st, oracle).1)
  {
    var response := oracle(st.requests, m);
    var (a, st1) := Attempted(cfg, names, i, attempt, m, st, response);
    AttemptStep(cfg, names, i, attempt, m, st, response);
    if !a.Succeeded? && Retried(a.error) && attempt < MaxRetries - 1 {
      var st2 := st1.(trace := st1.trace + [Backoff(RetryDelay)]);
      CountSnoc(st1.trace, Backoff(RetryDelay));
      RetryRecords(cfg, names, i, attempt + 1, m, st2, oracle);
    }
  }

  /** The loop waits exactly once between each two consecutive requests,
      never before the first and never after the last: what it adds to the
      trace starts with a request, every wait in it is the 10-second one and
      is directly followed by a request, and there is one wait fewer than
      there are requests. */
  predicate Paced(st: State, st1: State) {
    WaitCount(st, st1) && WaitsBetween(st, st1)
  }

  predicate WaitCount(st: State, st1: State) {
    Backoffs(st1.trace) - Backoffs(st.trace) == st1.requests - st.requests - 1
  }

  predicate WaitsBetween(st: State, st1: State) {
    && |st.trace| < |st1.trace|
    && st1.trace[|st.trace|].Request?
    && forall k :: |st.trace| <= k < |st1.trace| && st1.trace[k].Backoff? ==>
         st1.trace[k] == Backoff(RetryDelay) && k + 1 < |st1.trace| && st1.trace[k + 1].Request?
  }

  lemma RetryPacing(cfg: Config, names: Names, i: nat, attempt: nat, m: Messages, st: State,
                    oracle: (nat, Messages) -> Response)
    requires attempt < MaxRetries
    ensures Paced(st, Retry(cfg, names, i, attempt, m, st, oracle).1)
  {
    RetryWaitCount(cfg, names, i, attempt, m, st, oracle);
    RetryWaitPlaces(cfg, names, i, attempt, m, st, oracle);
  }

  lemma {:induction false} RetryWaitCount(cfg: Config, names: Names, i: nat, attempt: nat, m: Messages, st: State,
                                          oracle: (nat, Messages) -> Response)
    requires attempt < MaxRetries
    decreases MaxRetries - attempt
    ensures WaitCount(st, Retry(cfg, names, i, attempt, m, st, oracle).1)
  {
    var response := oracle(st.requests, m);
    var (a, st1) := Attempted(cfg, names, i, attempt, m, st, response);
    AttemptStep(cfg, names, i, attempt, m, st, response);
    if !a.Succeeded? && Retried(a.error) && attempt < MaxRetries - 1 {
      var st2 := st1.(trace := st1.trace + [Backoff(RetryDelay)]);
      CountSnoc(st1.trace, Backoff(RetryDelay));
      RetryWaitCount(cfg, names, i, attempt + 1, m, st2, oracle);
    }
  }

  lemma {:induction false} RetryWaitPlaces(cfg: Config, names: Names, i: nat, attempt: nat, m: Messages, st: State,
                                           oracle: (nat, Messages) -> Response)
    requires attempt < MaxRetries
    decreases MaxRetries - attempt
    ensures WaitsBetween(st, Retry(cfg, names, i, attempt, m, st, oracle).1)
  {
    var response := oracle(st.requests, m);
    var (a, st1) := Attempted(cfg, names, i, attempt, m, st, response);
    AttemptTrace(cfg, names, i, attempt, m, st, response);
    if !a.Succeeded? && Retried(a.error) && attempt < MaxRetries - 1 {
      var st2 := st1.(trace := st1.trace + [Backoff(RetryDelay)]);
      RetryWaitPlaces(cfg, names, i, attempt + 1, m, st2, oracle);
      RetryBudget(cfg, names, i, attempt + 1, m, st2, oracle);
      var t := Retry(cfg, names, i, attempt + 1, m, st2, oracle).1.trace;
      forall k | |st.trace| <= k < |t| && t[k].Backoff?
        ensures t[k] == Backoff(RetryDelay) && k + 1 < |t| && t[k + 1].Request?
      {
        if k == |st1.trace| {
          assert t[k] == st2.trace[k];
        }
      }
      assert t[|st.trace|] == st1.trace[|st.trace|];
    }
  }

  /** The loop, entered in state st, writes only the iteration's debug log,
      output and image; when it ends well, the output file holds the last
      response, which it accepted. */
  predicate LoopSaved(cfg: Config, names: Names, m: Messages, oracle: (nat, Messages) -> Response, st: State, r: (Outcome, State)) {
    var (o, st1) := r;
    && WritesOnly(st.files, st1.files, FootprintOf(names))
    && (o.Done? ==> st.requests < st1.requests && Saved(cfg, names, st1.files, oracle(st1.requests - 1, m)))
  }

  lemma {:induction false} RetrySaves(cfg: Config, names: Names, i: nat, attempt: nat, m: Messages, st: State,
                                      oracle: (nat, Messages) -> Response)
    requires attempt < MaxRetries
    decreases MaxRetries - attempt
    ensures LoopSaved(cfg, names, m, oracle, st, Retry(cfg, names, i, attempt, m, st, oracle))
  {
    var response := oracle(st.requests, m);
    var (a, st1) := Attempted(cfg, names, i, attempt, m, st, response);
    AttemptStep(cfg, names, i, attempt, m, st, response);
    if !a.Succeeded? && Retried(a.error) && attempt < MaxRetries - 1 {
      var st2 := st1.(trace := st1.trace + [Backoff(RetryDelay)]);
      RetrySaves(cfg, names, i, attempt + 1, m, st2, oracle);
      var w := FootprintOf(names);
      WritesOnlyChain(st.files, st2.files, Retry(cfg, names, i, attempt + 1, m, st2, oracle).1.files, w, w, w);
    }
  }

  // ---------------------------------------------------------------------------
  // Iterations

  /** Iteration i, started in state st, gave r and ended well, and `files`
      hold at its output file what it left there: its last response, which
      it accepted, sent with the messages drawn from its seed. */
  predicate SavedBy(cfg: Config, i: nat, st: State, r: (Outcome, State), files: map<string, FileContent>,
                    oracle: (nat, Messages) -> Response) {
    var (o, st1) := r;
    && o.Done?
    && Seed(cfg, i, st.files).Ok?
    && st.requests < st1.requests
    && Saved(cfg, NamesFor(cfg.outputFile, i), files, oracle(st1.requests - 1, MessagesFor(cfg, Seed(cfg, i, st.files).value)))
  }

  /** What one iteration, started in state st, leaves as (o, st1): at most the
      retry budget of requests (none when its seed cannot be read or the wait
      is refused), every request recorded, changes only to its own debug
      log, output and image, and, when it ends well, its accepted response
      saved at its output file. */
  predicate IterationKept(cfg: Config, i: nat, st: State, r: (Outcome, State), oracle: (nat, Messages) -> Response) {
    var (o, st1) := r;
    && st.requests <= st1.requests <= st.requests + MaxRetries
    && st.trace <= st1.trace
    && Recorded(st, st1)
    && WritesOnly(st.files, st1.files, FootprintOf(NamesFor(cfg.outputFile, i)))
    && (o.Done? ==> SavedBy(cfg, i, st, r, st1.files, oracle))
  }

  lemma IterationStep(cfg: Config, i: nat, st: State, oracle: (nat, Messages) -> Response)
    ensures IterationKept(cfg, i, st, Iteration(cfg, i, st, oracle), oracle)
  {
    var seed := Seed(cfg, i, st.files);
    if seed.Ok? && !(i > 0 && cfg.delay < 0) {
      var m := MessagesFor(cfg, seed.value);
      var st1 := if i > 0 then st.(trace := st.trace + [Pause(cfg.delay)]) else st;
      CountSnoc(st.trace, Pause(cfg.delay));
      var names := NamesFor(cfg.outputFile, i);
      assert Iteration(cfg, i, st, oracle) == Retry(cfg, names, i, 0, m, st1, oracle);
      RetryBudget(cfg, names, i, 0, m, st1, oracle);
      RetryRecords(cfg, names, i, 0, m, st1, oracle);
      IterationSaves(cfg, i, st, oracle);
    }
  }

  /** One iteration writes only its own debug log, output and image, and,
      when it ends well, leaves its accepted response at its output file. */
  lemma IterationSaves(cfg: Config, i: nat, st: State, oracle: (nat, Messages) -> Response)
    ensures var r := Iteration(cfg, i, st, oracle);
      && WritesOnly(st.files, r.1.files, FootprintOf(NamesFor(cfg.outputFile, i)))
      && (r.0.Done? ==> SavedBy(cfg, i, st, r, r.1.files, oracle))
  {
    var seed := Seed(cfg, i, st.files);
    if seed.Ok? && !(i > 0 && cfg.delay < 0) {
      var m := MessagesFor(cfg, seed.value);
      var st1 := if i > 0 then st.(trace := st.trace + [Pause(cfg.delay)]) else st;
      var names := NamesFor(cfg.outputFile, i);
      var r := Retry(cfg, names, i, 0, m, st1, oracle);
      assert Iteration(cfg, i, st, oracle) == r;
      RetrySaves(cfg, names, i, 0, m, st1, oracle);
      assert LoopSaved(cfg, names, m, oracle, st1, r);
    }
  }

  /** Iterations i onwards make at most the retry budget per iteration, and
      every request is recorded. */
  predicate RunBudget(cfg: Config, i: nat, st: State, st1: State) {
    && st.requests <= st1.requests
    && (i <= cfg.iterations ==> st1.requests - st.requests <= MaxRetries * (cfg.iterations - i))
    && Recorded(st, st1)
  }

  lemma {:induction false} IterationsBudget(cfg: Config, i: nat, st: State, oracle: (nat, Messages) -> Response)
    decreases cfg.iterations - i
    ensures RunBudget(cfg, i, st, IterationsFrom(cfg, i, st, oracle).1)
  {
    if i < cfg.iterations {
      var (o, st1) := Iteration(cfg, i, st, oracle);
      IterationStep(cfg, i, st, oracle);
      if o.Done? {
        IterationsBudget(cfg, i + 1, st1, oracle);
      }
    }
  }

  /** The state iteration j starts in when iterations i up to j - 1 run
      from st one after the other. */
  function Before(cfg: Config, i: nat, j: nat, st: State, oracle: (nat, Messages) -> Response): State
    decreases j - i
  {
    if j <= i then st else Before(cfg, i + 1, j, Iteration(cfg, i, st, oracle).1, oracle)
  }

  /** Iterations i onwards change only their debug logs, outputs and images,
      and, when the run completes, every iteration j among them ended well
      and its output file still holds its own accepted response. */
  predicate RunSaved(cfg: Config, i: nat, st: State, r: (Outcome, State), oracle: (nat, Messages) -> Response) {
    RunWrites(cfg, i, st, r.1) && RunKept(cfg, i, st, r, oracle)
  }

  predicate RunWrites(cfg: Config, i: nat, st: State, st1: State) {
    WritesOnly(st.files, st1.files, RunFootprint(cfg.outputFile, i, cfg.iterations))
  }

  predicate RunKept(cfg: Config, i: nat, st: State, r: (Outcome, State), oracle: (nat, Messages) -> Response) {
    r.0.Done? ==> forall j: nat :: i <= j < cfg.iterations ==>
      SavedBy(cfg, j, Before(cfg, i, j, st, oracle), Iteration(cfg, j, Before(cfg, i, j, st, oracle), oracle), r.1.files, oracle)
  }

  lemma IterationsSave(cfg: Config, i: nat, st: State, oracle: (nat, Messages) -> Response)
    ensures RunSaved(cfg, i, st, IterationsFrom(cfg, i, st, oracle), oracle)
  {
    IterationsWrite(cfg, i, st, oracle);
    IterationsKeep(cfg, i, st, oracle);
  }

  lemma {:induction false} IterationsWrite(cfg: Config, i: nat, st: State, oracle: (nat, Messages) -> Response)
    decreases cfg.iterations - i
    ensures RunWrites(cfg, i, st, IterationsFrom(cfg, i, st, oracle).1)
  {
    var base := cfg.outputFile;
    var all := RunFootprint(base, i, cfg.iterations);
    var none := Footprint({}, {}, {});
    if i < cfg.iterations {
      var (o, st1) := Iteration(cfg, i, st, oracle);
      IterationSaves(cfg, i, st, oracle);
      var names := NamesFor(base, i);
      var here := FootprintOf(names);
      assert names.output in all.outputs && names.debug in all.logs && names.image in all.images;
      if !o.Done? {
        WritesOnlyChain(st.files, st1.files, st1.files, here, none, all);
      } else {
        var st2 := IterationsFrom(cfg, i + 1, st1, oracle).1;
        var later := RunFootprint(base, i + 1, cfg.iterations);
        IterationsWrite(cfg, i + 1, st1, oracle);
        assert Covers(all, later);
        WritesOnlyChain(st.files, st1.files, st2.files, here, later, all);
      }
    } else {
      WritesOnlyChain(st.files, st.files, st.files, none, none, all);
    }
  }

  /** What an iteration left at its output file stays there while the files
      around it change. */
  lemma SavedByKept(cfg: Config, i: nat, st: State, r: (Outcome, State), f1: map<string, FileContent>,
                    f2: map<string, FileContent>, oracle: (nat, Messages) -> Response)
    requires SavedBy(cfg, i, st, r, f1, oracle)
    requires var out := NamesFor(cfg.outputFile, i).output; out in f2 && f2[out] == f1[out]
    ensures SavedBy(cfg, i, st, r, f2, oracle)
  {
  }

  lemma {:induction false} IterationsKeep(cfg: Config, i: nat, st: State, oracle: (nat, Messages) -> Response)
    decreases cfg.iterations - i
    ensures RunKept(cfg, i, st, IterationsFrom(cfg, i, st, oracle), oracle)
  {
    if i < cfg.iterations {
      var r := Iteration(cfg, i, st, oracle);
      var st1 := r.1;
      if r.0.Done? {
        var r2 := IterationsFrom(cfg, i + 1, st1, oracle);
        assert IterationsFrom(cfg, i, st, oracle) == r2;
        if r2.0.Done? {
          var base := cfg.outputFile;
          var names := NamesFor(base, i);
          IterationsKeep(cfg, i + 1, st1, oracle);
          IterationSaves(cfg, i, st, oracle);
          IterationsWrite(cfg, i + 1, st1, oracle);
          LaterIterationsMissOutput(base, i, cfg.iterations);
          WritesOnlyOutside(st1.files, r2.1.files, RunFootprint(base, i + 1, cfg.iterations), names.output);
          SavedByKept(cfg, i, st, r, st1.files, r2.1.files, oracle);
          forall j: nat | i <= j < cfg.iterations
            ensures SavedBy(cfg, j, Before(cfg, i, j, st, oracle), Iteration(cfg, j, Before(cfg, i, j, st, oracle), oracle), r2.1.files, oracle)
          {
            if j == i {
              assert Before(cfg, i, j, st, oracle) == st;
            } else {
              assert Before(cfg, i, j, st, oracle) == Before(cfg, i + 1, j, st1, oracle);
            }
          }
        }
      }
    }
  }

  /** process_text as a whole: no more than ten requests per iteration, each
      recorded; it changes only the debug logs, outputs and images of its
      iterations; when it completes, each iteration's output file holds that
      iteration's accepted response; with no iterations it does nothing at all. */
  lemma RunGuarantees(cfg: Config, files: map<string, FileContent>, oracle: (nat, Messages) -> Response)
    ensures var (o, st) := Run(cfg, files, oracle);
      && st.requests <= MaxRetries * (if cfg.iterations < 0 then 0 else cfg.iterations)
      && Requests(st.trace) == st.requests
      && WritesOnly(files, st.files, RunFootprint(cfg.outputFile, 0, cfg.iterations))
      && (o.Done? ==> forall j: nat :: j < cfg.iterations ==>
            var before := Before(cfg, 0, j, State([], files, 0), oracle);
            SavedBy(cfg, j, before, Iteration(cfg, j, before, oracle), st.files, oracle))
      && (cfg.iterations <= 0 ==> o == Done && st == State([], files, 0))
  {
    IterationsBudget(cfg, 0, State([], files, 0), oracle);
    IterationsSave(cfg, 0, State([], files, 0), oracle);
  }

  // ---------------------------------------------------------------------------
  // Drafts

  /** The first iteration reads previous_json_file when one is named: an
      image there ends the run; otherwise a draft is sent exactly when the
      file holds truthy JSON, and that JSON is the draft. */
  lemma FirstDraft(cfg: Config, files: map<string, FileContent>)
    ensures var named := cfg.previousFile.Some? && cfg.previousFile.value != "" && cfg.previousFile.value in files;
      && (Seed(cfg, 0, files).Err? <==> named && files[cfg.previousFile.value] == Picture)
      && (Seed(cfg, 0, files).Ok? ==>
            forall d :: Draft(d) in MessagesFor(cfg, Seed(cfg, 0, files).value).system <==>
              named && files[cfg.previousFile.value] == JsonText(d) && Truthy(d))
  {
    if Seed(cfg, 0, files).Ok? {
      SystemSectionsRule(Seed(cfg, 0, files).value, cfg.descSentences, cfg.generatePortraits);
    }
  }

  /** After an iteration that ends well, the next one sends exactly the
      snapshot it saved as its draft, unless its image replaced that
      snapshot: then the next iteration cannot read it and ends the run
      with UnicodeDecodeError. */
  lemma NextDraft(cfg: Config, i: nat, st: State, oracle: (nat, Messages) -> Response)
    ensures var (o, st1) := Iteration(cfg, i, st, oracle);
      var names := NamesFor(cfg.outputFile, i);
      o.Done? ==>
        if cfg.plotGraph && names.image == names.output then
          Iteration(cfg, i + 1, st1, oracle) == (Abort(UnicodeDecodeError), st1)
        else
          && names.output in st1.files
          && Seed(cfg, i + 1, st1.files).Ok?
          && forall d :: Draft(d) in MessagesFor(cfg, Seed(cfg, i + 1, st1.files).value).system <==>
                           st1.files[names.output] == JsonText(d)
  {
    var (o, st1) := Iteration(cfg, i, st, oracle);
    IterationSaves(cfg, i, st, oracle);
    var names := NamesFor(cfg.outputFile, i);
    if o.Done? && !(cfg.plotGraph && names.image == names.output) {
      var saved := st1.files[names.output].json;
      SnapshotIsTruthy(saved);
      assert Seed(cfg, i + 1, st1.files) == Ok(Some(saved));
      SystemSectionsRule(Some(saved), cfg.descSentences, cfg.generatePortraits);
    }
  }

  /** An image at the previous iteration's output file ends the next iteration
      before it makes any request. */
  lemma PictureEndsNextIteration(cfg: Config, i: nat, st: State, oracle: (nat, Messages) -> Response)
    requires Paths.OutputFilename(cfg.outputFile, i) in st.files
    requires st.files[Paths.OutputFilename(cfg.outputFile, i)] == Picture
    ensures Iteration(cfg, i + 1, st, oracle) == (Abort(UnicodeDecodeError), st)
  {
  }

  /** An iteration that does not end well ends the run with its outcome. */
  lemma StopEndsRun(cfg: Config, i: nat, st: State, oracle: (nat, Messages) -> Response)
    requires i < cfg.iterations
    ensures var r := Iteration(cfg, i, st, oracle);
      !r.0.Done? ==> IterationsFrom(cfg, i, st, oracle) == r
  {
  }

  /** An image at the first output file stops the iterations after the first. */
  lemma PictureStopsRest(cfg: Config, st: State, oracle: (nat, Messages) -> Response)
    requires cfg.iterations >= 2
    requires Paths.OutputFilename(cfg.outputFile, 0) in st.files
    requires st.files[Paths.OutputFilename(cfg.outputFile, 0)] == Picture
    ensures !IterationsFrom(cfg, 1, st, oracle).0.Done?
  {
    PictureEndsNextIteration(cfg, 0, st, oracle);
    StopEndsRun(cfg, 1, st, oracle);
  }

  /** A run whose first iteration ends well goes on with the second. */
  lemma RunAfterFirst(cfg: Config, files: map<string, FileContent>, oracle: (nat, Messages) -> Response)
    requires cfg.iterations >= 2
    ensures var r := Iteration(cfg, 0, State([], files, 0), oracle);
      r.0.Done? ==> Run(cfg, files, oracle) == IterationsFrom(cfg, 1, r.1, oracle)
  {
  }

  /** An iteration that ends well while plotting with an image named like its
      output file leaves the image at its output file. */
  lemma PngOutputHoldsPicture(cfg: Config, i: nat, st: State, oracle: (nat, Messages) -> Response)
    requires cfg.plotGraph && NamesFor(cfg.outputFile, i).image == NamesFor(cfg.outputFile, i).output
    ensures var r := Iteration(cfg, i, st, oracle);
      var out := Paths.OutputFilename(cfg.outputFile, i);
      r.0.Done? ==> out in r.1.files && r.1.files[out] == Picture
  {
    IterationSaves(cfg, i, st, oracle);
  }

  /** Plotting with an image named like the first output file, a run of two
      or more iterations never completes. */
  lemma PictureStopsRun(cfg: Config, files: map<string, FileContent>, oracle: (nat, Messages) -> Response)
    requires cfg.plotGraph && cfg.iterations >= 2
    requires NamesFor(cfg.outputFile, 0).image == NamesFor(cfg.outputFile, 0).output
    ensures !Run(cfg, files, oracle).0.Done?
  {
    var st0 := State([], files, 0);
    var r := Iteration(cfg, 0, st0, oracle);
    if r.0.Done? {
      RunAfterFirst(cfg, files, oracle);
      PngOutputHoldsPicture(cfg, 0, st0, oracle);
      PictureStopsRest(cfg, r.1, oracle);
    } else {
      StopEndsRun(cfg, 0, st0, oracle);
    }
  }

  /** Plotting with an output file whose suffix is ".png" saves each image
      over the snapshot it draws, so a run of two or more iterations never
      completes: the second iteration, if it is reached, cannot read the
      first one's output. */
  lemma PngOutputStopsRun(cfg: Config, files: map<string, FileContent>, oracle: (nat, Messages) -> Response)
    requires cfg.plotGraph && cfg.iterations >= 2
    requires Paths.Suffix(Paths.Name(Paths.Parse(cfg.outputFile))) == ".png"
    ensures !Run(cfg, files, oracle).0.Done?
  {
    NamesApart(cfg.outputFile, 0, 0);
    PictureStopsRun(cfg, files, oracle);
  }
}
