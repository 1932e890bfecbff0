/** CharacterExtractor.process_text: the iterations, each seeded with the
    previous iteration's output, and the retry loop around one request to
    the model, its validation, the saved file and the optional plot.

    The model is an oracle: `oracle(n, m)` is what the n-th request (counted
    from 0 over the whole run) returns for messages m. The files are a map
    from path to content; sleeps, requests, writes and plots are also
    recorded as events. */
module Process {
  import opened Errors
  import opened Json
  import opened Prompt
  import Paths
  import SocialGraph
  import Plotting

  const MaxRetries := 10
  const RetryDelay := 10

  /** The arguments of process_text; `text` is the content of the input file. */
  datatype Config = Config(
    text: string,
    outputFile: string,
    previousFile: Option<string>,
    iterations: int,
    delay: int,
    plotGraph: bool,
    descSentences: Option<int>,
    generatePortraits: bool,
    copies: int)

  /** What one call of make_request and the content extraction after it give:
      either make_request raises (it has run out of its own retries), or it
      returns and the extraction yields the content or raises. */
  datatype Response = Unavailable | Delivered(content: Result<Json>)

  /** The observable steps of a run, in order. */
  datatype Event =
    | Pause(seconds: int)                                    // the wait between iterations
    | Request(iteration: nat, attempt: nat, messages: Messages)
    | Debug(path: string, attempt: nat)                      // the raw response logged to a file
    | Write(path: string, content: Json)                     // write_json
    | Plot(path: string, styling: Plotting.Styling)          // plot_network saving the image
    | Backoff(seconds: int)                                  // the wait before another attempt

  /** What a file holds: JSON text, other text (a debug log), or a PNG
      image, whose bytes are not UTF-8. */
  datatype FileContent = JsonText(json: Json) | PlainText | Picture

  datatype State = State(trace: seq<Event>, files: map<string, FileContent>, requests: nat)

  datatype Attempt = Succeeded | Failed(error: PyError)

  /** How process_text ends: it returns, it lets an exception through, or it
      raises the plain Exception that reports iteration i failing ten times. */
  datatype Outcome = Done | Abort(error: PyError) | GaveUp(iteration: nat)

  /** FileHandler.read_json: None when the file is missing or holds text that
      is not JSON; an image cannot be decoded as UTF-8 text, and read_json
      lets that UnicodeDecodeError through. */
  function ReadJson(files: map<string, FileContent>, path: string): (r: Result<Option<Json>>) {
    if path !in files then Ok(None)
    else
      match files[path]
      case JsonText(j) => Ok(Some(j))
      case PlainText => Ok(None)
      case Picture => Err(UnicodeDecodeError)
  }

  function MessagesFor(cfg: Config, previous: Option<Json>): Messages {
    Messages(SystemSections(previous, cfg.descSentences, cfg.generatePortraits), UserText(cfg.text, cfg.copies))
  }

  /** The checks process_text makes before saving, with the ValueError each raises. */
  function Validate(content: Json): (r: Result<Json>)
    ensures r.Ok? <==> IsSnapshotShape(content)
    ensures r.Ok? ==> r.value == content
    ensures r.Err? ==> r.error == ValueError
  {
    if !content.JObj? then Err(ValueError)
    else if "characters" !in content.fields || "relations" !in content.fields then Err(ValueError)
    else if !content.fields["characters"].JArr? || !content.fields["relations"].JArr? then Err(ValueError)
    else Ok(content)
  }

  /** The styling plot_network draws for a saved snapshot. */
  function PlotOf(content: Json): Result<Plotting.Styling>
    requires IsSnapshotShape(content)
  {
    var g :- SocialGraph.BuildGraph(content);
    Plotting.BuiltListed(content);
    Plotting.Styles(g)
  }

  /** The three file names an attempt of iteration i uses: the output file,
      its debug log and its image. */
  datatype Names = Names(output: string, debug: string, image: string)

  /** `Path(output).with_suffix(...)` never raises here: the output name is
      never empty, so both suffixed names exist. */
  function NamesFor(base: string, i: nat): (n: Names)
    ensures n.output == Paths.OutputFilename(base, i)
    ensures Paths.WithSuffix(n.output, ".debug.txt") == Ok(n.debug)
    ensures Paths.ImageFilename(n.output) == Ok(n.image)
  {
    var output := Paths.OutputFilename(base, i);
    Paths.ConstantSuffixes();
    Paths.RenamedOutput(base, i, ".debug.txt");
    Paths.RenamedOutput(base, i, ".png");
    Names(output, Paths.WithSuffix(output, ".debug.txt").value, Paths.ImageFilename(output).value)
  }

  /** One pass through the body of the try block, given the messages and the
      response: the request, the debug log, validation, the saved file and,
      when asked for, the plot and its image file. */
  function Attempted(cfg: Config, names: Names, i: nat, attempt: nat, m: Messages, st: State, response: Response): (r: (Attempt, State)) {
    var st1 := st.(trace := st.trace + [Request(i, attempt, m)], requests := st.requests + 1);
    match response
    case Unavailable => (Failed(RequestFailed), st1)
    case Delivered(result) =>
      var st2 := st1.(trace := st1.trace + [Debug(names.debug, attempt)], files := st1.files[names.debug := PlainText]);
      match result
      case Err(e) => (Failed(e), st2)
      case Ok(json) =>
        match Validate(json)
        case Err(e) => (Failed(e), st2)
        case Ok(content) =>
          var st3 := st2.(trace := st2.trace + [Write(names.output, content)], files := st2.files[names.output := JsonText(content)]);
          if !cfg.plotGraph then (Succeeded, st3)
          else
            match PlotOf(content)
            case Err(e) => (Failed(e), st3)
            case Ok(styling) =>
              (Succeeded, st3.(trace := st3.trace + [Plot(names.image, styling)], files := st3.files[names.image := Picture]))
  }

  /** `for attempt in range(max_retries)` from `attempt` on: stop at the first
      success; a caught exception waits and tries again, except on the last
      attempt, which gives up; any other exception ends the run. The file
      names are the same on every attempt, so they are computed once. */
  function Retry(cfg: Config, names: Names, i: nat, attempt: nat, m: Messages, st: State,
                 oracle: (nat, Messages) -> Response): (r: (Outcome, State))
    requires attempt < MaxRetries
    decreases MaxRetries - attempt
  {
    var (a, st1) := Attempted(cfg, names, i, attempt, m, st, oracle(st.requests, m));
    if a.Succeeded? then (Done, st1)
    else if !Retried(a.error) then (Abort(a.error), st1)
    else if attempt < MaxRetries - 1 then
      Retry(cfg, names, i, attempt + 1, m, st1.(trace := st1.trace + [Backoff(RetryDelay)]), oracle)
    else (GaveUp(i), st1)
  }

  /** The draft iteration i sends: the previous iteration's output after the
      first, otherwise the file named by previous_json_file, if any. */
  function Seed(cfg: Config, i: nat, files: map<string, FileContent>): Result<Option<Json>> {
    if i > 0 then ReadJson(files, Paths.OutputFilename(cfg.outputFile, i - 1))
    else if cfg.previousFile.Some? && cfg.previousFile.value != "" then ReadJson(files, cfg.previousFile.value)
    else Ok(None)
  }

  /** One iteration: its seed (a file that cannot be read ends the run), the
      wait before it (time.sleep refuses a negative delay with a ValueError),
      then the retry loop. */
  function Iteration(cfg: Config, i: nat, st: State, oracle: (nat, Messages) -> Response): (Outcome, State) {
    match Seed(cfg, i, st.files)
    case Err(e) => (Abort(e), st)
    case Ok(previous) =>
      if i > 0 && cfg.delay < 0 then (Abort(ValueError), st)
      else
        var st1 := if i > 0 then st.(trace := st.trace + [Pause(cfg.delay)]) else st;
        Retry(cfg, NamesFor(cfg.outputFile, i), i, 0, MessagesFor(cfg, previous), st1, oracle)
  }

  function IterationsFrom(cfg: Config, i: nat, st: State, oracle: (nat, Messages) -> Response): (Outcome, State)
    decreases cfg.iterations - i
  {
    if i >= cfg.iterations then (Done, st)
    else
      var (o, st1) := Iteration(cfg, i, st, oracle);
      if !o.Done? then (o, st1) else IterationsFrom(cfg, i + 1, st1, oracle)
  }

  /** process_text from the files as they are and no requests made. */
  function Run(cfg: Config, files: map<string, FileContent>, oracle: (nat, Messages) -> Response): (Outcome, State) {
    IterationsFrom(cfg, 0, State([], files, 0), oracle)
  }

  // ---------------------------------------------------------------------------
  // process_text as loops

  /** The body of the try block, as statements. */
  method TryAttempt(cfg: Config, names: Names, i: nat, attempt: nat, m: Messages, st: State, response: Response)
    returns (a: Attempt, st': State)
    ensures (a, st') == Attempted(cfg, names, i, attempt, m, st, response)
  {
    var trace := st.trace + [Request(i, attempt, m)];
    var files := st.files;
    var requests := st.requests + 1;
    if response.Unavailable? {
      return Failed(RequestFailed), State(trace, files, requests);
    }
    trace := trace + [Debug(names.debug, attempt)];
    files := files[names.debug := PlainText];
    if response.content.Err? {
      return Failed(response.content.error), State(trace, files, requests);
    }
    var content := response.content.value;
    if !content.JObj? {
      return Failed(ValueError), State(trace, files, requests);
    }
    if "characters" !in content.fields || "relations" !in content.fields {
      return Failed(ValueError), State(trace, files, requests);
    }
    if !content.fields["characters"].JArr? || !content.fields["relations"].JArr? {
      return Failed(ValueError), State(trace, files, requests);
    }
    trace := trace + [Write(names.output, content)];
    files := files[names.output := JsonText(content)];
    if cfg.plotGraph {
      var g := SocialGraph.CreateSocialNetwork(content);
      if g.Err? {
        return Failed(g.error), State(trace, files, requests);
      }
      Plotting.BuiltListed(content);
      var styling := Plotting.PlotNetwork(g.value);
      if styling.Err? {
        return Failed(styling.error), State(trace, files, requests);
      }
      trace := trace + [Plot(names.image, styling.value)];
      files := files[names.image := Picture];
    }
    return Succeeded, State(trace, files, requests);
  }

  /** The retry loop of one iteration, whose messages draw on `previous`. */
  method RetryLoop(cfg: Config, names: Names, i: nat, previous: Option<Json>, st0: State, oracle: (nat, Messages) -> Response)
    returns (outcome: Outcome, st: State)
    ensures (outcome, st) == Retry(cfg, names, i, 0, MessagesFor(cfg, previous), st0, oracle)
  {
    ghost var target := Retry(cfg, names, i, 0, MessagesFor(cfg, previous), st0, oracle);
    st := st0;
    var attempt := 0;
    while true
      invariant attempt < MaxRetries
      invariant target == Retry(cfg, names, i, attempt, MessagesFor(cfg, previous), st, oracle)
      decreases MaxRetries - attempt
    {
      var m := CreateMessages(cfg.text, previous, cfg.descSentences, cfg.generatePortraits, cfg.copies);
      var a;
      a, st := TryAttempt(cfg, names, i, attempt, m, st, oracle(st.requests, m));
      if a.Succeeded? {
        return Done, st;
      }
      if !Retried(a.error) {
        return Abort(a.error), st;
      }
      if attempt < MaxRetries - 1 {
        st := st.(trace := st.trace + [Backoff(RetryDelay)]);
        attempt := attempt + 1;
      } else {
        return GaveUp(i), st;
      }
    }
  }

  /** The body of the iteration loop: the seed, the wait, the retry loop. */
  method RunIteration(cfg: Config, i: nat, st0: State, oracle: (nat, Messages) -> Response)
    returns (outcome: Outcome, st: State)
    ensures (outcome, st) == Iteration(cfg, i, st0, oracle)
  {
    st := st0;
    var previous: Option<Json> := None;
    if i > 0 {
      var read := ReadJson(st.files, Paths.OutputFilename(cfg.outputFile, i - 1));
      if read.Err? {
        return Abort(read.error), st;
      }
      previous := read.value;
      if cfg.delay < 0 {
        return Abort(ValueError), st;
      }
      st := st.(trace := st.trace + [Pause(cfg.delay)]);
    } else if cfg.previousFile.Some? && cfg.previousFile.value != "" {
      var read := ReadJson(st.files, cfg.previousFile.value);
      if read.Err? {
        return Abort(read.error), st;
      }
      previous := read.value;
    }
    assert Seed(cfg, i, st0.files) == Ok(previous);
    var names := NamesFor(cfg.outputFile, i);
    outcome, st := RetryLoop(cfg, names, i, previous, st, oracle);
  }

  /** process_text: the iteration loop. */
  method ProcessText(cfg: Config, files0: map<string, FileContent>, oracle: (nat, Messages) -> Response)
    returns (outcome: Outcome, final: State)
    ensures (outcome, final) == Run(cfg, files0, oracle)
  {
    var st := State([], files0, 0);
    var i: nat := 0;
    while i < cfg.iterations
      invariant Run(cfg, files0, oracle) == IterationsFrom(cfg, i, st, oracle)
      decreases cfg.iterations - i
    {
      var o;
      o, st := RunIteration(cfg, i, st, oracle);
      if !o.Done? {
        return o, st;
      }
      i := i + 1;
    }
    return Done, st;
  }
}
