# chargraph: a Dafny model of the character-graph extractor

`chargraph.py` sends a text to a language model, asks it for the text's
characters and the relations between them as JSON, checks the shape of the
answer, saves it, and draws it as a social network. It can run several
iterations, each starting from the previous iteration's saved output. Each
iteration makes at most ten attempts. After an attempt whose response raises
`JSONDecodeError`, `KeyError` or `ValueError` while it is parsed, checked,
built into a graph or drawn, it waits ten seconds and tries again, so there
are at most nine retries. Any other exception ends the run, and that includes
a request that itself fails.

This project models the core of that program and proves properties of the model:

- `graph.dfy` (module `SocialGraph`) models `create_social_network`. Characters are folded into nodes and relations into undirected, weighted edges, with networkx's node-key semantics: numbers and booleans are the same key, `None` is refused and lists or objects cannot be hashed. The two loops are written as methods. Each is proved equal to a fold, and the fold is proved to give:
  - the nodes;
  - each node's attributes (the last character with that id wins);
  - each edge's weight (1 + the sum over its relations);
  - each edge's positivity (the first relation on the pair);
  - the edge count (at most one per relation).
- `render.dfy` (module `Plotting`) models the colour, size and width rules of `plot_network`. The method `PlotNetwork` has the source's two loops. It is proved equal to `Styles`, which raises the same exceptions the source can raise:
  - `KeyError` when a node has no attributes;
  - `ZeroDivisionError` when the maximum weight is 0;
  - `TypeError` when a positivity is not a number.
- `paths.dfy` (module `Paths`) models `get_output_filename` over a POSIX subset of `pathlib`: parsing, `str`, `parent`, `stem`, `suffix` and `with_suffix`. It proves that the output names of different iterations differ, and that each name parses back to the base's directory and an iteration-stamped file name.
- `prompt.dfy` (module `Prompt`) models the flag-dependent structure of `create_messages` and `get_schema`, without their prose: which sections and schema properties appear, and the user text as `copies` copies of the input joined by a blank line.
- `process.dfy` (module `Process`) models `process_text`: seeding each iteration, the wait between iterations, the retry loop, validating a response before it is saved, the debug log, and the optional plot.
  - The language model is an oracle: the response to the n-th request of the run.
  - The files are a map from path to content: JSON, other text (the debug logs) or an image.
  - Sleeps, requests, logs, writes and plots are recorded as events.
  - Giving up after ten failed attempts is the outcome `GaveUp(i)`. It stands for the plain `Exception` that the source raises then.
  - The methods `TryAttempt`, `RetryLoop`, `RunIteration` and `ProcessText` follow the source's statements and loops. Each is proved equal to the function that specifies it.
- `process_laws.dfy` (module `ProcessLaws`) proves what a run guarantees:
  - the retry budget and pacing of each iteration;
  - which files a run may change, and with what: snapshots of the right shape at the output files, text at the debug logs, images at the image files;
  - how an attempt fails: what a failed request, an unreadable or invalid response, or a plot that fails leaves in the files, and which exception it raises;
  - that, when a run completes, each output file holds its own iteration's accepted last response;
  - that the loop stops at the first acceptable response;
  - that each iteration's saved output is the next iteration's draft.
- `json.dfy` and `errors.dfy` hold the JSON value type and Python's exceptions as a datatype.

Where the documentation and the code disagree, the model follows the code:

- The documentation gives ±0.2 as the edge-colour thresholds. The code uses ±0.1 (chargraph.py:345-350), and so does `Plotting.EdgeColor`.
- The documentation says relations must name two distinct existing character ids. The code checks nothing of the kind. A relation that names an unknown id adds an attribute-less node, and `plot_network` then raises `KeyError` (`Plotting.PlotKeyError`). A relation from an id to itself is a self-loop.

The image that `plot_network` saves takes the output file's name with the suffix `.png`. When `output_file` has the suffix `.png`, that name is the output file, and the image replaces the snapshot just written there. The next iteration then cannot read its draft. `read_json` raises `UnicodeDecodeError` outside the `try`, and the run ends (`ProcessLaws.NextDraft`, `ProcessLaws.PngOutputStopsRun`).

Some members are plain definitions that the rest of the model uses, with their properties proved in lemmas about them:

- `Json.Lookup` is `d[key]`, with `KeyError` or `TypeError`.
- `Json.AsNumber` is the numeric view of a value, in which a bool counts as 0 or 1.
- `SocialGraph.ToNodeId` turns a value into a node key. What is proved about node keys is in `SocialGraph.NodeKeysFollowEquality`.
- `Paths.OutputFilename` is `get_output_filename`. Its properties are in `Paths.OutputFilenameShape`, `Paths.OutputFilenameParsesBack`, `Paths.OutputFilenamesDistinct`, `Paths.ImageIsOutput` and `Paths.DebugIsNoOutput`.
- `Process.ReadJson` is `FileHandler.read_json` (chargraph.py:20-26) on the files map.
- `Process.Seed` is the draft an iteration reads before its attempts (chargraph.py:392-401). `ProcessLaws.FirstDraft` and `ProcessLaws.NextDraft` state what it gives.
- `ProcessLaws.Before` is the state in which iteration j starts, after the iterations before it. The run-level laws use it to name an iteration's own accepted response.

## Model

| member | source | states |
|---|---|---|
| Json.SnapshotIsTruthy | chargraph.py:114-115 | a response that passed validation is truthy, so it is always sent back as a draft |
| SocialGraph.NodeKeysFollowEquality | chargraph.py:298-312 | a value can be a node key iff it is a number, a bool or a string, and two keys name the same node iff Python's `==` holds between them (`True == 1 == 1.0`, a string equals only the same string) |
| SocialGraph.CreateSocialNetwork | chargraph.py:292-317 | the method (two loops) returns exactly the folded graph `BuildGraph`, including its first error |
| SocialGraph.AddCharacterNodes | chargraph.py:297-302 | the `add_node` loop equals the character fold |
| SocialGraph.AddRelationEdges | chargraph.py:305-315 | the relation loop equals the relation fold |
| SocialGraph.ApplyRelation | chargraph.py:307-315 | one relation: an existing edge gains the weight; a new pair gets an edge of weight + 1 with that relation's positivity and creates missing end nodes; a missing `positivity` only matters for a new pair |
| SocialGraph.AddCharactersReads | chargraph.py:297-302 | the character fold succeeds iff every character can be read, fails with the first reading error, and otherwise equals adding the read characters one by one |
| SocialGraph.AddRelationsReads | chargraph.py:305-315 | a successful relation fold read every relation and equals adding the read relations one by one |
| SocialGraph.AddNodeValid | chargraph.py:298-302 | `add_node` keeps the graph well formed: nodes listed once, attributes and edge ends only on nodes, edges listed once |
| SocialGraph.AddNodesValid | chargraph.py:297-302 | adding characters keeps the graph well formed and leaves its edges alone |
| SocialGraph.AddNodesKeys | chargraph.py:297-302 | after the character loop the attributed nodes, and the nodes, are the old ones plus every character id |
| SocialGraph.AddNodesKeep | chargraph.py:297-302 | a node whose id no character uses keeps its attributes |
| SocialGraph.AddNodesLast | chargraph.py:297-302 | a repeated id carries the attributes of its last character |
| SocialGraph.AddRelationValid | chargraph.py:307-315 | one relation keeps the graph well formed |
| SocialGraph.AddRelationShape | chargraph.py:307-315 | one relation leaves the attributes alone, adds only its own ends as nodes, and adds only its own pair as an edge |
| SocialGraph.AddEdgesValid | chargraph.py:305-315 | the relation loop keeps the graph well formed |
| SocialGraph.AddEdgesShape | chargraph.py:305-315 | the relation loop leaves the attributes alone, adds only relation ends as nodes, and the edges become the old edges plus every relation's pair |
| SocialGraph.AddEdgesNodes | chargraph.py:305-315 | every relation end becomes a node |
| SocialGraph.AddEdgesWeights | chargraph.py:307-313 | each edge weight is its start value (1 for a new edge) plus the sum of the weights of the relations on its unordered pair |
| SocialGraph.AddEdgesPositivity | chargraph.py:307-314 | an edge keeps its positivity, and a new pair takes the positivity of the first relation on it |
| SocialGraph.AddEdgesCount | chargraph.py:305-315 | the loop adds at most one edge per relation |
| SocialGraph.AddEdgesFailure | chargraph.py:307-314 | the loop raises iff the first relation on some new pair lacks `positivity`, and the error is `KeyError` |
| SocialGraph.EmptyValid | chargraph.py:294 | `nx.Graph()` is well formed |
| SocialGraph.BuildGraphFolds | chargraph.py:292-317 | a built graph is the read characters added to the empty graph, then the read relations |
| SocialGraph.BuiltNodes | chargraph.py:292-317 | the built graph is well formed; its attributed nodes are exactly the character ids, each with its last character's attributes; its nodes are the character ids and relation ends |
| SocialGraph.BuiltEdges | chargraph.py:305-317 | the edges are exactly the relation pairs, each weighing 1 + the sum over its relations, with its first relation's positivity, and there are no more edges than relations |
| SocialGraph.AllNodesHaveAttributes | chargraph.py:292-317 | every node carries attributes iff every relation end is a character id |
| Plotting.ValidListed | chargraph.py:338-344 | in a well-formed graph, every edge that `G.edges()` lists has attributes, so `G[u][v]` cannot fail |
| Plotting.BuiltListed | chargraph.py:338-344 | the same holds for every graph `create_social_network` builds |
| Plotting.Max | chargraph.py:339 | `max` returns a member of the list that is at least every member |
| Plotting.PlotNetwork | chargraph.py:327-350 | the two loops and the width list compute exactly `Styles`: the colours, sizes, widths and edge colours, or the exception the source raises first |
| Plotting.EdgeColorRule | chargraph.py:344-350 | red iff positivity < -0.1, green iff > 0.1, grey iff between, bounds included |
| Plotting.NodeStyling | chargraph.py:327-335 | one colour and one size per node and one width and one colour per edge; the main colour iff the node's `main_character` is truthy, iff its size is 2000; only the two colours and the two sizes occur |
| Plotting.EdgeOrderCount | chargraph.py:338 | the edge list has one entry per edge |
| Plotting.WidthScale | chargraph.py:338-340 | with positive weights, every width is in (0, 20], and it is 20 exactly for the heaviest edges |
| Plotting.SumWeightsNonNegative | chargraph.py:308-313 | non-negative relation weights sum to a non-negative total |
| Plotting.FirstRelationOn | chargraph.py:307-314 | every edge pair has a first relation on it |
| Plotting.PlotKeyError | chargraph.py:329-330 | plotting a built graph raises `KeyError` iff some relation names an id that is not a character's |
| Plotting.HeavyEdges | chargraph.py:339 | if every edge weighs at least 1, so does the maximum weight |
| Plotting.NumericEdges | chargraph.py:343-350 | if every edge's positivity is a number, the colour comparisons cannot raise |
| Plotting.BuiltWeightsAtLeastOne | chargraph.py:307-313 | with non-negative relation weights, every built edge weighs at least 1 |
| Plotting.BuiltPositivitiesNumeric | chargraph.py:310-314 | with numeric relation positivities, every built edge's positivity is numeric |
| Plotting.PlotSucceeds | chargraph.py:292-350 | referentially complete relations with non-negative weights and numeric positivities give a graph that plots without an exception |
| Plotting.NoZeroDivision | chargraph.py:339-340 | a `ZeroDivisionError` in the width formula needs a negative relation weight |
| Paths.Split | chargraph.py:289 | splitting a path on `/` gives at least one piece, none containing `/` |
| Paths.Parse | chargraph.py:289 | `Path(s)` is normal: its root is empty, `/` or `//`, and its parts are non-empty, not `.`, free of `/` |
| Paths.RFind | chargraph.py:289 | the last index of a character, or -1 when it does not occur |
| Paths.WithSuffix | chargraph.py:416 | `with_suffix` raises `ValueError` iff the suffix is invalid (it holds `/`, or is not empty and does not start with `.`, or is `.`) or the path has an empty name |
| Paths.NatToString | chargraph.py:290 | `str(n)` is a non-empty string of decimal digits |
| Paths.ParseNatOfNatToString | chargraph.py:290 | reading the decimal digits back gives n |
| Paths.NatToStringInjective | chargraph.py:290 | different iterations print differently |
| Paths.JoinPartsSnoc | chargraph.py:290 | appending a part appends `/` and that part |
| Paths.RenderChild | chargraph.py:290 | `str(dir / name)` is the directory prefix followed by the name |
| Paths.OutputFilenameShape | chargraph.py:287-290 | the output name is the base's directory prefix, its stem, `_`, the iteration number and its suffix |
| Paths.OutputFilenamesDistinct | chargraph.py:287-290 | two different iterations get different output names |
| Paths.SplitPlain | chargraph.py:289 | a string without `/` splits to itself |
| Paths.SplitCons | chargraph.py:289 | splitting `a/b` gives a, then the pieces of b |
| Paths.SplitJoinParts | chargraph.py:289-290 | splitting joined components gives them back |
| Paths.KeepComponents | chargraph.py:289 | normal components survive the filtering of empty and `.` pieces |
| Paths.JoinPartsHead | chargraph.py:290 | a joined path starts with its first component's first character |
| Paths.ParseRender | chargraph.py:289-290 | `Path(str(p)) == p` for every normal path |
| Paths.ComponentSlices | chargraph.py:290 | the stem and suffix of a component contain no `/` |
| Paths.IterationNameIsComponent | chargraph.py:290 | the iteration-stamped name is a proper path component |
| Paths.OutputFilenameParsesBack | chargraph.py:287-290 | the output name parses back to the base's parent and the stamped name, so it has a non-empty name and `with_suffix` cannot fail on it |
| Paths.NoDotInDigits | chargraph.py:290 | a decimal number contains no `.` |
| Paths.RFindUnique | chargraph.py:289 | the last occurrence is determined by its defining property |
| Paths.RFindBeforeTail | chargraph.py:289-290 | appending text without `.` leaves the last `.` where it was |
| Paths.SuffixHasNoLaterDot | chargraph.py:290 | a suffix starts with its only `.` and has at least one character after it |
| Paths.IterationNameKeepsSuffix | chargraph.py:290 | when the base has a suffix, the stamped name has the same suffix and the stamped stem |
| Paths.IterationNameWithoutSuffix | chargraph.py:290 | without a suffix, `_i` is appended to the whole name |
| Paths.IterationNameSuffix | chargraph.py:290 | the stamped name keeps the base's suffix iff the base name does not end in `.` |
| Paths.StemNotEmpty | chargraph.py:290 | a non-empty name has a non-empty stem |
| Paths.StemSuffixJoin | chargraph.py:290 | a name is its stem followed by its suffix |
| Paths.AppendSuffix | chargraph.py:416 | a non-empty stem followed by a one-dot suffix has exactly that stem and that suffix |
| Paths.WithSuffixParsesBack | chargraph.py:416 | `with_suffix` with a valid suffix longer than `.`, on a path with a name, gives the same directory and the stem followed by the suffix |
| Paths.ImageNameIsIterationName | chargraph.py:447 | the image name beside iteration i's name is iteration j's name iff i = j and the base's suffix is `.png` |
| Paths.IterationNameEnds | chargraph.py:290 | a stamped name ends in a digit, and so does its stem when the base has a suffix |
| Paths.DebugNameIsNoIterationName | chargraph.py:416 | the debug log's name is never an iteration's name |
| Paths.ConstantSuffixes | chargraph.py:416 | `.png` and `.debug.txt` are valid suffixes |
| Paths.RenamedOutput | chargraph.py:413-447 | `with_suffix` on an output name succeeds and keeps the base's directory, with the stamped name's stem and the new suffix |
| Paths.ImageIsOutput | chargraph.py:413-447 | the image beside iteration i's output is iteration j's output iff i = j and the base's suffix is `.png` |
| Paths.DebugIsNoOutput | chargraph.py:413-416 | the debug log beside an output file is no iteration's output file |
| Prompt.CreateMessages | chargraph.py:42-120 | the messages are the system sections chosen by the flags and the user text of `copies` copies |
| Prompt.SystemSectionsRule | chargraph.py:94-116 | the instructions come first; the description section appears iff `desc_sentences` is set, with that count; portraits iff `generate_portraits`; the draft iff `previous_json` is truthy, as the last section |
| Prompt.UserTextUnfold | chargraph.py:119 | with two or more copies, the text is one copy, a blank line, then the rest |
| Prompt.UserTextDegenerate | chargraph.py:119 | zero or fewer copies give the empty text, one copy the text itself |
| Prompt.OffsetIsProduct | chargraph.py:119 | copy k starts at k·(\|text\| + 2) |
| Prompt.OffsetShift | chargraph.py:119 | each later copy starts \|text\| + 2 further on |
| Prompt.OffsetMonotone | chargraph.py:119 | later copies start later |
| Prompt.UserTextLength | chargraph.py:119 | n ≥ 1 copies are n·\|text\| + 2(n − 1) characters long |
| Prompt.UserTextCopy | chargraph.py:119 | every copy of the text sits at its offset |
| Prompt.UserTextSeparator | chargraph.py:119 | a blank line `\n\n` separates every two consecutive copies |
| Prompt.CharacterProperties | chargraph.py:124-154 | the four fixed properties come first; `description` is declared iff `desc_sentences` is set, `portrait_prompt` iff `generate_portraits`, and both are text; no name twice |
| Prompt.GetSchema | chargraph.py:122-201 | the character properties as above, with `description` and `portrait_prompt` as text; every required character field is declared; the relation properties are exactly `id1` (number), `id2` (number), `relation` (text array), `weight` (number) and `positivity` (number); the required lists are as written |
| Process.Validate | chargraph.py:430-435 | a response passes iff it is an object whose `characters` and `relations` are both lists; it is passed on unchanged, and a failure is a `ValueError` |
| Process.NamesFor | chargraph.py:413-447 | the output name is `get_output_filename(output_file, i)`, and both `with_suffix` calls on it succeed and give the debug log's and the image's names |
| Process.TryAttempt | chargraph.py:410-453 | the try block's statements compute exactly one attempt of `Attempted` |
| Process.RetryLoop | chargraph.py:406-461 | the attempt loop computes exactly `Retry` from attempt 0 |
| Process.RunIteration | chargraph.py:392-461 | one iteration of the outer loop computes exactly `Iteration` |
| Process.ProcessText | chargraph.py:388-461 | the whole method computes exactly `Run` |
| ProcessLaws.WritesOnlyChain | chargraph.py:391-461 | two runs of changes that each stay within a footprint stay within any footprint covering both |
| ProcessLaws.WritesOnlyOutside | chargraph.py:391-461 | a file outside the footprint keeps its content |
| ProcessLaws.NamesApart | chargraph.py:413-447 | a debug log is never an output file; two iterations never share an output file; an image is the output of no other iteration, and its own iteration's output iff the base's suffix is `.png` |
| ProcessLaws.LaterIterationsMissOutput | chargraph.py:391-449 | no later iteration writes anything to iteration i's output file |
| ProcessLaws.AttemptStep | chargraph.py:410-453 | an attempt makes exactly one request, records it, and never backs off; it writes only its debug log (text), its output file (a snapshot) and its image; it succeeds iff the response is accepted (a valid snapshot that, when plotting, plots); the output file then holds the response, or the image when the image has the output's name |
| ProcessLaws.AttemptFailures | chargraph.py:410-449 | a request that raises changes no file; a response whose content cannot be extracted is logged, not saved, and its exception is raised; a response that fails validation is logged, not saved, and raises `ValueError`; a snapshot that does not plot stays saved and the plot's exception is raised |
| ProcessLaws.AttemptTrace | chargraph.py:410-449 | what an attempt adds to the trace starts with its request and holds no wait |
| ProcessLaws.RetryBudget | chargraph.py:406-461 | between one request and the remaining attempts are made; the loop aborts only with an exception it does not catch, and gives up on iteration i only after using every remaining attempt |
| ProcessLaws.AttemptOutcomeOnly | chargraph.py:410-449 | how an attempt ends depends only on its response: a failed request raises, content that cannot be extracted raises its exception, an invalid snapshot raises `ValueError`, a snapshot that does not plot raises the plot's exception, and otherwise the attempt succeeds; it succeeds iff the response is accepted |
| ProcessLaws.RetryFilters | chargraph.py:406-461 | every attempt before the last raised an exception the loop catches; the loop aborts iff the last attempt raised an exception it does not catch, and with that exception; it gives up only after a last attempt that raised a caught exception |
| ProcessLaws.RetryStopsAtFirstSuccess | chargraph.py:406-453 | the loop ends well iff the last response it got was accepted, and none of the responses before it was accepted |
| ProcessLaws.RetryRecords | chargraph.py:408-411 | every request the loop makes is in the trace |
| ProcessLaws.RetryPacing | chargraph.py:406-459 | what the loop adds to the trace starts with a request; every wait in it is the 10-second one and is directly followed by a request; there is one wait fewer than there are requests. So there is exactly one wait between each two consecutive requests, none before the first and none after the last |
| ProcessLaws.RetryWaitCount | chargraph.py:406-459 | the loop records one wait fewer than it makes requests |
| ProcessLaws.RetryWaitPlaces | chargraph.py:406-459 | what the loop adds to the trace starts with a request, and every wait in it is the 10-second one, directly followed by a request |
| ProcessLaws.RetrySaves | chargraph.py:413-453 | the loop writes only the iteration's debug log, output file and image; when it ends well, its last response was accepted and the output file holds that response's snapshot, or the image when the image has the output's name |
| ProcessLaws.IterationStep | chargraph.py:391-461 | one iteration makes at most 10 requests and records them; it writes only its own debug log, output file and image; when it ends well, its seed was read, it made at least one request, and its output file holds its last response, which was accepted and was sent with the messages drawn from that seed |
| ProcessLaws.IterationSaves | chargraph.py:391-453 | one iteration writes only its own debug log, output file and image, and when it ends well its output file holds its accepted last response |
| ProcessLaws.IterationsBudget | chargraph.py:391-461 | iterations i onwards make at most 10 requests each, all recorded |
| ProcessLaws.IterationsSave | chargraph.py:391-461 | iterations i onwards write only their debug logs, output files and images; when the run completes, every iteration j from i on ended well, and at the end its output file still holds iteration j's own accepted last response |
| ProcessLaws.IterationsWrite | chargraph.py:391-461 | iterations i onwards write only their debug logs, output files and images |
| ProcessLaws.IterationsKeep | chargraph.py:391-461 | when the run completes, each iteration from i on ended well, started from the state the earlier ones left, and its output file at the end holds its own accepted last response |
| ProcessLaws.SavedByKept | chargraph.py:391-461 | what an iteration left at its output file is still there when only other files change |
| ProcessLaws.RunGuarantees | chargraph.py:388-461 | a run makes at most 10 requests per iteration, all recorded; it writes only its iterations' debug logs, output files and images; a complete run leaves at each iteration's output file that iteration's own accepted last response; with no iterations it does nothing |
| ProcessLaws.FirstDraft | chargraph.py:391-401 | reading `previous_json_file` fails iff it names an image; otherwise the first iteration sends a draft iff the name is non-empty and the file holds truthy JSON, and that JSON is the draft |
| ProcessLaws.NextDraft | chargraph.py:392-449 | after an iteration that ends well, the next one sends exactly the snapshot it saved as its draft; when its image replaced that snapshot, the next iteration ends the run with `UnicodeDecodeError` |
| ProcessLaws.PictureEndsNextIteration | chargraph.py:20-26 | an image at the previous iteration's output file ends the next iteration with `UnicodeDecodeError`, before any request |
| ProcessLaws.RunAfterFirst | chargraph.py:391-401 | a run whose first iteration ends well continues with the second |
| ProcessLaws.StopEndsRun | chargraph.py:391-461 | an iteration that does not end well ends the run with its outcome |
| ProcessLaws.PictureStopsRest | chargraph.py:391-396 | an image at the first output file stops the iterations after the first |
| ProcessLaws.PngOutputHoldsPicture | chargraph.py:438-449 | when plotting with an image named like the output file, an iteration that ends well leaves the image at its output file |
| ProcessLaws.PictureStopsRun | chargraph.py:391-449 | when plotting with an image named like the first output file, a run of two or more iterations never completes |
| ProcessLaws.PngOutputStopsRun | chargraph.py:391-449 | when plotting to an output file whose suffix is `.png`, a run of two or more iterations never completes |

## Left out

- `make_request`, the HTTP and Gemini clients and their internal retries are not modelled. Each request is one response from an oracle: unavailable (the client gave up) or the extracted content or its exception.
- The extraction of `content` from an OpenRouter or Gemini response (chargraph.py:420-424) is part of the oracle's answer. The oracle may also raise `JSONDecodeError`.
- `temperature` only reaches `make_request`, so it is not modelled.
- FileHandler is modelled only through the files map. `read_file` is the input text; a failure to read it is not modelled. A file holds JSON, other text, or an image; its bytes and encoding are not modelled. `read_json` gives `None` for a missing file or for text that is not JSON, and lets the `UnicodeDecodeError` of an image through. The round trip of `write_json` through the disk is taken to return the same value. A failure to open a file for writing is not modelled.
- A file is identified by its path string, so file identity is string equality. `./book_0.json` and `book_0.json` name one file on disk but count as two here, and so do `x_0.PNG` and `x_0.png` on a file system that ignores case. `ProcessLaws.NamesApart`, `Paths.ImageIsOutput` and `ProcessLaws.LaterIterationsMissOutput` rely on this: whether an image overwrites an output is decided by comparing names.
- The debug file is written as plain text; its content is not modelled.
- `time.sleep` is an event. A negative `delay` raises `ValueError` in `time.sleep`, outside the `try`, and ends the run.
- The console output (`print`) is not modelled.
- `random.seed`, `spring_layout` and the matplotlib calls in `plot_network` are not modelled. A `Plot` event records the styling that would be drawn, and the image file is written as an image entry whose pixels are not modelled.
- `main`, argparse, environment variables and `cleanup_genai` are not modelled.
- The wording of the system prompt and of the schema descriptions is not modelled; only which sections and properties appear is.
- Python floats are exact reals. Rounding, NaN and infinities are not modelled.
- networkx is modelled, not read. `G.edges()` lists edges in the order they are created; networkx lists them by adjacency, so the order of the edge widths and colours may differ.
- SocialGraph.ReadRelation: when one relation has several defects, the model reports an unusable id first. That is `ValueError` for `None`, and `TypeError` for a list or an object. It then reports a missing or non-numeric `weight`, and finally a missing `positivity`. For a pair with no edge yet, Python evaluates `weight` and `positivity` before `add_edge` checks the ids. Also, `has_edge` rejects an unhashable second id only when the first id is already a node. So the two can disagree on whether such a relation is retried. An unhashable `id2` with a missing `positivity` is a retried `KeyError` in Python and a fatal `TypeError` in the model. A `None` id with a non-numeric `weight` is a fatal `TypeError` in Python and a retried `ValueError` in the model. Relations with at most one defect behave the same in both.
- JSON objects are maps: key order and duplicate keys are not modelled.
- pathlib follows CPython 3.12 on POSIX: the suffix needs a `.` that is neither first nor last in the name. Windows paths are not modelled.
