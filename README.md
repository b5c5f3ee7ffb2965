# newsflow phase-1 workflows in Dafny

This project models the two phase-1 example workflows of the newsflow agent network.

- **The basic news workflow** (`basic_state_example.py`): `load_news`, then `process_articles`, then `generate_summary`, over a `BasicNewsState`.
- **The persistent session workflow** (`checkpointing_example.py`): `start_session`, then `process_batch`, then `finalize_session`, over a `PersistentNewsState`. It is compiled with an in-memory checkpointer.

Each step reads the whole state and returns a partial update, a dict holding only the keys it changes. The LangGraph runtime merges that update into the state, key by key, and runs the steps in the order the `add_edge` calls fix. With a checkpointer attached, the runtime also records a snapshot of the merged state after every step, per thread id.

The merge rule, the execution order and the checkpointer are library behaviour, not code of this repository. They are modelled only as far as the scripts rely on them.

Modules:

- `Results` (`results.dfy`): `Option` and `Result`, and `Over`, the per-key rule of the shallow merge that both state records share.
- `Text` (`text.dfy`):
  - `str.split()` with no argument, using CPython's whitespace set. This gives the word count of an article.
  - `str(int)`, which every f-string that embeds a count uses.
- `Graph` (`graph.dfy`):
  - `START`/`END` endpoints and `add_edge` lists.
  - The walk that turns a linear edge list into the execution order.
- `Engine` (`engine.dfy`):
  - The runtime driving a linear graph: `Execute` records a snapshot per completed node and stops at the first node that raises.
  - `Run` is the plain fold of the nodes over the state.
  - A `KeyError` on a missing key is the only failure these steps have.
- `BasicState` (`basic_state.dfy`):
  - The state record, with one `Option` field per key; `None` means the key is absent.
  - The shallow merge.
  - The three steps.
  - The `for` loop of `process_articles` as a method.
  - The edges and the end-to-end run.
- `Checkpointing` (`checkpointing.dfy`): the same for the persistent workflow, plus the node names `update_state` accepts.
- `CheckpointSaver` (`saver.dfy`):
  - The compiled persistent graph as a class holding each thread's snapshot log, with `Invoke`, `GetState`, `GetStateHistory` and `UpdateState`.
  - The two `demonstrate_*` scenarios as client methods.

Where a general checkpointed-workflow design would behave differently, the model follows the scripts and the library they call:

- `Invoke` follows LangGraph's rule for an `invoke` with a non-`None` input: the input is merged over the thread's newest snapshot and the graph runs from `START`. Neither script invokes a thread twice; each `demonstrate_*` function compiles its graph with a fresh `MemorySaver`, and the basic workflow has no checkpointer at all.
- `update_state` with an `as_node` that names no node is refused (`InvalidUpdate`), as LangGraph refuses it. It is not silently accepted.
- Manual snapshots are told apart from executed ones by their writer, `UpdatedAs`, rather than by a flag.
- Snapshots are identified by their position in the thread's log, not by checkpoint ids.

## Model

| member | source | states |
|---|---|---|
| Text.Split | examples/phase-1/basic_state_example.py:63 | every word `split()` yields is non-empty and free of whitespace, and there are at most as many words as characters |
| Text.SplitEmptyIffAllSpace | examples/phase-1/basic_state_example.py:63 | a string has word count 0 exactly when it is all whitespace (both directions) |
| Text.SplitLeadingSpace | examples/phase-1/basic_state_example.py:63 | leading whitespace does not change the words |
| Text.SplitTrailingSpace | examples/phase-1/basic_state_example.py:63 | trailing whitespace does not change the words |
| Text.SplitKeepsNonSpace | examples/phase-1/basic_state_example.py:63 | the words, concatenated, are exactly the non-whitespace characters of the content, in order |
| Text.SplitSeparated | examples/phase-1/basic_state_example.py:63 | any non-empty whitespace run, of any length and mix of whitespace characters, separates: the words of `a + w + b` are the words of `a` followed by the words of `b`, and the counts add up, so no word spans whitespace |
| Text.SplitJoin | examples/phase-1/basic_state_example.py:63 | splitting words joined by single spaces gives back exactly those words; with `Text.SplitSeparated` and `Text.SplitKeepsNonSpace` this makes each maximal non-whitespace run exactly one word |
| Text.NatToString | examples/phase-1/basic_state_example.py:64 | `str(n)` of a count is a non-empty string of decimal digits; it is "0" exactly when n is 0, and a string of two or more digits never starts with `0` |
| Text.IntToStringRoundTrip | examples/phase-1/basic_state_example.py:79 | `int(str(i)) == i`: the count embedded in a message can be read back exactly |
| Graph.TargetsExact | examples/phase-1/basic_state_example.py:99-103 | the targets found for an endpoint are exactly the ends of the edges added from it |
| Graph.Walk | examples/phase-1/basic_state_example.py:99-103 | a successful walk is a path of edges from its start to `END`, every endpoint on it has exactly one outgoing edge, and it is no longer than the fuel |
| Graph.ChainOrder | examples/phase-1/basic_state_example.py:99-103 | edges that run from `START` through distinct nodes to `END` execute exactly those nodes, in that order |
| Engine.Execute | examples/phase-1/checkpointing_example.py:138 | a run records at most one snapshot per node; it has no failure exactly when every node ran; a failure names the node after the last recorded one |
| Engine.ExecuteSteps | examples/phase-1/checkpointing_example.py:138 | each snapshot is what its node made of the previous snapshot (or of the input), and a failing node raised on the newest one |
| Engine.FinalIsRun | examples/phase-1/basic_state_example.py:127 | the result of a recorded run is the plain left fold of the steps over the state |
| BasicState.MergeLaws | examples/phase-1/basic_state_example.py:49-53 | the empty update changes nothing, merging is associative, and merging the same update twice is merging it once |
| BasicState.LoadNewsEffect | examples/phase-1/basic_state_example.py:36-53 | `load_news` sets `current_step` to "data_loaded", `articles` to the two mock articles and `processed_count` to 0, and the caller's `results` survives |
| BasicState.CollectResults | examples/phase-1/basic_state_example.py:60-65 | the loop yields exactly one result line per article, in article order, naming its title and word count |
| BasicState.ProcessArticlesEffect | examples/phase-1/basic_state_example.py:56-72 | `processed_count` is the number of input articles, there is one result line per article in order, `articles` is unchanged, and a missing `articles` raises `KeyError` |
| BasicState.GenerateSummaryEffect | examples/phase-1/basic_state_example.py:75-85 | exactly one line, the summary, is appended after the prior results, `current_step` becomes "completed", and a missing `processed_count` or `results` raises, in that order |
| BasicState.SummaryOfTwo | examples/phase-1/basic_state_example.py:79 | the summary of two articles reads "Processed 2 articles successfully" |
| BasicState.EdgesAreChain | examples/phase-1/basic_state_example.py:100-103 | the four `add_edge` calls form the chain `START`, load_news, process_articles, generate_summary, `END` |
| BasicState.EdgesGiveOrder | examples/phase-1/basic_state_example.py:99-103 | the edges fix the execution order load_news, process_articles, generate_summary |
| BasicState.ProcessThenSummarize | examples/phase-1/basic_state_example.py:56-85 | once articles are loaded, the last two steps complete with the article count and one line per article followed by the summary |
| BasicState.InvokeOutcome | examples/phase-1/basic_state_example.py:118-127 | from any state, including the initial one, the workflow completes with `processed_count` 2 and three results: the two article lines in order, then the summary |
| BasicState.MainRun | examples/phase-1/basic_state_example.py:117-127 | `main`'s run from its initial state ends in exactly the state with step "completed", the two mock articles, `processed_count` 2, and results the two article lines then "Processed 2 articles successfully" |
| Checkpointing.NodeNamed | examples/phase-1/checkpointing_example.py:78-80 | a name maps to the node registered under it, and to none exactly when no node has that name |
| Checkpointing.MergeLaws | examples/phase-1/checkpointing_example.py:39-43 | the empty update changes nothing, merging is associative, and merging the same update twice is merging it once |
| Checkpointing.NoteTexts | examples/phase-1/checkpointing_example.py:42-68 | the notes the scripts produce read "Session  started" for the empty id, "Session demo_session started", "Processed batch of 3 articles", and "Session completed with 3 articles" or "with 4 articles" |
| Checkpointing.NewArticlesAre | examples/phase-1/checkpointing_example.py:51 | the batch is "article_0", "article_1", "article_2" |
| Checkpointing.StartSessionEffect | examples/phase-1/checkpointing_example.py:33-43 | a present `session_id` is kept (so "" stays ""), the fresh id is used only when it is absent, exactly one note is appended, `current_step` becomes "session_started", and the articles and count are untouched |
| Checkpointing.ProcessBatchEffect | examples/phase-1/checkpointing_example.py:46-59 | the three new articles are appended, `total_count` becomes the new length, one note is appended, `session_id` is kept, and a missing `session_id` or `session_notes` raises |
| Checkpointing.FinalizeSessionEffect | examples/phase-1/checkpointing_example.py:62-69 | only `current_step` and `session_notes` change, the one new note embeds the current `total_count`, and a missing `session_id`, `session_notes` or `total_count` raises, in that order |
| Checkpointing.StepsKeepCountMatches | examples/phase-1/checkpointing_example.py:54-69 | after `process_batch` the count matches the list, and the other steps keep a matching count matching |
| Checkpointing.EdgesAreChain | examples/phase-1/checkpointing_example.py:83-86 | the four `add_edge` calls form the chain `START`, start_session, process_batch, finalize_session, `END` |
| Checkpointing.EdgesGiveOrder | examples/phase-1/checkpointing_example.py:82-86 | the edges fix the execution order start_session, process_batch, finalize_session |
| Checkpointing.BatchThenFinalize | examples/phase-1/checkpointing_example.py:46-69 | once a session is started, the last two steps complete and record one snapshot each |
| Checkpointing.ThreeSteps | examples/phase-1/checkpointing_example.py:33-69 | the three steps leave the kept or fresh id, "session_completed", the old articles plus the batch, that length as count, and the old notes plus exactly three notes |
| Checkpointing.RunOutcome | examples/phase-1/checkpointing_example.py:33-86 | from any state the run completes with three snapshots, and its result is the state `ThreeSteps` describes |
| Checkpointing.InitialRun | examples/phase-1/checkpointing_example.py:127-138 | from the script's initial state the run ends with three articles, `total_count` 3 and three notes, the first "Session  started" |
| CheckpointSaver.CompiledGraph.constructor | examples/phase-1/checkpointing_example.py:98-99 | a fresh checkpointer holds no thread |
| CheckpointSaver.CompiledGraph.GetState | examples/phase-1/checkpointing_example.py:109-110 | `get_state` gives the newest snapshot of the thread, or the empty state for a thread never run |
| CheckpointSaver.CompiledGraph.GetStateHistory | examples/phase-1/checkpointing_example.py:117-120 | `get_state_history` lists every snapshot of the thread, newest first |
| CheckpointSaver.CompiledGraph.Invoke | examples/phase-1/checkpointing_example.py:138 | the input is merged over the newest snapshot, one snapshot per completed node is appended to that thread's log and nothing else, other threads are untouched, and the result is the recorded run's result |
| CheckpointSaver.CompiledGraph.RunRecorded | examples/phase-1/checkpointing_example.py:138 | the runtime loop appends exactly the snapshots of the run, each attributed to its node, and returns the run's result |
| CheckpointSaver.CompiledGraph.UpdateState | examples/phase-1/checkpointing_example.py:186-193 | a known `as_node` appends one snapshot, the overrides merged over the newest, attributed to that node without running it; an unknown one is refused and changes nothing |
| CheckpointSaver.DemonstrateCheckpointing | examples/phase-1/checkpointing_example.py:97-153 | `get_state` finds no state before the run, so the branch that lists an existing thread's history is skipped; the run completes with ids, articles, count 3 and the three notes, spelled out, and `get_state` shows that result; the model adds a post-run look at the history (three snapshots, newest first), which the script does not make |
| CheckpointSaver.DemonstrateStateUpdates | examples/phase-1/checkpointing_example.py:165-199 | after the update, `total_count` is 5, the notes are replaced wholesale with last note "Added 4 more articles", every other key is as the run left it, and the count no longer matches the list; the model adds a look at the log (four snapshots, the manual one newest), which the script does not make |

## Left out

- Logging, `print`, `main` and the reporting in the `demonstrate_*` functions: console output only. The calls they make are modelled.
- `uuid.uuid4()` in `start_session` is random. It is taken as an opaque `freshId` parameter.
- The articles are narrowed to records with three string keys, `id`, `title` and `content`, because the scripts build no other kind. A missing key inside an article dict, or a non-string `content`, cannot be expressed.
- Keys outside the two typed-dict declarations cannot be expressed in the state records.
- BasicState.InvokeOutcome: the word counts of the two mock contents (6 and 7) are left as `Text.WordCount` terms, not evaluated, here and in `BasicState.MainRun`; the mock data is modelled beyond its count of two only by its literal text.
- LangGraph's own checkpoints are not modelled. That covers the checkpoint it writes for the input before the first step, checkpoint ids, `next`, and metadata such as step numbers and timestamps.
- `get_state(new_config)` reads the checkpoint `update_state` just wrote. It is modelled as reading the thread's newest snapshot, which is the same checkpoint here.
- Graph compilation and its validation, including rejecting unknown edge targets, belong to the library.
- Persistence across process runs: the checkpointer is in memory.
- Concurrency: nothing in the scripts runs concurrently.
- Resuming a run that failed part-way: neither script's steps can fail on the states they build.
- `invoke(None, config)`, which resumes a thread after its last recorded step instead of starting from `START`: neither script calls it.
