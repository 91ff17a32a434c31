# Chat-history branch analysis, modelled in Dafny

`analyze_chat_history` (chat_analyzer.py) reads a chat history and cuts it into
windows of `chunk_size` messages. It sends each window to a classifier and folds the
classifier's verdict into a run state:

- a main branch of messages and summary markers;
- a summary log;
- one branch per debugging session, keyed `debug_session_<n>`;
- the session counter and the "currently debugging" flag.

A full run (no `--start-chunk`, no `--num-chunks`) is meant to write a checkpoint after every
window and to resume from it on the next full run; as written it never saves one (see Findings). A limited run never touches the checkpoint. Any error
while a window is processed ends the run at once. A run that reaches the end writes the
output files.

The project models that core:

| file | module | what it holds |
|---|---|---|
| wrappers.dfy | `Wrappers`, `Errors` | `Option`, `Result`, and the errors the loop's except clause catches |
| windows.dfy | `Windows` | window count, Python slicing, first and last window of a run |
| cleaning.dfy | `Cleaning` | `strip()`, `removeprefix("```json")`, `removesuffix("```")` on the reply |
| verdicts.dfy | `Verdicts` | the parsed reply, and the id normalisation loop as a method |
| sessions.dfy | `Sessions` | the per-window transition `Step`, its invariant, where every message goes, and the run state as a class (`RunState.ProcessChunk`) |
| checkpoints.dfy | `Checkpoints` | the checkpoint record, saving and loading it, and the two readings of the literal that builds it |
| analyzer.dfy | `Analyzer` | the window loop as a function (`Loop`/`RunWindows`), a whole run (`Analyze`), and the imperative run over a `Disk` object (`AnalyzeChatHistory`, `ProcessWindow`, `RunLoop`) |
| runs.dfy | `Runs` | properties of whole runs: where the loop stops, the checkpoint it leaves, exact resumption, and that every message is attributed |

The classifier is an input of the model. `Request.respond(k)` is the reply text for window
`k`; `None` stands for a failed call. `Request.parse` stands for `json.loads` followed by the
use of the result as an object; `None` stands for a failure of either.

The imperative methods are proved against the functions. `RunState.ProcessChunk` ends in
`Step`'s state. `AnalyzeChatHistory` leaves the disk and returns the outcome that
`Analyze(..., IntendedDict)` predicts. The lemmas are about those functions.

Behaviours of the code worth noting:

- Cleaning removes only a leading "```json" and a trailing "```". A reply fenced with a bare
  leading "```" keeps that fence and fails to parse.
- A session opens whenever the normalised id set is non-empty, even when none of its ids
  occurs in the window. The new session then gets an empty branch.
- The fallback summary text is used only when "debugging_summary" is missing. A JSON null
  gives a marker whose content is null.
- Errors raised while a window is folded in are caught by the same except clause as
  classifier errors: a null "chunk_summary", or a message without "id" in a window with
  debugging ids. They also end the run.
- As written, no checkpoint is ever saved (see Findings).

## Model

| member | source | states |
|---|---|---|
| Windows.SliceBound | chat_analyzer.py:64 | a Python slice bound is clamped to 0..n, and a negative bound counts from the end |
| Windows.PySlice | chat_analyzer.py:64 | `s[a:b]` is never longer than `s` nor than `b - a`, and for `0 <= a <= b` it is the plain slice with both bounds clamped to the list |
| Windows.Window | chat_analyzer.py:64 | a window never holds more than `chunk_size` messages |
| Windows.StartWindow | chat_analyzer.py:42-48 | the first window is `last_processed_chunk + 1` on a resumed full run, `start_chunk - 1` when a start is given otherwise, and 0 otherwise |
| Windows.EndWindow | chat_analyzer.py:53-57 | the loop bound is `min(start + num_chunks, total_chunks)` when a count is given and `total_chunks` otherwise |
| Windows.TotalChunks | chat_analyzer.py:53 | the window count is 0 exactly when there are no messages, and 1 when there are at most `chunk_size` |
| Windows.TotalChunksIsCeiling | chat_analyzer.py:53 | `total_chunks` is the ceiling of `len(messages) / chunk_size` |
| Windows.StartsInside | chat_analyzer.py:53-62 | window k starts inside the messages exactly when k < `total_chunks`, so the break at line 62 fires exactly at the window count |
| Windows.WindowSlice | chat_analyzer.py:61-64 | window k >= 0 is `messages[k*cs .. (k+1)*cs]` with both bounds clamped to the list, so it is empty past the end |
| Windows.WindowLength | chat_analyzer.py:61-64 | every window inside the messages is non-empty and holds at most `chunk_size` messages; all but the last hold exactly `chunk_size` |
| Windows.ChunksAreSlice | chat_analyzer.py:61-64 | windows s..e-1 concatenate to the contiguous slice they cover |
| Windows.WindowsCoverSuffix | chat_analyzer.py:53-64 | windows s..total-1 concatenate to `messages[s*cs..]`; from window 0 they give back every message |
| Cleaning.LStripShape | chat_analyzer.py:99 | `lstrip` keeps a suffix, drops only whitespace, and the result does not start with whitespace |
| Cleaning.RStripShape | chat_analyzer.py:99 | `rstrip` keeps a prefix, drops only whitespace, and the result does not end with whitespace |
| Cleaning.StripIsTrimmedInfix | chat_analyzer.py:99 | `strip` yields an infix whose margins are all whitespace and which neither starts nor ends with whitespace |
| Cleaning.StripIgnoresMargins | chat_analyzer.py:99 | whitespace around a trimmed text does not change what stripping yields |
| Cleaning.LStripDropsSpace | chat_analyzer.py:99 | `lstrip` of whitespace followed by a text that starts with a non-space is that text |
| Cleaning.RStripDropsSpace | chat_analyzer.py:99 | `rstrip` of a text ending in a non-space followed by whitespace is that text |
| Cleaning.LStrip | chat_analyzer.py:99 | `lstrip` is never longer than the text and does not start with whitespace |
| Cleaning.RStrip | chat_analyzer.py:99 | `rstrip` is never longer than the text and does not end with whitespace |
| Cleaning.LStripDrop | chat_analyzer.py:99 | `lstrip` drops a prefix of some length d, and every dropped character is whitespace |
| Cleaning.RStripKeep | chat_analyzer.py:99 | `rstrip` keeps a prefix of some length e, and every character after it is whitespace |
| Cleaning.Strip | chat_analyzer.py:99 | `strip` is never longer than the text and neither starts nor ends with whitespace |
| Cleaning.RemovePrefix | chat_analyzer.py:99 | `removeprefix`: when the text starts with the prefix, prefix + result is the text; otherwise the text is returned unchanged |
| Cleaning.RemoveSuffix | chat_analyzer.py:99 | `removesuffix`: when the text ends with the suffix, result + suffix is the text; otherwise the text is returned unchanged |
| Cleaning.FenceSplit | chat_analyzer.py:99 | the stripped reply is the removed front (nothing or "```json") + the cleaned text + the removed back (nothing or "```"); "```json" is removed exactly when the reply starts with it, and "```" exactly when what is left ends with it |
| Cleaning.CleanRemovesAtMostOneFence | chat_analyzer.py:99 | cleaning removes at most one leading "```json" and at most one trailing "```" from the stripped reply, and nothing else; each is removed whenever it is present |
| Cleaning.Clean | chat_analyzer.py:99 | the cleaned text is never longer than the reply, and a reply with neither marker after stripping is only stripped |
| Cleaning.CleanFencedPayload | chat_analyzer.py:99 | a payload fenced as "```json ... ```", with any whitespace around it, cleans to exactly the payload |
| Verdicts.MarkerText | chat_analyzer.py:119 | the marker text is the fallback only when "debugging_summary" is missing, null when it is null, and the given text otherwise |
| Verdicts.NormaliseIds | chat_analyzer.py:105-113 | the id loop yields the set of the ids the items contribute |
| Verdicts.NormalisedIdsMembership | chat_analyzer.py:105-113 | a string is a normalised id exactly when it is a string item or the "id" of an object item; every other item is dropped |
| Verdicts.RawIds | chat_analyzer.py:105 | the items are the reply's "debugging_message_ids" list, and none when the key is missing or null |
| Verdicts.IdList | chat_analyzer.py:106-112 | the loop collects at most one id per item |
| Verdicts.DistinctBound | chat_analyzer.py:113 | a list has no more distinct elements than entries |
| Verdicts.NormalisedIds | chat_analyzer.py:113 | duplicates collapse: there are never more ids than items |
| Sessions.NatToStringInjective | chat_analyzer.py:121 | distinct counters print as distinct decimal strings |
| Sessions.SessionKey | chat_analyzer.py:121 | a session key is "debug_session_" followed by at least one more character, the counter's digits |
| Sessions.SessionKeyInjective | chat_analyzer.py:121 | distinct session numbers give distinct session keys |
| Sessions.Step | chat_analyzer.py:102-132 | a window is folded in exactly when "chunk_summary" is not null and, if there are debugging ids, every message of the window has an "id"; it names the error otherwise; the counter never decreases; the window is recorded as the last processed |
| Sessions.SessionTransitions | chat_analyzer.py:102-132 | the summary log grows by exactly the chunk summary; no ids closes the session and appends the whole window to the main branch; ids while idle open a session with counter + 1 and exactly one marker before the window's messages; ids while in a session keep the key, add no marker and keep the counter; other sessions' branches are untouched |
| Sessions.EmptyIsValid | chat_analyzer.py:45 | the fresh state satisfies the invariant: counter = markers on the main branch, branch keys = debug_session_1..count |
| Sessions.FreshKey | chat_analyzer.py:121-123 | a session number above the counter has no branch yet, so an opened session starts with an empty branch |
| Sessions.StepPreservesValid | chat_analyzer.py:113-132 | every processed window keeps the invariant |
| Sessions.Route | chat_analyzer.py:125-129 | each message of a window goes to the session when listed and to the main branch otherwise |
| Sessions.SelectRoute | chat_analyzer.py:125-129 | routing a window splits it into the main-branch part and the session part, and sends nothing anywhere else |
| Sessions.Inside | chat_analyzer.py:125-127 | the session's part of a window is never longer than the window, and empty when there are no ids |
| Sessions.Outside | chat_analyzer.py:125-132 | the main branch's part of a window is never longer than the window, and the whole window when there are no ids |
| Sessions.StepRoutes | chat_analyzer.py:125-132 | after a window, every message processed so far is in exactly one branch, each branch in processing order; nothing is lost or duplicated |
| Sessions.StepRoutesMain | chat_analyzer.py:119-132 | the main branch's messages, markers aside, are exactly those routed to it |
| Sessions.MainAfterStep | chat_analyzer.py:119-132 | a processed window adds to the main branch's messages, markers aside, exactly its unlisted messages, in order |
| Sessions.StepRoutesSession | chat_analyzer.py:121-129 | each session's branch holds exactly the messages routed to it |
| Sessions.RunState.constructor | chat_analyzer.py:37-45 | the run state starts as the given snapshot |
| Sessions.RunState.ProcessChunk | chat_analyzer.py:102-132 | the in-place update succeeds exactly when `Step` does, fails with `Step`'s error, and otherwise ends in `Step`'s state |
| Sessions.RunState.RouteMessages | chat_analyzer.py:125-129 | the message loop appends the unlisted messages to the main branch and the listed ones to the session's branch, in order, and fails exactly when a message lacks "id" |
| Checkpoints.Save | chat_analyzer.py:136-143 | the record stores the processed window as `last_processed_chunk` |
| Checkpoints.Load | chat_analyzer.py:37-42 | a record without `last_processed_chunk` resumes as if window -1 was the last processed; an empty record loads as the fresh state; a complete record is what saving the loaded state gives back |
| Checkpoints.LoadSave | chat_analyzer.py:37-42 | reading back a saved checkpoint restores exactly the saved state |
| Checkpoints.BuildCheckpoint | chat_analyzer.py:136-143 | as written the literal raises TypeError; as intended it yields a record that loads back to the state |
| Analyzer.ClassifyCases | chat_analyzer.py:95-101 | no reply gives the API error; a reply whose cleaned text does not parse gives the JSON error; otherwise the verdict is the parse of the cleaned reply; no other error arises |
| Analyzer.AdvanceCases | chat_analyzer.py:95-146 | a classifier error is the iteration's error; a processed window is `Step` on the window's slice with the classifier's verdict; a limited run keeps the checkpoint; a full run saves one that loads back to the new state and records the window; as written every full-run iteration fails |
| Analyzer.RunWindowsAdvance | chat_analyzer.py:61-146 | a window processed without error moves the loop to the next window, with the checkpoint saved on a full run only |
| Analyzer.RunWindowsStops | chat_analyzer.py:95-151 | a classifier or processing error at window k ends the loop there with the state and checkpoint from before k |
| Analyzer.InitialState | chat_analyzer.py:34-46 | a limited run, or a full run without a checkpoint, starts from the fresh state; a full run with one starts from the loaded checkpoint, which a complete record round-trips |
| Analyzer.FirstWindow | chat_analyzer.py:34-48 | a resumed full run starts after the checkpoint's last window (-1 when absent), a fresh full run at 0, a limited run at `start_chunk - 1` or 0 |
| Analyzer.LastWindow | chat_analyzer.py:53-57 | the loop bound never exceeds the window count, is the window count without `--num-chunks`, and at most the start plus `num_chunks` with it |
| Analyzer.WriteOutputs | chat_analyzer.py:157-165 | the output directory holds summary_log.json with the summary log and, for every session key, `<key>.json` with that session's messages |
| Analyzer.WriteOutputsNames | chat_analyzer.py:157-165 | afterwards the directory holds exactly the files it held before plus main_branch.json, summary_log.json and one file per session key |
| Analyzer.WriteOutputsFrame | chat_analyzer.py:157-165 | main_branch.json holds the main branch unless a session is keyed "main_branch"; every other file that was there and is not written stays as it was |
| Analyzer.JsonNameInjective | chat_analyzer.py:161 | distinct session keys give distinct file names |
| Analyzer.Finish | chat_analyzer.py:148-168 | a stopped loop aborts at its window, leaves the outputs and the checkpoint it saved; a finished loop writes summary_log.json and keeps every file name that was there, and a full run then removes the checkpoint; a limited run leaves the checkpoint as the loop left it |
| Analyzer.Analyze | chat_analyzer.py:31-168 | the run crashes exactly when the chunk size is 0, leaving the files; an aborted run leaves the outputs; a completed full run leaves no checkpoint |
| Analyzer.Disk.SaveCheckpoint | chat_analyzer.py:144-145 | overwrites the checkpoint and leaves the outputs |
| Analyzer.Disk.RemoveCheckpoint | chat_analyzer.py:167-168 | removes the checkpoint and leaves the outputs |
| Analyzer.Disk.WriteOutputFiles | chat_analyzer.py:157-165 | writes the output files of the final state and leaves the checkpoint |
| Analyzer.AnalyzeChatHistory | chat_analyzer.py:31-168 | the imperative run leaves the disk as, and returns the outcome that, the functional model `Analyze` predicts |
| Analyzer.ProcessWindow | chat_analyzer.py:88-151 | one loop iteration either stops the loop with the checkpoint untouched, or advances it with the new state and checkpoint; it never writes outputs |
| Analyzer.RunLoop | chat_analyzer.py:61-151 | the loop ends with the checkpoint, the state and the outcome of `RunWindows`, and writes no output |
| Runs.LoopStops | chat_analyzer.py:61-62 | the loop never goes backwards; it stops only at a window inside the range and the messages; it finishes only past the last window or the end of the messages |
| Runs.LoopKeepsCheckpoint | chat_analyzer.py:134-135 | a body that never writes the checkpoint leaves it as it was for the whole loop |
| Runs.LoopIgnoresCheckpoint | chat_analyzer.py:31-46 | a body that never reads the checkpoint gives the same loop whatever the checkpoint holds |
| Runs.LoopCheckpoint | chat_analyzer.py:134-151 | a body that saves after each window leaves the checkpoint of the last window processed, or the original one when none was |
| Runs.LoopPrefix | chat_analyzer.py:34-151 | a loop restarted at the window where another loop stopped, from the state and checkpoint it left, ends as the uninterrupted loop would |
| Runs.LoopKeepsValid | chat_analyzer.py:113-132 | a body that keeps the invariant keeps it for the whole loop, and the counter never decreases |
| Runs.LoopRoutes | chat_analyzer.py:61-132 | a body that attributes its window gives a loop that attributes every message before the window it ended at |
| Runs.LoopCompletes | chat_analyzer.py:61-151 | a body that never fails gives a loop that completes |
| Runs.LimitedBody | chat_analyzer.py:134-135 | on a limited run a window neither writes nor reads the checkpoint |
| Runs.FullBody | chat_analyzer.py:134-145 | on a full run a processed window saves the new state with its own index |
| Runs.BodySteps | chat_analyzer.py:96-132 | every window the loop body processes is `Step` on the window's slice with the classifier's verdict for it |
| Runs.StepsKeepValid | chat_analyzer.py:113-132 | a body that processes its windows with `Step` keeps the invariant and never lowers the counter |
| Runs.BodyKeepsValid | chat_analyzer.py:113-132 | the loop body of the source keeps the invariant and never lowers the counter |
| Runs.WindowInside | chat_analyzer.py:64 | a window starting inside the messages extends the prefix before it to the prefix up to its end |
| Runs.StepExtendsRouting | chat_analyzer.py:125-132 | a processed window extends the attribution of the earlier messages to its own |
| Runs.WindowRoutes | chat_analyzer.py:61-132 | a window starting inside the messages, processed from a state that attributes every earlier message, attributes every message up to the window's end |
| Runs.StepsRoute | chat_analyzer.py:61-132 | the same for every state and window of a body that processes its windows with `Step` |
| Runs.BodyRoutes | chat_analyzer.py:61-132 | the same for every state and window of the loop body of the source |
| Runs.AgreeingBodies | chat_analyzer.py:96-101 | runs whose classifier agrees on a range of windows process those windows the same way |
| Runs.LimitedRunLeavesCheckpoint | chat_analyzer.py:31-168 | a limited run leaves the checkpoint as it found it, and its outcome and outputs do not depend on the checkpoint |
| Runs.AbortedRunWindow | chat_analyzer.py:148-151 | an aborted run writes no output file and names a window in the range the run set out to process |
| Runs.FullRunCheckpoint | chat_analyzer.py:134-151 | a full run's loop leaves the checkpoint it found when it stopped at its first window, and otherwise one recording the window before the one it stopped at |
| Runs.StoppedReport | chat_analyzer.py:148-151 | the report of a stopped full run carries that checkpoint, and the next full run starts at the window the run stopped at |
| Runs.AbortedRun | chat_analyzer.py:134-151 | a full run that aborts at its first window leaves the checkpoint it found; one that aborts later leaves one recording the window before the failed one, from which the next full run resumes at the failed window |
| Runs.ResumeMatchesUninterrupted | chat_analyzer.py:34-151 | resuming after an abort ends exactly as an uninterrupted run from the original files: same outcome, checkpoint and outputs |
| Runs.RunKeepsInvariant | chat_analyzer.py:113-132 | a run from a state satisfying the invariant keeps it and never lowers the counter |
| Runs.FreshRoutes | chat_analyzer.py:45-132 | a loop over every window from the fresh state, with a body that processes its windows with `Step`, has attributed every message when it finishes |
| Runs.FreshLoopRoutes | chat_analyzer.py:45-132 | a fresh full loop that finishes has attributed every message |
| Runs.CompletedFreshRunRoutesEveryMessage | chat_analyzer.py:45-168 | a fresh full run that completes writes outputs of a valid state in which every message sits in exactly one branch, in order, and removes the checkpoint |
| Runs.IntendedRunCompletes | chat_analyzer.py:61-146 | with the intended checkpoint record, a run whose replies all parse, with a non-null chunk summary, over messages that all have ids, completes |
| Runs.AsWrittenFullRunAbortsAtFirstWindow | chat_analyzer.py:136-151 | as written, a full run with a window to process aborts at that first window and leaves the files as they were; the error is the unhashable dict whenever the window itself succeeds |

## Left out

- The classifier call, the API key and the model configuration (chat_analyzer.py:17-23, 96). They are a network service, modelled as the `respond` input of a request.
- The prompt text (chat_analyzer.py:68-93). It is a string template with no behaviour; the reply is a function of the window index.
- `json.load`, `json.dump` and file and directory handling (chat_analyzer.py:25-28, 35-36, 144-145, 154-168). The checkpoint is an in-memory record and the output directory a map from file name to content. Path joining, `makedirs`, and a crash in the middle of a write are not modelled.
- `json.loads` itself. The `parse` input stands for it; the JSON grammar is not modelled.
- Printing, including the error report at chat_analyzer.py:149-150, where `response` may be unbound when `generate_content` raised. Only the abort is modelled.
- argparse and the command line (chat_analyzer.py:172-183), and test_api.py, which only lists models over the network.
- Negative chunk sizes: `Request.chunkSize` is a natural number. Size 0 is modelled as the uncaught ZeroDivisionError at line 53 (`Crashed`).
- Replies of the wrong JSON type: "debugging_message_ids" or "chunk_summary" holding a string or an object (Python would iterate over it), and message or item ids that are not strings. The model takes each field to be missing, null or a list of the expected items.
- Checkpoint fields of the wrong type in a loaded file.
- The reply's "is_debugging" key, which the code never reads.
- The run state left half-updated when a window fails. The run returns at once and never uses it, so `ProcessChunk` states only the failure then.
- Analyzer.RunLoop: the `for` loop at line 61 is a recursive method, one call per iteration. It has the same iteration order and state updates.

## Findings

| source | as written | input that shows it | evidently intended | confidence | as-written member | corrected member |
|---|---|---|---|---|---|---|
| chat_analyzer.py:136-143 | the checkpoint literal is written with doubled braces, `{{ ... }}`. Outside an f-string that is a set display holding a dict, and building it raises TypeError (unhashable dict). The except clause catches the error, so every full run aborts at its first window and never saves a checkpoint | a full run (no `--start-chunk`, no `--num-chunks`) with no checkpoint file, chunk size 10, over one message that has an id, where the reply parses to `{"chunk_summary": []}` | a plain dict literal holding the six state values, saved after every window so that a full run can be resumed | not executed | Runs.AsWrittenFullRunAbortsAtFirstWindow | Runs.IntendedRunCompletes |
