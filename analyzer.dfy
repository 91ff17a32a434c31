/**
 * The run of `analyze_chat_history` (chat_analyzer.py lines 31-168): where a run starts and
 * stops, the window loop with its classifier call, the checkpoint written after each window
 * of a full run, and the files written at the end.
 *
 * The classifier is an input: `respond(k)` is the reply text for window k (`None` when the
 * call or `response.text` raises) and `parse` stands for `json.loads` followed by the check
 * that the payload is an object (`None` when either fails).
 */
module Analyzer {
  import opened Wrappers
  import opened Errors
  import opened Windows
  import opened Cleaning
  import opened Verdicts
  import opened Sessions
  import opened Checkpoints

  /** The files the run writes under "analysis_output". */
  datatype OutputFile = MainFile(entries: seq<Entry>) | SessionFile(messages: seq<Message>) | LogFile(log: seq<LogEntry>)

  /** The checkpoint file (absent or present) and the output directory, by file name. */
  datatype Files = Files(checkpoint: Option<Checkpoint>, outputs: map<string, OutputFile>)

  datatype Outcome =
    | Completed                       // the loop ran to its end and the outputs were written
    | Aborted(window: int, error: Error)  // the except clause at lines 148-151 returned
    | Crashed                         // chunk_size 0: ZeroDivisionError at line 53, uncaught

  /** One invocation: the loaded messages, the CLI arguments and the classifier. */
  datatype Request = Request(
    messages: seq<Message>,
    chunkSize: nat,
    startChunk: Option<int>,
    numChunks: Option<int>,
    respond: int -> Option<string>,
    parse: string -> Option<Verdict>)

  /** Line 31: a start or a count given makes the run limited. */
  predicate Limited(req: Request) {
    req.startChunk.Some? || req.numChunks.Some?
  }

  /** Lines 96-101: the reply for window k, cleaned and parsed. */
  function Classify(req: Request, k: int): Result<Verdict, Error> {
    match req.respond(k)
    case None => Err(ApiFailure)
    case Some(text) =>
      match req.parse(Clean(text))
      case None => Err(InvalidJson)
      case Some(v) => Ok(v)
  }

  /** The classifier fails with the API error when no reply comes back, fails with the JSON
      error when the cleaned reply does not parse, and otherwise yields the parsed verdict. */
  lemma ClassifyCases(req: Request, k: int)
    ensures req.respond(k).None? ==> Classify(req, k) == Err(ApiFailure)
    ensures req.respond(k).Some? ==> (Classify(req, k).Ok? <==> req.parse(Clean(req.respond(k).value)).Some?)
    ensures Classify(req, k).Ok? ==> req.parse(Clean(req.respond(k).value)) == Some(Classify(req, k).value)
    ensures Classify(req, k).Err? ==> Classify(req, k).error == ApiFailure || Classify(req, k).error == InvalidJson
  {
  }

  /** How the window loop ended: after its last window, with the state reached and the
      checkpoint on disk; or in the except clause at window `at`, with the state before that
      window and the checkpoint on disk. */
  datatype Fold =
    | Finished(state: Snapshot, saved: Option<Checkpoint>, next: int)
    | Stopped(at: int, error: Error, state: Snapshot, saved: Option<Checkpoint>)

  /** The loop body (lines 88-146) for window k at offset i, from state s with checkpoint
      `saved` on disk: the state and the checkpoint after the window, or the error the except
      clause at lines 148-151 catches. `lit` is the reading of the checkpoint literal. */
  function Advance(req: Request, lit: CheckpointLiteral, s: Snapshot, saved: Option<Checkpoint>, k: int, i: int)
    : Result<(Snapshot, Option<Checkpoint>), Error>
  {
    AdvanceOn(Classify(req, k), PySlice(req.messages, i, i + req.chunkSize), Limited(req), lit, s, saved, k)
  }

  /** The loop body once the classifier has answered `c` for window k, whose slice is `w`. */
  function AdvanceOn(c: Result<Verdict, Error>, w: seq<Message>, limited: bool, lit: CheckpointLiteral,
                     s: Snapshot, saved: Option<Checkpoint>, k: int)
    : Result<(Snapshot, Option<Checkpoint>), Error>
  {
    match c
    case Err(e) => Err(e)
    case Ok(v) =>
      match Step(s, w, v, k)
      case Err(e) => Err(e)
      case Ok(next) =>
        if limited then Ok((next, saved))
        else
          match BuildCheckpoint(lit, next)
          case Err(e) => Err(e)
          case Ok(cp) => Ok((next, Some(cp)))
  }

  /** A window that passes goes through the classifier and Step; a limited run leaves the
      checkpoint alone, a full run with the intended record saves the new state as the
      checkpoint, and a full run with the literal as written fails at its first window. */
  lemma AdvanceCases(req: Request, lit: CheckpointLiteral, s: Snapshot, saved: Option<Checkpoint>, k: int, i: int)
    ensures var r := Advance(req, lit, s, saved, k, i);
      Classify(req, k).Err? ==> r == Err(Classify(req, k).error)
    ensures var r := Advance(req, lit, s, saved, k, i);
      r.Ok? ==> Classify(req, k).Ok? && Step(s, PySlice(req.messages, i, i + req.chunkSize), Classify(req, k).value, k) == Ok(r.value.0)
    ensures var r := Advance(req, lit, s, saved, k, i);
      Limited(req) && r.Ok? ==> r.value.1 == saved
    ensures var r := Advance(req, lit, s, saved, k, i);
      !Limited(req) && r.Ok? ==> r.value.1.Some? && Load(r.value.1.value) == r.value.0 && r.value.1.value.lastProcessedChunk == Some(k)
    ensures !Limited(req) && lit.AsWrittenSetDisplay? ==> Advance(req, lit, s, saved, k, i).Err?
  {
  }

  /** A loop body: state, checkpoint on disk, window index and offset to the outcome. */
  type Body = (Snapshot, Option<Checkpoint>, int, int) -> Result<(Snapshot, Option<Checkpoint>), Error>

  function BodyOf(req: Request, lit: CheckpointLiteral): Body {
    (s, saved, k, i) => Advance(req, lit, s, saved, k, i)
  }

  /** The window loop over `n` messages in windows of `cs` from window k at offset i, with
      state s and checkpoint `saved` on disk, up to the exclusive window bound `end`:
      `range(start * cs, end * cs, cs)` runs while k < end, and `if i >= len(messages): break`
      ends it early (lines 61-64). */
  function Loop(body: Body, n: nat, cs: int, s: Snapshot, saved: Option<Checkpoint>, k: int, i: int, end: int): Fold
    decreases end - k
  {
    if k >= end || i >= n then Finished(s, saved, k)
    else
      match body(s, saved, k, i)
      case Err(e) => Stopped(k, e, s, saved)
      case Ok(after) => Loop(body, n, cs, after.0, after.1, k + 1, i + cs, end)
  }

  /** The window loop of a run (lines 61-151). */
  function RunWindows(req: Request, lit: CheckpointLiteral, s: Snapshot, saved: Option<Checkpoint>, k: int, i: int, end: int): Fold {
    Loop(BodyOf(req, lit), |req.messages|, req.chunkSize, s, saved, k, i, end)
  }

  /** One window processed without error moves the loop to the next window. */
  lemma RunWindowsAdvance(req: Request, s: Snapshot, saved: Option<Checkpoint>, k: int, i: int, end: int, v: Verdict)
    requires req.chunkSize > 0 && k < end && i < |req.messages|
    requires Classify(req, k) == Ok(v) && Step(s, PySlice(req.messages, i, i + req.chunkSize), v, k).Ok?
    ensures var next := Step(s, PySlice(req.messages, i, i + req.chunkSize), v, k).value;
      RunWindows(req, IntendedDict, s, saved, k, i, end)
      == RunWindows(req, IntendedDict, next, if Limited(req) then saved else Some(Save(next)), k + 1, i + req.chunkSize, end)
  {
    var next := Step(s, PySlice(req.messages, i, i + req.chunkSize), v, k).value;
    assert Advance(req, IntendedDict, s, saved, k, i) == Ok((next, if Limited(req) then saved else Some(Save(next))));
  }

  /** The loop leaves by the except clause at window k when the classifier or Step fails. */
  lemma RunWindowsStops(req: Request, s: Snapshot, saved: Option<Checkpoint>, k: int, i: int, end: int, e: Error)
    requires req.chunkSize > 0 && k < end && i < |req.messages|
    requires Classify(req, k) == Err(e)
      || (Classify(req, k).Ok? && Step(s, PySlice(req.messages, i, i + req.chunkSize), Classify(req, k).value, k) == Err(e))
    ensures RunWindows(req, IntendedDict, s, saved, k, i, end) == Stopped(k, e, s, saved)
  {
  }

  /** The state a run begins with (lines 34-46): the checkpoint's on a full run that finds
      one, the empty state otherwise. */
  function InitialState(req: Request, files: Files): (s: Snapshot)
    ensures Limited(req) || files.checkpoint.None? ==> s == Empty
    ensures !Limited(req) && files.checkpoint.Some? ==> s == Load(files.checkpoint.value)
    ensures !Limited(req) && files.checkpoint.Some? && Complete(files.checkpoint.value) ==> Save(s) == files.checkpoint.value
  {
    if !Limited(req) && files.checkpoint.Some? then Load(files.checkpoint.value) else Empty
  }

  /** The first window of the run (lines 42, 46-48). */
  function FirstWindow(req: Request, files: Files): (w: int)
    ensures !Limited(req) && files.checkpoint.Some? ==> w == files.checkpoint.value.lastProcessedChunk.GetOr(-1) + 1
    ensures !Limited(req) && files.checkpoint.None? ==> w == 0
    ensures Limited(req) && req.startChunk.Some? ==> w == req.startChunk.value - 1
    ensures Limited(req) && req.startChunk.None? ==> w == 0
  {
    var resumed := if !Limited(req) && files.checkpoint.Some? then Some(InitialState(req, files).lastProcessed) else None;
    StartWindow(Limited(req), resumed, req.startChunk)
  }

  /** The exclusive bound of the loop (lines 53-57). */
  function LastWindow(req: Request, files: Files): (e: int)
    requires req.chunkSize > 0
    ensures e <= TotalChunks(|req.messages|, req.chunkSize)
    ensures req.numChunks.None? ==> e == TotalChunks(|req.messages|, req.chunkSize)
    ensures req.numChunks.Some? ==> e <= FirstWindow(req, files) + req.numChunks.value
  {
    EndWindow(FirstWindow(req, files), req.numChunks, TotalChunks(|req.messages|, req.chunkSize))
  }

  /** The names of the files a completed run writes. */
  function Written(s: Snapshot): set<string> {
    {"main_branch.json", "summary_log.json"} + set key | key in s.branches :: key + ".json"
  }

  /** The output directory after a completed run (lines 157-165): the main branch, one file
      per session key, and the summary log. */
  function WriteOutputs(outputs: map<string, OutputFile>, s: Snapshot): (r: map<string, OutputFile>)
    ensures "summary_log.json" in r && r["summary_log.json"] == LogFile(s.summaryLog)
    ensures forall key :: key in s.branches && key + ".json" != "summary_log.json" ==>
      key + ".json" in r && r[key + ".json"] == SessionFile(s.branches[key])
  {
    var withMain := outputs["main_branch.json" := MainFile(s.mainBranch)];
    forall a, b | a in s.branches && b in s.branches && a + ".json" == b + ".json" ensures a == b {
      JsonNameInjective(a, b);
    }
    var sessions := map key | key in s.branches :: key + ".json" := SessionFile(s.branches[key]);
    (withMain + sessions)["summary_log.json" := LogFile(s.summaryLog)]
  }

  /** Writing the outputs adds exactly the written names to the directory. */
  lemma WriteOutputsNames(outputs: map<string, OutputFile>, s: Snapshot)
    ensures WriteOutputs(outputs, s).Keys == outputs.Keys + Written(s)
  {
    var r := WriteOutputs(outputs, s);
    forall f ensures f in r <==> f in outputs || f in Written(s) {
      if f in Written(s) && f != "main_branch.json" && f != "summary_log.json" {
        var key :| key in s.branches && f == key + ".json";
      }
    }
  }

  /** Writing the outputs leaves every file it does not write as it was, and writes the main
      branch file when no session key is called `main_branch`. */
  lemma WriteOutputsFrame(outputs: map<string, OutputFile>, s: Snapshot)
    ensures var r := WriteOutputs(outputs, s);
      "main_branch" !in s.branches ==> "main_branch.json" in r && r["main_branch.json"] == MainFile(s.mainBranch)
    ensures forall f :: f in outputs && f !in Written(s) ==> WriteOutputs(outputs, s)[f] == outputs[f]
  {
    forall key | key in s.branches && key + ".json" == "main_branch.json" ensures key == "main_branch" {
      JsonNameInjective(key, "main_branch");
    }
  }

  /** Two keys that give the same file name are the same key. */
  lemma JsonNameInjective(a: string, b: string)
    requires a + ".json" == b + ".json"
    ensures a == b
  {
    assert |a| == |b|;
    assert a == (a + ".json")[..|a|];
    assert b == (b + ".json")[..|b|];
  }

  datatype Report = Report(outcome: Outcome, files: Files)

  /** What the run leaves behind once its window loop has ended (lines 148-168). */
  function Finish(req: Request, files: Files, fold: Fold): (r: Report)
    ensures r.outcome.Aborted? <==> fold.Stopped?
    ensures !r.outcome.Crashed?
    ensures fold.Stopped? ==> r.outcome.window == fold.at && r.files.outputs == files.outputs && r.files.checkpoint == fold.saved
    ensures fold.Finished? ==> "summary_log.json" in r.files.outputs && r.files.outputs.Keys >= files.outputs.Keys
    ensures fold.Finished? && !Limited(req) ==> r.files.checkpoint == None
    ensures Limited(req) ==> r.files.checkpoint == fold.saved
  {
    match fold
    case Stopped(k, e, _, saved) => Report(Aborted(k, e), files.(checkpoint := saved))
    case Finished(s, saved, _) =>
      Report(Completed, Files(if Limited(req) then saved else None, WriteOutputs(files.outputs, s)))
  }

  /** A whole invocation of `analyze_chat_history` on the files as they are. */
  function Analyze(req: Request, files: Files, lit: CheckpointLiteral): (r: Report)
    ensures r.outcome.Crashed? <==> req.chunkSize == 0
    ensures r.outcome.Crashed? ==> r.files == files
    ensures r.outcome.Aborted? ==> req.chunkSize > 0 && r.files.outputs == files.outputs
    ensures r.outcome.Completed? && !Limited(req) ==> r.files.checkpoint == None
  {
    if req.chunkSize == 0 then Report(Crashed, files)
    else
      var start := FirstWindow(req, files);
      Finish(req, files, RunWindows(req, lit, InitialState(req, files), files.checkpoint,
                                    start, start * req.chunkSize, LastWindow(req, files)))
  }

  /** The file system the run reads and writes. */
  class Disk {
    var checkpoint: Option<Checkpoint>
    var outputs: map<string, OutputFile>

    function Contents(): Files
      reads this
    {
      Files(checkpoint, outputs)
    }

    method SaveCheckpoint(cp: Checkpoint)
      modifies this
      ensures checkpoint == Some(cp) && outputs == old(outputs)
    {
      checkpoint := Some(cp);
    }

    method RemoveCheckpoint()
      modifies this
      ensures checkpoint == None && outputs == old(outputs)
    {
      checkpoint := None;
    }

    method WriteOutputFiles(s: Snapshot)
      modifies this
      ensures outputs == WriteOutputs(old(outputs), s) && checkpoint == old(checkpoint)
    {
      outputs := WriteOutputs(outputs, s);
    }
  }

  /** `analyze_chat_history` with the checkpoint record the code evidently intends. */
  method AnalyzeChatHistory(disk: Disk, req: Request) returns (outcome: Outcome)
    modifies disk
    ensures Report(outcome, disk.Contents()) == Analyze(req, old(disk.Contents()), IntendedDict)
  {
    var limited := req.startChunk.Some? || req.numChunks.Some?;
    var state: RunState;
    var start: int;
    if !limited && disk.checkpoint.Some? {
      state := new RunState(Load(disk.checkpoint.value));
      start := state.lastProcessedChunk + 1;
    } else {
      state := new RunState(Empty);
      start := if req.startChunk.Some? then req.startChunk.value - 1 else 0;
    }
    if req.chunkSize == 0 {
      return Crashed;
    }
    var cs := req.chunkSize;
    var total := (|req.messages| + cs - 1) / cs;
    var end := total;
    if req.numChunks.Some? {
      end := Min(start + req.numChunks.value, total);
    }
    ghost var files0 := disk.Contents();
    assert start == FirstWindow(req, files0) && end == LastWindow(req, files0);
    assert state.State() == InitialState(req, files0);
    outcome := RunLoop(disk, state, req, start, start * cs, end, state.State(), disk.checkpoint);
    if outcome.Aborted? {
      return;
    }
    disk.WriteOutputFiles(state.State());
    if disk.checkpoint.Some? && !limited {
      disk.RemoveCheckpoint();
    }
  }

  /** One pass of the loop body (lines 88-146) for window k at offset i, with the checkpoint
      record the code evidently intends: `Some(e)` when the except clause catches e, in which
      case the checkpoint on disk is untouched. */
  method ProcessWindow(disk: Disk, state: RunState, req: Request, k: int, i: int, end: int,
                       ghost s: Snapshot, ghost saved: Option<Checkpoint>)
    returns (failure: Option<Error>, ghost s': Snapshot, ghost saved': Option<Checkpoint>)
    requires req.chunkSize > 0 && k < end && i < |req.messages|
    requires state.State() == s && disk.checkpoint == saved
    modifies disk, state
    ensures disk.outputs == old(disk.outputs)
    ensures s' == state.State() && saved' == disk.checkpoint
    ensures failure.Some? ==> saved' == saved
    ensures failure.Some? ==> RunWindows(req, IntendedDict, s, saved, k, i, end) == Stopped(k, failure.value, s, saved)
    ensures failure.None? ==>
      RunWindows(req, IntendedDict, s, saved, k, i, end)
      == RunWindows(req, IntendedDict, s', saved', k + 1, i + req.chunkSize, end)
  {
    var window := PySlice(req.messages, i, i + req.chunkSize);
    var reply := req.respond(k);
    if reply.None? {
      RunWindowsStops(req, s, saved, k, i, end, ApiFailure);
      return Some(ApiFailure), state.State(), disk.checkpoint;
    }
    var analysis := req.parse(Clean(reply.value));
    if analysis.None? {
      RunWindowsStops(req, s, saved, k, i, end, InvalidJson);
      return Some(InvalidJson), state.State(), disk.checkpoint;
    }
    assert Classify(req, k) == Ok(analysis.value);
    failure := state.ProcessChunk(window, analysis.value, k);
    if failure.Some? {
      RunWindowsStops(req, s, saved, k, i, end, failure.value);
      return failure, state.State(), disk.checkpoint;
    }
    RunWindowsAdvance(req, s, saved, k, i, end, analysis.value);
    if !(req.startChunk.Some? || req.numChunks.Some?) {
      // Lines 136-143 as evidently intended; see the note at the head of Checkpoints.
      disk.SaveCheckpoint(Save(state.State()));
    }
    s', saved' := state.State(), disk.checkpoint;
  }

  /** The window loop (lines 61-151) from window k at offset i, one iteration per call, with
      the checkpoint record the code evidently intends: `Completed` when the loop runs out of
      windows, `Aborted` from the except clause. `s` and `saved` name the state and the
      checkpoint on disk when the call begins. */
  method RunLoop(disk: Disk, state: RunState, req: Request, k: int, i: int, end: int,
                 ghost s: Snapshot, ghost saved: Option<Checkpoint>) returns (outcome: Outcome)
    requires req.chunkSize > 0 && state.State() == s && disk.checkpoint == saved
    modifies disk, state
    ensures var fold := RunWindows(req, IntendedDict, s, saved, k, i, end);
      && disk.outputs == old(disk.outputs)
      && disk.checkpoint == fold.saved
      && (fold.Finished? ==> outcome == Completed && state.State() == fold.state)
      && (fold.Stopped? ==> outcome == Aborted(fold.at, fold.error))
    decreases end - k
  {
    if k >= end || i >= |req.messages| {
      return Completed;
    }
    var failure;
    ghost var s', saved';
    failure, s', saved' := ProcessWindow(disk, state, req, k, i, end, s, saved);
    if failure.Some? {
      return Aborted(k, failure.value);
    }
    outcome := RunLoop(disk, state, req, k + 1, i + req.chunkSize, end, s', saved');
  }
}
