/**
 * What whole runs of `analyze_chat_history` promise (chat_analyzer.py lines 31-168): where the
 * window loop stops, what it leaves in the checkpoint, that limited runs leave the checkpoint
 * alone, that a resumed run ends exactly as a run that was never interrupted, that every
 * message of a completed run lands in exactly one branch, and what the checkpoint literal as
 * written does to a full run.
 *
 * The facts about the loop are first proved for any loop body (`Loop`), from what the body
 * guarantees for one window, and then applied to the body of the source (`BodyOf`).
 */
module Runs {
  import opened Wrappers
  import opened Errors
  import opened Windows
  import opened Verdicts
  import opened Sessions
  import opened Checkpoints
  import opened Analyzer

  /** The window at which the loop ended: the one whose except clause fired, or the first
      one it did not process. */
  function StopWindow(f: Fold): int {
    if f.Stopped? then f.at else f.next
  }

  /** A body's outcome with the checkpoint replaced. */
  function WithSaved(r: Result<(Snapshot, Option<Checkpoint>), Error>, saved: Option<Checkpoint>): Result<(Snapshot, Option<Checkpoint>), Error> {
    match r
    case Ok(p) => Ok((p.0, saved))
    case Err(e) => Err(e)
  }

  // ----- the loop, for any body -----

  /** The loop goes forward from its first window. It leaves by the except clause only at a
      window it had to process, and otherwise runs until the window bound or the end of the
      messages (lines 61-64). */
  lemma {:induction false} LoopStops(body: Body, n: nat, cs: int, s: Snapshot, saved: Option<Checkpoint>, k: int, i: int, end: int)
    requires cs > 0 && i == k * cs
    ensures var f := Loop(body, n, cs, s, saved, k, i, end);
      && k <= StopWindow(f)
      && (f.Stopped? ==> f.at < end && f.at * cs < n)
      && (f.Finished? ==> f.next >= end || f.next * cs >= n)
    decreases end - k
  {
    if k < end && i < n && body(s, saved, k, i).Ok? {
      var after := body(s, saved, k, i).value;
      assert i + cs == (k + 1) * cs;
      LoopStops(body, n, cs, after.0, after.1, k + 1, i + cs, end);
    }
  }

  /** A body that never writes the checkpoint gives a loop that ends with the one it began with. */
  lemma {:induction false} LoopKeepsCheckpoint(body: Body, n: nat, cs: int, s: Snapshot, saved: Option<Checkpoint>, k: int, i: int, end: int)
    requires forall s', sv, k', i' :: body(s', sv, k', i').Ok? ==> body(s', sv, k', i').value.1 == sv
    ensures Loop(body, n, cs, s, saved, k, i, end).saved == saved
    decreases end - k
  {
    if k < end && i < n && body(s, saved, k, i).Ok? {
      var after := body(s, saved, k, i).value;
      LoopKeepsCheckpoint(body, n, cs, after.0, after.1, k + 1, i + cs, end);
    }
  }

  /** A body that neither reads nor writes the checkpoint gives a loop whose run does not
      depend on it. */
  lemma {:induction false} LoopIgnoresCheckpoint(body: Body, n: nat, cs: int, s: Snapshot, saved1: Option<Checkpoint>, saved2: Option<Checkpoint>, k: int, i: int, end: int)
    requires forall s', sv1, sv2, k', i' :: body(s', sv1, k', i') == WithSaved(body(s', sv2, k', i'), sv1)
    ensures Loop(body, n, cs, s, saved1, k, i, end) == Loop(body, n, cs, s, saved2, k, i, end).(saved := saved1)
    decreases end - k
  {
    if k < end && i < n {
      assert body(s, saved1, k, i) == WithSaved(body(s, saved2, k, i), saved1);
      if body(s, saved2, k, i).Ok? {
        var after := body(s, saved2, k, i).value;
        assert body(s, saved1, k, i) == Ok((after.0, saved1));
        LoopIgnoresCheckpoint(body, n, cs, after.0, saved1, after.1, k + 1, i + cs, end);
      }
    }
  }

  /** A body that records every processed window in the checkpoint gives a loop that ends
      with the checkpoint it began with when no window was processed, and otherwise with the
      state after the last processed window, the one just before the window it stopped at. */
  lemma {:induction false} LoopCheckpoint(body: Body, n: nat, cs: int, s: Snapshot, saved: Option<Checkpoint>, k: int, i: int, end: int)
    requires forall s', sv, k', i' :: body(s', sv, k', i').Ok? ==>
      body(s', sv, k', i').value.1 == Some(Save(body(s', sv, k', i').value.0))
      && body(s', sv, k', i').value.0.lastProcessed == k'
    ensures var f := Loop(body, n, cs, s, saved, k, i, end);
      && StopWindow(f) >= k
      && (StopWindow(f) == k ==> f.state == s && f.saved == saved)
      && (StopWindow(f) > k ==> f.saved == Some(Save(f.state)) && f.state.lastProcessed == StopWindow(f) - 1)
      && (StopWindow(f) > k ==> f.saved.Some? && f.saved.value.lastProcessedChunk == Some(StopWindow(f) - 1))
    decreases end - k
  {
    if k < end && i < n && body(s, saved, k, i).Ok? {
      var after := body(s, saved, k, i).value;
      LoopCheckpoint(body, n, cs, after.0, after.1, k + 1, i + cs, end);
    }
  }

  /** Two bodies that agree on the windows before the one where the first loop stopped run
      those windows the same way: the second loop reaches that window in the same state,
      with the same checkpoint, and goes on from there. */
  lemma {:induction false} LoopPrefix(b1: Body, b2: Body, n: nat, cs: int, s: Snapshot, saved: Option<Checkpoint>, k: int, i: int, end: int)
    requires cs > 0 && i == k * cs
    requires forall s', sv, j, i' :: k <= j < StopWindow(Loop(b1, n, cs, s, saved, k, i, end)) ==> b1(s', sv, j, i') == b2(s', sv, j, i')
    ensures var f := Loop(b1, n, cs, s, saved, k, i, end);
      Loop(b2, n, cs, s, saved, k, i, end) == Loop(b2, n, cs, f.state, f.saved, StopWindow(f), StopWindow(f) * cs, end)
    decreases end - k
  {
    var f := Loop(b1, n, cs, s, saved, k, i, end);
    if k < end && i < n && b1(s, saved, k, i).Ok? {
      var after := b1(s, saved, k, i).value;
      assert i + cs == (k + 1) * cs;
      assert f == Loop(b1, n, cs, after.0, after.1, k + 1, i + cs, end);
      LoopStops(b1, n, cs, after.0, after.1, k + 1, i + cs, end);
      assert b1(s, saved, k, i) == b2(s, saved, k, i);
      LoopPrefix(b1, b2, n, cs, after.0, after.1, k + 1, i + cs, end);
    }
  }

  /** A body that keeps the state machine's invariant keeps it over the whole loop, and the
      session counter never goes down. */
  lemma {:induction false} LoopKeepsValid(body: Body, n: nat, cs: int, s: Snapshot, saved: Option<Checkpoint>, k: int, i: int, end: int)
    requires forall s', sv, k', i' :: Valid(s') && body(s', sv, k', i').Ok? ==>
      Valid(body(s', sv, k', i').value.0) && body(s', sv, k', i').value.0.sessionCount >= s'.sessionCount
    requires Valid(s)
    ensures Valid(Loop(body, n, cs, s, saved, k, i, end).state)
    ensures Loop(body, n, cs, s, saved, k, i, end).state.sessionCount >= s.sessionCount
    decreases end - k
  {
    if k < end && i < n && body(s, saved, k, i).Ok? {
      var after := body(s, saved, k, i).value;
      LoopKeepsValid(body, n, cs, after.0, after.1, k + 1, i + cs, end);
    }
  }

  /** A body that attributes its window on top of an attribution of the messages before it
      gives a loop whose final state attributes every message before its stop window. */
  lemma {:induction false} LoopRoutes(body: Body, messages: seq<Message>, cs: int, s: Snapshot, saved: Option<Checkpoint>, k: int, i: int, end: int)
    requires cs > 0 && k >= 0 && i == k * cs
    requires forall s', sv, k', i' :: 0 <= i' < |messages| && Valid(s') && Routed(s', messages[..i']) && body(s', sv, k', i').Ok? ==>
      Valid(body(s', sv, k', i').value.0) && Routed(body(s', sv, k', i').value.0, messages[..Min(i' + cs, |messages|)])
    requires Valid(s) && Routed(s, messages[..Min(i, |messages|)])
    ensures k <= StopWindow(Loop(body, |messages|, cs, s, saved, k, i, end))
    ensures var f := Loop(body, |messages|, cs, s, saved, k, i, end);
      Valid(f.state) && Routed(f.state, messages[..Min(StopWindow(f) * cs, |messages|)])
    decreases end - k
  {
    var n := |messages|;
    LoopStops(body, n, cs, s, saved, k, i, end);
    if k < end && i < n && body(s, saved, k, i).Ok? {
      var after := body(s, saved, k, i).value;
      assert i + cs == (k + 1) * cs;
      assert Min(i, n) == i;
      LoopRoutes(body, messages, cs, after.0, after.1, k + 1, i + cs, end);
    } else if k >= end || i >= n {
      assert StopWindow(Loop(body, n, cs, s, saved, k, i, end)) == k;
    }
  }

  /** A body that always succeeds gives a loop that always completes. */
  lemma {:induction false} LoopCompletes(body: Body, n: nat, cs: int, s: Snapshot, saved: Option<Checkpoint>, k: int, i: int, end: int)
    requires forall s', sv, k', i' :: body(s', sv, k', i').Ok?
    ensures Loop(body, n, cs, s, saved, k, i, end).Finished?
    decreases end - k
  {
    if k < end && i < n {
      var after := body(s, saved, k, i).value;
      LoopCompletes(body, n, cs, after.0, after.1, k + 1, i + cs, end);
    }
  }

  // ----- the body of the source -----

  /** On a limited run the body neither writes the checkpoint nor looks at it. */
  lemma LimitedBody(req: Request, lit: CheckpointLiteral)
    requires Limited(req)
    ensures forall s, sv, k, i :: BodyOf(req, lit)(s, sv, k, i).Ok? ==> BodyOf(req, lit)(s, sv, k, i).value.1 == sv
    ensures forall s, sv1, sv2, k, i :: BodyOf(req, lit)(s, sv1, k, i) == WithSaved(BodyOf(req, lit)(s, sv2, k, i), sv1)
  {
  }

  /** On a full run with the intended record, the body records the window it processed. */
  lemma FullBody(req: Request)
    requires !Limited(req)
    ensures forall s, sv, k, i :: BodyOf(req, IntendedDict)(s, sv, k, i).Ok? ==>
      BodyOf(req, IntendedDict)(s, sv, k, i).value.1 == Some(Save(BodyOf(req, IntendedDict)(s, sv, k, i).value.0))
      && BodyOf(req, IntendedDict)(s, sv, k, i).value.0.lastProcessed == k
  {
  }

  /** A window inside the messages is the slice from its offset. */
  lemma WindowInside(messages: seq<Message>, i: int, cs: int)
    requires 0 <= i < |messages| && cs > 0
    ensures PySlice(messages, i, i + cs) == messages[i..Min(i + cs, |messages|)]
    ensures messages[..i] + PySlice(messages, i, i + cs) == messages[..Min(i + cs, |messages|)]
  {
    assert messages[..Min(i + cs, |messages|)] == messages[..i] + messages[i..Min(i + cs, |messages|)];
  }

  /** A successful step extends an attribution of the processed messages to its window. */
  lemma StepExtendsRouting(s: Snapshot, processed: seq<Message>, w: seq<Message>, v: Verdict, k: int)
    requires Valid(s) && Routed(s, processed) && Step(s, w, v, k).Ok?
    ensures Valid(Step(s, w, v, k).value) && Routed(Step(s, w, v, k).value, processed + w)
  {
    var labels :| RoutedBy(s, processed, labels);
    StepPreservesValid(s, w, v, k);
    StepRoutes(s, processed, labels, w, v, k);
  }

  /** A body that processes each window it passes with Step on the window's slice and the
      verdict `verdicts` gives for that window. */
  ghost predicate StepsBy(body: Body, m: seq<Message>, cs: int, verdicts: int -> Result<Verdict, Error>) {
    forall s, sv, k, i :: body(s, sv, k, i).Ok? ==>
      verdicts(k).Ok? && Step(s, PySlice(m, i, i + cs), verdicts(k).value, k) == Ok(body(s, sv, k, i).value.0)
  }

  /** The body of the source processes each window it passes with Step, on the verdict the
      classifier returned for it (lines 96-132). */
  lemma BodySteps(req: Request, lit: CheckpointLiteral)
    ensures StepsBy(BodyOf(req, lit), req.messages, req.chunkSize, k => Classify(req, k))
  {
    forall s, sv, k, i | BodyOf(req, lit)(s, sv, k, i).Ok?
      ensures Classify(req, k).Ok?
      ensures Step(s, PySlice(req.messages, i, i + req.chunkSize), Classify(req, k).value, k) == Ok(BodyOf(req, lit)(s, sv, k, i).value.0)
    {
      AdvanceCases(req, lit, s, sv, k, i);
    }
  }

  /** A body that steps by Step keeps the state machine's invariant and never lowers the
      session counter. */
  lemma StepsKeepValid(body: Body, m: seq<Message>, cs: int, verdicts: int -> Result<Verdict, Error>)
    requires StepsBy(body, m, cs, verdicts)
    ensures forall s, sv, k, i :: Valid(s) && body(s, sv, k, i).Ok? ==>
      Valid(body(s, sv, k, i).value.0) && body(s, sv, k, i).value.0.sessionCount >= s.sessionCount
  {
    forall s, sv, k, i | Valid(s) && body(s, sv, k, i).Ok?
      ensures Valid(body(s, sv, k, i).value.0) && body(s, sv, k, i).value.0.sessionCount >= s.sessionCount
    {
      var v := verdicts(k).value;
      StepPreservesValid(s, PySlice(m, i, i + cs), v, k);
    }
  }

  /** A window that a body stepping by Step processes attributes its messages on top of
      the attribution of the messages before it. */
  lemma WindowRoutes(body: Body, m: seq<Message>, cs: int, verdicts: int -> Result<Verdict, Error>, s: Snapshot, sv: Option<Checkpoint>, k: int, i: int)
    requires cs > 0 && StepsBy(body, m, cs, verdicts)
    ensures 0 <= i < |m| && Valid(s) && Routed(s, m[..i]) && body(s, sv, k, i).Ok? ==>
      Valid(body(s, sv, k, i).value.0) && Routed(body(s, sv, k, i).value.0, m[..Min(i + cs, |m|)])
  {
    if 0 <= i < |m| && Valid(s) && Routed(s, m[..i]) && body(s, sv, k, i).Ok? {
      var v := verdicts(k).value;
      StepExtendsRouting(s, m[..i], PySlice(m, i, i + cs), v, k);
      WindowInside(m, i, cs);
    }
  }

  /** A body that steps by Step attributes its window on top of an attribution of the
      messages before it. */
  lemma StepsRoute(body: Body, m: seq<Message>, cs: int, verdicts: int -> Result<Verdict, Error>)
    requires cs > 0 && StepsBy(body, m, cs, verdicts)
    ensures forall s, sv, k, i :: 0 <= i < |m| && Valid(s) && Routed(s, m[..i]) && body(s, sv, k, i).Ok? ==>
      Valid(body(s, sv, k, i).value.0) && Routed(body(s, sv, k, i).value.0, m[..Min(i + cs, |m|)])
  {
    forall s, sv, k, i
      ensures 0 <= i < |m| && Valid(s) && Routed(s, m[..i]) && body(s, sv, k, i).Ok? ==>
        Valid(body(s, sv, k, i).value.0) && Routed(body(s, sv, k, i).value.0, m[..Min(i + cs, |m|)])
    {
      WindowRoutes(body, m, cs, verdicts, s, sv, k, i);
    }
  }

  /** The body keeps the state machine's invariant and never lowers the session counter. */
  lemma BodyKeepsValid(req: Request, lit: CheckpointLiteral)
    ensures forall s, sv, k, i :: Valid(s) && BodyOf(req, lit)(s, sv, k, i).Ok? ==>
      Valid(BodyOf(req, lit)(s, sv, k, i).value.0) && BodyOf(req, lit)(s, sv, k, i).value.0.sessionCount >= s.sessionCount
  {
    BodySteps(req, lit);
    StepsKeepValid(BodyOf(req, lit), req.messages, req.chunkSize, k => Classify(req, k));
  }

  /** The body attributes its window on top of an attribution of the messages before it. */
  lemma BodyRoutes(req: Request, lit: CheckpointLiteral)
    requires req.chunkSize > 0
    ensures forall s, sv, k, i :: 0 <= i < |req.messages| && Valid(s) && Routed(s, req.messages[..i]) && BodyOf(req, lit)(s, sv, k, i).Ok? ==>
      Valid(BodyOf(req, lit)(s, sv, k, i).value.0)
      && Routed(BodyOf(req, lit)(s, sv, k, i).value.0, req.messages[..Min(i + req.chunkSize, |req.messages|)])
  {
    BodySteps(req, lit);
    StepsRoute(BodyOf(req, lit), req.messages, req.chunkSize, k => Classify(req, k));
  }

  /** Two runs over the same messages, in the same mode, whose classifier agrees on windows
      lo..a-1 process those windows the same way. */
  lemma AgreeingBodies(first: Request, second: Request, lit: CheckpointLiteral, lo: int, a: int)
    requires first.messages == second.messages && first.chunkSize == second.chunkSize
    requires Limited(first) == Limited(second)
    requires forall j :: lo <= j < a ==> Classify(second, j) == Classify(first, j)
    ensures forall s, sv, j, i :: lo <= j < a ==> BodyOf(first, lit)(s, sv, j, i) == BodyOf(second, lit)(s, sv, j, i)
  {
    forall s, sv, j, i | lo <= j < a
      ensures BodyOf(first, lit)(s, sv, j, i) == BodyOf(second, lit)(s, sv, j, i)
    {
      assert Classify(second, j) == Classify(first, j);
    }
  }

  // ----- whole runs -----

  /** A limited run neither reads, writes nor removes the checkpoint (lines 34, 134, 167):
      it leaves the file as it found it, and its outcome and output files are the same
      whatever the file holds. */
  lemma LimitedRunLeavesCheckpoint(req: Request, outputs: map<string, OutputFile>, cp1: Option<Checkpoint>, cp2: Option<Checkpoint>, lit: CheckpointLiteral)
    requires Limited(req)
    ensures Analyze(req, Files(cp1, outputs), lit).files.checkpoint == cp1
    ensures Analyze(req, Files(cp1, outputs), lit).outcome == Analyze(req, Files(cp2, outputs), lit).outcome
    ensures Analyze(req, Files(cp1, outputs), lit).files.outputs == Analyze(req, Files(cp2, outputs), lit).files.outputs
  {
    if req.chunkSize > 0 {
      var f1, f2 := Files(cp1, outputs), Files(cp2, outputs);
      assert InitialState(req, f1) == Empty == InitialState(req, f2);
      assert FirstWindow(req, f1) == FirstWindow(req, f2);
      var start := FirstWindow(req, f1);
      var end := LastWindow(req, f1);
      var body, n, cs := BodyOf(req, lit), |req.messages|, req.chunkSize;
      LimitedBody(req, lit);
      LoopKeepsCheckpoint(body, n, cs, Empty, cp1, start, start * cs, end);
      LoopIgnoresCheckpoint(body, n, cs, Empty, cp1, cp2, start, start * cs, end);
    }
  }

  /** With the intended record, a full run that aborts at window `a` leaves the checkpoint it
      found if `a` was its first window, and otherwise one that records window `a - 1` as the
      last processed, so that the next full run resumes at `a`. That no output file is written
      is AbortedRunWindow's. */
  lemma AbortedRun(req: Request, files: Files)
    requires Analyze(req, files, IntendedDict).outcome.Aborted?
    ensures var r := Analyze(req, files, IntendedDict);
      !Limited(req) && r.outcome.window == FirstWindow(req, files) ==> r.files.checkpoint == files.checkpoint
    ensures var r := Analyze(req, files, IntendedDict);
      !Limited(req) && r.outcome.window > FirstWindow(req, files) ==>
        && r.files.checkpoint.Some?
        && r.files.checkpoint.value.lastProcessedChunk == Some(r.outcome.window - 1)
        && FirstWindow(req, Files(r.files.checkpoint, files.outputs)) == r.outcome.window
  {
    AbortedRunWindow(req, files);
    if !Limited(req) {
      var f := FullRunCheckpoint(req, files);
      var r := Analyze(req, files, IntendedDict);
      assert r == Finish(req, files, f);
      StoppedReport(req, files, f, FirstWindow(req, files));
    }
  }

  /** The window loop of a full run with the intended record ends with the checkpoint it
      found when it processed no window, and otherwise with one that records the last window
      it processed, the one before the window it stopped at. */
  lemma FullRunCheckpoint(req: Request, files: Files) returns (f: Fold)
    requires !Limited(req) && req.chunkSize > 0
    ensures f == RunWindows(req, IntendedDict, InitialState(req, files), files.checkpoint,
                            FirstWindow(req, files), FirstWindow(req, files) * req.chunkSize, LastWindow(req, files))
    ensures StopWindow(f) >= FirstWindow(req, files)
    ensures StopWindow(f) == FirstWindow(req, files) ==> f.saved == files.checkpoint
    ensures StopWindow(f) > FirstWindow(req, files) ==> f.saved.Some? && f.saved.value.lastProcessedChunk == Some(StopWindow(f) - 1)
  {
    var start := FirstWindow(req, files);
    f := RunWindows(req, IntendedDict, InitialState(req, files), files.checkpoint, start, start * req.chunkSize, LastWindow(req, files));
    FullBody(req);
    LoopCheckpoint(BodyOf(req, IntendedDict), |req.messages|, req.chunkSize, InitialState(req, files), files.checkpoint,
                   start, start * req.chunkSize, LastWindow(req, files));
  }

  /** The report of a full run whose loop stopped at window `f.at`, having recorded every
      window it processed from `start` on. */
  lemma StoppedReport(req: Request, files: Files, f: Fold, start: int)
    requires !Limited(req)
    requires StopWindow(f) >= start
    requires StopWindow(f) == start ==> f.saved == files.checkpoint
    requires StopWindow(f) > start ==> f.saved.Some? && f.saved.value.lastProcessedChunk == Some(StopWindow(f) - 1)
    ensures var r := Finish(req, files, f);
      r.outcome.Aborted? && r.outcome.window == start ==> r.files.checkpoint == files.checkpoint
    ensures var r := Finish(req, files, f);
      r.outcome.Aborted? && r.outcome.window > start ==>
        && r.files.checkpoint.Some?
        && r.files.checkpoint.value.lastProcessedChunk == Some(r.outcome.window - 1)
        && FirstWindow(req, Files(r.files.checkpoint, files.outputs)) == r.outcome.window
  {
  }

  /** The window an aborted run names is one the run set out to process. */
  lemma AbortedRunWindow(req: Request, files: Files)
    requires Analyze(req, files, IntendedDict).outcome.Aborted?
    ensures req.chunkSize > 0 && Analyze(req, files, IntendedDict).files.outputs == files.outputs
    ensures FirstWindow(req, files) <= Analyze(req, files, IntendedDict).outcome.window < LastWindow(req, files)
  {
    var start, cs, end := FirstWindow(req, files), req.chunkSize, LastWindow(req, files);
    LoopStops(BodyOf(req, IntendedDict), |req.messages|, cs, InitialState(req, files), files.checkpoint, start, start * cs, end);
  }

  /** Resuming is exact. A full run that aborts at window `a` and a second full run started
      from the files it left end exactly as the second run would have ended had it started
      from the original files, provided its classifier replies to the windows the first run
      completed as the first run's did: same outcome, same checkpoint, same output files. */
  lemma ResumeMatchesUninterrupted(first: Request, second: Request, files: Files)
    requires !Limited(first) && !Limited(second)
    requires second.messages == first.messages && second.chunkSize == first.chunkSize
    requires Analyze(first, files, IntendedDict).outcome.Aborted?
    requires forall j :: FirstWindow(first, files) <= j < Analyze(first, files, IntendedDict).outcome.window ==>
      Classify(second, j) == Classify(first, j)
    ensures Analyze(second, Analyze(first, files, IntendedDict).files, IntendedDict) == Analyze(second, files, IntendedDict)
  {
    var m, cs := first.messages, first.chunkSize;
    var start, end, s0 := FirstWindow(first, files), LastWindow(first, files), InitialState(first, files);
    assert start == FirstWindow(second, files) && end == LastWindow(second, files) && s0 == InitialState(second, files);
    var b1, b2 := BodyOf(first, IntendedDict), BodyOf(second, IntendedDict);
    var f := Loop(b1, |m|, cs, s0, files.checkpoint, start, start * cs, end);
    var a := StopWindow(f);
    AgreeingBodies(first, second, IntendedDict, start, a);
    LoopPrefix(b1, b2, |m|, cs, s0, files.checkpoint, start, start * cs, end);
    FullBody(first);
    LoopCheckpoint(b1, |m|, cs, s0, files.checkpoint, start, start * cs, end);
    var resumed := Analyze(first, files, IntendedDict).files;
    assert resumed == files.(checkpoint := f.saved);
    if a > start {
      LoadSave(f.state);
      assert InitialState(second, resumed) == f.state;
      assert FirstWindow(second, resumed) == a;
      assert LastWindow(second, resumed) == end;
    }
  }

  /** A run that starts from a state satisfying the invariant keeps it to the end, finished
      or stopped, and never lowers the session counter (lines 113-129). */
  lemma RunKeepsInvariant(req: Request, files: Files, lit: CheckpointLiteral)
    requires req.chunkSize > 0 && Valid(InitialState(req, files))
    ensures var start := FirstWindow(req, files);
      var f := RunWindows(req, lit, InitialState(req, files), files.checkpoint, start, start * req.chunkSize, LastWindow(req, files));
      Valid(f.state) && f.state.sessionCount >= InitialState(req, files).sessionCount
  {
    var start := FirstWindow(req, files);
    BodyKeepsValid(req, lit);
    LoopKeepsValid(BodyOf(req, lit), |req.messages|, req.chunkSize, InitialState(req, files), files.checkpoint,
                   start, start * req.chunkSize, LastWindow(req, files));
  }

  /** A loop from the empty state over all windows, with a body that steps by Step, ends,
      when it finishes, in a state that satisfies the invariant and attributes every message. */
  lemma FreshRoutes(body: Body, m: seq<Message>, cs: int, verdicts: int -> Result<Verdict, Error>)
    requires cs > 0 && StepsBy(body, m, cs, verdicts)
    ensures var f := Loop(body, |m|, cs, Empty, None, 0, 0, TotalChunks(|m|, cs));
      f.Finished? ==> Valid(f.state) && Routed(f.state, m)
  {
    var end := TotalChunks(|m|, cs);
    var f := Loop(body, |m|, cs, Empty, None, 0, 0, end);
    EmptyIsValid();
    assert RoutedBy(Empty, m[..0], []);
    StepsRoute(body, m, cs, verdicts);
    LoopRoutes(body, m, cs, Empty, None, 0, 0, end);
    LoopStops(body, |m|, cs, Empty, None, 0, 0, end);
    if f.Finished? && f.next >= end {
      StartsInside(|m|, cs, f.next);
    }
    assert f.Finished? ==> m[..Min(f.next * cs, |m|)] == m;
  }

  /** The window loop of a fresh full run, when it finishes, ends in a state that satisfies
      the invariant and attributes every message. */
  lemma FreshLoopRoutes(req: Request)
    requires req.chunkSize > 0
    ensures var m, cs := req.messages, req.chunkSize;
      var f := Loop(BodyOf(req, IntendedDict), |m|, cs, Empty, None, 0, 0, TotalChunks(|m|, cs));
      f.Finished? ==> Valid(f.state) && Routed(f.state, m)
  {
    BodySteps(req, IntendedDict);
    FreshRoutes(BodyOf(req, IntendedDict), req.messages, req.chunkSize, k => Classify(req, k));
  }

  /** A fresh full run that completes attributes every message: its output files are those
      of a final state that satisfies the state machine's invariant and in which each message
      sits in exactly one branch, in order (lines 61-132, 154-165). */
  lemma CompletedFreshRunRoutesEveryMessage(req: Request, files: Files)
    requires !Limited(req) && files.checkpoint.None?
    requires Analyze(req, files, IntendedDict).outcome == Completed
    ensures exists s :: (Valid(s) && Routed(s, req.messages)
                         && Analyze(req, files, IntendedDict).files == Files(None, WriteOutputs(files.outputs, s)))
  {
    var m, cs := req.messages, req.chunkSize;
    assert FirstWindow(req, files) == 0 && LastWindow(req, files) == TotalChunks(|m|, cs);
    assert InitialState(req, files) == Empty;
    FreshLoopRoutes(req);
    var f := Loop(BodyOf(req, IntendedDict), |m|, cs, Empty, None, 0, 0, TotalChunks(|m|, cs));
    assert Analyze(req, files, IntendedDict).files == Files(None, WriteOutputs(files.outputs, f.state));
  }

  /** With the intended record, a run over messages that all carry an id, whose every reply
      parses to a verdict with a chunk summary, completes (whatever mode, checkpoint or window
      range). */
  lemma IntendedRunCompletes(req: Request, files: Files)
    requires req.chunkSize > 0 && AllHaveIds(req.messages)
    requires forall k :: Classify(req, k).Ok? && !Classify(req, k).value.chunkSummary.Null?
    ensures Analyze(req, files, IntendedDict).outcome == Completed
  {
    var body := BodyOf(req, IntendedDict);
    forall s, sv, k, i ensures body(s, sv, k, i).Ok? {
      var w := PySlice(req.messages, i, i + req.chunkSize);
      assert AllHaveIds(w);
    }
    var start := FirstWindow(req, files);
    LoopCompletes(body, |req.messages|, req.chunkSize, InitialState(req, files), files.checkpoint,
                  start, start * req.chunkSize, LastWindow(req, files));
  }

  /** As written, the checkpoint literal of lines 136-143 raises TypeError, so a full run that
      has a window to process never completes: it aborts at its first window, leaves the
      files as they were, and whenever the intended code would have processed that window
      the error is the unhashable dict. */
  lemma AsWrittenFullRunAbortsAtFirstWindow(req: Request, files: Files)
    requires !Limited(req) && req.chunkSize > 0
    requires FirstWindow(req, files) < LastWindow(req, files)
    requires FirstWindow(req, files) * req.chunkSize < |req.messages|
    ensures var r := Analyze(req, files, AsWrittenSetDisplay);
      && r.outcome.Aborted? && r.outcome.window == FirstWindow(req, files) && r.files == files
      && (Advance(req, IntendedDict, InitialState(req, files), files.checkpoint, FirstWindow(req, files), FirstWindow(req, files) * req.chunkSize).Ok?
          ==> r.outcome.error == UnhashableDict)
  {
  }
}
