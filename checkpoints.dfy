/**
 * The checkpoint of a full run (chat_analyzer.py lines 34-42 and 134-145): the six-field
 * record written after every processed window and read back on the next full run.
 *
 * As written, lines 136-143 wrap the record in doubled braces, `{{ ... }}`. Outside an
 * f-string that is a set display whose one element is a dict, and building it raises
 * TypeError (a dict is unhashable). The model keeps both readings: `AsWrittenSetDisplay`,
 * which always raises, and `IntendedDict`, the record the surrounding code evidently means.
 */
module Checkpoints {
  import opened Wrappers
  import opened Errors
  import opened Verdicts
  import opened Sessions

  /** The checkpoint file's content. A field may be missing from a file; reading it back
      uses the defaults of lines 37-42. */
  datatype Checkpoint = Checkpoint(
    mainBranch: Option<seq<Entry>>,
    summaryLog: Option<seq<LogEntry>>,
    debuggingBranches: Option<map<string, seq<Message>>>,
    sessionCount: Option<nat>,
    isCurrentlyDebugging: Option<bool>,
    lastProcessedChunk: Option<int>)

  /** The record written after a window (the intended dict of lines 136-143). */
  function Save(s: Snapshot): (cp: Checkpoint)
    ensures cp.lastProcessedChunk == Some(s.lastProcessed)
  {
    Checkpoint(Some(s.mainBranch), Some(s.summaryLog), Some(s.branches),
               Some(s.sessionCount), Some(s.debugging), Some(s.lastProcessed))
  }

  /** Every field of the record is present. */
  predicate Complete(cp: Checkpoint) {
    && cp.mainBranch.Some? && cp.summaryLog.Some? && cp.debuggingBranches.Some?
    && cp.sessionCount.Some? && cp.isCurrentlyDebugging.Some? && cp.lastProcessedChunk.Some?
  }

  /** The state a full run resumes from (lines 37-42), each missing field defaulted. */
  function Load(cp: Checkpoint): (s: Snapshot)
    ensures cp.lastProcessedChunk.None? ==> s.lastProcessed == -1
    ensures cp == Checkpoint(None, None, None, None, None, None) ==> s == Empty
    ensures Complete(cp) ==> Save(s) == cp
  {
    Snapshot(cp.mainBranch.GetOr([]), cp.summaryLog.GetOr([]), cp.debuggingBranches.GetOr(map[]),
             cp.sessionCount.GetOr(0), cp.isCurrentlyDebugging.GetOr(false),
             cp.lastProcessedChunk.GetOr(-1))
  }

  /** Reading back a saved checkpoint restores exactly the state that was saved. */
  lemma LoadSave(s: Snapshot)
    ensures Load(Save(s)) == s
  {
  }

  /** Which reading of the literal at lines 136-143 a run evaluates. */
  datatype CheckpointLiteral = AsWrittenSetDisplay | IntendedDict

  /** Evaluating the checkpoint literal after a window. */
  function BuildCheckpoint(lit: CheckpointLiteral, s: Snapshot): (r: Result<Checkpoint, Error>)
    ensures lit.AsWrittenSetDisplay? ==> r == Err(UnhashableDict)
    ensures lit.IntendedDict? ==> r.Ok? && Load(r.value) == s
  {
    match lit
    case AsWrittenSetDisplay => Err(UnhashableDict)
    case IntendedDict => Ok(Save(s))
  }
}
