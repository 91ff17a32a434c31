/**
 * The session state machine of the analysis loop (chat_analyzer.py lines 102-132): how one
 * classified window is folded into the run state, which messages go to the main branch and
 * which to the active debugging session, and when sessions open and close.
 */
module Sessions {
  import opened Wrappers
  import opened Errors
  import opened Verdicts

  /** A chat message: its "id" (possibly missing) and the rest of the record, kept opaque. */
  datatype Message = Message(id: Option<string>, body: string)

  /** An entry of `main_branch`: a message, or a summary marker `{"type": "summary", ...}`
      whose content may be a JSON null (`None`). */
  datatype Entry = Msg(m: Message) | Summary(content: Option<string>)

  /** The six values of the run state. */
  datatype Snapshot = Snapshot(
    mainBranch: seq<Entry>,
    summaryLog: seq<LogEntry>,
    branches: map<string, seq<Message>>,
    sessionCount: nat,
    debugging: bool,
    lastProcessed: int)

  /** The state a run starts from when there is no checkpoint to resume (line 45). */
  const Empty: Snapshot := Snapshot([], [], map[], 0, false, -1)

  // ----- session keys -----

  function DigitChar(d: nat): char
    requires d < 10
  {
    "0123456789"[d]
  }

  /** Python's `str(n)` for a natural number. */
  function NatToString(n: nat): (r: string)
    ensures |r| >= 1
    ensures n < 10 <==> |r| == 1
    decreases n
  {
    if n < 10 then [DigitChar(n)] else NatToString(n / 10) + [DigitChar(n % 10)]
  }

  /** Distinct numbers print as distinct strings. */
  lemma {:induction false} NatToStringInjective(a: nat, b: nat)
    requires NatToString(a) == NatToString(b)
    ensures a == b
    decreases a
  {
    var sa, sb := NatToString(a), NatToString(b);
    assert sa[|sa| - 1] == sb[|sb| - 1];
    assert DigitChar(a % 10) == DigitChar(b % 10);
    assert a % 10 == b % 10;
    if a >= 10 {
      assert b >= 10;
      assert sa[..|sa| - 1] == NatToString(a / 10);
      assert sb[..|sb| - 1] == NatToString(b / 10);
      NatToStringInjective(a / 10, b / 10);
    }
  }

  /** `f"debug_session_{n}"` (line 121). */
  function SessionKey(n: nat): (key: string)
    ensures "debug_session_" <= key && |key| > |"debug_session_"|
  {
    "debug_session_" + NatToString(n)
  }

  lemma SessionKeyInjective(a: nat, b: nat)
    requires SessionKey(a) == SessionKey(b)
    ensures a == b
  {
    var p := "debug_session_";
    assert NatToString(a) == SessionKey(a)[|p|..];
    assert NatToString(b) == SessionKey(b)[|p|..];
    NatToStringInjective(a, b);
  }

  /** The keys of sessions 1..n. */
  function SessionKeys(n: nat): set<string> {
    set i | 1 <= i <= n :: SessionKey(i)
  }

  // ----- attribution of one window -----

  /** Whether a message is listed in the window's debugging ids. */
  predicate Listed(m: Message, ids: set<string>) {
    m.id.Some? && m.id.value in ids
  }

  predicate AllHaveIds(w: seq<Message>) {
    forall i :: 0 <= i < |w| ==> w[i].id.Some?
  }

  /** The messages of the window that go to the debugging session, in window order. */
  function Inside(w: seq<Message>, ids: set<string>): (r: seq<Message>)
    ensures |r| <= |w|
    ensures ids == {} ==> r == []
  {
    if w == [] then []
    else Inside(w[..|w| - 1], ids) + (if Listed(w[|w| - 1], ids) then [w[|w| - 1]] else [])
  }

  /** The messages of the window that stay on the main branch, in window order. */
  function Outside(w: seq<Message>, ids: set<string>): (r: seq<Message>)
    ensures |r| <= |w|
    ensures ids == {} ==> r == w
  {
    if w == [] then []
    else Outside(w[..|w| - 1], ids) + (if Listed(w[|w| - 1], ids) then [] else [w[|w| - 1]])
  }

  function AsEntries(w: seq<Message>): (r: seq<Entry>)
    ensures |r| == |w| && forall i :: 0 <= i < |w| ==> r[i] == Msg(w[i])
  {
    seq(|w|, i requires 0 <= i < |w| => Msg(w[i]))
  }

  /** The messages of a branch, summary markers left out. */
  function Messages(entries: seq<Entry>): seq<Message> {
    if entries == [] then []
    else
      var last := entries[|entries| - 1];
      Messages(entries[..|entries| - 1]) + (if last.Msg? then [last.m] else [])
  }

  /** The number of summary markers of a branch. */
  function Markers(entries: seq<Entry>): nat {
    if entries == [] then 0
    else Markers(entries[..|entries| - 1]) + (if entries[|entries| - 1].Summary? then 1 else 0)
  }

  /** The entries of `verdict["chunk_summary"]` appended to the summary log (line 102). */
  function LogEntries(v: Verdict): seq<LogEntry> {
    match v.chunkSummary
    case Value(es) => es
    case _ => []
  }

  /** One window, classified as `v`, folded into the state (lines 102-132); `k` is the
      window's index, recorded as the last processed window. A JSON null "chunk_summary" makes
      `extend` raise, and a message without "id" raises when the window has debugging ids. */
  function Step(s: Snapshot, w: seq<Message>, v: Verdict, k: int): (r: Result<Snapshot, Error>)
    ensures r.Ok? <==> !v.chunkSummary.Null? && (NormalisedIds(RawIds(v)) == {} || AllHaveIds(w))
    ensures r.Err? ==> r.error == (if v.chunkSummary.Null? then NullChunkSummary else MissingMessageId)
    ensures r.Ok? ==> r.value.sessionCount >= s.sessionCount && r.value.lastProcessed == k
  {
    if v.chunkSummary.Null? then Err(NullChunkSummary)
    else
      var log := s.summaryLog + LogEntries(v);
      var ids := NormalisedIds(RawIds(v));
      if ids == {} then
        Ok(s.(mainBranch := s.mainBranch + AsEntries(w), summaryLog := log,
              debugging := false, lastProcessed := k))
      else if !AllHaveIds(w) then Err(MissingMessageId)
      else
        var opening := !s.debugging;
        var count := if opening then s.sessionCount + 1 else s.sessionCount;
        var main := if opening then s.mainBranch + [Summary(MarkerText(v))] else s.mainBranch;
        var key := SessionKey(count);
        var branch := if key in s.branches then s.branches[key] else [];
        Ok(Snapshot(main + AsEntries(Outside(w, ids)), log,
                    s.branches[key := branch + Inside(w, ids)], count, true, k))
  }

  // ----- the state machine -----

  /** The three transitions of the state machine for a window that is processed. */
  lemma SessionTransitions(s: Snapshot, w: seq<Message>, v: Verdict, k: int)
    requires Step(s, w, v, k).Ok?
    ensures var r, ids := Step(s, w, v, k).value, NormalisedIds(RawIds(v));
      && r.summaryLog == s.summaryLog + LogEntries(v)
      // Idle or in a session, no debugging ids: the session closes, the window joins the main branch.
      && (ids == {} ==>
            !r.debugging && r.sessionCount == s.sessionCount && r.branches == s.branches
            && r.mainBranch == s.mainBranch + AsEntries(w))
      // Idle, debugging ids: a new session opens, announced by exactly one marker.
      && (ids != {} && !s.debugging ==>
            r.debugging && r.sessionCount == s.sessionCount + 1
            && r.mainBranch == s.mainBranch + [Summary(MarkerText(v))] + AsEntries(Outside(w, ids))
            && Markers(r.mainBranch) == Markers(s.mainBranch) + 1
            && SessionKey(r.sessionCount) in r.branches
            && r.branches[SessionKey(r.sessionCount)]
               == (if SessionKey(r.sessionCount) in s.branches then s.branches[SessionKey(r.sessionCount)] else [])
                  + Inside(w, ids))
      // In a session, debugging ids: the same session goes on, without a marker.
      && (ids != {} && s.debugging ==>
            r.debugging && r.sessionCount == s.sessionCount
            && r.mainBranch == s.mainBranch + AsEntries(Outside(w, ids))
            && Markers(r.mainBranch) == Markers(s.mainBranch)
            && SessionKey(s.sessionCount) in r.branches
            && r.branches[SessionKey(s.sessionCount)]
               == (if SessionKey(s.sessionCount) in s.branches then s.branches[SessionKey(s.sessionCount)] else [])
                  + Inside(w, ids))
      // Every other session's branch is untouched.
      && (forall key :: key in s.branches && key != SessionKey(r.sessionCount) ==>
            key in r.branches && r.branches[key] == s.branches[key])
  {
    var r, ids := Step(s, w, v, k).value, NormalisedIds(RawIds(v));
    if ids != {} {
      var o := AsEntries(Outside(w, ids));
      MarkersAppend(s.mainBranch, [Summary(MarkerText(v))]);
      MarkersAppend(s.mainBranch + [Summary(MarkerText(v))], o);
      MarkersAppend(s.mainBranch, o);
      NoMarkersInMessages(Outside(w, ids));
    }
  }

  lemma {:induction false} MarkersAppend(a: seq<Entry>, b: seq<Entry>)
    ensures Markers(a + b) == Markers(a) + Markers(b)
    decreases |b|
  {
    if b != [] {
      assert (a + b)[..|a + b| - 1] == a + b[..|b| - 1];
      MarkersAppend(a, b[..|b| - 1]);
    } else {
      assert a + b == a;
    }
  }

  lemma {:induction false} MessagesAppend(a: seq<Entry>, b: seq<Entry>)
    ensures Messages(a + b) == Messages(a) + Messages(b)
    decreases |b|
  {
    if b != [] {
      assert (a + b)[..|a + b| - 1] == a + b[..|b| - 1];
      MessagesAppend(a, b[..|b| - 1]);
    } else {
      assert a + b == a;
    }
  }

  /** Messages appended to a branch add no markers and are read back unchanged. */
  lemma {:induction false} NoMarkersInMessages(w: seq<Message>)
    ensures Markers(AsEntries(w)) == 0
    ensures Messages(AsEntries(w)) == w
  {
    if w != [] {
      assert AsEntries(w)[..|w| - 1] == AsEntries(w[..|w| - 1]);
      NoMarkersInMessages(w[..|w| - 1]);
    }
  }

  /** The invariant a run keeps from the empty state: the session counter is the number of
      markers on the main branch, the branch keys are exactly debug_session_1..count, and a
      session can only be open once one has been counted. */
  ghost predicate Valid(s: Snapshot) {
    && s.sessionCount == Markers(s.mainBranch)
    && s.branches.Keys == SessionKeys(s.sessionCount)
    && (s.debugging ==> s.sessionCount >= 1)
  }

  lemma EmptyIsValid()
    ensures Valid(Empty)
  {
    assert SessionKeys(0) == {};
  }

  lemma SessionKeysNext(c: nat)
    ensures SessionKeys(c + 1) == SessionKeys(c) + {SessionKey(c + 1)}
  {
    var next := SessionKeys(c) + {SessionKey(c + 1)};
    forall i | 1 <= i <= c + 1 ensures SessionKey(i) in next {
      if i <= c { assert SessionKey(i) in SessionKeys(c); }
    }
    assert SessionKeys(c + 1) <= next;
  }

  /** A session number above the counter has no branch yet. */
  lemma FreshKey(s: Snapshot, n: nat)
    requires Valid(s) && n > s.sessionCount
    ensures SessionKey(n) !in s.branches
  {
    if SessionKey(n) in s.branches {
      var i :| 1 <= i <= s.sessionCount && SessionKey(n) == SessionKey(i);
      SessionKeyInjective(n, i);
    }
  }

  /** Every processed window keeps the invariant. */
  lemma StepPreservesValid(s: Snapshot, w: seq<Message>, v: Verdict, k: int)
    requires Valid(s) && Step(s, w, v, k).Ok?
    ensures Valid(Step(s, w, v, k).value)
  {
    var r, ids := Step(s, w, v, k).value, NormalisedIds(RawIds(v));
    SessionTransitions(s, w, v, k);
    if ids == {} {
      MarkersAppend(s.mainBranch, AsEntries(w));
      NoMarkersInMessages(w);
    } else if !s.debugging {
      SessionKeysNext(s.sessionCount);
      assert r.branches.Keys == s.branches.Keys + {SessionKey(s.sessionCount + 1)};
    } else {
      assert SessionKey(s.sessionCount) in SessionKeys(s.sessionCount);
      assert r.branches.Keys == s.branches.Keys;
    }
  }

  // ----- routing: where every processed message went -----

  /** The destination of each message of a window: the session number `n` for a listed
      message, 0 (the main branch) for any other. */
  function Route(w: seq<Message>, ids: set<string>, n: nat): (labels: seq<nat>)
    ensures |labels| == |w|
    ensures forall j :: 0 <= j < |w| ==> labels[j] == (if Listed(w[j], ids) then n else 0)
  {
    if w == [] then []
    else Route(w[..|w| - 1], ids, n) + [if Listed(w[|w| - 1], ids) then n else 0]
  }

  /** The messages whose destination is `d`, in order. */
  function Select(ms: seq<Message>, labels: seq<nat>, d: nat): seq<Message>
    requires |labels| == |ms|
  {
    if ms == [] then []
    else Select(ms[..|ms| - 1], labels[..|ms| - 1], d) + (if labels[|ms| - 1] == d then [ms[|ms| - 1]] else [])
  }

  lemma {:induction false} SelectAppend(p: seq<Message>, lp: seq<nat>, q: seq<Message>, lq: seq<nat>, d: nat)
    requires |lp| == |p| && |lq| == |q|
    ensures Select(p + q, lp + lq, d) == Select(p, lp, d) + Select(q, lq, d)
    decreases |q|
  {
    if q == [] {
      assert p + q == p && lp + lq == lp;
    } else {
      var n := |q| - 1;
      assert (p + q)[..|p + q| - 1] == p + q[..n];
      assert (lp + lq)[..|p + q| - 1] == lp + lq[..n];
      SelectAppend(p, lp, q[..n], lq[..n], d);
    }
  }

  /** No message has a destination above every label. */
  lemma {:induction false} SelectAbove(ms: seq<Message>, labels: seq<nat>, c: nat, d: nat)
    requires |labels| == |ms| && d > c
    requires forall j :: 0 <= j < |labels| ==> labels[j] <= c
    ensures Select(ms, labels, d) == []
  {
    if ms != [] {
      SelectAbove(ms[..|ms| - 1], labels[..|ms| - 1], c, d);
    }
  }

  /** Routing a window splits it into the part left on the main branch and the part sent to
      session `n`; no other destination receives anything. */
  lemma {:induction false} SelectRoute(w: seq<Message>, ids: set<string>, n: nat, d: nat)
    requires n >= 1 || ids == {}
    ensures d == 0 ==> Select(w, Route(w, ids, n), d) == Outside(w, ids)
    ensures d == n && n >= 1 ==> Select(w, Route(w, ids, n), d) == Inside(w, ids)
    ensures d != 0 && d != n ==> Select(w, Route(w, ids, n), d) == []
  {
    if w != [] {
      var init := w[..|w| - 1];
      assert Route(w, ids, n)[..|w| - 1] == Route(init, ids, n);
      SelectRoute(init, ids, n, d);
    }
  }

  /** Every message processed so far, in processing order, has a destination (`labels`,
      aligned with `processed`); the main branch holds exactly the messages routed to 0 and
      session n's branch exactly those routed to n, each in processing order. */
  ghost predicate RoutedBy(s: Snapshot, processed: seq<Message>, labels: seq<nat>) {
    && |labels| == |processed|
    && (forall j :: 0 <= j < |labels| ==> labels[j] <= s.sessionCount)
    && Messages(s.mainBranch) == Select(processed, labels, 0)
    && (forall n :: 1 <= n <= s.sessionCount ==>
          SessionKey(n) in s.branches && s.branches[SessionKey(n)] == Select(processed, labels, n))
  }

  ghost predicate Routed(s: Snapshot, processed: seq<Message>) {
    exists labels :: RoutedBy(s, processed, labels)
  }

  /** The destinations Step gives the window's messages. */
  function StepLabels(s: Snapshot, w: seq<Message>, v: Verdict): seq<nat> {
    var ids := NormalisedIds(RawIds(v));
    Route(w, ids, if ids != {} && !s.debugging then s.sessionCount + 1 else s.sessionCount)
  }

  /** Processing a window sends each of its messages to exactly one place, in window order,
      and leaves the earlier attribution as it was: nothing is lost or duplicated. */
  lemma StepRoutes(s: Snapshot, processed: seq<Message>, labels: seq<nat>, w: seq<Message>, v: Verdict, k: int)
    requires Valid(s) && RoutedBy(s, processed, labels) && Step(s, w, v, k).Ok?
    ensures RoutedBy(Step(s, w, v, k).value, processed + w, labels + StepLabels(s, w, v))
  {
    var r := Step(s, w, v, k).value;
    var lw := StepLabels(s, w, v);
    var l2 := labels + lw;
    forall j | 0 <= j < |l2| ensures l2[j] <= r.sessionCount {
      if j >= |labels| { assert l2[j] == lw[j - |labels|]; }
    }
    StepRoutesMain(s, processed, labels, w, v, k);
    forall n | 1 <= n <= r.sessionCount
      ensures SessionKey(n) in r.branches && r.branches[SessionKey(n)] == Select(processed + w, l2, n)
    {
      StepRoutesSession(s, processed, labels, w, v, k, n);
    }
  }

  lemma StepRoutesMain(s: Snapshot, processed: seq<Message>, labels: seq<nat>, w: seq<Message>, v: Verdict, k: int)
    requires Valid(s) && RoutedBy(s, processed, labels) && Step(s, w, v, k).Ok?
    ensures Messages(Step(s, w, v, k).value.mainBranch) == Select(processed + w, labels + StepLabels(s, w, v), 0)
  {
    var r, ids := Step(s, w, v, k).value, NormalisedIds(RawIds(v));
    var lw := StepLabels(s, w, v);
    assert lw == Route(w, ids, r.sessionCount);
    SelectAppend(processed, labels, w, lw, 0);
    SelectRoute(w, ids, r.sessionCount, 0);
    MainAfterStep(s, w, v, k);
  }

  /** The messages on the main branch after a step: those before it, then the window's
      messages that are not routed to a session. */
  lemma MainAfterStep(s: Snapshot, w: seq<Message>, v: Verdict, k: int)
    requires Step(s, w, v, k).Ok?
    ensures Messages(Step(s, w, v, k).value.mainBranch) == Messages(s.mainBranch) + Outside(w, NormalisedIds(RawIds(v)))
  {
    var ids := NormalisedIds(RawIds(v));
    SessionTransitions(s, w, v, k);
    if ids == {} {
      EntriesAppended(s.mainBranch, w);
    } else if !s.debugging {
      MarkerThenEntries(s.mainBranch, MarkerText(v), Outside(w, ids));
    } else {
      EntriesAppended(s.mainBranch, Outside(w, ids));
    }
  }

  lemma EntriesAppended(m: seq<Entry>, w: seq<Message>)
    ensures Messages(m + AsEntries(w)) == Messages(m) + w
  {
    MessagesAppend(m, AsEntries(w));
    NoMarkersInMessages(w);
  }

  lemma MarkerThenEntries(m: seq<Entry>, text: Option<string>, w: seq<Message>)
    ensures Messages(m + [Summary(text)] + AsEntries(w)) == Messages(m) + w
  {
    MessagesAppend(m, [Summary(text)]);
    assert Messages([Summary(text)]) == [];
    EntriesAppended(m + [Summary(text)], w);
  }

  lemma StepRoutesSession(s: Snapshot, processed: seq<Message>, labels: seq<nat>, w: seq<Message>, v: Verdict, k: int, n: nat)
    requires Valid(s) && RoutedBy(s, processed, labels) && Step(s, w, v, k).Ok?
    requires 1 <= n <= Step(s, w, v, k).value.sessionCount
    ensures var r := Step(s, w, v, k).value;
      SessionKey(n) in r.branches
      && r.branches[SessionKey(n)] == Select(processed + w, labels + StepLabels(s, w, v), n)
  {
    var r, ids := Step(s, w, v, k).value, NormalisedIds(RawIds(v));
    var c, c' := s.sessionCount, r.sessionCount;
    var lw := StepLabels(s, w, v);
    SelectAppend(processed, labels, w, lw, n);
    SelectRoute(w, ids, c', n);
    if ids == {} {
      assert r.branches == s.branches;
    } else {
      var key := SessionKey(c');
      var before := if key in s.branches then s.branches[key] else [];
      assert r.branches == s.branches[key := before + Inside(w, ids)];
      if n == c' {
        if !s.debugging {
          FreshKey(s, c');
          SelectAbove(processed, labels, c, c');
        }
      } else {
        assert n <= c;
        if SessionKey(n) == key { SessionKeyInjective(n, c'); }
      }
    }
  }

  /** A window with debugging ids and a message without "id" fails with the missing id. */
  lemma StepMissingId(s: Snapshot, w: seq<Message>, v: Verdict, k: int)
    requires !v.chunkSummary.Null? && NormalisedIds(RawIds(v)) != {} && !AllHaveIds(w)
    ensures Step(s, w, v, k) == Err(MissingMessageId)
  {
  }

  /** A window without debugging ids closes any session and joins the main branch. */
  lemma StepIdle(s: Snapshot, w: seq<Message>, v: Verdict, k: int)
    requires !v.chunkSummary.Null? && NormalisedIds(RawIds(v)) == {}
    ensures Step(s, w, v, k) == Ok(Snapshot(s.mainBranch + AsEntries(w), s.summaryLog + LogEntries(v),
                                            s.branches, s.sessionCount, false, k))
  {
  }

  /** A window with debugging ids whose messages all have ids, once the session it belongs to
      is known: `count` sessions so far, `main` the main branch after any opening marker. */
  lemma StepSession(s: Snapshot, w: seq<Message>, v: Verdict, k: int, count: nat, main: seq<Entry>, branch: seq<Message>)
    requires !v.chunkSummary.Null? && NormalisedIds(RawIds(v)) != {} && AllHaveIds(w)
    requires count == if s.debugging then s.sessionCount else s.sessionCount + 1
    requires main == if s.debugging then s.mainBranch else s.mainBranch + [Summary(MarkerText(v))]
    requires branch == if SessionKey(count) in s.branches then s.branches[SessionKey(count)] else []
    ensures Step(s, w, v, k) == Ok(Snapshot(main + AsEntries(Outside(w, NormalisedIds(RawIds(v)))),
                                            s.summaryLog + LogEntries(v),
                                            s.branches[SessionKey(count) := branch + Inside(w, NormalisedIds(RawIds(v)))],
                                            count, true, k))
  {
  }

  // ----- the run state as the loop keeps it -----

  /** The six values the analysis loop updates in place: `main_branch` and `summary_log`
      (lists appended to), `debugging_branches` (a dict mutated in place), the session
      counter and flag (reassigned per window), and the index of the last window processed. */
  class RunState {
    var mainBranch: seq<Entry>
    var summaryLog: seq<LogEntry>
    var debuggingBranches: map<string, seq<Message>>
    var sessionCount: nat
    var isCurrentlyDebugging: bool
    var lastProcessedChunk: int

    function State(): Snapshot
      reads this
    {
      Snapshot(mainBranch, summaryLog, debuggingBranches, sessionCount, isCurrentlyDebugging, lastProcessedChunk)
    }

    constructor (s: Snapshot)
      ensures State() == s
    {
      mainBranch, summaryLog, debuggingBranches := s.mainBranch, s.summaryLog, s.branches;
      sessionCount, isCurrentlyDebugging, lastProcessedChunk := s.sessionCount, s.debugging, s.lastProcessed;
    }

    /** The body of the try block for one window (lines 102-132), given the parsed reply.
        On success the new state is Step's; on failure the error is Step's, and the partly
        updated state is left to the caller, which abandons the run. */
    method ProcessChunk(w: seq<Message>, v: Verdict, k: int) returns (failure: Option<Error>)
      modifies this
      ensures failure.None? <==> Step(old(State()), w, v, k).Ok?
      ensures failure.Some? ==> failure.value == Step(old(State()), w, v, k).error
      ensures failure.None? ==> State() == Step(old(State()), w, v, k).value
    {
      ghost var s0 := State();
      if v.chunkSummary.Null? {
        return Some(NullChunkSummary);
      }
      summaryLog := summaryLog + LogEntries(v);
      var ids := NormaliseIds(RawIds(v));
      if ids != {} {
        if !isCurrentlyDebugging {
          isCurrentlyDebugging := true;
          sessionCount := sessionCount + 1;
          mainBranch := mainBranch + [Summary(MarkerText(v))];
        }
        ghost var main := mainBranch;
        var key := SessionKey(sessionCount);
        ghost var branch := if key in s0.branches then s0.branches[key] else [];
        if key !in debuggingBranches {
          debuggingBranches := debuggingBranches[key := []];
        }
        failure := RouteMessages(w, ids, key);
        if failure.Some? {
          StepMissingId(s0, w, v, k);
          return;
        }
        assert debuggingBranches == s0.branches[key := branch + Inside(w, ids)];
        StepSession(s0, w, v, k, sessionCount, main, branch);
      } else {
        isCurrentlyDebugging := false;
        mainBranch := mainBranch + AsEntries(w);
        StepIdle(s0, w, v, k);
      }
      lastProcessedChunk := k;
      return None;
    }

    /** The loop at lines 125-129: each message of the window, in order, goes to the
        session's branch when listed and to the main branch otherwise; `message['id']`
        raises for a message without "id", leaving the messages before it routed. */
    method RouteMessages(w: seq<Message>, ids: set<string>, key: string) returns (failure: Option<Error>)
      requires key in debuggingBranches
      modifies this
      ensures failure.None? <==> AllHaveIds(w)
      ensures failure.Some? ==> failure.value == MissingMessageId
      ensures failure.None? ==> mainBranch == old(mainBranch) + AsEntries(Outside(w, ids))
      ensures failure.None? ==>
        debuggingBranches == old(debuggingBranches)[key := old(debuggingBranches)[key] + Inside(w, ids)]
      ensures summaryLog == old(summaryLog) && sessionCount == old(sessionCount)
      ensures isCurrentlyDebugging == old(isCurrentlyDebugging) && lastProcessedChunk == old(lastProcessedChunk)
    {
      ghost var main0, branches0 := mainBranch, debuggingBranches;
      assert branches0[key] + Inside(w[..0], ids) == branches0[key];
      var j := 0;
      while j < |w|
        invariant 0 <= j <= |w|
        invariant AllHaveIds(w[..j])
        invariant mainBranch == main0 + AsEntries(Outside(w[..j], ids))
        invariant debuggingBranches == branches0[key := branches0[key] + Inside(w[..j], ids)]
        invariant summaryLog == old(summaryLog) && sessionCount == old(sessionCount)
        invariant isCurrentlyDebugging == old(isCurrentlyDebugging) && lastProcessedChunk == old(lastProcessedChunk)
      {
        var message := w[j];
        assert w[..j + 1][..j] == w[..j];
        assert w[..j + 1][j] == message;
        if message.id.None? {
          assert !AllHaveIds(w);
          return Some(MissingMessageId);
        }
        if message.id.value in ids {
          assert Inside(w[..j + 1], ids) == Inside(w[..j], ids) + [message];
          assert debuggingBranches[key] + [message] == branches0[key] + Inside(w[..j + 1], ids);
          debuggingBranches := debuggingBranches[key := debuggingBranches[key] + [message]];
        } else {
          assert Inside(w[..j + 1], ids) == Inside(w[..j], ids);
          mainBranch := mainBranch + [Msg(message)];
          assert AsEntries(Outside(w[..j + 1], ids)) == AsEntries(Outside(w[..j], ids)) + [Msg(message)];
        }
        j := j + 1;
      }
      assert w[..|w|] == w;
      return None;
    }
  }
}
