/**
 * The analysis queue of src/services/analysisService.js as a state machine.
 *
 * `AnalysisQueue` keeps a FIFO list of waiting file ids, a map from running
 * file id to start time, and a concurrency ceiling. Its asynchronous parts
 * are explicit events here:
 *   - `add` pushes an id and makes one admission attempt;
 *   - `process` is one admission step: it moves the head of the queue into
 *     the running map when there is room, and starts an `analyzeFile` call;
 *   - when that call settles (resolves or throws alike) the id is deleted
 *     from the running map and a new `process` call is scheduled with
 *     `setImmediate`, which runs later as a separate event;
 *   - `cancelAnalysis` removes the first queued occurrence of an id.
 * Two parts of the JavaScript runtime are state of the model as well: the
 * multiset of `analyzeFile` calls still in flight (`jobs`), and the number of
 * scheduled `setImmediate` callbacks not yet run (`deferred`).
 */
module QueueModel {
  import opened Common
  import opened Text

  type FileId = string

  /** A wall-clock time in milliseconds. */
  type Time = int

  datatype QueueState = QueueState(
    queue: seq<FileId>,
    running: map<FileId, Time>,
    maxConcurrent: int,
    jobs: multiset<FileId>,
    deferred: nat)

  /** The ceiling used when `MAX_CONCURRENT_ANALYSIS` is absent, unparsable or 0. */
  const DefaultMaxConcurrent := 3

  /** `parseInt(process.env.MAX_CONCURRENT_ANALYSIS) || 3`: NaN and 0 are falsy. */
  function MaxConcurrentFrom(env: Option<string>): (m: int)
    ensures m != 0
    ensures env.Some? && ParseInt(env.value).Some? && ParseInt(env.value).value != 0 ==> m == ParseInt(env.value).value
    ensures env.None? || ParseInt(env.value) in {None, Some(0)} ==> m == DefaultMaxConcurrent
  {
    match env
    case None => DefaultMaxConcurrent
    case Some(text) =>
      match ParseInt(text)
      case None => DefaultMaxConcurrent
      case Some(n) => if n == 0 then DefaultMaxConcurrent else n
  }

  /** Any non-zero ceiling written in decimal is taken as it is. */
  lemma MaxConcurrentRoundTrip(n: int)
    requires n != 0
    ensures MaxConcurrentFrom(Some(IntToDecimal(n))) == n
  {
    ParseIntToDecimal(n);
  }

  /** The constructor's state. */
  function Initial(env: Option<string>): QueueState {
    QueueState([], map[], MaxConcurrentFrom(env), multiset{}, 0)
  }

  // ---------------------------------------------------------------- steps

  /** `process` admits a job only when fewer than `maxConcurrent` ids are running and one is waiting. */
  predicate CanAdmit(s: QueueState) {
    |s.running| < s.maxConcurrent && |s.queue| > 0
  }

  /**
   * One call of `process`: when it can admit, the head of the queue is shifted
   * off, entered in the running map with the current time (overwriting the
   * entry if the id is already running) and its `analyzeFile` call starts.
   */
  function ProcessStep(s: QueueState, now: Time): (r: QueueState)
    ensures !CanAdmit(s) ==> r == s
    ensures CanAdmit(s) ==>
              && s.queue == [s.queue[0]] + r.queue
              && r.running.Keys == s.running.Keys + {s.queue[0]}
              && r.running[s.queue[0]] == now
              && (forall id :: id in s.running && id != s.queue[0] ==> r.running[id] == s.running[id])
              && r.jobs == s.jobs + multiset{s.queue[0]}
    ensures r.maxConcurrent == s.maxConcurrent && r.deferred == s.deferred
  {
    if |s.running| >= s.maxConcurrent || |s.queue| == 0 then s
    else
      var id := s.queue[0];
      s.(queue := s.queue[1..], running := s.running[id := now], jobs := s.jobs + multiset{id})
  }

  /** `add`: push the id, then one admission attempt. Nothing guards against duplicates. */
  function AddStep(s: QueueState, id: FileId, now: Time): (r: QueueState)
    ensures id in r.running || (|r.queue| > 0 && r.queue[|r.queue| - 1] == id)
    ensures |r.queue| + |r.jobs| == |s.queue| + |s.jobs| + 1
    ensures r.maxConcurrent == s.maxConcurrent && r.deferred == s.deferred
  {
    ProcessStep(s.(queue := s.queue + [id]), now)
  }

  /**
   * The `finally` block of `process`: whether `analyzeFile` resolved or threw,
   * the id leaves the running map and one more `process` call is scheduled.
   */
  function SettleStep(s: QueueState, id: FileId): (r: QueueState)
    requires id in s.jobs
    ensures r.running.Keys == s.running.Keys - {id}
    ensures forall k :: k in r.running ==> r.running[k] == s.running[k]
    ensures r.jobs + multiset{id} == s.jobs
    ensures r.deferred == s.deferred + 1
    ensures r.queue == s.queue && r.maxConcurrent == s.maxConcurrent
  {
    s.(running := s.running - {id}, jobs := s.jobs - multiset{id}, deferred := s.deferred + 1)
  }

  /** A scheduled `setImmediate` callback runs: one more admission attempt. */
  function WakeStep(s: QueueState, now: Time): (r: QueueState)
    requires s.deferred > 0
    ensures r.deferred == s.deferred - 1 && r.maxConcurrent == s.maxConcurrent
    ensures CanAdmit(s) ==> r.queue == s.queue[1..] && r.running.Keys == s.running.Keys + {s.queue[0]}
    ensures !CanAdmit(s) ==> r.queue == s.queue && r.running == s.running && r.jobs == s.jobs
  {
    ProcessStep(s.(deferred := s.deferred - 1), now)
  }

  /** `indexOf`: the position of the first occurrence of `x`, or -1. */
  function IndexOf(q: seq<FileId>, x: FileId): (i: int)
    ensures -1 <= i < |q|
    ensures i == -1 <==> x !in q
    ensures i >= 0 ==> q[i] == x && x !in q[..i]
  {
    if |q| == 0 then -1
    else if q[0] == x then 0
    else
      var j := IndexOf(q[1..], x);
      if j == -1 then -1
      else
        assert q[1..][..j] == q[1..j + 1];
        assert q[..j + 1] == [q[0]] + q[1..j + 1];
        j + 1
  }

  /** Any first occurrence is the one `indexOf` finds. */
  lemma IndexOfIsFirst(q: seq<FileId>, x: FileId, i: int)
    requires 0 <= i < |q| && q[i] == x && x !in q[..i]
    ensures IndexOf(q, x) == i
  {
  }

  /**
   * `cancelAnalysis`: a queued id loses its first occurrence in the queue and
   * the answer is true; a running or unknown id is refused and nothing changes.
   */
  function CancelStep(s: QueueState, id: FileId): (res: (bool, QueueState))
    ensures res.0 <==> id in s.queue
    ensures !res.0 ==> res.1 == s
    ensures res.0 ==>
              && res.1 == s.(queue := res.1.queue)
              && multiset(res.1.queue) == multiset(s.queue) - multiset{id}
              && exists i :: 0 <= i <= |res.1.queue| && s.queue == res.1.queue[..i] + [id] + res.1.queue[i..]
                             && id !in res.1.queue[..i]
  {
    var i := IndexOf(s.queue, id);
    if i > -1 then
      var q := s.queue[..i] + s.queue[i + 1..];
      assert q[..i] == s.queue[..i] && q[i..] == s.queue[i + 1..];
      assert s.queue == s.queue[..i] + [id] + s.queue[i + 1..];
      (true, s.(queue := q))
    else (false, s)
  }

  // ---------------------------------------------------------------- traces

  /** The events that drive the queue. */
  datatype Event =
    | Add(id: FileId, now: Time)
    | Process(now: Time)
    | Settle(id: FileId)
    | Wake(now: Time)
    | Cancel(id: FileId)

  /** Only an analysis in flight can settle, and only a scheduled callback can run. */
  predicate Enabled(s: QueueState, e: Event) {
    match e
    case Settle(id) => id in s.jobs
    case Wake(_) => s.deferred > 0
    case _ => true
  }

  function Step(s: QueueState, e: Event): QueueState
    requires Enabled(s, e)
  {
    match e
    case Add(id, now) => AddStep(s, id, now)
    case Process(now) => ProcessStep(s, now)
    case Settle(id) => SettleStep(s, id)
    case Wake(now) => WakeStep(s, now)
    case Cancel(id) => CancelStep(s, id).1
  }

  predicate ValidTrace(s: QueueState, es: seq<Event>)
    decreases |es|
  {
    |es| == 0 || (Enabled(s, es[0]) && ValidTrace(Step(s, es[0]), es[1..]))
  }

  function Run(s: QueueState, es: seq<Event>): QueueState
    requires ValidTrace(s, es)
    decreases |es|
  {
    if |es| == 0 then s else Run(Step(s, es[0]), es[1..])
  }

  // ---------------------------------------------------------------- the ceiling

  /** At most `maxConcurrent` ids are running (none when the ceiling is not positive). */
  predicate WithinCeiling(s: QueueState) {
    |s.running| <= Max(s.maxConcurrent, 0)
  }

  lemma StepKeepsCeiling(s: QueueState, e: Event)
    requires WithinCeiling(s) && Enabled(s, e)
    ensures WithinCeiling(Step(s, e))
  {
    match e
    case Settle(id) =>
      assert Step(s, e).running.Keys <= s.running.Keys;
      assert |Step(s, e).running.Keys| <= |s.running.Keys| by {
        SubsetCard(Step(s, e).running.Keys, s.running.Keys);
      }
    case _ =>
  }

  lemma SubsetCard(a: set<FileId>, b: set<FileId>)
    requires a <= b
    ensures |a| <= |b|
  {
    assert b == a + (b - a);
  }

  /** Whatever the interleaving of events, the running map never exceeds the ceiling. */
  lemma {:induction false} CeilingHoldsOnEveryTrace(s: QueueState, es: seq<Event>)
    requires WithinCeiling(s) && ValidTrace(s, es)
    ensures WithinCeiling(Run(s, es))
    decreases |es|
  {
    if |es| > 0 {
      StepKeepsCeiling(s, es[0]);
      CeilingHoldsOnEveryTrace(Step(s, es[0]), es[1..]);
    }
  }

  lemma InitialWithinCeiling(env: Option<string>)
    ensures WithinCeiling(Initial(env)) && Initial(env).maxConcurrent != 0
  {
  }

  // ---------------------------------------------------------------- draining

  /** `add` for each id in turn, all at the same time. */
  function AddAll(s: QueueState, ids: seq<FileId>, now: Time): QueueState {
    if |ids| == 0 then s else AddStep(AddAll(s, ids[..|ids| - 1], now), ids[|ids| - 1], now)
  }

  predicate Distinct(ids: seq<FileId>) {
    forall i, j :: 0 <= i < j < |ids| ==> ids[i] != ids[j]
  }

  /**
   * Enqueuing N different files into an idle queue with ceiling K >= 0 and
   * no completion in between runs the first min(N, K) and leaves the rest
   * waiting in order.
   */
  lemma {:induction false} AddAllFillsCeiling(s: QueueState, ids: seq<FileId>, now: Time)
    requires s.queue == [] && s.running == map[] && s.maxConcurrent >= 0
    requires Distinct(ids)
    ensures Filled(AddAll(s, ids, now), ids, s.maxConcurrent)
  {
    if |ids| > 0 {
      var n := |ids|;
      var init := ids[..n - 1];
      assert Distinct(init);
      AddAllFillsCeiling(s, init, now);
      var p := AddAll(s, init, now);
      FillStep(p, ids, now);
    }
  }

  /** After the ids were added with ceiling `m`, the first min(N, m) run and the rest wait in order. */
  predicate Filled(r: QueueState, ids: seq<FileId>, m: int)
    requires m >= 0
  {
    var k := Min(|ids|, m);
    && r.queue == ids[k..]
    && r.running.Keys == Elems(ids[..k])
    && |r.running| == k
    && r.maxConcurrent == m
  }

  lemma FillStep(p: QueueState, ids: seq<FileId>, now: Time)
    requires |ids| > 0 && Distinct(ids) && p.maxConcurrent >= 0
    requires Filled(p, ids[..|ids| - 1], p.maxConcurrent)
    ensures Filled(AddStep(p, ids[|ids| - 1], now), ids, p.maxConcurrent)
  {
    if |ids| - 1 < p.maxConcurrent {
      FillIdleStep(p, ids, now);
    } else {
      FillFullStep(p, ids, now);
    }
  }

  lemma FillIdleStep(p: QueueState, ids: seq<FileId>, now: Time)
    requires |ids| > 0 && Distinct(ids) && |ids| - 1 < p.maxConcurrent
    requires Filled(p, ids[..|ids| - 1], p.maxConcurrent)
    ensures Filled(AddStep(p, ids[|ids| - 1], now), ids, p.maxConcurrent)
  {
    var n := |ids|;
    assert ids[n - 1] !in ids[..n - 1];
    assert p.queue == [] && p.running.Keys == Elems(ids[..n - 1]) && |p.running| == n - 1 by {
      assert ids[..n - 1][..n - 1] == ids[..n - 1];
    }
    FillIdle(p, ids[..n - 1], ids[n - 1], now);
    assert ids[..n - 1] + [ids[n - 1]] == ids;
    assert ids[..n] == ids;
  }

  lemma FillFullStep(p: QueueState, ids: seq<FileId>, now: Time)
    requires |ids| > 0 && 0 <= p.maxConcurrent <= |ids| - 1
    requires Filled(p, ids[..|ids| - 1], p.maxConcurrent)
    ensures Filled(AddStep(p, ids[|ids| - 1], now), ids, p.maxConcurrent)
  {
    var n := |ids|;
    var init := ids[..n - 1];
    var k := p.maxConcurrent;
    assert init[k..] == ids[k..n - 1] && init[..k] == ids[..k];
    FillFull(p, ids, now);
  }

  /** One more new id while there is room: it is admitted at once. */
  lemma FillIdle(p: QueueState, init: seq<FileId>, x: FileId, now: Time)
    requires x !in init && |init| < p.maxConcurrent
    requires p.queue == [] && p.running.Keys == Elems(init) && |p.running| == |init|
    ensures var r := AddStep(p, x, now);
            && r.queue == [] && r.running.Keys == Elems(init + [x]) && |r.running| == |init| + 1
            && r.maxConcurrent == p.maxConcurrent
  {
    ElemsMember(init, x);
    AddToIdle(p, x, now);
    ElemsSnoc(init, x);
  }

  /** One more id when the ceiling is reached: it waits at the tail. */
  lemma FillFull(p: QueueState, ids: seq<FileId>, now: Time)
    requires 0 <= p.maxConcurrent <= |ids| - 1
    requires p.queue == ids[p.maxConcurrent..|ids| - 1] && |p.running| == p.maxConcurrent
    ensures var r := AddStep(p, ids[|ids| - 1], now);
            r.queue == ids[p.maxConcurrent..] && r.running == p.running && r.maxConcurrent == p.maxConcurrent
  {
    AddToFull(p, ids[|ids| - 1], now);
    assert ids[p.maxConcurrent..|ids| - 1] + [ids[|ids| - 1]] == ids[p.maxConcurrent..];
  }

  /** The ids of a sequence, collected from the end. */
  function Elems(q: seq<FileId>): set<FileId> {
    if |q| == 0 then {} else Elems(q[..|q| - 1]) + {q[|q| - 1]}
  }

  lemma {:induction false} ElemsMember(q: seq<FileId>, x: FileId)
    ensures x in Elems(q) <==> x in q
  {
    if |q| > 0 {
      ElemsMember(q[..|q| - 1], x);
      assert q == q[..|q| - 1] + [q[|q| - 1]];
    }
  }

  lemma ElemsSnoc(q: seq<FileId>, x: FileId)
    ensures Elems(q + [x]) == Elems(q) + {x}
  {
    assert (q + [x])[..|q|] == q;
  }

  lemma AddToIdle(p: QueueState, x: FileId, now: Time)
    requires p.queue == [] && |p.running| < p.maxConcurrent && x !in p.running
    ensures AddStep(p, x, now).queue == []
    ensures AddStep(p, x, now).running.Keys == p.running.Keys + {x}
    ensures |AddStep(p, x, now).running| == |p.running| + 1
  {
  }

  lemma AddToFull(p: QueueState, x: FileId, now: Time)
    requires |p.running| >= p.maxConcurrent
    ensures AddStep(p, x, now).queue == p.queue + [x]
    ensures AddStep(p, x, now).running == p.running
  {
  }

  /**
   * A negative ceiling (`parseInt` keeps `-1`, which is truthy) admits
   * nothing: every added id waits, in order, and nothing runs.
   */
  lemma {:induction false} AddAllNegativeCeiling(s: QueueState, ids: seq<FileId>, now: Time)
    requires s.running == map[] && s.maxConcurrent < 0
    ensures AddAll(s, ids, now).queue == s.queue + ids
    ensures AddAll(s, ids, now).running == map[]
    ensures AddAll(s, ids, now).maxConcurrent == s.maxConcurrent
  {
    if |ids| > 0 {
      var init := ids[..|ids| - 1];
      AddAllNegativeCeiling(s, init, now);
      AddToFull(AddAll(s, init, now), ids[|ids| - 1], now);
      assert s.queue + init + [ids[|ids| - 1]] == s.queue + ids;
    }
  }

  /**
   * A settling job frees its slot and the callback it schedules admits the
   * next waiting file: the queue keeps draining after a success and after a
   * failure alike.
   */
  lemma SettleThenWakeAdmitsNext(s: QueueState, id: FileId, now: Time)
    requires id in s.jobs && id in s.running
    requires |s.running| <= s.maxConcurrent && |s.queue| > 0
    ensures var r := WakeStep(SettleStep(s, id), now);
            && r.queue == s.queue[1..]
            && s.queue[0] in r.running && r.running[s.queue[0]] == now
            && r.deferred == s.deferred
  {
    var t := SettleStep(s, id);
    assert |t.running.Keys| == |s.running.Keys| - 1 by {
      assert s.running.Keys == t.running.Keys + {id};
    }
  }

  /**
   * Ceiling 2, three different files a, b and c enqueued in that order: a
   * and b run and c waits; when a settles and its callback runs, b and c
   * run and nothing waits.
   */
  lemma TwoSlotScenario(a: FileId, b: FileId, c: FileId, now: Time, later: Time)
    requires a != b && b != c && a != c
    ensures var s0 := QueueState([], map[], 2, multiset{}, 0);
            var s1 := AddStep(AddStep(AddStep(s0, a, now), b, now), c, now);
            var s2 := WakeStep(SettleStep(s1, a), later);
            && s1.running.Keys == {a, b} && s1.queue == [c]
            && s2.running.Keys == {b, c} && s2.queue == []
  {
    var s0 := QueueState([], map[], 2, multiset{}, 0);
    AddToIdle(s0, a, now);
    var p := AddStep(s0, a, now);
    assert p.running.Keys == {a} && p.jobs == multiset{a};
    AddToIdle(p, b, now);
    var q := AddStep(p, b, now);
    assert q.running.Keys == {a, b};
    AddToFull(q, c, now);
    var r := AddStep(q, c, now);
    SettleThenWakeAdmitsNext(r, a, later);
    assert SettleStep(r, a).running.Keys == {b};
  }

  // ---------------------------------------------------------------- duplicate enqueues

  /**
   * As written, `add` does not check whether the id is already queued or
   * running. With ceiling 2, adding A, A and B starts three analyses at once:
   * the second admission of A overwrites A's running entry, so the map still
   * holds two ids while three `analyzeFile` calls are in flight.
   */
  lemma DuplicateAddOverrunsCeiling(now: Time)
    ensures var s0 := QueueState([], map[], 2, multiset{}, 0);
            var s := AddStep(AddStep(AddStep(s0, "A", now), "A", now), "B", now);
            && WithinCeiling(s)
            && |s.jobs| == 3 > s.maxConcurrent
  {
    var s0 := QueueState([], map[], 2, multiset{}, 0);
    var a := AddStep(s0, "A", now);
    assert a.running.Keys == {"A"};
    var aa := AddStep(a, "A", now);
    assert aa.running.Keys == {"A"} && |aa.running| == 1;
    var s := AddStep(aa, "B", now);
    assert s.running.Keys == {"A", "B"};
  }

  /** `add` guarded against ids that are already queued or running. */
  function AddIfAbsentStep(s: QueueState, id: FileId, now: Time): (r: QueueState)
    ensures id in s.queue || id in s.running ==> r == s
    ensures id !in s.queue && id !in s.running ==> r == AddStep(s, id, now)
  {
    if id in s.queue || id in s.running then s else AddStep(s, id, now)
  }

  function GuardedStep(s: QueueState, e: Event): QueueState
    requires Enabled(s, e)
  {
    match e
    case Add(id, now) => AddIfAbsentStep(s, id, now)
    case _ => Step(s, e)
  }

  predicate GuardedTrace(s: QueueState, es: seq<Event>)
    decreases |es|
  {
    |es| == 0 || (Enabled(s, es[0]) && GuardedTrace(GuardedStep(s, es[0]), es[1..]))
  }

  function GuardedRun(s: QueueState, es: seq<Event>): QueueState
    requires GuardedTrace(s, es)
    decreases |es|
  {
    if |es| == 0 then s else GuardedRun(GuardedStep(s, es[0]), es[1..])
  }

  /**
   * Every file id is in at most one place: the queue holds no duplicates and
   * no running id, and the analyses in flight are exactly the running ids.
   */
  predicate Exclusive(s: QueueState) {
    && Distinct(s.queue)
    && (forall i :: 0 <= i < |s.queue| ==> s.queue[i] !in s.running)
    && s.jobs == multiset(s.running.Keys)
  }

  lemma ProcessKeepsExclusive(s: QueueState, now: Time)
    requires Exclusive(s)
    ensures Exclusive(ProcessStep(s, now))
  {
    if CanAdmit(s) {
      var r := ProcessStep(s, now);
      var h := s.queue[0];
      assert r.queue == s.queue[1..];
      forall i | 0 <= i < |r.queue| ensures r.queue[i] !in r.running {
        assert r.queue[i] == s.queue[i + 1];
      }
      assert multiset(r.running.Keys) == multiset(s.running.Keys) + multiset{h};
    }
  }

  lemma SettleKeepsExclusive(s: QueueState, id: FileId)
    requires Exclusive(s) && id in s.jobs
    ensures Exclusive(SettleStep(s, id))
  {
    var r := SettleStep(s, id);
    assert id in s.running.Keys;
    assert s.running.Keys == r.running.Keys + {id};
    assert id !in r.running.Keys;
    assert multiset(s.running.Keys) == multiset(r.running.Keys) + multiset{id};
  }

  lemma CancelKeepsExclusive(s: QueueState, id: FileId)
    requires Exclusive(s)
    ensures Exclusive(CancelStep(s, id).1)
  {
    var i := IndexOf(s.queue, id);
    if i > -1 {
      RemovalKeepsExclusive(s, i);
    }
  }

  /** Dropping one queued entry keeps every id in at most one place. */
  lemma RemovalKeepsExclusive(s: QueueState, i: int)
    requires Exclusive(s) && 0 <= i < |s.queue|
    ensures Exclusive(s.(queue := s.queue[..i] + s.queue[i + 1..]))
  {
    var q := s.queue[..i] + s.queue[i + 1..];
    RemovalShifts(s.queue, i);
    forall a, b | 0 <= a < b < |q| ensures q[a] != q[b] {
      var a' := if a < i then a else a + 1;
      var b' := if b < i then b else b + 1;
      assert q[a] == s.queue[a'] && q[b] == s.queue[b'];
    }
    forall k | 0 <= k < |q| ensures q[k] !in s.running {
      assert q[k] == s.queue[if k < i then k else k + 1];
    }
  }

  lemma RemovalShifts(q: seq<FileId>, i: int)
    requires 0 <= i < |q|
    ensures var r := q[..i] + q[i + 1..];
            |r| == |q| - 1 && forall k :: 0 <= k < |r| ==> r[k] == q[if k < i then k else k + 1]
  {
  }

  lemma GuardedAddKeepsExclusive(s: QueueState, id: FileId, now: Time)
    requires Exclusive(s)
    ensures Exclusive(AddIfAbsentStep(s, id, now))
  {
    if id !in s.queue && id !in s.running {
      var t := s.(queue := s.queue + [id]);
      assert Exclusive(t);
      ProcessKeepsExclusive(t, now);
    }
  }

  lemma GuardedStepKeepsExclusive(s: QueueState, e: Event)
    requires Exclusive(s) && Enabled(s, e)
    ensures Exclusive(GuardedStep(s, e))
  {
    match e
    case Add(id, now) => GuardedAddKeepsExclusive(s, id, now);
    case Process(now) => ProcessKeepsExclusive(s, now);
    case Settle(id) => SettleKeepsExclusive(s, id);
    case Wake(now) => ProcessKeepsExclusive(s.(deferred := s.deferred - 1), now);
    case Cancel(id) => CancelKeepsExclusive(s, id);
  }

  /**
   * With the guard, the number of analyses in flight never exceeds the
   * ceiling on any interleaving: the property the duplicate case breaks.
   */
  lemma {:induction false} GuardedTraceBoundsJobs(s: QueueState, es: seq<Event>)
    requires Exclusive(s) && WithinCeiling(s) && GuardedTrace(s, es)
    ensures var r := GuardedRun(s, es);
            Exclusive(r) && WithinCeiling(r) && |r.jobs| <= Max(r.maxConcurrent, 0)
            && r.maxConcurrent == s.maxConcurrent
    decreases |es|
  {
    if |es| == 0 {
      assert |multiset(s.running.Keys)| == |s.running.Keys|;
    } else {
      var e := es[0];
      GuardedStepKeepsExclusive(s, e);
      if !e.Add? || (e.id !in s.queue && e.id !in s.running) {
        StepKeepsCeiling(s, e);
      }
      GuardedTraceBoundsJobs(GuardedStep(s, e), es[1..]);
    }
  }

  /** A new queue satisfies the invariant, so the guarded bound holds from construction on. */
  lemma GuardedBoundFromStart(env: Option<string>, es: seq<Event>)
    requires GuardedTrace(Initial(env), es)
    ensures |GuardedRun(Initial(env), es).jobs| <= Max(Initial(env).maxConcurrent, 0)
  {
    var s := Initial(env);
    assert Exclusive(s);
    InitialWithinCeiling(env);
    GuardedTraceBoundsJobs(s, es);
  }
}
