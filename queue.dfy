/**
 * The disk-backed job queue engine: options, message creation, and the
 * `Queue` class with its private file operations, `emit`, the poll step of
 * `on`, `dead`, `reset` and `stop`.
 */
module JobQueue {
  import opened Values
  import opened Store

  // ---------------------------------------------------------------------
  // Options
  // ---------------------------------------------------------------------

  /** The three engine options the code reads. */
  datatype Options = Options(pollInterval: int, taskTimeout: int, maxAttempts: int)

  /** An options object: each key may be absent. */
  datatype Overrides = Overrides(pollInterval: Option<int>, taskTimeout: Option<int>, maxAttempts: Option<int>)

  /** `defaults`. */
  const Defaults := Options(200, 10000, 4)

  const NoOverrides := Overrides(None, None, None)

  function Pick(over: Option<int>, base: int): int {
    if over.Some? then over.value else base
  }

  /** `Object.assign({}, base, over)`: a key present in `over` wins. */
  function Assign(base: Options, over: Overrides): (o: Options)
    ensures over.pollInterval.Some? ==> o.pollInterval == over.pollInterval.value
    ensures over.pollInterval.None? ==> o.pollInterval == base.pollInterval
    ensures over.taskTimeout.Some? ==> o.taskTimeout == over.taskTimeout.value
    ensures over.taskTimeout.None? ==> o.taskTimeout == base.taskTimeout
    ensures over.maxAttempts.Some? ==> o.maxAttempts == over.maxAttempts.value
    ensures over.maxAttempts.None? ==> o.maxAttempts == base.maxAttempts
    ensures over == NoOverrides ==> o == base
  {
    Options(Pick(over.pollInterval, base.pollInterval),
            Pick(over.taskTimeout, base.taskTimeout),
            Pick(over.maxAttempts, base.maxAttempts))
  }

  /**
   * The three-level merge of `emit`: a per-call key beats a constructor key,
   * which beats the default.
   */
  lemma ThreeLevels(ctor: Overrides, call: Overrides)
    ensures Assign(Assign(Defaults, ctor), call).taskTimeout
         == Pick(call.taskTimeout, Pick(ctor.taskTimeout, 10000))
    ensures Assign(Assign(Defaults, ctor), call).maxAttempts
         == Pick(call.maxAttempts, Pick(ctor.maxAttempts, 4))
    ensures Assign(Assign(Defaults, ctor), call).pollInterval
         == Pick(call.pollInterval, Pick(ctor.pollInterval, 200))
  {
  }

  /** `createMessage`: a new job with no attempts; `id` and `now` stand for `uuid()` and the clock. */
  function CreateMessage(id: JobId, data: Json, now: nat, opts: Options): (m: Message)
    ensures m.id == id && m.data == data && m.createdAt == now && m.attempts == []
    ensures m.taskTimeout == opts.taskTimeout && m.maxAttempts == opts.maxAttempts
  {
    Message(id, data, now, [], opts.taskTimeout, opts.maxAttempts)
  }

  // ---------------------------------------------------------------------
  // Handler settlement
  // ---------------------------------------------------------------------

  /**
   * How one handler invocation went: its value or error, and how many ms
   * passed between the start of the timer and its settlement, or it never
   * settled. The timer is created after `fn(message)` has returned, so
   * time the handler spends blocking synchronously does not count.
   */
  datatype HandlerRun =
    | Returns(result: Json, after: nat)
    | Throws(error: ErrorRecord, after: nat)
    | Hangs

  /** What the poll step records for an attempt. */
  datatype Outcome =
    | Succeeded(result: Json)
    | Errored(error: ErrorRecord)
    | TimedOut(stack: string)

  /**
   * The settlement of the attempt's promise AS WRITTEN: the timer's
   * `reject` is that of the timer's own promise, which shadows the outer
   * one, so the outer promise follows the handler alone, however late,
   * and never settles for a handler that never settles.
   */
  function RaceAsWritten(run: HandlerRun): (o: Option<Outcome>)
    ensures o.None? <==> run.Hangs?
    ensures run.Returns? ==> o == Some(Succeeded(run.result))
    ensures run.Throws? ==> o == Some(Errored(run.error))
  {
    match run
    case Returns(r, _) => Some(Succeeded(r))
    case Throws(e, _) => Some(Errored(e))
    case Hangs => None
  }

  /**
   * The settlement as intended, used by `Queue.SettleIntended`: the handler
   * races a timer of `taskTimeout` ms and the timer wins against a handler
   * that has not settled by then.
   */
  function Race(run: HandlerRun, taskTimeout: int, stack: string): (o: Outcome)
    ensures o.TimedOut? <==> run.Hangs? || run.after >= TimerDelay(taskTimeout)
    ensures !o.TimedOut? ==> Some(o) == RaceAsWritten(run)
  {
    if run.Hangs? || run.after >= TimerDelay(taskTimeout) then TimedOut(stack)
    else if run.Returns? then Succeeded(run.result)
    else Errored(run.error)
  }

  /** A handler that returns after the task timeout has run out. */
  const LateRun := Returns(JObj(map["ok" := JBool(true)]), 10000)

  /** As written, a handler slower than the default 10000 ms timeout is recorded as a success. */
  lemma LateHandlerSucceedsAsWritten(stack: string)
    ensures Defaults.taskTimeout == 10000
    ensures RaceAsWritten(LateRun) == Some(Succeeded(JObj(map["ok" := JBool(true)])))
    ensures Race(LateRun, Defaults.taskTimeout, stack) == TimedOut(stack)
  {
  }

  /** As written, a handler that never settles never settles the attempt either. */
  lemma HangingHandlerNeverSettlesAsWritten(stack: string)
    ensures RaceAsWritten(Hangs).None?
    ensures Race(Hangs, Defaults.taskTimeout, stack) == TimedOut(stack)
  {
  }

  /** The `null`-status attempt a claim creates. */
  function NewAttempt(id: nat, now: nat): (a: Attempt)
    ensures a.id == id && a.createdAt == now && a.status == Unset
    ensures a.processedAt.None? && a.error.None? && a.result == JNull
  {
    Attempt(id, now, None, Unset, None, JNull)
  }

  /** The error an outcome records: the handler's, or an Error whose message is "timeout". */
  function ErrorOf(o: Outcome): (e: ErrorRecord)
    requires !o.Succeeded?
    ensures o.Errored? ==> e == o.error
    ensures o.TimedOut? ==> e.message == "timeout" && e.name == "Error" && e.stack == o.stack
  {
    if o.Errored? then o.error else ErrorRecord("Error", "timeout", o.stack)
  }

  /** The `.catch` handler's mutation of the attempt. */
  function Failed(a: Attempt, e: ErrorRecord, now: nat): (r: Attempt)
    ensures r.status == Failure && r.error == Some(e) && r.processedAt == Some(now)
    ensures r.id == a.id && r.createdAt == a.createdAt && r.result == a.result
  {
    a.(error := Some(e), processedAt := Some(now), status := Failure)
  }

  /** The settled attempt appended to the job's attempts. */
  function Final(job: Message, a: Attempt, o: Outcome, now: nat): (m: Message)
    ensures m.id == job.id && m.data == job.data && m.createdAt == job.createdAt
    ensures m.taskTimeout == job.taskTimeout && m.maxAttempts == job.maxAttempts
    ensures |m.attempts| == |job.attempts| + 1 && m.attempts[..|job.attempts|] == job.attempts
    ensures var last := m.attempts[|job.attempts|];
            last.id == a.id && last.createdAt == a.createdAt && last.processedAt == Some(now) &&
            (o.Succeeded? ==> last.status == Success && last.result == o.result && last.error == a.error) &&
            (o.Errored? ==> last.status == Failure && last.error == Some(o.error) && last.result == a.result) &&
            (o.TimedOut? ==> last.status == Failure && last.error.Some? && last.error.value.message == "timeout")
  {
    var settled := if o.Succeeded? then a.(result := o.result, processedAt := Some(now), status := Success)
                   else Failed(a, ErrorOf(o), now);
    job.(attempts := job.attempts + [settled])
  }

  /** The dead-letter rule: the engine-wide budget, not the job's own `maxAttempts`. */
  function Route(numAttempts: int, maxAttempts: int): (s: Stage)
    ensures s == Dead <==> numAttempts >= maxAttempts
    ensures s == Queued <==> numAttempts < maxAttempts
  {
    if numAttempts >= maxAttempts then Dead else Queued
  }

  /** The stage a settled job is written into. */
  function Destination(o: Outcome, numAttempts: int, maxAttempts: int): (s: Stage)
    ensures s != InProgress
    ensures o.Succeeded? <==> s == Done
    ensures s == Queued ==> numAttempts < maxAttempts
  {
    if o.Succeeded? then Done else Route(numAttempts, maxAttempts)
  }

  /** The serialised ENOENT error of unlinking a missing in-progress file. */
  function UnlinkError(stack: string): ErrorRecord {
    ErrorRecord("Error", "ENOENT: no such file or directory, unlink", stack)
  }

  /** Where a settlement leaves the files, how many clock ticks it takes, whether listeners run, and the last record written. */
  datatype Settlement = Settlement(fs: Fs, ticks: nat, notified: bool, record: Message)

  /**
   * The `.then`/`.catch` handlers of one attempt of `job` in topic `t`:
   * write the settled record, then unlink the `inprogress` file. When that
   * file is gone, `_delete` throws; after a success the `.catch` handler
   * then runs with that error, mutating the attempt object already pushed
   * and pushing it once more.
   */
  function Settled(fs: Fs, t: Topic, job: Message, a: Attempt, o: Outcome, now: nat, maxAttempts: int,
                   stack: string): (r: Settlement)
    ensures r.notified ==> !o.Succeeded? && |job.attempts| + 1 >= maxAttempts
    ensures r.record.id == job.id && r.record.data == job.data && |r.record.attempts| > |job.attempts|
    ensures Path(t, InProgress, job.id) !in r.fs
  {
    var m := Final(job, a, o, now);
    var dest := Destination(o, |m.attempts|, maxAttempts);
    var p := Put(fs, t, dest, m, now + 1);
    var u := Unlink(p, t, InProgress, job.id);
    if u.Some? then Settlement(u.value, 2, dest == Dead, m)
    else if !o.Succeeded? then Settlement(p, 2, false, m)
    else
      var again := Failed(m.attempts[|job.attempts|], UnlinkError(stack), now + 2);
      var twice := job.(attempts := job.attempts + [again, again]);
      Settlement(Put(p, t, Route(|twice.attempts|, maxAttempts), twice, now + 3), 4, false, twice)
  }

  /**
   * A settlement of a job still in `inprogress` moves it to `done` on
   * success, to `dead` once the engine-wide budget is spent, and back to
   * `queued` otherwise, carrying the settled attempt; listeners run exactly
   * when it went to `dead`; no topic gains or loses a job.
   */
  lemma {:induction false} SettledClaimed(fs: Fs, t: Topic, job: Message, a: Attempt, o: Outcome, now: nat,
                                          maxAttempts: int, stack: string)
    requires Path(t, InProgress, job.id) in fs
    ensures var r := Settled(fs, t, job, a, o, now, maxAttempts, stack);
            var m := Final(job, a, o, now);
            var dest := Destination(o, |m.attempts|, maxAttempts);
            r.ticks == 2 && r.record == m &&
            r.fs == Moved(fs, t, InProgress, dest, job.id, Entry(m, now + 1)) &&
            (dest == Done <==> o.Succeeded?) &&
            (dest == Dead <==> !o.Succeeded? && |job.attempts| + 1 >= maxAttempts) &&
            (r.notified <==> dest == Dead) &&
            (forall u, k :: Holds(r.fs, u, k) <==> Holds(fs, u, k))
  {
    var m := Final(job, a, o, now);
    var dest := Destination(o, |m.attempts|, maxAttempts);
    PutThenUnlink(fs, t, InProgress, dest, m, now + 1);
    MovedHolds(fs, t, InProgress, dest, job.id, Entry(m, now + 1));
  }

  /**
   * A settlement of a job whose `inprogress` file is gone calls no listener.
   * A failure is written into `dead` or `queued` and nothing else changes; a
   * success is written into `done` and then, with the same attempt pushed a
   * second time as a failure, into `dead` or `queued` as well.
   */
  lemma {:induction false} SettledOrphan(fs: Fs, t: Topic, job: Message, a: Attempt, o: Outcome, now: nat,
                                         maxAttempts: int, stack: string)
    requires Path(t, InProgress, job.id) !in fs
    ensures var r := Settled(fs, t, job, a, o, now, maxAttempts, stack);
            var m := Final(job, a, o, now);
            !r.notified &&
            (!o.Succeeded? ==> r.ticks == 2 && r.fs == Put(fs, t, Route(|m.attempts|, maxAttempts), m, now + 1)) &&
            (o.Succeeded? ==>
               r.ticks == 4 && |r.record.attempts| == |job.attempts| + 2 &&
               r.record.attempts[|job.attempts|] == r.record.attempts[|job.attempts| + 1] &&
               r.record.attempts[|job.attempts|].status == Failure &&
               Load(r.fs, t, Done, job.id) == Some(m) &&
               Load(r.fs, t, Route(|job.attempts| + 2, maxAttempts), job.id) == Some(r.record) &&
               Load(r.fs, t, InProgress, job.id).None?)
  {
    var m := Final(job, a, o, now);
    var dest := Destination(o, |m.attempts|, maxAttempts);
    var p := Put(fs, t, dest, m, now + 1);
    assert Path(t, InProgress, job.id) !in p;
  }

  /**
   * A failed job that goes back to `queued` gets an mtime later than every
   * other queued job of its topic, so the listing puts it last.
   */
  lemma {:induction false} RequeuedLast(fs: Fs, clock: nat, nextId: nat, t: Topic, job: Message, a: Attempt, o: Outcome,
                                        maxAttempts: int, stack: string)
    requires Stamped(fs, clock, nextId) && Path(t, InProgress, job.id) in fs
    requires !o.Succeeded? && |job.attempts| + 1 < maxAttempts
    ensures var q := Dir(Settled(fs, t, job, a, o, clock, maxAttempts, stack).fs, t, Queued);
            job.id in q && forall k :: k in q && k != job.id ==> q[k].mtime < q[job.id].mtime
  {
    SettledClaimed(fs, t, job, a, o, clock, maxAttempts, stack);
  }

  // ---------------------------------------------------------------------
  // Consumer loops and dead-letter listeners
  // ---------------------------------------------------------------------

  type LoopId = nat
  type ListenerRef = nat

  /** Where one `on` loop is: waiting for its next tick, running a handler, or deregistered. */
  datatype Phase = Waiting | Running(job: Message, attempt: Attempt) | Finished

  datatype Loop = Loop(topic: Topic, phase: Phase)

  /** One call `listener(message)` of a dead-letter listener. */
  datatype Notification = Notification(listener: ListenerRef, job: Message)

  /** `this._deadListeners.forEach((listener) => listener(message))`. */
  function Notify(ls: seq<ListenerRef>, m: Message): (r: seq<Notification>)
    ensures |r| == |ls|
    ensures forall i :: 0 <= i < |ls| ==> r[i] == Notification(ls[i], m)
  {
    seq(|ls|, i requires 0 <= i < |ls| => Notification(ls[i], m))
  }

  /** `Array.prototype.indexOf`: the first position of `x`, or -1. */
  function IndexOf(s: seq<LoopId>, x: LoopId): (r: int)
    ensures -1 <= r < |s|
    ensures r == -1 <==> x !in s
    ensures r >= 0 ==> s[r] == x && x !in s[..r]
  {
    if s == [] then -1
    else if s[0] == x then 0
    else
      var k := IndexOf(s[1..], x);
      assert k >= 0 ==> s[..k + 1] == [s[0]] + s[1..][..k];
      if k < 0 then -1 else k + 1
  }

  /** `Array.prototype.splice(i, 1)`: a negative start counts from the end. */
  function Splice(s: seq<LoopId>, i: int): (r: seq<LoopId>)
    ensures 0 <= i < |s| ==> r == s[..i] + s[i + 1..]
    ensures i == -1 && s != [] ==> r == s[..|s| - 1]
    ensures i >= |s| ==> r == s
  {
    var k := if i >= 0 then i else if |s| + i >= 0 then |s| + i else 0;
    if k < |s| then s[..k] + s[k + 1..] else s
  }

  ghost predicate NoDup(s: seq<LoopId>) {
    forall i, j :: 0 <= i < j < |s| ==> s[i] != s[j]
  }

  /** `splice(indexOf(listener), 1)` on a duplicate-free list removes exactly that listener. */
  lemma {:induction false} DeregisterOwnEntry(s: seq<LoopId>, x: LoopId)
    requires x in s && NoDup(s)
    ensures var r := Splice(s, IndexOf(s, x));
            |r| == |s| - 1 && x !in r && NoDup(r) && (forall y :: y in r <==> y in s && y != x)
  {
    var k := IndexOf(s, x);
    var r := Splice(s, k);
    assert r == s[..k] + s[k + 1..];
    forall i, j | 0 <= i < j < |r| ensures r[i] != r[j] {
      var i' := if i < k then i else i + 1;
      var j' := if j < k then j else j + 1;
      assert r[i] == s[i'] && r[j] == s[j'];
    }
    forall y ensures y in r <==> y in s && y != x {
      if y in r {
        var i :| 0 <= i < |r| && r[i] == y;
        var i' := if i < k then i else i + 1;
        assert s[i'] == y && i' != k;
      }
      if y in s && y != x {
        var i :| 0 <= i < |s| && s[i] == y;
        assert i != k;
        assert r[if i < k then i else i - 1] == y;
      }
    }
  }

  /** A loop registered after every existing one deregisters to the list as it was. */
  lemma {:induction false} DeregisterNewest(s: seq<LoopId>, x: LoopId)
    requires x !in s
    ensures Splice(s + [x], IndexOf(s + [x], x)) == s
  {
    var k := IndexOf(s + [x], x);
    assert (s + [x])[|s|] == x;
    assert k == |s|;
    assert (s + [x])[..k] == s;
  }

  // ---------------------------------------------------------------------
  // Invariants over the loops
  // ---------------------------------------------------------------------

  /** The bookkeeping of `_inflight`: exactly the registered loops that have not deregistered, once each. */
  ghost predicate LoopsWellFormed(loops: map<LoopId, Loop>, inflight: seq<LoopId>, nextLoop: nat, nextId: nat) {
    (forall l :: l in loops ==> l < nextLoop) &&
    (forall i :: 0 <= i < |inflight| ==> inflight[i] in loops) &&
    NoDup(inflight) &&
    (forall l :: l in loops ==> (l in inflight <==> !loops[l].phase.Finished?)) &&
    (forall l :: l in loops && loops[l].phase.Running? ==> loops[l].phase.job.id < nextId)
  }

  /** The `inprogress` file a running loop's job was read from. */
  function ClaimPath(lp: Loop): Path
    requires lp.phase.Running?
  {
    Path(lp.topic, InProgress, lp.phase.job.id)
  }

  /** Every running handler's job is in its topic's `inprogress` stage, as it was read. */
  ghost predicate Claimed(fs: Fs, loops: map<LoopId, Loop>) {
    forall l :: l in loops && loops[l].phase.Running? ==>
      ClaimPath(loops[l]) in fs && fs[ClaimPath(loops[l])].record == loops[l].phase.job
  }

  /** No job of a topic is processed by two loops at once. */
  ghost predicate Exclusive(loops: map<LoopId, Loop>) {
    forall l1, l2 ::
      (l1 in loops && l2 in loops && loops[l1].phase.Running? && loops[l2].phase.Running? &&
       ClaimPath(loops[l1]) == ClaimPath(loops[l2])) ==> l1 == l2
  }

  /** The bookkeeping every state keeps: stamped files and well-formed loops. */
  ghost predicate Books(fs: Fs, clock: nat, nextId: nat, loops: map<LoopId, Loop>, inflight: seq<LoopId>, nextLoop: nat) {
    Stamped(fs, clock, nextId) && LoopsWellFormed(loops, inflight, nextLoop, nextId)
  }

  /** The lifecycle invariant: one stage per job, the attempt budget, exclusive claims. */
  ghost predicate Lifecycle(fs: Fs, loops: map<LoopId, Loop>, maxAttempts: int) {
    OneStage(fs) && Bounded(fs, maxAttempts) && Claimed(fs, loops) && Exclusive(loops)
  }

  /** Writing outside `inprogress` keeps every running job claimed. */
  lemma PutKeepsLoops(fs: Fs, loops: map<LoopId, Loop>, t: Topic, s: Stage, m: Message, now: nat)
    requires Claimed(fs, loops) && s != InProgress
    ensures Claimed(Put(fs, t, s, m, now), loops)
  {
  }

  /**
   * `emit` writes a job of a fresh id, with no attempts, into `queued`: the
   * topic did not hold the job before and holds it after, no other job
   * appears or disappears, and both invariants are kept.
   */
  lemma {:induction false} EmitKeeps(fs: Fs, clock: nat, nextId: nat, loops: map<LoopId, Loop>, inflight: seq<LoopId>,
                                     nextLoop: nat, maxAttempts: int, t: Topic, m: Message)
    requires Books(fs, clock, nextId, loops, inflight, nextLoop) && m.id == nextId && m.attempts == []
    ensures Books(Put(fs, t, Queued, m, clock + 1), clock + 2, nextId + 1, loops, inflight, nextLoop)
    ensures Lifecycle(fs, loops, maxAttempts) ==> Lifecycle(Put(fs, t, Queued, m, clock + 1), loops, maxAttempts)
    ensures !Holds(fs, t, nextId) && Holds(Put(fs, t, Queued, m, clock + 1), t, nextId)
    ensures forall u, k :: Holds(Put(fs, t, Queued, m, clock + 1), u, k) <==> Holds(fs, u, k) || (u == t && k == nextId)
  {
    FreshNotStored(fs, t, clock, nextId);
    StampedMono(fs, clock, nextId, clock + 2, nextId + 1);
    PutStamped(fs, t, Queued, m, clock + 1, clock + 2, nextId + 1);
    PutHolds(fs, t, Queued, m, clock + 1);
    if Lifecycle(fs, loops, maxAttempts) {
      PutFreshOneStage(fs, t, Queued, m, clock + 1);
      PutBounded(fs, t, Queued, m, clock + 1, maxAttempts);
      PutKeepsLoops(fs, loops, t, Queued, m, clock + 1);
    }
  }

  /** Putting a loop into a phase that is not running keeps the lifecycle invariant. */
  lemma {:induction false} ParkKeeps(fs: Fs, loops: map<LoopId, Loop>, l: LoopId, lp: Loop, maxAttempts: int)
    requires !lp.phase.Running? && Lifecycle(fs, loops, maxAttempts)
    ensures Lifecycle(fs, loops[l := lp], maxAttempts)
  {
    var loops' := loops[l := lp];
    assert forall k :: k in loops' && loops'[k].phase.Running? ==> k != l && k in loops && loops'[k] == loops[k];
  }

  /** `on` registers a fresh loop, waiting, at the end of `_inflight`. */
  lemma {:induction false} RegisterKeeps(fs: Fs, clock: nat, nextId: nat, loops: map<LoopId, Loop>, inflight: seq<LoopId>,
                                         nextLoop: nat, t: Topic)
    requires Books(fs, clock, nextId, loops, inflight, nextLoop)
    ensures nextLoop !in loops && nextLoop !in inflight
    ensures Books(fs, clock, nextId, loops[nextLoop := Loop(t, Waiting)], inflight + [nextLoop], nextLoop + 1)
  {
    var inflight' := inflight + [nextLoop];
    forall i, j | 0 <= i < j < |inflight'| ensures inflight'[i] != inflight'[j] {
      if j == |inflight| {
        assert inflight'[i] == inflight[i] && inflight[i] in loops;
      } else {
        assert inflight'[i] == inflight[i] && inflight'[j] == inflight[j];
      }
    }
  }

  /** A stopped loop removes its own `_inflight` entry and no other. */
  lemma {:induction false} LeaveKeeps(fs: Fs, clock: nat, nextId: nat, loops: map<LoopId, Loop>, inflight: seq<LoopId>,
                                      nextLoop: nat, l: LoopId)
    requires Books(fs, clock, nextId, loops, inflight, nextLoop) && l in loops && loops[l].phase.Waiting?
    ensures var inflight' := Splice(inflight, IndexOf(inflight, l));
            Books(fs, clock, nextId, loops[l := loops[l].(phase := Finished)], inflight', nextLoop) &&
            |inflight'| == |inflight| - 1 && l !in inflight' &&
            (forall k :: k in inflight' <==> k in inflight && k != l)
  {
    DeregisterOwnEntry(inflight, l);
    var inflight' := Splice(inflight, IndexOf(inflight, l));
    var loops' := loops[l := loops[l].(phase := Finished)];
    forall i | 0 <= i < |inflight'| ensures inflight'[i] in loops' {
      assert inflight'[i] in inflight';
    }
  }

  /**
   * While some loop is running a handler, another loop leaving `_inflight`
   * does not empty it, so the stop completion stays unresolved.
   */
  lemma {:induction false} RunningBlocksStop(fs: Fs, clock: nat, nextId: nat, loops: map<LoopId, Loop>,
                                             inflight: seq<LoopId>, nextLoop: nat, k: LoopId, l: LoopId)
    requires Books(fs, clock, nextId, loops, inflight, nextLoop)
    requires l in loops && loops[l].phase.Running? && k in loops && loops[k].phase.Waiting?
    ensures l in inflight && l in Splice(inflight, IndexOf(inflight, k))
    ensures Splice(inflight, IndexOf(inflight, k)) != []
  {
    LeaveKeeps(fs, clock, nextId, loops, inflight, nextLoop, k);
  }

  /** A claim keeps every running job claimed once, the new one included. */
  lemma {:induction false} ClaimKeepsLoops(fs: Fs, loops: map<LoopId, Loop>, l: LoopId, id: JobId, a: Attempt)
    requires l in loops && !loops[l].phase.Running?
    requires OneStage(fs) && Claimed(fs, loops) && Exclusive(loops)
    requires Path(loops[l].topic, Queued, id) in fs && fs[Path(loops[l].topic, Queued, id)].record.id == id
    ensures var t := loops[l].topic;
            var e := fs[Path(t, Queued, id)];
            var loops' := loops[l := Loop(t, Running(e.record, a))];
            var r := Moved(fs, t, Queued, InProgress, id, e);
            Claimed(r, loops') && Exclusive(loops')
  {
    var t := loops[l].topic;
    var e := fs[Path(t, Queued, id)];
    var loops' := loops[l := Loop(t, Running(e.record, a))];
    var r := Moved(fs, t, Queued, InProgress, id, e);
    forall k | k in loops' && loops'[k].phase.Running?
      ensures ClaimPath(loops'[k]) in r && r[ClaimPath(loops'[k])].record == loops'[k].phase.job
      ensures k != l ==> ClaimPath(loops'[k]) != Path(t, InProgress, id)
    {
      if k != l {
        assert loops'[k] == loops[k];
        assert ClaimPath(loops[k]) != Path(t, InProgress, id) by {
          assert ClaimPath(loops[k]) in fs && Path(t, Queued, id) in fs;
        }
      }
    }
    forall k1, k2 | k1 in loops' && k2 in loops' && loops'[k1].phase.Running? && loops'[k2].phase.Running? &&
      ClaimPath(loops'[k1]) == ClaimPath(loops'[k2])
      ensures k1 == k2
    {
      if k1 != l && k2 != l {
        assert loops'[k1] == loops[k1] && loops'[k2] == loops[k2];
      }
    }
  }

  /**
   * The claim of loop `l`: the chosen job `id` is moved from `queued` to
   * `inprogress`, read back unchanged, and becomes the loop's running job
   * with a fresh attempt; no job appears or disappears; both invariants are
   * kept.
   */
  lemma {:induction false} ClaimKeeps(fs: Fs, clock: nat, nextId: nat, loops: map<LoopId, Loop>, inflight: seq<LoopId>,
                                      nextLoop: nat, maxAttempts: int, l: LoopId, id: JobId)
    requires Books(fs, clock, nextId, loops, inflight, nextLoop) && l in loops && loops[l].phase.Waiting?
    requires Path(loops[l].topic, Queued, id) in fs
    ensures var t := loops[l].topic;
            var e := fs[Path(t, Queued, id)];
            var r := Moved(fs, t, Queued, InProgress, id, e);
            var loops' := loops[l := Loop(t, Running(e.record, NewAttempt(nextId, clock)))];
            Rename(fs, t, Queued, InProgress, id) == Some(r) && Load(r, t, InProgress, id) == Some(e.record) &&
            Books(r, clock + 1, nextId + 1, loops', inflight, nextLoop) &&
            (forall u, k :: Holds(r, u, k) <==> Holds(fs, u, k)) &&
            (Lifecycle(fs, loops, maxAttempts) ==> Lifecycle(r, loops', maxAttempts))
  {
    var t := loops[l].topic;
    var e := fs[Path(t, Queued, id)];
    var r := Moved(fs, t, Queued, InProgress, id, e);
    MovedHolds(fs, t, Queued, InProgress, id, e);
    MovedStamped(fs, t, Queued, InProgress, id, e, clock, nextId);
    StampedMono(r, clock, nextId, clock + 1, nextId + 1);
    if Lifecycle(fs, loops, maxAttempts) {
      MovedOneStage(fs, t, Queued, InProgress, id, e);
      MovedBounded(fs, t, Queued, InProgress, id, e, maxAttempts);
      ClaimKeepsLoops(fs, loops, l, id, NewAttempt(nextId, clock));
    }
  }

  /** Settling a claimed job keeps every other running job claimed. */
  lemma {:induction false} SettleKeepsLoops(fs: Fs, loops: map<LoopId, Loop>, l: LoopId, dest: Stage, e: Entry)
    requires l in loops && loops[l].phase.Running? && dest != InProgress
    requires Claimed(fs, loops) && Exclusive(loops)
    ensures var loops' := loops[l := loops[l].(phase := Waiting)];
            var r := Moved(fs, loops[l].topic, InProgress, dest, loops[l].phase.job.id, e);
            Claimed(r, loops') && Exclusive(loops')
  {
    var loops' := loops[l := loops[l].(phase := Waiting)];
    forall k | k in loops' && loops'[k].phase.Running? ensures k != l && loops'[k] == loops[k] && ClaimPath(loops[k]) != ClaimPath(loops[l]) {
    }
  }

  /** A running job whose file has left `inprogress` means the lifecycle invariant is already broken. */
  lemma {:induction false} OrphanBreaks(fs: Fs, loops: map<LoopId, Loop>, l: LoopId, maxAttempts: int)
    requires l in loops && loops[l].phase.Running? && ClaimPath(loops[l]) !in fs
    ensures !Lifecycle(fs, loops, maxAttempts)
  {
    assert !Claimed(fs, loops) by {
      assert !(ClaimPath(loops[l]) in fs);
    }
  }

  /** The settlement of a job still in `inprogress` keeps both invariants. */
  lemma {:induction false} SettledClaimedKeeps(fs: Fs, clock: nat, nextId: nat, loops: map<LoopId, Loop>,
                                               inflight: seq<LoopId>, nextLoop: nat, maxAttempts: int, l: LoopId,
                                               o: Outcome, stack: string)
    requires Books(fs, clock, nextId, loops, inflight, nextLoop) && l in loops && loops[l].phase.Running?
    requires ClaimPath(loops[l]) in fs
    ensures var lp := loops[l];
            var r := Settled(fs, lp.topic, lp.phase.job, lp.phase.attempt, o, clock, maxAttempts, stack);
            var loops' := loops[l := lp.(phase := Waiting)];
            Books(r.fs, clock + r.ticks, nextId, loops', inflight, nextLoop) &&
            (Lifecycle(fs, loops, maxAttempts) ==> Lifecycle(r.fs, loops', maxAttempts))
  {
    var lp := loops[l];
    var t, job := lp.topic, lp.phase.job;
    var m := Final(job, lp.phase.attempt, o, clock);
    var dest := Destination(o, |m.attempts|, maxAttempts);
    var e := Entry(m, clock + 1);
    SettledClaimed(fs, t, job, lp.phase.attempt, o, clock, maxAttempts, stack);
    StampedMono(fs, clock, nextId, clock + 2, nextId);
    MovedStamped(fs, t, InProgress, dest, job.id, e, clock + 2, nextId);
    if Lifecycle(fs, loops, maxAttempts) {
      MovedOneStage(fs, t, InProgress, dest, job.id, e);
      MovedBounded(fs, t, InProgress, dest, job.id, e, maxAttempts);
      SettleKeepsLoops(fs, loops, l, dest, e);
    }
  }

  /** The settlement of a job whose `inprogress` file is gone keeps the bookkeeping; the lifecycle invariant was already broken. */
  lemma {:induction false} SettledOrphanKeeps(fs: Fs, clock: nat, nextId: nat, loops: map<LoopId, Loop>,
                                              inflight: seq<LoopId>, nextLoop: nat, maxAttempts: int, l: LoopId,
                                              o: Outcome, stack: string)
    requires Books(fs, clock, nextId, loops, inflight, nextLoop) && l in loops && loops[l].phase.Running?
    requires ClaimPath(loops[l]) !in fs
    ensures var lp := loops[l];
            var r := Settled(fs, lp.topic, lp.phase.job, lp.phase.attempt, o, clock, maxAttempts, stack);
            Books(r.fs, clock + r.ticks, nextId, loops[l := lp.(phase := Waiting)], inflight, nextLoop)
    ensures !Lifecycle(fs, loops, maxAttempts)
  {
    var lp := loops[l];
    var t, job := lp.topic, lp.phase.job;
    var m := Final(job, lp.phase.attempt, o, clock);
    var dest := Destination(o, |m.attempts|, maxAttempts);
    OrphanBreaks(fs, loops, l, maxAttempts);
    if o.Succeeded? {
      var again := Failed(m.attempts[|job.attempts|], UnlinkError(stack), clock + 2);
      var twice := job.(attempts := job.attempts + [again, again]);
      StampedMono(fs, clock, nextId, clock + 4, nextId);
      PutStamped(fs, t, dest, m, clock + 1, clock + 4, nextId);
      PutStamped(Put(fs, t, dest, m, clock + 1), t, Route(|twice.attempts|, maxAttempts), twice, clock + 3, clock + 4, nextId);
    } else {
      StampedMono(fs, clock, nextId, clock + 2, nextId);
      PutStamped(fs, t, dest, m, clock + 1, clock + 2, nextId);
    }
  }

  /** Removing a topic that no handler is processing keeps every running job claimed. */
  lemma PurgeKeepsLoops(fs: Fs, loops: map<LoopId, Loop>, t: Topic)
    requires Claimed(fs, loops)
    requires forall k :: k in loops && loops[k].phase.Running? ==> loops[k].topic != t
    ensures Claimed(Purge(fs, t), loops)
  {
  }

  /** Updating a loop twice leaves the second value. */
  lemma Overwrite(loops: map<LoopId, Loop>, l: LoopId, first: Loop, second: Loop)
    ensures loops[l := first][l := second] == loops[l := second]
  {
  }

  // ---------------------------------------------------------------------
  // The engine
  // ---------------------------------------------------------------------

  /** A job that no other file of its stage directory precedes in mtime: the head of `_list`. */
  ghost predicate Oldest(d: StageDir, id: JobId) {
    id in d && forall k :: k in d ==> d[id].mtime <= d[k].mtime
  }

  /**
   * How one tick of a running engine leaves a loop of topic `t` that was
   * waiting, the files, the clock and the id counter: with nothing queued
   * everything stays as it was; otherwise the loop runs the oldest queued
   * job, with a fresh attempt, and that job has moved to `inprogress`.
   */
  ghost predicate TickedFrom(fs: Fs, clock: nat, nextId: nat, t: Topic, lp: Loop, fs': Fs, clock': nat, nextId': nat) {
    if Dir(fs, t, Queued) == map[] then
      lp == Loop(t, Waiting) && fs' == fs && clock' == clock && nextId' == nextId
    else
      lp.phase.Running? && Oldest(Dir(fs, t, Queued), lp.phase.job.id) &&
      var e := fs[Path(t, Queued, lp.phase.job.id)];
      lp == Loop(t, Running(e.record, NewAttempt(nextId, clock))) &&
      fs' == Moved(fs, t, Queued, InProgress, lp.phase.job.id, e) &&
      clock' == clock + 1 && nextId' == nextId + 1
  }

  class Queue {
    /** `this._options`. */
    const options: Options
    /** `this._stopped`. */
    var stopped: bool
    /** Whether `this._stopDef` has been resolved. */
    var stopResolved: bool
    /** `this._inflight`: one entry per loop that has not deregistered. */
    var inflight: seq<LoopId>
    /** `this._deadListeners`, in registration order. */
    var deadListeners: seq<ListenerRef>
    /** Every call made to a dead-letter listener, in order. */
    var deadCalls: seq<Notification>
    /** The files under the repository root. */
    var fs: Fs
    /** The logical clock behind mtimes and ISO timestamps. */
    var clock: nat
    /** The next value `uuid()` returns. */
    var nextId: nat
    /** The loops registered by `on`. */
    var loops: map<LoopId, Loop>
    var nextLoop: nat

    ghost predicate Valid()
      reads this
    {
      Books(fs, clock, nextId, loops, inflight, nextLoop) && (stopResolved ==> stopped)
    }

    /** The lifecycle invariant: one stage per job, the attempt budget, exclusive claims. */
    ghost predicate Consistent()
      reads this
    {
      Lifecycle(fs, loops, options.maxAttempts)
    }

    /** `new Queue(base, options)` over an empty repository. */
    constructor (over: Overrides)
      ensures Valid() && Consistent()
      ensures options == Assign(Defaults, over)
      ensures !stopped && !stopResolved && inflight == [] && deadListeners == [] && deadCalls == []
      ensures fs == map[] && loops == map[]
    {
      options := Assign(Defaults, over);
      stopped, stopResolved := false, false;
      inflight, deadListeners, deadCalls := [], [], [];
      fs, clock, nextId := map[], 0, 0;
      loops, nextLoop := map[], 0;
    }

    // --- private file operations --------------------------------------
    //
    // `_write`, `_read`, `_move`, `_delete` and `_reset` are the functions
    // `Put`, `Load`, `Rename`, `Unlink` and `Purge` of the files; every write
    // stamps the current clock value as the file's mtime and advances the clock.

    /**
     * `_list`: the files of a stage directory, each once, in ascending mtime
     * order; a missing directory lists as empty. The loop takes the names in
     * whatever order the directory yields them.
     */
    method List(t: Topic, s: Stage) returns (files: seq<JobId>)
      ensures ByTime(files, Dir(fs, t, s))
      ensures multiset(files) == multiset(Dir(fs, t, s).Keys)
    {
      var d := Dir(fs, t, s);
      var rest := d.Keys;
      var names: seq<JobId> := [];
      while rest != {}
        invariant rest <= d.Keys
        invariant forall i :: 0 <= i < |names| ==> names[i] in d
        invariant multiset(names) + multiset(rest) == multiset(d.Keys)
        decreases rest
      {
        var f :| f in rest;
        assert multiset(rest) == multiset(rest - {f}) + multiset{f};
        names := names + [f];
        rest := rest - {f};
      }
      files := SortByTime(names, d);
    }

    // --- public API ----------------------------------------------------

    /** `emit(name, data, options)`: a new job, as `createMessage` builds it, written into the topic's `queued` stage. */
    method Emit(t: Topic, data: Json, over: Overrides)
      requires Valid()
      modifies this`fs, this`clock, this`nextId
      ensures Valid()
      ensures old(Consistent()) ==> Consistent()
      ensures fs == Put(old(fs), t, Queued, CreateMessage(old(nextId), data, old(clock), Assign(options, over)), old(clock) + 1)
      ensures clock == old(clock) + 2 && nextId == old(nextId) + 1
    {
      var m := CreateMessage(nextId, data, clock, Assign(options, over));
      EmitKeeps(fs, clock, nextId, loops, inflight, nextLoop, options.maxAttempts, t, m);
      nextId := nextId + 1;
      clock := clock + 1;
      fs := Put(fs, t, Queued, m, clock);
      clock := clock + 1;
    }

    /** The stopped branch of a tick: the loop removes its own `_inflight` entry and resolves the stop completion when none is left. */
    method Leave(l: LoopId)
      requires Valid() && stopped && l in loops && loops[l].phase.Waiting?
      modifies this`inflight, this`stopResolved, this`loops
      ensures Valid()
      ensures old(Consistent()) ==> Consistent()
      ensures loops == old(loops)[l := old(loops)[l].(phase := Finished)]
      ensures inflight == Splice(old(inflight), IndexOf(old(inflight), l))
      ensures stopResolved == (old(stopResolved) || inflight == [])
    {
      var lp := loops[l];
      var rest := Splice(inflight, IndexOf(inflight, l));
      LeaveKeeps(fs, clock, nextId, loops, inflight, nextLoop, l);
      if Consistent() {
        ParkKeeps(fs, loops, l, lp.(phase := Finished), options.maxAttempts);
      }
      inflight, stopResolved, loops := rest, stopResolved || |rest| == 0, loops[l := lp.(phase := Finished)];
    }

    /**
     * The claim of a tick: job `id` is moved from `queued` to `inprogress`,
     * read back, and becomes the loop's running job with a fresh
     * `null`-status attempt.
     */
    method Claim(l: LoopId, id: JobId)
      requires Valid() && l in loops && loops[l].phase.Waiting?
      requires Path(loops[l].topic, Queued, id) in fs
      modifies this`loops, this`fs, this`clock, this`nextId
      ensures Valid()
      ensures old(Consistent()) ==> Consistent()
      ensures var t := old(loops)[l].topic;
              var e := old(fs)[Path(t, Queued, id)];
              loops == old(loops)[l := Loop(t, Running(e.record, NewAttempt(old(nextId), old(clock))))] &&
              fs == Moved(old(fs), t, Queued, InProgress, id, e)
      ensures clock == old(clock) + 1 && nextId == old(nextId) + 1
    {
      var lp := loops[l];
      ClaimKeeps(fs, clock, nextId, loops, inflight, nextLoop, options.maxAttempts, l, id);
      fs := Rename(fs, lp.topic, Queued, InProgress, id).value;
      var message := Load(fs, lp.topic, InProgress, id).value;
      var attempt := NewAttempt(nextId, clock);
      nextId := nextId + 1;
      clock := clock + 1;
      loops := loops[l := lp.(phase := Running(message, attempt))];
    }

    /**
     * A tick of a loop of a running engine: it claims the oldest queued job
     * (the head of `_list`), or changes nothing when none is queued.
     */
    method Tick(l: LoopId)
      requires Valid() && !stopped && l in loops && loops[l].phase.Waiting?
      modifies this`loops, this`fs, this`clock, this`nextId
      ensures Valid()
      ensures old(Consistent()) ==> Consistent()
      ensures loops == old(loops)[l := loops[l]]
      ensures TickedFrom(old(fs), old(clock), old(nextId), old(loops)[l].topic, loops[l], fs, clock, nextId)
    {
      var t := loops[l].topic;
      var files := List(t, Queued);
      if |files| == 0 {
        assert Dir(fs, t, Queued).Keys == {};
        return;
      }
      ghost var q := Dir(fs, t, Queued);
      var id := files[0];
      assert id in multiset(files);
      forall k | k in q ensures q[id].mtime <= q[k].mtime {
        assert k in multiset(q.Keys);
        var j :| 0 <= j < |files| && files[j] == k;
      }
      assert fs[Path(t, Queued, id)].record.id == id;
      Claim(l, id);
    }

    /** The `poll` step of the loop `l` of `on`: once stopped, the loop leaves; otherwise it ticks. */
    method Poll(l: LoopId)
      requires Valid() && l in loops && loops[l].phase.Waiting?
      modifies this`inflight, this`stopResolved, this`loops, this`fs, this`clock, this`nextId
      ensures Valid()
      ensures old(Consistent()) ==> Consistent()
      ensures old(stopped) ==>
                loops == old(loops)[l := old(loops)[l].(phase := Finished)] && fs == old(fs) &&
                clock == old(clock) && nextId == old(nextId) &&
                inflight == Splice(old(inflight), IndexOf(old(inflight), l)) &&
                stopResolved == (old(stopResolved) || inflight == [])
      ensures !old(stopped) ==>
                inflight == old(inflight) && stopResolved == old(stopResolved) && loops == old(loops)[l := loops[l]] &&
                TickedFrom(old(fs), old(clock), old(nextId), old(loops)[l].topic, loops[l], fs, clock, nextId)
    {
      if stopped {
        Leave(l);
      } else {
        Tick(l);
      }
    }

    /**
     * The `.then`/`.catch` continuation of loop `l`'s running attempt, once
     * that attempt settled with outcome `o` (`stack` is the runtime's stack
     * trace for an error raised in this step): the files end as `Settled`
     * says, dead-letter listeners are called in registration order when it
     * says so, and the loop waits for its next tick. A stopped engine
     * settles in the same way.
     */
    method Settle(l: LoopId, o: Outcome, stack: string)
      requires Valid() && l in loops && loops[l].phase.Running?
      modifies this`fs, this`clock, this`loops, this`deadCalls
      ensures Valid()
      ensures old(Consistent()) ==> Consistent()
      ensures loops == old(loops)[l := old(loops)[l].(phase := Waiting)]
      ensures var lp := old(loops)[l];
              var r := Settled(old(fs), lp.topic, lp.phase.job, lp.phase.attempt, o, old(clock), options.maxAttempts, stack);
              fs == r.fs && clock == old(clock) + r.ticks &&
              deadCalls == old(deadCalls) + (if r.notified then Notify(deadListeners, r.record) else [])
    {
      var lp := loops[l];
      var r := Settled(fs, lp.topic, lp.phase.job, lp.phase.attempt, o, clock, options.maxAttempts, stack);
      var loops' := loops[l := lp.(phase := Waiting)];
      if ClaimPath(lp) in fs {
        SettledClaimedKeeps(fs, clock, nextId, loops, inflight, nextLoop, options.maxAttempts, l, o, stack);
      } else {
        SettledOrphanKeeps(fs, clock, nextId, loops, inflight, nextLoop, options.maxAttempts, l, o, stack);
      }
      var calls := if r.notified then Notify(deadListeners, r.record) else [];
      Commit(r.fs, clock + r.ticks, loops', deadCalls + calls);
    }

    /**
     * The end of an attempt as the engine runs it: the attempt's promise
     * follows the handler alone, so the outcome is the handler's own,
     * however late. A handler that never settles never reaches this step;
     * its loop stays running (see `RunningBlocksStop`).
     */
    method SettleAsWritten(l: LoopId, run: HandlerRun, stack: string)
      requires Valid() && l in loops && loops[l].phase.Running? && !run.Hangs?
      modifies this`fs, this`clock, this`loops, this`deadCalls
      ensures Valid()
      ensures old(Consistent()) ==> Consistent()
      ensures loops == old(loops)[l := old(loops)[l].(phase := Waiting)]
      ensures var lp := old(loops)[l];
              var r := Settled(old(fs), lp.topic, lp.phase.job, lp.phase.attempt, RaceAsWritten(run).value, old(clock),
                               options.maxAttempts, stack);
              fs == r.fs && clock == old(clock) + r.ticks &&
              deadCalls == old(deadCalls) + (if r.notified then Notify(deadListeners, r.record) else [])
    {
      Settle(l, RaceAsWritten(run).value, stack);
    }

    /**
     * The end of an attempt as intended: the handler races a timer of the
     * engine-wide `taskTimeout`, and a handler that has not settled by then
     * fails the attempt with "timeout".
     */
    method SettleIntended(l: LoopId, run: HandlerRun, stack: string)
      requires Valid() && l in loops && loops[l].phase.Running?
      modifies this`fs, this`clock, this`loops, this`deadCalls
      ensures Valid()
      ensures old(Consistent()) ==> Consistent()
      ensures loops == old(loops)[l := old(loops)[l].(phase := Waiting)]
      ensures var lp := old(loops)[l];
              var r := Settled(old(fs), lp.topic, lp.phase.job, lp.phase.attempt, Race(run, options.taskTimeout, stack),
                               old(clock), options.maxAttempts, stack);
              fs == r.fs && clock == old(clock) + r.ticks &&
              deadCalls == old(deadCalls) + (if r.notified then Notify(deadListeners, r.record) else [])
    {
      Settle(l, Race(run, options.taskTimeout, stack), stack);
    }

    /** Installs a new state of the files, the clock, the loops and the listener calls that keeps the invariants. */
    method Commit(files: Fs, clock': nat, loops': map<LoopId, Loop>, calls: seq<Notification>)
      requires Valid() && Books(files, clock', nextId, loops', inflight, nextLoop)
      modifies this`fs, this`clock, this`loops, this`deadCalls
      ensures Valid()
      ensures Consistent() == Lifecycle(files, loops', options.maxAttempts)
      ensures fs == files && clock == clock' && loops == loops' && deadCalls == calls
    {
      fs, clock, loops, deadCalls := files, clock', loops', calls;
    }

    /** The registration of `on`: a fresh loop, waiting, at the end of `_inflight`. */
    method Register(t: Topic) returns (l: LoopId)
      requires Valid()
      modifies this`inflight, this`loops, this`nextLoop
      ensures Valid()
      ensures old(Consistent()) ==> Consistent()
      ensures l == old(nextLoop) && l !in old(loops) && l !in old(inflight)
      ensures loops == old(loops)[l := Loop(t, Waiting)] && inflight == old(inflight) + [l]
    {
      RegisterKeeps(fs, clock, nextId, loops, inflight, nextLoop, t);
      if Consistent() {
        ParkKeeps(fs, loops, nextLoop, Loop(t, Waiting), options.maxAttempts);
      }
      l := nextLoop;
      nextLoop := nextLoop + 1;
      loops := loops[l := Loop(t, Waiting)];
      inflight := inflight + [l];
    }

    /** `on(name, fn)`: registers a loop at the end of `_inflight` and runs its first tick at once. */
    method On(t: Topic) returns (l: LoopId)
      requires Valid()
      modifies this`inflight, this`stopResolved, this`loops, this`fs, this`clock, this`nextId, this`nextLoop
      ensures Valid()
      ensures old(Consistent()) ==> Consistent()
      ensures l == old(nextLoop) && l !in old(loops) && l in loops && loops[l].topic == t
      ensures loops == old(loops)[l := loops[l]]
      ensures old(stopped) ==>
                loops[l].phase.Finished? && inflight == old(inflight) && fs == old(fs) &&
                clock == old(clock) && nextId == old(nextId) &&
                stopResolved == (old(stopResolved) || inflight == [])
      ensures !old(stopped) ==>
                inflight == old(inflight) + [l] && stopResolved == old(stopResolved) &&
                TickedFrom(old(fs), old(clock), old(nextId), t, loops[l], fs, clock, nextId)
    {
      ghost var before, known := inflight, loops;
      l := Register(t);
      ghost var registered := inflight;
      if stopped {
        DeregisterNewest(before, l);
        assert Splice(registered, IndexOf(registered, l)) == before;
      }
      Poll(l);
      Overwrite(known, l, Loop(t, Waiting), loops[l]);
    }

    /** `dead(fn)`: registers a dead-letter listener after the existing ones. */
    method Dead(f: ListenerRef)
      requires Valid()
      modifies this`deadListeners
      ensures Valid()
      ensures old(Consistent()) ==> Consistent()
      ensures deadListeners == old(deadListeners) + [f]
    {
      deadListeners := deadListeners + [f];
    }

    /**
     * `reset(name)`: empties every stage of the topic, whether or not it
     * exists, and changes no other topic. In-flight handlers are not told, so
     * the lifecycle invariant survives only when none is processing a job of
     * that topic.
     */
    method Reset(t: Topic)
      requires Valid()
      modifies this`fs
      ensures Valid()
      ensures fs == Purge(old(fs), t)
      ensures old(Consistent()) && (forall k :: k in loops && loops[k].phase.Running? ==> loops[k].topic != t)
              ==> Consistent()
    {
      PurgeKeeps(fs, t, clock, nextId, options.maxAttempts);
      if Consistent() && forall k :: k in loops && loops[k].phase.Running? ==> loops[k].topic != t {
        PurgeKeepsLoops(fs, loops, t);
      }
      fs := Purge(fs, t);
    }

    /** `stop()`: sets the stopped flag; the completion resolves when the last loop leaves. */
    method Stop()
      requires Valid()
      modifies this`stopped
      ensures Valid()
      ensures old(Consistent()) ==> Consistent()
      ensures stopped && stopResolved == old(stopResolved)
    {
      stopped := true;
    }
  }
}
