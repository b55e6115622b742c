/**
 * The on-disk layout of the job queue, as a value: the record files under
 * the repository root, each at `<topic>/<stage>/<id>.json`. Directories are
 * implicit: a missing directory lists as empty, exactly like an empty one,
 * and `mkdirp` has nothing to record. A file's modification time is a
 * logical clock value.
 */
module Store {
  import opened Values

  type Topic = string
  type JobId = nat

  datatype Stage = Queued | InProgress | Done | Dead

  /** The plain `{name, message, stack}` structure an error is serialised to. */
  datatype ErrorRecord = ErrorRecord(name: string, message: string, stack: string)

  /** An attempt's `status`; `Unset` is the `null` it holds until it settles. */
  datatype Status = Unset | Success | Failure

  /** One execution try of a job; timestamps are logical clock values. */
  datatype Attempt = Attempt(
    id: nat,
    createdAt: nat,
    processedAt: Option<nat>,
    status: Status,
    error: Option<ErrorRecord>,
    result: Json)

  /** The job record held in a stage file. */
  datatype Message = Message(
    id: JobId,
    data: Json,
    createdAt: nat,
    attempts: seq<Attempt>,
    taskTimeout: int,
    maxAttempts: int)

  /** A record file: its content and its modification time. */
  datatype Entry = Entry(record: Message, mtime: nat)

  /** The path `<topic>/<stage>/<id>.json` relative to the repository root. */
  datatype Path = Path(topic: Topic, stage: Stage, id: JobId)

  /** The files under the repository root. */
  type Fs = map<Path, Entry>

  /** The files of one stage directory, by job id. */
  type StageDir = map<JobId, Entry>

  // ---------------------------------------------------------------------
  // The private file operations of the engine.
  // ---------------------------------------------------------------------

  /** `_write`: (over)write the record's file in stage `s`, stamping it with mtime `now`. */
  function Put(fs: Fs, t: Topic, s: Stage, m: Message, now: nat): (r: Fs)
    ensures Path(t, s, m.id) in r && r[Path(t, s, m.id)] == Entry(m, now)
  {
    fs[Path(t, s, m.id) := Entry(m, now)]
  }

  /** `_read`: the record held in a file; `None` when the file is missing. */
  function Load(fs: Fs, t: Topic, s: Stage, id: JobId): (r: Option<Message>)
    ensures r.None? <==> Path(t, s, id) !in fs
    ensures r.Some? ==> r.value == fs[Path(t, s, id)].record
  {
    if Path(t, s, id) in fs then Some(fs[Path(t, s, id)].record) else None
  }

  /** `_delete`: unlink a record file; `None` is the ENOENT error of a missing file. */
  function Unlink(fs: Fs, t: Topic, s: Stage, id: JobId): (r: Option<Fs>)
    ensures r.None? <==> Path(t, s, id) !in fs
    ensures r.Some? ==> Path(t, s, id) !in r.value
  {
    if Path(t, s, id) in fs then Some(fs - {Path(t, s, id)}) else None
  }

  /** The files after the file `e` of job `id` moved from stage `from` to stage `to` of topic `t`. */
  function Moved(fs: Fs, t: Topic, from: Stage, to: Stage, id: JobId, e: Entry): Fs {
    (fs - {Path(t, from, id)})[Path(t, to, id) := e]
  }

  /**
   * `_move`: rename a file from one stage directory to another; the file,
   * mtime included, is carried over unchanged. `None` when the source is missing.
   */
  function Rename(fs: Fs, t: Topic, from: Stage, to: Stage, id: JobId): (r: Option<Fs>)
    ensures r.None? <==> Path(t, from, id) !in fs
    ensures r.Some? ==> Path(t, to, id) in r.value && r.value[Path(t, to, id)] == fs[Path(t, from, id)]
    ensures r.Some? && from != to ==> Path(t, from, id) !in r.value
  {
    if Path(t, from, id) in fs then Some(Moved(fs, t, from, to, id, fs[Path(t, from, id)])) else None
  }

  /** `_reset`: remove the topic's directory tree. */
  function Purge(fs: Fs, t: Topic): (r: Fs)
    ensures forall p :: p in r <==> p in fs && p.topic != t
    ensures forall p :: p in r ==> r[p] == fs[p]
  {
    map p | p in fs && p.topic != t :: fs[p]
  }

  /** The job ids of one stage directory, as `readdir` yields its file names. */
  function Ids(fs: Fs, t: Topic, s: Stage): (r: set<JobId>)
    ensures forall id :: id in r <==> Path(t, s, id) in fs
  {
    set p | p in fs && p.topic == t && p.stage == s :: p.id
  }

  /** One stage directory, by job id; a missing directory reads as empty. */
  function Dir(fs: Fs, t: Topic, s: Stage): (d: StageDir)
    ensures forall id :: id in d <==> Path(t, s, id) in fs
    ensures forall id :: id in d ==> d[id] == fs[Path(t, s, id)]
  {
    map id | id in Ids(fs, t, s) :: fs[Path(t, s, id)]
  }

  /** Whether topic `t` holds job `id` in any stage. */
  predicate Holds(fs: Fs, t: Topic, id: JobId) {
    Path(t, Queued, id) in fs || Path(t, InProgress, id) in fs || Path(t, Done, id) in fs || Path(t, Dead, id) in fs
  }

  // ---------------------------------------------------------------------
  // What the file operations promise.
  // ---------------------------------------------------------------------

  /** A written record reads back unchanged, and every other file is untouched. */
  lemma PutLoad(fs: Fs, t: Topic, s: Stage, m: Message, now: nat)
    ensures Load(Put(fs, t, s, m, now), t, s, m.id) == Some(m)
    ensures forall p :: p != Path(t, s, m.id) ==> (p in Put(fs, t, s, m, now) <==> p in fs)
    ensures forall p :: p != Path(t, s, m.id) && p in fs ==> Put(fs, t, s, m, now)[p] == fs[p]
  {
  }

  /** Unlinking fails exactly on a missing file, and otherwise removes that one file. */
  lemma UnlinkRemoves(fs: Fs, t: Topic, s: Stage, id: JobId)
    ensures Unlink(fs, t, s, id).Some? <==> Load(fs, t, s, id).Some?
    ensures Unlink(fs, t, s, id).Some? ==>
              Load(Unlink(fs, t, s, id).value, t, s, id).None? &&
              forall p :: p != Path(t, s, id) ==> (p in Unlink(fs, t, s, id).value <==> p in fs)
  {
  }

  /**
   * Renaming fails exactly on a missing source; otherwise the target holds
   * the source's record with its mtime, the source is gone (unless it is the
   * target), and every other file is untouched.
   */
  lemma RenameMoves(fs: Fs, t: Topic, from: Stage, to: Stage, id: JobId)
    ensures Rename(fs, t, from, to, id).Some? <==> Load(fs, t, from, id).Some?
    ensures Rename(fs, t, from, to, id).Some? ==>
              var r := Rename(fs, t, from, to, id).value;
              Load(r, t, to, id) == Load(fs, t, from, id) &&
              r[Path(t, to, id)].mtime == fs[Path(t, from, id)].mtime &&
              (from != to ==> Load(r, t, from, id).None?) &&
              (from == to ==> r == fs) &&
              forall p :: p != Path(t, from, id) && p != Path(t, to, id) ==>
                (p in r <==> p in fs) && (p in fs ==> r[p] == fs[p])
  {
    if Path(t, from, id) in fs && from == to {
      assert Rename(fs, t, from, to, id).value == fs;
    }
  }

  /** After a reset the topic holds no file in any stage, other topics are untouched, and a second reset changes nothing. */
  lemma PurgeEmpties(fs: Fs, t: Topic)
    ensures forall p :: p in Purge(fs, t) <==> p in fs && p.topic != t
    ensures forall p :: p in Purge(fs, t) ==> Purge(fs, t)[p] == fs[p]
    ensures forall s :: Dir(Purge(fs, t), t, s) == map[]
    ensures forall id :: !Holds(Purge(fs, t), t, id)
    ensures Purge(Purge(fs, t), t) == Purge(fs, t)
  {
  }

  /** Writing a job's record into `to` and then unlinking it from `from` moves the job. */
  lemma PutThenUnlink(fs: Fs, t: Topic, from: Stage, to: Stage, m: Message, now: nat)
    requires from != to && Path(t, from, m.id) in fs
    ensures Unlink(Put(fs, t, to, m, now), t, from, m.id) == Some(Moved(fs, t, from, to, m.id, Entry(m, now)))
  {
    assert Put(fs, t, to, m, now) - {Path(t, from, m.id)} == Moved(fs, t, from, to, m.id, Entry(m, now));
  }

  // ---------------------------------------------------------------------
  // Listing: `_list` sorts a directory's files by ascending mtime.
  // ---------------------------------------------------------------------

  /** `files` are files of `d`, in non-decreasing mtime order. */
  ghost predicate ByTime(files: seq<JobId>, d: StageDir) {
    (forall i :: 0 <= i < |files| ==> files[i] in d) &&
    (forall i, j :: 0 <= i < j < |files| ==> d[files[i]].mtime <= d[files[j]].mtime)
  }

  /** One insertion step of the sort; an equal mtime keeps `f` in front, so the sort is stable. */
  function Insert(f: JobId, files: seq<JobId>, d: StageDir): (r: seq<JobId>)
    requires f in d && forall i :: 0 <= i < |files| ==> files[i] in d
    ensures multiset(r) == multiset(files) + multiset{f}
  {
    if files == [] then [f]
    else if d[f].mtime <= d[files[0]].mtime then [f] + files
    else
      assert files == [files[0]] + files[1..];
      [files[0]] + Insert(f, files[1..], d)
  }

  /** Inserting into a list in ascending mtime order keeps it in that order, headed by `f` or by the old head. */
  lemma {:induction false} InsertByTime(f: JobId, files: seq<JobId>, d: StageDir)
    requires f in d && ByTime(files, d)
    ensures var r := Insert(f, files, d);
            ByTime(r, d) && |r| > 0 && (r[0] == f || (files != [] && r[0] == files[0]))
  {
    if files == [] {
    } else if d[f].mtime <= d[files[0]].mtime {
      assert forall k :: 0 <= k < |files| ==> d[files[0]].mtime <= d[files[k]].mtime;
    } else {
      var rest := Insert(f, files[1..], d);
      InsertByTime(f, files[1..], d);
      var r := [files[0]] + rest;
      assert d[files[0]].mtime <= d[rest[0]].mtime;
      forall i, j | 0 <= i < j < |r| ensures d[r[i]].mtime <= d[r[j]].mtime {
        assert r[j] == rest[j - 1];
        if i > 0 {
          assert r[i] == rest[i - 1];
        } else {
          assert d[rest[0]].mtime <= d[rest[j - 1]].mtime;
        }
      }
      assert forall i :: 0 < i < |r| ==> r[i] == rest[i - 1];
    }
  }

  /** `.sort((a, b) => a.time - b.time)` over the files of one directory. */
  function SortByTime(files: seq<JobId>, d: StageDir): (r: seq<JobId>)
    requires forall i :: 0 <= i < |files| ==> files[i] in d
    ensures ByTime(r, d)
    ensures multiset(r) == multiset(files)
  {
    if files == [] then []
    else
      assert files == [files[0]] + files[1..];
      var sorted := SortByTime(files[1..], d);
      InsertByTime(files[0], sorted, d);
      Insert(files[0], sorted, d)
  }

  // ---------------------------------------------------------------------
  // Store invariants and the lemmas that the operations preserve them.
  // ---------------------------------------------------------------------

  /**
   * Every file is named by the id of the record it holds, carries an id
   * issued before `nextId`, and was stamped before `clock`.
   */
  ghost predicate Stamped(fs: Fs, clock: nat, nextId: nat) {
    forall p :: p in fs ==> fs[p].record.id == p.id && p.id < nextId && fs[p].mtime < clock
  }

  /** Each job of a topic is in at most one of its stages. */
  ghost predicate OneStage(fs: Fs) {
    forall p, q :: p in fs && q in fs && p.topic == q.topic && p.id == q.id ==> p.stage == q.stage
  }

  /** The stages a consumer can still claim from or is processing in. */
  predicate Live(s: Stage) {
    s == Queued || s == InProgress
  }

  /** A job with no attempt yet, or with fewer attempts than the engine-wide budget. */
  predicate Retryable(m: Message, maxAttempts: int) {
    |m.attempts| == 0 || |m.attempts| < maxAttempts
  }

  /** Every queued or in-progress job is retryable. */
  ghost predicate Bounded(fs: Fs, maxAttempts: int) {
    forall p :: p in fs && Live(p.stage) ==> Retryable(fs[p].record, maxAttempts)
  }

  /** Raising the clock or the id counter keeps the files stamped. */
  lemma StampedMono(fs: Fs, clock: nat, nextId: nat, clock': nat, nextId': nat)
    requires Stamped(fs, clock, nextId) && clock <= clock' && nextId <= nextId'
    ensures Stamped(fs, clock', nextId')
  {
  }

  /** An id that was never issued names no file. */
  lemma {:induction false} FreshNotStored(fs: Fs, t: Topic, clock: nat, nextId: nat)
    requires Stamped(fs, clock, nextId)
    ensures !Holds(fs, t, nextId)
  {
    assert Path(t, Queued, nextId) !in fs && Path(t, InProgress, nextId) !in fs;
    assert Path(t, Done, nextId) !in fs && Path(t, Dead, nextId) !in fs;
  }

  /** Writing a record with an issued id, stamped before the clock, keeps the files stamped. */
  lemma PutStamped(fs: Fs, t: Topic, s: Stage, m: Message, now: nat, clock: nat, nextId: nat)
    requires Stamped(fs, clock, nextId) && m.id < nextId && now < clock
    ensures Stamped(Put(fs, t, s, m, now), clock, nextId)
  {
  }

  /** Writing a file whose job the topic does not hold keeps every job in one stage. */
  lemma {:induction false} PutFreshOneStage(fs: Fs, t: Topic, s: Stage, m: Message, now: nat)
    requires OneStage(fs) && !Holds(fs, t, m.id)
    ensures OneStage(Put(fs, t, s, m, now))
  {
    var r := Put(fs, t, s, m, now);
    forall p, q | p in r && q in r && p.topic == q.topic && p.id == q.id ensures p.stage == q.stage {
      if p == Path(t, s, m.id) || q == Path(t, s, m.id) {
        var o := if p == Path(t, s, m.id) then q else p;
        assert o.stage == Queued || o.stage == InProgress || o.stage == Done || o.stage == Dead;
      }
    }
  }

  /** Writing a retryable record (or one into a terminal stage) keeps the attempt bound. */
  lemma PutBounded(fs: Fs, t: Topic, s: Stage, m: Message, now: nat, maxAttempts: int)
    requires Bounded(fs, maxAttempts) && (Live(s) ==> Retryable(m, maxAttempts))
    ensures Bounded(Put(fs, t, s, m, now), maxAttempts)
  {
  }

  /** Writing a file adds its job to its topic and changes no other topic's jobs. */
  lemma PutHolds(fs: Fs, t: Topic, s: Stage, m: Message, now: nat)
    ensures forall u, id :: Holds(Put(fs, t, s, m, now), u, id) <==> Holds(fs, u, id) || (u == t && id == m.id)
  {
  }

  /** A move keeps the jobs of every topic. */
  lemma MovedHolds(fs: Fs, t: Topic, from: Stage, to: Stage, id: JobId, e: Entry)
    requires Path(t, from, id) in fs
    ensures forall u, k :: Holds(Moved(fs, t, from, to, id, e), u, k) <==> Holds(fs, u, k)
  {
  }

  /** A move keeps every job in one stage, and the moved job ends in `to` only. */
  lemma {:induction false} MovedOneStage(fs: Fs, t: Topic, from: Stage, to: Stage, id: JobId, e: Entry)
    requires Path(t, from, id) in fs && OneStage(fs)
    ensures OneStage(Moved(fs, t, from, to, id, e))
    ensures forall s :: Path(t, s, id) in Moved(fs, t, from, to, id, e) <==> s == to
  {
    var r := Moved(fs, t, from, to, id, e);
    forall p, q | p in r && q in r && p.topic == q.topic && p.id == q.id ensures p.stage == q.stage {
      if p != Path(t, to, id) && q != Path(t, to, id) {
        assert p in fs && q in fs;
      }
    }
    forall s ensures Path(t, s, id) in r <==> s == to {
      if s != to && s != from {
        assert Path(t, s, id) !in fs;
      }
    }
  }

  /** A move of a well-stamped file keeps the files stamped. */
  lemma MovedStamped(fs: Fs, t: Topic, from: Stage, to: Stage, id: JobId, e: Entry, clock: nat, nextId: nat)
    requires Stamped(fs, clock, nextId) && Path(t, from, id) in fs && e.record.id == id && e.mtime < clock
    ensures Stamped(Moved(fs, t, from, to, id, e), clock, nextId)
  {
  }

  /** A move of a retryable record (or into a terminal stage) keeps the attempt bound. */
  lemma MovedBounded(fs: Fs, t: Topic, from: Stage, to: Stage, id: JobId, e: Entry, maxAttempts: int)
    requires Bounded(fs, maxAttempts) && (Live(to) ==> Retryable(e.record, maxAttempts))
    ensures Bounded(Moved(fs, t, from, to, id, e), maxAttempts)
  {
  }

  /** Removing a topic keeps every invariant and every other topic's jobs. */
  lemma PurgeKeeps(fs: Fs, t: Topic, clock: nat, nextId: nat, maxAttempts: int)
    ensures forall u, id :: u != t ==> (Holds(Purge(fs, t), u, id) <==> Holds(fs, u, id))
    ensures Stamped(fs, clock, nextId) ==> Stamped(Purge(fs, t), clock, nextId)
    ensures OneStage(fs) ==> OneStage(Purge(fs, t))
    ensures Bounded(fs, maxAttempts) ==> Bounded(Purge(fs, t), maxAttempts)
  {
  }
}
