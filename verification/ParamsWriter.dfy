/**
 Parameters as files. A put writes a temporary file and renames it into place; a non-blocking put queues
 the pair for a writer task started on demand. Every file-system call, queue operation and readiness check
 is a step of its own, and the steps of all threads and processes interleave freely.
 */
module ParamsWriter {
  import opened Sequences
  import opened Wrappers

  datatype Entry = Entry(key: string, value: string)

  // ----- The disk -----

  /** Who makes a file: the writer task of the object under study, or any other thread or process. */
  datatype Thread = Writer | Other(id: nat)

  /** A file's contents, with a record of the put that made it; `whole` once its write has completed. */
  datatype Inode = Inode(owner: Thread, entry: Entry, content: string, whole: bool)

  /** The parameter directory and every file ever made; the number of a file is its position. */
  datatype Disk = Disk(dir: map<string, nat>, inodes: seq<Inode>)

  /** What a put returns when its write fails or falls short. */
  const WRITE_FAILED := -20

  /** Where a put is; `Finished` says what it returned, zero for success. */
  datatype PutAt =
    | Creating(e: Entry) | Filling(e: Entry, inode: nat) | Syncing(e: Entry, inode: nat)
    | Renaming(e: Entry, inode: nat) | SyncingDir(e: Entry) | Finished(e: Entry, result: int)

  /** How the next system call goes: whether it succeeds, and for a write how much it wrote. */
  datatype Outcome = Outcome(ok: bool, written: nat)

  /** One system call of a put by `t`. A failed or short call removes the temporary file and ends the put. */
  function StepPut(d: Disk, t: Thread, p: PutAt, o: Outcome): (Disk, PutAt) {
    match p
    case Creating(e) =>
      if o.ok then (d.(inodes := d.inodes + [Inode(t, e, "", false)]), Filling(e, |d.inodes|))
      else (d, Finished(e, -1))
    case Filling(e, n) =>
      if !o.ok || n >= |d.inodes| then (d, Finished(e, WRITE_FAILED))
      else
        var m := if o.written < |e.value| then o.written else |e.value|;
        (d.(inodes := d.inodes[n := d.inodes[n].(content := e.value[..m], whole := m == |e.value|)]),
         if m == |e.value| then Syncing(e, n) else Finished(e, WRITE_FAILED))
    case Syncing(e, n) => (d, if o.ok then Renaming(e, n) else Finished(e, -1))
    case Renaming(e, n) => if o.ok then (d.(dir := d.dir[e.key := n]), SyncingDir(e)) else (d, Finished(e, -1))
    case SyncingDir(e) => (d, Finished(e, if o.ok then 0 else -1))
    case Finished(_, _) => (d, p)
  }

  /** What is in place is whole and belongs under its name; whole files hold the value they were made for. */
  ghost predicate DiskInv(d: Disk) {
    && (forall i :: 0 <= i < |d.inodes| && d.inodes[i].whole ==> d.inodes[i].content == d.inodes[i].entry.value)
    && (forall k :: k in d.dir ==>
          d.dir[k] < |d.inodes| && d.inodes[d.dir[k]].whole && d.inodes[d.dir[k]].entry.key == k)
  }

  /** A put owns the file it fills, and goes on only with a whole one. */
  predicate PutInv(d: Disk, t: Thread, p: PutAt) {
    match p
    case Filling(e, n) => n < |d.inodes| && d.inodes[n].owner == t && d.inodes[n].entry == e && !d.inodes[n].whole
    case Syncing(e, n) => n < |d.inodes| && d.inodes[n].entry == e && d.inodes[n].whole
    case Renaming(e, n) => n < |d.inodes| && d.inodes[n].entry == e && d.inodes[n].whole
    case _ => true
  }

  /** What a call by `t` may do to the files: make more, and fill in a file of its own that is not yet whole. */
  ghost predicate Extends(d: Disk, t: Thread, n: Disk) {
    && |d.inodes| <= |n.inodes|
    && forall i :: 0 <= i < |d.inodes| ==>
         && n.inodes[i].owner == d.inodes[i].owner && n.inodes[i].entry == d.inodes[i].entry
         && (d.inodes[i].whole || d.inodes[i].owner != t ==> n.inodes[i] == d.inodes[i])
  }

  lemma StepPutKeeps(d: Disk, t: Thread, p: PutAt, o: Outcome)
    requires DiskInv(d) && PutInv(d, t, p)
    ensures var (n, q) := StepPut(d, t, p, o);
            DiskInv(n) && PutInv(n, t, q) && Extends(d, t, n) && q.e == p.e
  {
  }

  // ----- The queue -----

  class SafeQueue<T> {
    var q: seq<T>

    constructor ()
      ensures q == []
    {
      q := [];
    }

    method Push(v: T)
      modifies this
      ensures q == old(q) + [v]
    {
      q := q + [v];
    }

    /** The front, unless the queue is empty. */
    method TryPop() returns (v: Option<T>)
      modifies this
      ensures if old(q) == [] then v == None && q == [] else v.Some? && old(q) == [v.value] + q
    {
      if |q| == 0 {
        return None;
      }
      v, q := Some(q[0]), q[1..];
    }

    method Empty() returns (b: bool)
      ensures b <==> q == []
    {
      b := |q| == 0;
    }
  }

  // ----- The object, its methods run without interruption -----

  /** How the five system calls of a put go. */
  datatype Calls = Calls(mkstemp: Outcome, write: Outcome, fsync: Outcome, rename: Outcome, fsyncDir: Outcome)

  /** A put from its first system call to its end. */
  function PutAll(d: Disk, e: Entry, c: Calls): (Disk, PutAt) {
    var (d1, p1) := StepPut(d, Writer, Creating(e), c.mkstemp);
    var (d2, p2) := StepPut(d1, Writer, p1, c.write);
    var (d3, p3) := StepPut(d2, Writer, p2, c.fsync);
    var (d4, p4) := StepPut(d3, Writer, p3, c.rename);
    StepPut(d4, Writer, p4, c.fsyncDir)
  }

  /** The puts of a drained queue, one after the other. */
  function PutEach(d: Disk, entries: seq<Entry>, cs: seq<Calls>): Disk
    requires |entries| <= |cs|
    decreases |entries|
  {
    if entries == [] then d else PutEach(PutAll(d, entries[0], cs[0]).0, entries[1..], cs[1..])
  }

  class Params {
    var disk: Disk
    const queue: SafeQueue<Entry>

    constructor (d: Disk)
      ensures disk == d && fresh(queue) && queue.q == []
    {
      disk := d;
      queue := new SafeQueue();
    }

    /** A call that fails before the rename leaves nothing in place; the result tells which kind of failure it was. */
    method Put(e: Entry, c: Calls) returns (result: int)
      modifies this
      ensures (disk, Finished(e, result)) == PutAll(old(disk), e, c)
    {
      if !c.mkstemp.ok {
        return -1;
      }
      var tmp := |disk.inodes|;
      disk := disk.(inodes := disk.inodes + [Inode(Writer, e, "", false)]);
      if !c.write.ok {
        return WRITE_FAILED;
      }
      var written := if c.write.written < |e.value| then c.write.written else |e.value|;
      disk := disk.(inodes := disk.inodes[tmp := Inode(Writer, e, e.value[..written], written == |e.value|)]);
      if written != |e.value| {
        return WRITE_FAILED;
      }
      if !c.fsync.ok || !c.rename.ok {
        return -1;
      }
      disk := disk.(dir := disk.dir[e.key := tmp]);
      return if c.fsyncDir.ok then 0 else -1;
    }

    /** Drains the queue in order, whatever becomes of each put. */
    method AsyncWriteThread(cs: seq<Calls>)
      requires |queue.q| <= |cs|
      modifies this, queue
      ensures queue.q == [] && disk == PutEach(old(disk), old(queue.q), cs)
    {
      ghost var rest := cs;
      var i := 0;
      var p := queue.TryPop();
      while p.Some?
        invariant i <= |cs| && rest == cs[i..]
        invariant p.Some? ==> |queue.q| < |rest|
        invariant p.None? ==> queue.q == []
        invariant (if p.Some? then PutEach(disk, [p.value] + queue.q, rest) else disk)
                  == PutEach(old(disk), old(queue.q), cs)
        decreases p.Some?, |queue.q|
      {
        var _ := Put(p.value, cs[i]);
        i, rest := i + 1, rest[1..];
        p := queue.TryPop();
      }
    }
  }

  // ----- The object and its environment -----

  datatype TaskAt = Popping | Working(put: PutAt) | Ended | Ready

  /** The one calling thread: outside, between its push and its readiness check, or about to start a task. */
  datatype CallerAt = Outside | Pushed | Starting

  /** A concurrent `get`, between opening the file and reaching its end. */
  datatype ReaderAt =
    | NotReading
    | Reading(key: string, inode: nat, sofar: string)
    | Returned(key: string, inode: nat, value: string)

  datatype State = State(
    disk: Disk, others: map<nat, PutAt>, reader: ReaderAt,
    queue: seq<Entry>, tasks: seq<TaskAt>, caller: CallerAt,
    calls: seq<Entry>, attempted: seq<Entry>)

  datatype Action =
    | Push(e: Entry) | CheckFuture | StartTask | TaskStep(i: nat, o: Outcome)
    | StartPut(id: nat, e: Entry) | PutStep(id: nat, o: Outcome) | Remove(key: string)
    | Open(key: string) | ReadSome(count: nat)

  /** The future is invalid until the first task; it is the last task's. */
  predicate FutureReady(s: State) {
    s.tasks == [] || s.tasks[|s.tasks| - 1] == Ready
  }

  predicate Enabled(s: State, a: Action) {
    match a
    case Push(_) => s.caller == Outside
    case CheckFuture => s.caller == Pushed
    case StartTask => s.caller == Starting
    case TaskStep(i, _) => i < |s.tasks| && s.tasks[i] != Ready
    case StartPut(id, _) => id in s.others ==> s.others[id].Finished?
    case PutStep(id, _) => id in s.others
    case Remove(_) => true
    case Open(key) => !s.reader.Reading? && key in s.disk.dir
    case ReadSome(_) => s.reader.Reading?
  }

  function StepTask(s: State, i: nat, o: Outcome): State
    requires i < |s.tasks|
  {
    match s.tasks[i]
    case Popping =>
      if s.queue == [] then s.(tasks := s.tasks[i := Ended])
      else s.(tasks := s.tasks[i := Working(Creating(s.queue[0]))], queue := s.queue[1..])
    case Working(p) =>
      if p.Finished? then s.(tasks := s.tasks[i := Popping], attempted := s.attempted + [p.e])
      else
        var (d, q) := StepPut(s.disk, Writer, p, o);
        s.(disk := d, tasks := s.tasks[i := Working(q)])
    case Ended => s.(tasks := s.tasks[i := Ready])
    case Ready => s
  }

  /** The next piece of an open file, at least one character of it; none is left at its end. */
  function StepReader(d: Disk, r: ReaderAt, count: nat): ReaderAt {
    match r
    case Reading(key, n, sofar) =>
      if n >= |d.inodes| then NotReading
      else
        var content := d.inodes[n].content;
        if |sofar| >= |content| then Returned(key, n, sofar)
        else
          var end := if |sofar| + count < |content| then |sofar| + count else |content|;
          Reading(key, n, sofar + content[|sofar|..end])
    case _ => r
  }

  function Apply(s: State, a: Action): State
    requires Enabled(s, a)
  {
    match a
    case Push(e) => s.(queue := s.queue + [e], calls := s.calls + [e], caller := Pushed)
    case CheckFuture => s.(caller := if FutureReady(s) then Starting else Outside)
    case StartTask => s.(tasks := s.tasks + [Popping], caller := Outside)
    case TaskStep(i, o) => StepTask(s, i, o)
    case StartPut(id, e) => s.(others := s.others[id := Creating(e)])
    case PutStep(id, o) =>
      var (d, q) := StepPut(s.disk, Other(id), s.others[id], o);
      s.(disk := d, others := s.others[id := q])
    case Remove(key) => s.(disk := s.disk.(dir := s.disk.dir - {key}))
    case Open(key) => s.(reader := Reading(key, s.disk.dir[key], ""))
    case ReadSome(count) => s.(reader := StepReader(s.disk, s.reader, count))
  }

  function Start(d: Disk): State {
    State(d, map[], NotReading, [], [], Outside, [], [])
  }

  ghost predicate Next(trace: seq<State>, run: seq<Action>, k: nat)
    requires k < |run| < |trace|
  {
    Enabled(trace[k], run[k]) && trace[k + 1] == Apply(trace[k], run[k])
  }

  /** Any interleaving, from a new object over any sound disk. */
  ghost predicate IsRun(trace: seq<State>, run: seq<Action>) {
    && |trace| == |run| + 1 && DiskInv(trace[0].disk) && trace[0] == Start(trace[0].disk)
    && forall k :: 0 <= k < |run| ==> Next(trace, run, k)
  }

  // ----- The invariant -----

  /** The entry in the writer's hand. */
  function Hand(s: State): seq<Entry> {
    if s.tasks != [] && s.tasks[|s.tasks| - 1].Working? then [s.tasks[|s.tasks| - 1].put.e] else []
  }

  predicate TasksInv(s: State) {
    && (forall i :: 0 <= i < |s.tasks| - 1 ==> s.tasks[i] == Ready)
    && (s.caller == Starting ==> FutureReady(s))
    && (s.caller == Outside && s.tasks == [] ==> s.queue == [])
    && s.calls == s.attempted + Hand(s) + s.queue
  }

  predicate ReaderInv(d: Disk, r: ReaderAt) {
    match r
    case NotReading => true
    case Reading(key, n, sofar) =>
      && n < |d.inodes| && d.inodes[n].whole && d.inodes[n].entry.key == key
      && sofar <= d.inodes[n].entry.value
    case Returned(key, n, value) => n < |d.inodes| && d.inodes[n].whole && d.inodes[n].entry == Entry(key, value)
  }

  predicate WriterInv(s: State) {
    s.tasks != [] && s.tasks[|s.tasks| - 1].Working? ==> PutInv(s.disk, Writer, s.tasks[|s.tasks| - 1].put)
  }

  ghost predicate OthersInv(d: Disk, others: map<nat, PutAt>) {
    forall id :: id in others ==> PutInv(d, Other(id), others[id])
  }

  ghost predicate Inv(s: State) {
    TasksInv(s) && WriterInv(s) && DiskInv(s.disk) && OthersInv(s.disk, s.others) && ReaderInv(s.disk, s.reader)
  }

  lemma PutUndisturbed(d: Disk, t: Thread, n: Disk, u: Thread, p: PutAt)
    requires Extends(d, t, n) && t != u && PutInv(d, u, p)
    ensures PutInv(n, u, p)
  {
  }

  lemma TaskKeeps(s: State, i: nat, o: Outcome)
    requires Inv(s) && Enabled(s, TaskStep(i, o))
    ensures Inv(StepTask(s, i, o))
  {
    assert i == |s.tasks| - 1;
    var n := StepTask(s, i, o);
    if s.tasks[i].Working? {
      StepPutKeeps(s.disk, Writer, s.tasks[i].put, o);
      forall id | id in s.others
        ensures PutInv(n.disk, Other(id), s.others[id])
      {
        PutUndisturbed(s.disk, Writer, n.disk, Other(id), s.others[id]);
      }
    }
  }

  lemma PutKeeps(s: State, id: nat, o: Outcome)
    requires Inv(s) && id in s.others
    ensures Inv(Apply(s, PutStep(id, o)))
  {
    var n := Apply(s, PutStep(id, o));
    StepPutKeeps(s.disk, Other(id), s.others[id], o);
    forall other | other in n.others
      ensures PutInv(n.disk, Other(other), n.others[other])
    {
      if other != id {
        PutUndisturbed(s.disk, Other(id), n.disk, Other(other), s.others[other]);
      }
    }
  }

  lemma ReaderKeeps(d: Disk, r: ReaderAt, count: nat)
    requires DiskInv(d) && ReaderInv(d, r)
    ensures ReaderInv(d, StepReader(d, r, count))
  {
  }

  lemma StepKeeps(s: State, a: Action)
    requires Inv(s) && Enabled(s, a)
    ensures Inv(Apply(s, a))
  {
    match a
    case TaskStep(i, o) => TaskKeeps(s, i, o);
    case PutStep(id, o) => PutKeeps(s, id, o);
    case ReadSome(count) => ReaderKeeps(s.disk, s.reader, count);
    case _ =>
  }

  lemma {:induction false} RunInv(trace: seq<State>, run: seq<Action>, k: nat)
    requires IsRun(trace, run) && k <= |run|
    ensures Inv(trace[k])
  {
    if k > 0 {
      RunInv(trace, run, k - 1);
      assert Next(trace, run, k - 1);
      StepKeeps(trace[k - 1], run[k - 1]);
    }
  }

  // ----- What every run guarantees -----

  /** At most one writer task is alive, and nothing queued is lost, repeated or reordered. */
  lemma OneWriterInOrder(trace: seq<State>, run: seq<Action>, k: nat, i: nat, j: nat)
    requires IsRun(trace, run) && k <= |run|
    requires i < |trace[k].tasks| && j < |trace[k].tasks| && trace[k].tasks[i] != Ready && trace[k].tasks[j] != Ready
    ensures i == j
  {
    RunInv(trace, run, k);
  }

  lemma NothingLost(trace: seq<State>, run: seq<Action>, k: nat)
    requires IsRun(trace, run) && k <= |run|
    ensures trace[k].calls == trace[k].attempted + Hand(trace[k]) + trace[k].queue
  {
    RunInv(trace, run, k);
  }

  lemma FilesStay(s: State, a: Action)
    requires Inv(s) && Enabled(s, a)
    ensures var n := Apply(s, a);
            && |s.disk.inodes| <= |n.disk.inodes|
            && forall i :: 0 <= i < |s.disk.inodes| ==> n.disk.inodes[i].entry == s.disk.inodes[i].entry
  {
    match a
    case TaskStep(i, o) =>
      assert i == |s.tasks| - 1;
      if s.tasks[i].Working? {
        StepPutKeeps(s.disk, Writer, s.tasks[i].put, o);
      }
    case PutStep(id, o) => StepPutKeeps(s.disk, Other(id), s.others[id], o);
    case _ =>
  }

  /** A reader with an open or finished file: which key and file it is. */
  predicate Opened(s: State, key: string, inode: nat) {
    match s.reader
    case NotReading => false
    case Reading(k, n, _) => k == key && n == inode
    case Returned(k, n, _) => k == key && n == inode
  }

  /** The file a reader has was in place under its key when it was opened, as it is now. */
  lemma {:induction false} OpenedInPlace(trace: seq<State>, run: seq<Action>, k: nat, key: string, inode: nat)
    returns (i: nat)
    requires IsRun(trace, run) && k <= |run| && Opened(trace[k], key, inode)
    ensures i < k && key in trace[i].disk.dir && trace[i].disk.dir[key] == inode && inode < |trace[i].disk.inodes|
    ensures inode < |trace[k].disk.inodes| && trace[k].disk.inodes[inode].entry == trace[i].disk.inodes[inode].entry
  {
    RunInv(trace, run, k - 1);
    assert Next(trace, run, k - 1);
    FilesStay(trace[k - 1], run[k - 1]);
    if Opened(trace[k - 1], key, inode) {
      i := OpenedInPlace(trace, run, k - 1, key, inode);
    } else {
      i := k - 1;
    }
  }

  /** What a concurrent reader returns for a key is, all of it, the value that was in place when it opened the file. */
  lemma ReadersSeeWholeValues(trace: seq<State>, run: seq<Action>, k: nat) returns (i: nat)
    requires IsRun(trace, run) && k <= |run| && trace[k].reader.Returned?
    ensures var r := trace[k].reader;
            && i < k && r.key in trace[i].disk.dir && trace[i].disk.dir[r.key] == r.inode < |trace[i].disk.inodes|
            && trace[i].disk.inodes[r.inode].content == r.value
            && trace[i].disk.inodes[r.inode].entry == Entry(r.key, r.value)
  {
    RunInv(trace, run, k);
    var r := trace[k].reader;
    i := OpenedInPlace(trace, run, k, r.key, r.inode);
    RunInv(trace, run, i);
  }

  // ----- Refinement: the store is its changes, one after the other -----

  function View(d: Disk): map<string, string> {
    map k | k in d.dir && d.dir[k] < |d.inodes| :: d.inodes[d.dir[k]].content
  }

  /** What can be seen to happen to the store. */
  datatype Change = Set(e: Entry) | Unset(key: string)

  function Made(m: map<string, string>, c: Change): map<string, string> {
    match c
    case Set(e) => m[e.key := e.value]
    case Unset(key) => m - {key}
  }

  function Replay(base: map<string, string>, changes: seq<Change>): map<string, string> {
    if changes == [] then base else Made(Replay(base, changes[..|changes| - 1]), changes[|changes| - 1])
  }

  function Puts(entries: seq<Entry>): seq<Change> {
    seq(|entries|, i requires 0 <= i < |entries| => Set(entries[i]))
  }

  lemma {:induction false} ReplayOne(base: map<string, string>, changes: seq<Change>, c: Change)
    ensures Replay(base, changes + [c]) == Made(Replay(base, changes), c)
  {
    assert (changes + [c])[..|changes|] == changes;
  }

  lemma {:induction false} ReplayAppends(base: map<string, string>, a: seq<Change>, b: seq<Change>)
    ensures Replay(base, a + b) == Replay(Replay(base, a), b)
  {
    if b == [] {
      assert a + b == a;
    } else {
      assert (a + b)[..|a + b| - 1] == a + b[..|b| - 1];
      ReplayAppends(base, a, b[..|b| - 1]);
    }
  }

  /** Of all the calls of a put only a rename that succeeds shows. */
  function PutChange(p: PutAt, o: Outcome): seq<Change> {
    if p.Renaming? && o.ok then [Set(p.e)] else []
  }

  /** What a step changes of the store: a rename that succeeds, whoever's it is, and a removal. */
  function ChangeOf(s: State, a: Action): seq<Change> {
    match a
    case TaskStep(i, o) => if i < |s.tasks| && s.tasks[i].Working? then PutChange(s.tasks[i].put, o) else []
    case PutStep(id, o) => if id in s.others then PutChange(s.others[id], o) else []
    case Remove(key) => [Unset(key)]
    case _ => []
  }

  lemma PutView(d: Disk, t: Thread, p: PutAt, o: Outcome)
    requires DiskInv(d) && PutInv(d, t, p)
    ensures View(StepPut(d, t, p, o).0) == if p.Renaming? && o.ok then View(d)[p.e.key := p.e.value] else View(d)
  {
  }

  lemma PutReplays(d: Disk, t: Thread, p: PutAt, o: Outcome)
    requires DiskInv(d) && PutInv(d, t, p)
    ensures View(StepPut(d, t, p, o).0) == Replay(View(d), PutChange(p, o))
  {
    PutView(d, t, p, o);
    if p.Renaming? && o.ok {
      assert [Set(p.e)] == [] + [Set(p.e)];
      ReplayOne(View(d), [], Set(p.e));
    }
  }

  /** Every step changes the store as `ChangeOf` says, and no other way. */
  lemma ChangeShows(s: State, a: Action)
    requires Inv(s) && Enabled(s, a)
    ensures View(Apply(s, a).disk) == Replay(View(s.disk), ChangeOf(s, a))
  {
    match a
    case TaskStep(i, o) => TaskChangeShows(s, i, o);
    case PutStep(id, o) => PutReplays(s.disk, Other(id), s.others[id], o);
    case Remove(key) => RemoveShows(s.disk, key);
    case _ =>
  }

  lemma TaskChangeShows(s: State, i: nat, o: Outcome)
    requires Inv(s) && Enabled(s, TaskStep(i, o))
    ensures View(StepTask(s, i, o).disk) == Replay(View(s.disk), ChangeOf(s, TaskStep(i, o)))
  {
    assert i == |s.tasks| - 1;
    if s.tasks[i].Working? && !s.tasks[i].put.Finished? {
      PutReplays(s.disk, Writer, s.tasks[i].put, o);
    }
  }

  lemma RemoveShows(d: Disk, key: string)
    requires DiskInv(d)
    ensures View(d.(dir := d.dir - {key})) == Replay(View(d), [Unset(key)])
  {
    assert [Unset(key)] == [] + [Unset(key)];
    ReplayOne(View(d), [], Unset(key));
  }

  function Changes(trace: seq<State>, run: seq<Action>, k: nat): seq<seq<Change>>
    requires k <= |run| < |trace|
  {
    seq(k, i requires 0 <= i < k => ChangeOf(trace[i], run[i]))
  }

  /** All that changed the store in the first steps of a run, in order. */
  function History(trace: seq<State>, run: seq<Action>, k: nat): seq<Change>
    requires k <= |run| < |trace|
  {
    Flatten(Changes(trace, run, k))
  }

  lemma HistoryStep(trace: seq<State>, run: seq<Action>, k: nat)
    requires 0 < k <= |run| < |trace|
    ensures History(trace, run, k) == History(trace, run, k - 1) + ChangeOf(trace[k - 1], run[k - 1])
  {
    FlattenOneMore(Changes(trace, run, k - 1), ChangeOf(trace[k - 1], run[k - 1]));
    assert Changes(trace, run, k) == Changes(trace, run, k - 1) + [ChangeOf(trace[k - 1], run[k - 1])];
  }

  /** Stores each of which is the one before it with some changes. */
  predicate Follow(views: seq<map<string, string>>, changes: seq<seq<Change>>) {
    |views| == |changes| + 1 && forall i :: 0 <= i < |changes| ==> views[i + 1] == Replay(views[i], changes[i])
  }

  lemma {:induction false} FollowReplays(views: seq<map<string, string>>, changes: seq<seq<Change>>)
    requires Follow(views, changes)
    ensures views[|changes|] == Replay(views[0], Flatten(changes))
    decreases |changes|
  {
    var n := |changes|;
    if n > 0 {
      FollowReplays(views[..n], changes[..n - 1]);
      ReplayAppends(views[0], Flatten(changes[..n - 1]), changes[n - 1]);
    }
  }

  /** In every interleaving, with failures, other writers and removals, the store replays its changes in order. */
  lemma StoreReplaysChanges(trace: seq<State>, run: seq<Action>, k: nat)
    requires IsRun(trace, run) && k <= |run|
    ensures View(trace[k].disk) == Replay(View(trace[0].disk), History(trace, run, k))
  {
    var views := seq(k + 1, i requires 0 <= i <= k => View(trace[i].disk));
    var changes := Changes(trace, run, k);
    forall i | 0 <= i < k
      ensures views[i + 1] == Replay(views[i], changes[i])
    {
      NextChange(trace, run, i);
    }
    FollowReplays(views, changes);
  }

  lemma NextChange(trace: seq<State>, run: seq<Action>, k: nat)
    requires IsRun(trace, run) && k < |run|
    ensures View(trace[k + 1].disk) == Replay(View(trace[k].disk), ChangeOf(trace[k], run[k]))
  {
    RunInv(trace, run, k);
    assert Next(trace, run, k);
    ChangeShows(trace[k], run[k]);
  }

  // ----- The writer's share of the changes -----

  /** The calls the writer has put in place or failed to: those attempted, and the one in hand past its rename. */
  function Placed(s: State): seq<Entry> {
    var last := if s.tasks == [] then Popping else s.tasks[|s.tasks| - 1];
    s.attempted + (if last.Working? && (last.put.SyncingDir? || last.put.Finished?) then [last.put.e] else [])
  }

  /** The placed calls are the first so many, and with nothing queued or in hand all of them. */
  lemma PlacedIsPrefix(s: State)
    requires TasksInv(s)
    ensures Placed(s) <= s.calls
    ensures s.queue == [] && FutureReady(s) ==> Placed(s) == s.calls
  {
  }

  /** The writer's own change in a step. */
  function WriterChange(s: State, a: Action): seq<Entry> {
    match a
    case TaskStep(i, o) =>
      if i < |s.tasks| && s.tasks[i].Working? && s.tasks[i].put.Renaming? && o.ok then [s.tasks[i].put.e] else []
    case _ => []
  }

  function WriterSteps(trace: seq<State>, run: seq<Action>, k: nat): seq<seq<Entry>>
    requires k <= |run| < |trace|
  {
    seq(k, i requires 0 <= i < k => WriterChange(trace[i], run[i]))
  }

  /** All the writer put in place in the first steps of a run. */
  function WriterChanges(trace: seq<State>, run: seq<Action>, k: nat): seq<Entry>
    requires k <= |run| < |trace|
  {
    Flatten(WriterSteps(trace, run, k))
  }

  /** `a` is what is left of `b` when some of it is dropped. */
  predicate IsPartOf(a: seq<Entry>, b: seq<Entry>) {
    || a == []
    || (&& b != []
        && (|| IsPartOf(a, b[..|b| - 1])
            || (a[|a| - 1] == b[|b| - 1] && IsPartOf(a[..|a| - 1], b[..|b| - 1]))))
  }

  lemma {:induction false} PartGrows(a: seq<Entry>, b: seq<Entry>, e: Entry)
    requires IsPartOf(a, b)
    ensures IsPartOf(a, b + [e]) && IsPartOf(a + [e], b + [e])
  {
    assert (b + [e])[..|b|] == b && (a + [e])[..|a|] == a;
  }

  /** At most one call is placed, and nothing else is put in place. */
  predicate PlacesOne(placed: seq<Entry>, own: seq<Entry>, next: seq<Entry>) {
    || (next == placed && own == [])
    || (|next| == |placed| + 1 && next == placed + [next[|placed|]] && (own == [] || own == [next[|placed|]]))
  }

  predicate Places(s: State, a: Action, n: State) {
    PlacesOne(Placed(s), WriterChange(s, a), Placed(n))
  }

  lemma TaskPlaces(s: State, i: nat, o: Outcome)
    requires Inv(s) && Enabled(s, TaskStep(i, o))
    ensures Places(s, TaskStep(i, o), StepTask(s, i, o))
  {
    assert i == |s.tasks| - 1;
  }

  lemma StepPlaces(s: State, a: Action)
    requires Inv(s) && Enabled(s, a)
    ensures Places(s, a, Apply(s, a))
  {
    match a
    case TaskStep(i, o) => TaskPlaces(s, i, o);
    case _ =>
  }

  lemma NextPlaces(trace: seq<State>, run: seq<Action>, k: nat)
    requires IsRun(trace, run) && k < |run|
    ensures Places(trace[k], run[k], trace[k + 1])
  {
    RunInv(trace, run, k);
    assert Next(trace, run, k);
    StepPlaces(trace[k], run[k]);
  }

  /** Placed calls one step after the other, from none, with what each step puts in place. */
  predicate PlacedAlong(placed: seq<seq<Entry>>, own: seq<seq<Entry>>) {
    && |placed| == |own| + 1 && placed[0] == []
    && forall i :: 0 <= i < |own| ==> PlacesOne(placed[i], own[i], placed[i + 1])
  }

  lemma {:induction false} AlongIsPart(placed: seq<seq<Entry>>, own: seq<seq<Entry>>)
    requires PlacedAlong(placed, own)
    ensures IsPartOf(Flatten(own), placed[|own|])
    decreases |own|
  {
    var n := |own|;
    if n > 0 {
      AlongIsPart(placed[..n], own[..n - 1]);
      OnePlaced(Flatten(own[..n - 1]), placed[n - 1], own[n - 1], placed[n]);
    }
  }

  lemma {:induction false} OnePlaced(done: seq<Entry>, placed: seq<Entry>, own: seq<Entry>, next: seq<Entry>)
    requires IsPartOf(done, placed) && PlacesOne(placed, own, next)
    ensures IsPartOf(done + own, next)
  {
    assert done + [] == done;
    if next != placed {
      PartGrows(done, placed, next[|placed|]);
    }
  }

  /** In every interleaving the writer puts the calls in place in order, each at most once, but for failures. */
  lemma WriterKeepsOrder(trace: seq<State>, run: seq<Action>, k: nat)
    requires IsRun(trace, run) && k <= |run|
    ensures IsPartOf(WriterChanges(trace, run, k), Placed(trace[k])) && Placed(trace[k]) <= trace[k].calls
  {
    var placed := seq(k + 1, i requires 0 <= i <= k => Placed(trace[i]));
    var own := WriterSteps(trace, run, k);
    forall i | 0 <= i < k
      ensures PlacesOne(placed[i], own[i], placed[i + 1])
    {
      NextPlaces(trace, run, i);
    }
    AlongIsPart(placed, own);
    RunInv(trace, run, k);
    PlacedIsPrefix(trace[k]);
  }

  // ----- Without other writers and failures -----

  /** No one else writes, and no system call of the writer fails. */
  predicate Quiet(s: State, a: Action) {
    match a
    case StartPut(_, _) => false
    case PutStep(_, _) => false
    case Remove(_) => false
    case TaskStep(i, o) => o.ok && (i < |s.tasks| && s.tasks[i].Working? ==> o.written >= |s.tasks[i].put.e.value|)
    case _ => true
  }

  ghost predicate QuietTo(trace: seq<State>, run: seq<Action>, n: nat) {
    IsRun(trace, run) && n <= |run| && forall i :: 0 <= i < n ==> Quiet(trace[i], run[i])
  }

  /** Then whatever is placed is put in place. */
  predicate PlacesAll(s: State, a: Action, n: State) {
    Placed(n) == Placed(s) + WriterChange(s, a) && ChangeOf(s, a) == Puts(WriterChange(s, a))
  }

  lemma QuietPlaces(s: State, a: Action)
    requires Inv(s) && Enabled(s, a) && Quiet(s, a)
    ensures PlacesAll(s, a, Apply(s, a))
  {
    match a
    case TaskStep(i, o) =>
      assert i == |s.tasks| - 1;
      TaskPlaces(s, i, o);
    case _ =>
  }

  lemma NextPlacesAll(trace: seq<State>, run: seq<Action>, n: nat, k: nat)
    requires QuietTo(trace, run, n) && k < n
    ensures PlacesAll(trace[k], run[k], trace[k + 1])
  {
    RunInv(trace, run, k);
    assert Next(trace, run, k);
    QuietPlaces(trace[k], run[k]);
  }

  lemma {:induction false} QuietHistory(trace: seq<State>, run: seq<Action>, n: nat, k: nat)
    requires QuietTo(trace, run, n) && k <= n
    ensures History(trace, run, k) == Puts(Placed(trace[k]))
    decreases k
  {
    if k == 0 {
      assert Placed(trace[0]) == [];
    } else {
      QuietHistory(trace, run, n, k - 1);
      NextPlacesAll(trace, run, n, k - 1);
      HistoryStep(trace, run, k);
      PlacesAllKeeps(History(trace, run, k - 1), trace[k - 1], run[k - 1], trace[k]);
    }
  }

  lemma PlacesAllKeeps(past: seq<Change>, s: State, a: Action, n: State)
    requires PlacesAll(s, a, n) && past == Puts(Placed(s))
    ensures past + ChangeOf(s, a) == Puts(Placed(n))
  {
    PutsConcat(Placed(s), WriterChange(s, a));
  }

  lemma PutsConcat(a: seq<Entry>, b: seq<Entry>)
    ensures Puts(a + b) == Puts(a) + Puts(b)
  {
  }

  /** In a quiet run the files are, at every moment, the base with the placed calls put in order. */
  lemma StoreReplaysCalls(trace: seq<State>, run: seq<Action>, k: nat)
    requires IsRun(trace, run) && k <= |run|
    requires forall i :: 0 <= i < k ==> Quiet(trace[i], run[i])
    ensures View(trace[k].disk) == Replay(View(trace[0].disk), Puts(Placed(trace[k])))
  {
    StoreReplaysChanges(trace, run, k);
    QuietHistory(trace, run, k, k);
  }

  /** Quiet and drained: the files are what putting every call in order would have made. */
  lemma DrainedIsSequential(trace: seq<State>, run: seq<Action>, k: nat)
    requires IsRun(trace, run) && k <= |run| && FutureReady(trace[k]) && trace[k].queue == []
    requires forall i :: 0 <= i < k ==> Quiet(trace[i], run[i])
    ensures View(trace[k].disk) == Replay(View(trace[0].disk), Puts(trace[k].calls))
  {
    StoreReplaysCalls(trace, run, k);
    RunInv(trace, run, k);
    PlacedIsPrefix(trace[k]);
  }

  // ----- The draining loop -----

  predicate Succeeds(e: Entry, c: Calls) {
    c.mkstemp.ok && c.write.ok && c.write.written >= |e.value| && c.fsync.ok && c.rename.ok
  }

  /** A put that succeeds up to its rename shows, and one that does not changes nothing to be seen. */
  lemma PutShows(d: Disk, e: Entry, c: Calls)
    requires DiskInv(d)
    ensures DiskInv(PutAll(d, e, c).0)
    ensures View(PutAll(d, e, c).0) == if Succeeds(e, c) then View(d)[e.key := e.value] else View(d)
  {
    var r1 := ShowStep(d, Creating(e), c.mkstemp);
    var r2 := ShowStep(r1.0, r1.1, c.write);
    var r3 := ShowStep(r2.0, r2.1, c.fsync);
    var r4 := ShowStep(r3.0, r3.1, c.rename);
    var r5 := ShowStep(r4.0, r4.1, c.fsyncDir);
    assert r5.0 == PutAll(d, e, c).0;
    assert Succeeds(e, c) <==> r3.1.Renaming? && c.rename.ok;
  }

  /** What a put returns: zero exactly when every call went through, and the write's own code when that was to blame. */
  lemma ResultOfPut(d: Disk, e: Entry, c: Calls)
    ensures var p := PutAll(d, e, c).1;
            && p.Finished? && p.e == e
            && (p.result == 0 <==> Succeeds(e, c) && c.fsyncDir.ok)
            && (p.result == WRITE_FAILED <==> c.mkstemp.ok && (!c.write.ok || c.write.written < |e.value|))
            && p.result in {0, -1, WRITE_FAILED}
  {
    var (d1, p1) := StepPut(d, Writer, Creating(e), c.mkstemp);
    var (d2, p2) := StepPut(d1, Writer, p1, c.write);
    assert p2.Syncing? <==> c.mkstemp.ok && c.write.ok && c.write.written >= |e.value|;
  }

  lemma ShowStep(d: Disk, p: PutAt, o: Outcome) returns (r: (Disk, PutAt))
    requires DiskInv(d) && PutInv(d, Writer, p)
    ensures r == StepPut(d, Writer, p, o) && DiskInv(r.0) && PutInv(r.0, Writer, r.1) && r.1.e == p.e
    ensures View(r.0) == if p.Renaming? && o.ok then View(d)[p.e.key := p.e.value] else View(d)
  {
    r := StepPut(d, Writer, p, o);
    StepPutKeeps(d, Writer, p, o);
    PutView(d, Writer, p, o);
  }

  function Shown(entries: seq<Entry>, cs: seq<Calls>): seq<Entry>
    requires |entries| <= |cs|
  {
    if entries == [] then []
    else (if Succeeds(entries[0], cs[0]) then [entries[0]] else []) + Shown(entries[1..], cs[1..])
  }

  /** A drained queue shows as its successful puts, in order. */
  lemma {:induction false} PutEachReplays(d: Disk, entries: seq<Entry>, cs: seq<Calls>)
    requires DiskInv(d) && |entries| <= |cs|
    ensures View(PutEach(d, entries, cs)) == Replay(View(d), Puts(Shown(entries, cs)))
    decreases |entries|
  {
    if entries != [] {
      var first := if Succeeds(entries[0], cs[0]) then [entries[0]] else [];
      var rest := Shown(entries[1..], cs[1..]);
      PutShows(d, entries[0], cs[0]);
      PutEachReplays(PutAll(d, entries[0], cs[0]).0, entries[1..], cs[1..]);
      PutsConcat(first, rest);
      ReplayAppends(View(d), Puts(first), Puts(rest));
      if Succeeds(entries[0], cs[0]) {
        assert Puts(first) == [] + [Set(entries[0])];
        ReplayOne(View(d), [], Set(entries[0]));
      }
    }
  }

  // ----- Destroying the object -----

  /** The writer will look at the queue again. */
  predicate Looping(s: State) {
    s.tasks != [] && (s.tasks[|s.tasks| - 1] == Popping || s.tasks[|s.tasks| - 1].Working?)
  }

  lemma {:induction false} DrainedSoFar(trace: seq<State>, run: seq<Action>, i: nat, j: nat)
    requires IsRun(trace, run) && i <= j <= |run| && trace[i].caller == Outside
    requires forall k :: i <= k < j ==> !run[k].Push?
    ensures trace[j].caller == Outside
    ensures if trace[i].queue == [] then trace[j].queue == []
            else if Looping(trace[i]) then Looping(trace[j]) || trace[j].queue == []
            else !Looping(trace[j]) && trace[j].queue == trace[i].queue
    decreases j
  {
    if i < j {
      DrainedSoFar(trace, run, i, j - 1);
      RunInv(trace, run, j - 1);
      assert Next(trace, run, j - 1);
      DrainStep(trace[j - 1], run[j - 1]);
    }
  }

  lemma DrainStep(s: State, a: Action)
    requires Inv(s) && Enabled(s, a) && s.caller == Outside && !a.Push?
    ensures var n := Apply(s, a);
            && n.caller == Outside
            && (s.queue == [] ==> n.queue == [])
            && (Looping(s) ==> Looping(n) || n.queue == [])
            && (!Looping(s) ==> !Looping(n) && n.queue == s.queue)
  {
    match a
    case TaskStep(i, o) => assert i == |s.tasks| - 1;
    case _ =>
  }

  /**
   The destructor waits for the future and then requires an empty queue. With no more calls from where it
   starts, that holds exactly if the queue was empty then or the writer was still to look at it.
   */
  lemma DestructorSafe(trace: seq<State>, run: seq<Action>, i: nat, j: nat)
    requires IsRun(trace, run) && i <= j <= |run| && trace[i].caller == Outside
    requires forall k :: i <= k < j ==> !run[k].Push?
    requires FutureReady(trace[j])
    ensures trace[j].queue == [] <==> trace[i].queue == [] || Looping(trace[i])
  {
    DrainedSoFar(trace, run, i, j);
  }

  // ----- The writer and the reader come to an end -----

  function CallsLeft(p: PutAt): nat {
    match p
    case Creating(_) => 5
    case Filling(_, _) => 4
    case Syncing(_, _) => 3
    case Renaming(_, _) => 2
    case SyncingDir(_) => 1
    case Finished(_, _) => 0
  }

  /** Enough steps for the writer to take every entry, put it and look once more, and for its future to be ready. */
  function StepsLeft(s: State): nat {
    if s.tasks == [] then 0
    else
      match s.tasks[|s.tasks| - 1]
      case Popping => 7 * |s.queue| + 2
      case Working(p) => CallsLeft(p) + 1 + 7 * |s.queue| + 2
      case Ended => 1
      case Ready => 0
  }

  function TaskSteps(run: seq<Action>): nat {
    if run == [] then 0 else TaskSteps(run[..|run| - 1]) + (if run[|run| - 1].TaskStep? then 1 else 0)
  }

  lemma TaskComesNearer(s: State, i: nat, o: Outcome)
    requires Inv(s) && Enabled(s, TaskStep(i, o))
    ensures StepsLeft(StepTask(s, i, o)) < StepsLeft(s)
  {
    assert i == |s.tasks| - 1;
  }

  lemma OthersLeaveSteps(s: State, a: Action)
    requires Enabled(s, a) && s.caller == Outside && !a.Push? && !a.TaskStep?
    ensures StepsLeft(Apply(s, a)) == StepsLeft(s)
  {
  }

  lemma {:induction false} StepsAreTaken(trace: seq<State>, run: seq<Action>, i: nat, j: nat)
    requires IsRun(trace, run) && i <= j <= |run| && trace[i].caller == Outside
    requires forall k :: i <= k < j ==> !run[k].Push?
    ensures TaskSteps(run[i..j]) + StepsLeft(trace[j]) <= StepsLeft(trace[i])
    decreases j
  {
    if i < j {
      StepsAreTaken(trace, run, i, j - 1);
      DrainedSoFar(trace, run, i, j - 1);
      RunInv(trace, run, j - 1);
      assert Next(trace, run, j - 1);
      assert run[i..j][..j - 1 - i] == run[i..j - 1];
      var a := run[j - 1];
      if a.TaskStep? {
        TaskComesNearer(trace[j - 1], a.i, a.o);
      } else {
        OthersLeaveSteps(trace[j - 1], a);
      }
    }
  }

  /**
   Waiting for the future ends, whatever the outcomes of the system calls and whatever else happens: with no more calls
   the writer takes at most the steps left, and by then it is ready.
   */
  lemma WriterEnds(trace: seq<State>, run: seq<Action>, i: nat, j: nat)
    requires IsRun(trace, run) && i <= j <= |run| && trace[i].caller == Outside
    requires forall k :: i <= k < j ==> !run[k].Push?
    ensures TaskSteps(run[i..j]) <= StepsLeft(trace[i]) <= 7 * |trace[i].queue| + 8
    ensures TaskSteps(run[i..j]) == StepsLeft(trace[i]) ==> FutureReady(trace[j])
  {
    StepsAreTaken(trace, run, i, j);
  }

  /** A file read in pieces of the given sizes. */
  function ReadOn(d: Disk, r: ReaderAt, counts: seq<nat>): ReaderAt
    decreases |counts|
  {
    if counts == [] then r else ReadOn(d, StepReader(d, r, counts[0]), counts[1..])
  }

  function Total(counts: seq<nat>): nat {
    if counts == [] then 0 else counts[0] + Total(counts[1..])
  }

  /** What is read is as much of the value, from its start on, as was asked for. */
  lemma {:induction false} ReadSoFar(d: Disk, r: ReaderAt, counts: seq<nat>)
    requires DiskInv(d) && ReaderInv(d, r) && r.Reading? && forall i :: 0 <= i < |counts| ==> counts[i] > 0
    requires |r.sofar| + Total(counts) <= |d.inodes[r.inode].content|
    ensures var end := |r.sofar| + Total(counts);
            ReadOn(d, r, counts) == Reading(r.key, r.inode, d.inodes[r.inode].content[..end])
    decreases |counts|
  {
    if counts != [] {
      var next := StepReader(d, r, counts[0]);
      ReadSoFar(d, next, counts[1..]);
    }
  }

  /** Reading ends: so many pieces as there are characters left, and one look at the end, give the whole value. */
  lemma {:induction false} ReaderEnds(d: Disk, r: ReaderAt, counts: seq<nat>)
    requires DiskInv(d) && ReaderInv(d, r) && r.Reading? && forall i :: 0 <= i < |counts| ==> counts[i] > 0
    requires |counts| > |d.inodes[r.inode].content| - |r.sofar|
    ensures ReadOn(d, r, counts) == Returned(r.key, r.inode, d.inodes[r.inode].content)
    decreases |counts|
  {
    var next := StepReader(d, r, counts[0]);
    if next.Reading? {
      ReaderEnds(d, next, counts[1..]);
    } else {
      ReturnedStays(d, next, counts[1..]);
    }
  }

  lemma {:induction false} ReturnedStays(d: Disk, r: ReaderAt, counts: seq<nat>)
    requires r.Returned?
    ensures ReadOn(d, r, counts) == r
    decreases |counts|
  {
    if counts != [] {
      ReturnedStays(d, r, counts[1..]);
    }
  }

  // ----- A run in which it fails -----

  /** A quiet run that can be taken further. */
  ghost predicate QuietRun(d: Disk, trace: seq<State>, run: seq<Action>) {
    IsRun(trace, run) && trace[0] == Start(d) && forall k :: 0 <= k < |run| ==> Quiet(trace[k], run[k])
  }

  lemma Further(d: Disk, trace: seq<State>, run: seq<Action>, a: Action)
    returns (t: seq<State>, r: seq<Action>, s: State)
    requires QuietRun(d, trace, run) && Enabled(trace[|run|], a) && Quiet(trace[|run|], a)
    ensures QuietRun(d, t, r) && s == t[|r|] == Apply(trace[|run|], a)
  {
    s := Apply(trace[|run|], a);
    t, r := trace + [s], run + [a];
    forall k | 0 <= k < |r|
      ensures Next(t, r, k)
    {
      assert k < |run| ==> Next(trace, run, k);
    }
  }

  lemma PushCheckStart(d: Disk, e: Entry) returns (t: seq<State>, r: seq<Action>, s: State)
    requires DiskInv(d)
    ensures QuietRun(d, t, r) && s == t[|r|]
    ensures s.caller == Outside && s.tasks == [Popping] && s.queue == [e] && s.attempted == []
  {
    t, r, s := Further(d, [Start(d)], [], Push(e));
    t, r, s := Further(d, t, r, CheckFuture);
    t, r, s := Further(d, t, r, StartTask);
  }

  lemma OnePut(d: Disk, trace: seq<State>, run: seq<Action>, e: Entry) returns (t: seq<State>, r: seq<Action>, s: State)
    requires QuietRun(d, trace, run)
    requires trace[|run|].tasks == [Popping] && trace[|run|].queue == [e] && trace[|run|].caller == Outside
    ensures QuietRun(d, t, r) && s == t[|r|]
    ensures s.caller == Outside && s.tasks == [Ended] && s.queue == []
  {
    var step := TaskStep(0, Outcome(true, |e.value|));
    t, r, s := Further(d, trace, run, step);
    t, r, s := Further(d, t, r, step);
    RunInv(t, r, |r|);
    t, r, s := Further(d, t, r, step);
    t, r, s := Further(d, t, r, step);
    t, r, s := Further(d, t, r, step);
    t, r, s := Further(d, t, r, step);
    t, r, s := Further(d, t, r, step);
    t, r, s := Further(d, t, r, step);
  }

  /** It happens: a push after the writer's last look and before its future is ready leaves its entry behind. */
  lemma DestructorCanFail(d: Disk, first: Entry, second: Entry) returns (t: seq<State>, r: seq<Action>)
    requires DiskInv(d)
    ensures QuietRun(d, t, r)
    ensures t[|r|].caller == Outside && FutureReady(t[|r|]) && t[|r|].queue == [second]
  {
    var s;
    t, r, s := PushCheckStart(d, first);
    t, r, s := OnePut(d, t, r, first);
    t, r, s := Further(d, t, r, Push(second));
    t, r, s := Further(d, t, r, CheckFuture);
    t, r, s := Further(d, t, r, TaskStep(0, Outcome(true, 0)));
  }
}
