/** The event uploader: copy, verify, acknowledge, then prune. One event's local directory
    and its copy on the shared store (which no other event uses), the in-flight marker that
    keeps an event from being uploaded twice at once, the retry timer, and a crash between
    any two steps. */
module EventUploader {

  import opened Options

  // ---------------------------------------------------------------------------
  // Directory digests
  // ---------------------------------------------------------------------------

  datatype File = File(path: string, data: string)

  // The files of a directory in the order the digest visits them.
  type Tree = seq<File>

  /** What is fed to the hash: each path followed by its bytes, with nothing in between. */
  function Stream(t: Tree): string {
    if t == [] then [] else t[0].path + t[0].data + Stream(t[1..])
  }

  /** Equal digests, for a hash without collisions. */
  predicate Same(a: Tree, b: Tree) {
    Stream(a) == Stream(b)
  }

  ghost predicate SameShape(a: Tree, b: Tree) {
    |a| == |b| && forall i :: 0 <= i < |a| ==> |a[i].path| == |b[i].path| && |a[i].data| == |b[i].data|
  }

  lemma SplitEqual(a: string, b: string, c: string, d: string)
    requires a + b == c + d && |a| == |c|
    ensures a == c && b == d
  {
    assert a == (a + b)[..|a|] && c == (c + d)[..|c|];
    assert b == (a + b)[|a|..] && d == (c + d)[|c|..];
  }

  /** A copy with as many files, of equal name and size lengths, has an equal digest only
      if it is the same tree. */
  lemma {:induction false} DigestDecidesShape(a: Tree, b: Tree)
    requires SameShape(a, b)
    ensures Same(a, b) <==> a == b
  {
    if a != [] && Same(a, b) {
      SplitEqual(a[0].path + a[0].data, Stream(a[1..]), b[0].path + b[0].data, Stream(b[1..]));
      SplitEqual(a[0].path, a[0].data, b[0].path, b[0].data);
      DigestDecidesShape(a[1..], b[1..]);
      assert a == [a[0]] + a[1..] && b == [b[0]] + b[1..];
    }
  }

  /** Without a delimiter a byte can move from a file's content into its name. */
  lemma DigestIgnoresBorders(p: string, x: string, y: string)
    requires x != []
    ensures var a, b := [File(p, x + y)], [File(p + x, y)]; Same(a, b) && a != b
  {
    var a, b := [File(p, x + y)], [File(p + x, y)];
    assert p + (x + y) == (p + x) + y;
    assert a[1..] == [] && b[1..] == [];
    assert Stream(a) == p + (x + y) + Stream([]) && Stream(b) == (p + x) + y + Stream([]);
    assert |a[0].path| != |b[0].path|;
  }

  // ---------------------------------------------------------------------------
  // One upload
  // ---------------------------------------------------------------------------

  const MAX_RETRIES := 5

  datatype Result = Remote(pruned: bool) | AckMissing | PullFailed | Retry | Exhausted

  /** What the file system and the server do during one upload: what stays of a removed
      remote copy, what a copy leaves (and whether it raised), the server's
      acknowledgement, and what stays of a removed local directory. */
  datatype World = World(
    kept: Option<Tree>, copied: Option<Tree>, copyRaised: bool, kept2: Option<Tree>, ack: bool, localLeft: Option<Tree>)

  predicate Matches(a: Option<Tree>, b: Option<Tree>) {
    a.Some? && b.Some? && Same(a.value, b.value)
  }

  /** The shared store ends up with a good copy: it had one, or the copy made now did not
      raise and has the same digest. */
  predicate CopyGood(local: Tree, remote: Option<Tree>, w: World) {
    Matches(remote, Some(local)) || (!w.copyRaised && Matches(w.copied, Some(local)))
  }

  class EventFiles {
    var local: Option<Tree>
    var remote: Option<Tree>
    var acked: bool
    var attempt: nat

    constructor (t: Tree)
      ensures local == Some(t) && remote == None && !acked && attempt == 0
    {
      local, remote, acked, attempt := Some(t), None, false, 0;
    }

    method PatchRemote(ack: bool)
      modifies `acked
      ensures acked == (old(acked) || ack)
    {
      acked := acked || ack;
    }

    method Fail() returns (r: Result)
      modifies `attempt
      ensures r.Retry? <==> old(attempt) + 1 < MAX_RETRIES
      ensures r == Retry || r == Exhausted
      ensures attempt == if r == Retry then old(attempt) + 1 else MAX_RETRIES
    {
      if attempt + 1 < MAX_RETRIES {
        attempt := attempt + 1;
        r := Retry;
      } else {
        attempt := MAX_RETRIES;
        r := Exhausted;
      }
    }

    method Finish(prune: bool, w: World) returns (r: Result)
      requires local.Some?
      modifies `acked, `local
      ensures acked == (old(acked) || w.ack)
      ensures local == if w.ack && prune then w.localLeft else old(local)
      ensures r == if w.ack then Remote(prune) else AckMissing
    {
      PatchRemote(w.ack);
      if !w.ack { return AckMissing; }
      if prune { local := w.localLeft; }
      r := Remote(prune);
    }

    method UploadOne(prune: bool, w: World) returns (r: Result)
      modifies this
      // The local directory is touched only after the copy was verified and acknowledged.
      ensures local != old(local) ==> w.ack && acked && Matches(old(local), remote) && r == Remote(true)
      // An event whose local directory is intact is never lost, whatever the world does.
      ensures old(local).Some? ==> local == old(local) || Matches(remote, old(local))
      // A missing local directory leaves the remote copy alone.
      ensures old(local) == None ==> local == None && remote == old(remote)
      ensures r.Remote? && old(local).Some? ==> Matches(remote, old(local))
      ensures r == PullFailed <==> old(local) == None && old(remote) == None
      ensures (r == Retry || r == Exhausted) ==> old(local).Some? && local == old(local) && acked == old(acked)
      // A remote copy that matches is never rewritten; otherwise the new one stays if it
      // matches, and what is left of it once discarded if it does not.
      ensures Matches(old(local), old(remote)) ==> remote == old(remote)
      ensures old(local).Some? && !Matches(old(local), old(remote)) ==>
                remote == if w.copyRaised || w.copied == None || Matches(w.copied, old(local)) then w.copied else w.kept2
      // The event is remote exactly with a good copy and an acknowledgement, and then pruned
      // as asked; a good copy alone leaves it as it is; without one an attempt is charged.
      ensures old(local).Some? ==> (r == Remote(prune) <==> CopyGood(old(local).value, old(remote), w) && w.ack)
      ensures old(local).Some? ==> (r == AckMissing <==> CopyGood(old(local).value, old(remote), w) && !w.ack)
      ensures old(local).Some? ==> (r == Retry || r == Exhausted <==> !CopyGood(old(local).value, old(remote), w))
      ensures old(local).Some? ==> (acked <==> old(acked) || r.Remote?)
      ensures r == Remote(true) && old(local).Some? ==> local == w.localLeft
      ensures r == Retry <==> old(local).Some? && !CopyGood(old(local).value, old(remote), w) && old(attempt) + 1 < MAX_RETRIES
      ensures attempt == if r == Retry then old(attempt) + 1 else if r == Exhausted then MAX_RETRIES else old(attempt)
      // Without a local directory a copy is acknowledged again.
      ensures old(local) == None && old(remote).Some? ==> r == (if w.ack then Remote(false) else AckMissing)
      ensures old(local) == None ==> (acked <==> old(acked) || (old(remote).Some? && w.ack))
    {
      if local == None {
        if remote.Some? {
          PatchRemote(w.ack);
          return if w.ack then Remote(false) else AckMissing;
        }
        return PullFailed;
      }
      if remote.Some? {
        if Same(remote.value, local.value) {
          r := Finish(prune, w);
          return;
        }
        remote := w.kept;
      }
      remote := w.copied;
      if w.copyRaised || remote == None {
        r := Fail();
        return;
      }
      if !Same(remote.value, local.value) {
        remote := w.kept2;
        r := Fail();
        return;
      }
      r := Finish(prune, w);
    }
  }

  // ---------------------------------------------------------------------------
  // Steps, crashes and the in-flight marker
  // ---------------------------------------------------------------------------

  datatype Stage = Queued | Timed | Looking | Dropping | Copying | Verifying | Discarding | Patching | Pruning

  datatype Job = Job(stage: Stage, rescheduled: bool)

  /** `jobs` are the upload jobs of this event that still have work to do, `leaving` the
      jobs whose worker thread has yet to run its `finally` block. */
  datatype Sys = Sys(
    orig: Tree,
    local: Option<Tree>,
    remote: Option<Tree>,
    acked: bool,
    active: bool,
    jobs: map<int, Job>,
    leaving: map<int, bool>)

  datatype Event =
    | Enqueue(k: int, full: bool)
    | Dispatch(k: int)
    | Look(k: int, ack: bool)
    | Drop(k: int, left: Option<Tree>)
    | Copy(k: int, copied: Option<Tree>, raised: bool, again: bool)
    | Verify(k: int)
    | Discard(k: int, left: Option<Tree>, again: bool)
    | Patch(k: int, ack: bool, prune: bool)
    | Prune(k: int, removed: bool)
    | Tear(k: int, torn: Tree)
    | Fire(k: int)
    | Leave(k: int)
    | Crash

  predicate On(s: Sys, k: int, st: Stage) {
    k in s.jobs && s.jobs[k].stage == st
  }

  function Move(s: Sys, k: int, st: Stage): Sys {
    s.(jobs := s.jobs[k := Job(st, false)])
  }

  /** The worker is done with the job, or has put it on the retry timer. */
  function Done(s: Sys, k: int): Sys {
    s.(jobs := s.jobs - {k}, leaving := s.leaving[k := false])
  }

  function Failed(s: Sys, k: int, again: bool): Sys {
    if again then s.(jobs := s.jobs[k := Job(Timed, true)], leaving := s.leaving[k := true]) else Done(s, k)
  }

  function Next(s: Sys, e: Event): Sys {
    match e
    case Enqueue(k, full) =>
      if s.active || k in s.jobs || k in s.leaving || full then s
      else s.(active := true, jobs := s.jobs[k := Job(Queued, false)])
    case Dispatch(k) =>
      if !On(s, k, Queued) then s
      else
        // The job object is shared: a worker that has not left yet sees its flag reset.
        Move(s, k, Looking).(leaving := if k in s.leaving then s.leaving[k := false] else s.leaving)
    case Look(k, ack) =>
      if !On(s, k, Looking) then s
      else if s.local == None then Done(s.(acked := s.acked || (s.remote.Some? && ack)), k)
      else if s.remote == None then Move(s, k, Copying)
      else if Same(s.remote.value, s.local.value) then Move(s, k, Patching)
      else Move(s, k, Dropping)
    case Drop(k, left) => if On(s, k, Dropping) then Move(s.(remote := left), k, Copying) else s
    case Copy(k, copied, raised, again) =>
      if !On(s, k, Copying) then s
      else if raised then Failed(s.(remote := copied), k, again)
      else Move(s.(remote := copied), k, Verifying)
    case Verify(k) =>
      if On(s, k, Verifying) then Move(s, k, if Matches(s.remote, s.local) then Patching else Discarding) else s
    case Discard(k, left, again) => if On(s, k, Discarding) then Failed(s.(remote := left), k, again) else s
    case Patch(k, ack, prune) =>
      if !On(s, k, Patching) then s
      else if ack && prune then Move(s.(acked := true), k, Pruning)
      else Done(s.(acked := s.acked || ack), k)
    case Prune(k, removed) =>
      if On(s, k, Pruning) then Done(if removed then s.(local := None) else s, k) else s
    case Tear(k, torn) => if On(s, k, Pruning) then Done(s.(local := Some(torn)), k) else s
    case Fire(k) => if On(s, k, Timed) then s.(jobs := s.jobs[k := s.jobs[k].(stage := Queued)]) else s
    case Leave(k) =>
      if k !in s.leaving then s
      else s.(leaving := s.leaving - {k}, active := if s.leaving[k] then s.active else false)
    case Crash => s.(active := false, jobs := map[], leaving := map[])
  }

  function Exec(s: Sys, es: seq<Event>): Sys
    decreases |es|
  {
    if es == [] then s else Exec(Next(s, es[0]), es[1..])
  }

  function Start(t: Tree): Sys {
    Sys(t, Some(t), None, false, false, map[], map[])
  }

  // ---------------------------------------------------------------------------
  // One upload at a time
  // ---------------------------------------------------------------------------

  /** The retry timer goes off before the worker that set it has left. */
  predicate EarlyFire(s: Sys, e: Event) {
    e.Fire? && On(s, e.k, Timed) && e.k in s.leaving
  }

  /** At most one job exists, only under the in-flight marker, and a worker on its way out
      clears the marker only when no job is left. */
  ghost predicate OneUpload(s: Sys) {
    && (forall j, k :: j in s.jobs && k in s.jobs ==> j == k)
    && (forall j, k :: j in s.leaving && k in s.leaving ==> j == k)
    && (s.jobs != map[] ==> s.active)
    && (s.leaving != map[] ==> s.active)
    && (forall k :: k in s.leaving ==> (s.leaving[k] <==> s.jobs != map[]))
    && (forall k, j :: k in s.leaving && j in s.jobs ==> j == k && s.jobs[j].stage == Timed)
  }

  /** A job at work is the only job, and no worker is on its way out. */
  lemma WorksAlone(s: Sys, k: int)
    requires OneUpload(s) && k in s.jobs && s.jobs[k].stage != Timed
    ensures s.leaving == map[] && s.jobs == map[k := s.jobs[k]] && s.active
  {
    assert forall j :: j !in s.leaving;
    forall j | j in s.jobs ensures j == k {}
    assert s.jobs != map[];
  }

  lemma WorkStep(s: Sys, s': Sys, k: int)
    requires s.leaving == map[] && s.active && k in s.jobs && s.jobs == map[k := s.jobs[k]] && s'.active
    requires || (s'.jobs == s.jobs - {k} && s'.leaving == s.leaving[k := false])
             || (k in s'.jobs && s'.jobs == s.jobs[k := s'.jobs[k]] && s'.leaving == map[])
             || (k in s'.jobs && s'.jobs == s.jobs[k := Job(Timed, true)] && s'.leaving == s.leaving[k := true])
    ensures OneUpload(s')
  {
    if k !in s'.jobs { assert s'.jobs == map[]; }
  }

  lemma QueueKeepsOne(s: Sys, e: Event)
    requires OneUpload(s) && !EarlyFire(s, e) && (e.Enqueue? || e.Fire? || e.Leave? || e.Crash?)
    ensures OneUpload(Next(s, e))
  {
    var s' := Next(s, e);
    if e.Enqueue? && s' != s { assert e.k in s'.jobs && s.jobs == map[] && s.leaving == map[]; }
  }

  lemma WorkKeepsOne(s: Sys, e: Event)
    requires OneUpload(s) && !e.Enqueue? && !e.Fire? && !e.Leave? && !e.Crash?
    ensures OneUpload(Next(s, e))
  {
    if e.k in s.jobs && s.jobs[e.k].stage != Timed && Next(s, e) != s {
      WorksAlone(s, e.k);
      WorkStep(s, Next(s, e), e.k);
    }
  }

  lemma OneUploadStep(s: Sys, e: Event)
    requires OneUpload(s) && !EarlyFire(s, e)
    ensures OneUpload(Next(s, e))
  {
    if e.Enqueue? || e.Fire? || e.Leave? || e.Crash? { QueueKeepsOne(s, e); } else { WorkKeepsOne(s, e); }
  }

  // ---------------------------------------------------------------------------
  // Nothing is lost
  // ---------------------------------------------------------------------------

  /** The event's bytes are at hand, locally or on the shared store. */
  predicate Kept(s: Sys) {
    Matches(s.local, Some(s.orig)) || Matches(s.remote, Some(s.orig))
  }

  /** The local directory is intact or gone, never a remnant. */
  predicate Whole(s: Sys) {
    s.local == None || Same(s.local.value, s.orig)
  }

  /** What the worker has established by the stage it is in: in particular, before it
      deletes the local directory the copy matches and the server has acknowledged it. */
  ghost predicate Staged(s: Sys) {
    forall k :: k in s.jobs ==>
      var st := s.jobs[k].stage;
      && (st == Patching || st == Pruning ==> Matches(s.remote, s.local))
      && (st == Pruning ==> s.acked)
      && (st == Dropping || st == Copying || st == Verifying || st == Discarding ==> s.local.Some?)
      && (st == Dropping ==> s.remote.Some? && !Same(s.remote.value, s.local.value))
  }

  lemma StagedStep(s: Sys, e: Event)
    requires OneUpload(s) && Staged(s)
    ensures Staged(Next(s, e))
  {
  }

  lemma KeptStep(s: Sys, e: Event)
    requires Staged(s) && Kept(s) && Whole(s) && !e.Tear?
    ensures Kept(Next(s, e)) && Whole(Next(s, e))
  {
  }

  ghost predicate Clean(s: Sys, es: seq<Event>)
    decreases |es|
  {
    es == [] || (!es[0].Tear? && !EarlyFire(s, es[0]) && Clean(Next(s, es[0]), es[1..]))
  }

  ghost predicate AlwaysKept(s: Sys, es: seq<Event>)
    decreases |es|
  {
    Kept(s) && (es == [] || AlwaysKept(Next(s, es[0]), es[1..]))
  }

  /** Re-uploads, corrupt copies, failing removals on the store and crashes between any two
      steps included: while the local removal is atomic and retries are not overtaken, the
      event's bytes are always kept. */
  lemma {:induction false} NothingLost(s: Sys, es: seq<Event>)
    requires OneUpload(s) && Staged(s) && Kept(s) && Whole(s) && Clean(s, es)
    ensures AlwaysKept(s, es) && Kept(Exec(s, es))
    decreases |es|
  {
    if es != [] {
      OneUploadStep(s, es[0]);
      StagedStep(s, es[0]);
      KeptStep(s, es[0]);
      NothingLost(Next(s, es[0]), es[1..]);
    }
  }

  lemma StartReady(t: Tree)
    ensures var s := Start(t); OneUpload(s) && Staged(s) && Kept(s) && Whole(s)
  {
  }

  /** A step that changes the local directory comes after equal digests and a 2xx REMOTE
      acknowledgement. */
  lemma DeleteAfterAck(s: Sys, e: Event)
    requires Staged(s) && Next(s, e).local != s.local
    ensures s.acked && Matches(s.remote, s.local)
  {
  }

  lemma {:induction false} ExecTrace(ss: seq<Sys>, es: seq<Event>)
    requires |ss| == |es| + 1
    requires forall i :: 0 <= i < |es| ==> ss[i + 1] == Next(ss[i], es[i])
    ensures Exec(ss[0], es) == ss[|es|]
    decreases |es|
  {
    if es != [] { ExecTrace(ss[1..], es[1..]); }
  }

  predicate Idle(s: Sys) {
    s.jobs == map[] && s.leaving == map[] && !s.active
  }

  function Reupload(k: int): seq<Event> {
    [Enqueue(k, false), Dispatch(k), Look(k, false), Drop(k, None)]
  }

  /** A remnant of the local directory makes the next upload throw away the only copy. */
  lemma RemnantDestroysCopy(s: Sys, k: int)
    requires Idle(s) && Kept(s) && !Whole(s)
    ensures Clean(s, Reupload(k)) && !Kept(Exec(s, Reupload(k)))
  {
    var es := Reupload(k);
    var s1 := Next(s, es[0]);
    var s2 := Next(s1, es[1]);
    var s3 := Next(s2, es[2]);
    assert On(s3, k, Dropping);
    var s4 := Next(s3, es[3]);
    ExecTrace([s, s1, s2, s3, s4], es);
    assert es[1..][1..] == es[2..] && es[2..][1..] == es[3..] && es[3..][1..] == [];
    assert Clean(s3, es[3..]) && Clean(s2, es[2..]) && Clean(s1, es[1..]);
  }

  /** At rest, an event that is kept stays kept through every clean run exactly when its
      local directory is intact or gone. */
  lemma SafeAtRestExact(s: Sys)
    requires Idle(s) && Kept(s)
    ensures (forall es :: Clean(s, es) ==> Kept(Exec(s, es))) <==> Whole(s)
  {
    if Whole(s) {
      forall es | Clean(s, es) ensures Kept(Exec(s, es)) { NothingLost(s, es); }
    } else {
      RemnantDestroysCopy(s, 0);
    }
  }

  // ---------------------------------------------------------------------------
  // Whole uploads, and trees instead of digests
  // ---------------------------------------------------------------------------

  lemma {:induction false} ExecAppend(s: Sys, es: seq<Event>, fs: seq<Event>)
    ensures Exec(s, es + fs) == Exec(Exec(s, es), fs)
    decreases |es|
  {
    if es == [] {
      assert es + fs == fs;
    } else {
      assert (es + fs)[1..] == es[1..] + fs;
      ExecAppend(Next(s, es[0]), es[1..], fs);
    }
  }

  lemma {:induction false} CleanByKind(s: Sys, es: seq<Event>)
    requires forall i :: 0 <= i < |es| ==> !es[i].Tear? && !es[i].Fire?
    ensures Clean(s, es)
    decreases |es|
  {
    if es != [] { CleanByKind(Next(s, es[0]), es[1..]); }
  }

  function CopyHalf(k: int, c: Tree): seq<Event> {
    [Enqueue(k, false), Dispatch(k), Look(k, false), Copy(k, Some(c), false, false)]
  }

  function PruneHalf(k: int, last: Event): seq<Event> {
    [Verify(k), Patch(k, true, true), last, Leave(k)]
  }

  lemma CopyHalfRun(s: Sys, k: int, c: Tree)
    requires Idle(s) && s.local.Some? && s.remote == None
    ensures Exec(s, CopyHalf(k, c)) == s.(active := true, jobs := map[k := Job(Verifying, false)], remote := Some(c))
  {
    var es := CopyHalf(k, c);
    var s1 := Next(s, es[0]);
    var s2 := Next(s1, es[1]);
    var s3 := Next(s2, es[2]);
    var s4 := Next(s3, es[3]);
    assert s4.jobs == map[k := Job(Verifying, false)];
    ExecTrace([s, s1, s2, s3, s4], es);
  }

  /** What the removal of the local directory leaves: nothing, a remnant, or, when it fails
      at once, all of it. */
  predicate Removal(local: Option<Tree>, k: int, last: Event, left: Option<Tree>) {
    || (left == None && last == Prune(k, true))
    || (left.Some? && last == Tear(k, left.value))
    || (left == local && last == Prune(k, false))
  }

  /** The digests agree, the server acknowledges, and the removal runs through or is torn. */
  lemma PruneHalfRun(s: Sys, k: int, last: Event, left: Option<Tree>)
    requires s.jobs == map[k := Job(Verifying, false)] && s.leaving == map[] && Matches(s.remote, s.local)
    requires Removal(s.local, k, last, left)
    ensures Exec(s, PruneHalf(k, last)) == s.(acked := true, local := left, jobs := map[], active := false)
  {
    var es := PruneHalf(k, last);
    var s1 := Next(s, es[0]);
    var s2 := Next(s1, es[1]);
    var s3 := Next(s2, es[2]);
    var s4 := Next(s3, es[3]);
    assert s3.jobs == map[] && s4.leaving == map[];
    ExecTrace([s, s1, s2, s3, s4], es);
  }

  function Upload(k: int, c: Tree, last: Event): seq<Event> {
    CopyHalf(k, c) + PruneHalf(k, last)
  }

  lemma UploadRun(s: Sys, k: int, c: Tree, last: Event, left: Option<Tree>)
    requires Idle(s) && s.local.Some? && s.remote == None && Same(c, s.local.value)
    requires Removal(s.local, k, last, left)
    ensures Exec(s, Upload(k, c, last)) == s.(remote := Some(c), acked := true, local := left)
  {
    CopyHalfRun(s, k, c);
    PruneHalfRun(Exec(s, CopyHalf(k, c)), k, last, left);
    ExecAppend(s, CopyHalf(k, c), PruneHalf(k, last));
  }

  /** An upload that fails for the last time lets go of the event: it can be enqueued again,
      unless the queue is full, and its files are as they were. */
  lemma LastFailureReleases(s: Sys, k: int, j: int)
    requires Idle(s) && s.local.Some? && s.remote == None
    ensures var u := Exec(s, [Enqueue(k, false), Dispatch(k), Look(k, false), Copy(k, None, true, false), Leave(k)]);
            u == s && On(Next(u, Enqueue(j, false)), j, Queued) && Next(u, Enqueue(j, true)) == u
  {
    var es := [Enqueue(k, false), Dispatch(k), Look(k, false), Copy(k, None, true, false), Leave(k)];
    var s1 := Next(s, es[0]);
    var s2 := Next(s1, es[1]);
    var s3 := Next(s2, es[2]);
    assert s3.jobs == map[k := Job(Copying, false)];
    var s4 := Next(s3, es[3]);
    assert s4.jobs == map[] && s4.leaving == map[k := false];
    var s5 := Next(s4, es[4]);
    assert s5.leaving == map[];
    ExecTrace([s, s1, s2, s3, s4, s5], es);
  }

  /** From the start: an upload whose local removal is torn leaves the event kept but its
      directory a remnant, and the next upload then throws away the only copy. */
  lemma TornRemovalLosesEvent(t: Tree, torn: Tree, k: int)
    requires !Same(torn, t)
    ensures var u := Exec(Start(t), Upload(k, t, Tear(k, torn)));
            Idle(u) && Kept(u) && !Whole(u) && !Kept(Exec(u, Reupload(k)))
  {
    UploadRun(Start(t), k, t, Tear(k, torn), Some(torn));
    RemnantDestroysCopy(Exec(Start(t), Upload(k, t, Tear(k, torn))), k);
  }

  /** The event itself is at hand, not only a tree with its digest. */
  predicate TreeKept(s: Sys) {
    s.local == Some(s.orig) || s.remote == Some(s.orig)
  }

  /** What an event may leave on the shared store. */
  function Landed(e: Event): Option<Tree> {
    match e
    case Copy(_, copied, _, _) => copied
    case Drop(_, left) => left
    case Discard(_, left, _) => left
    case _ => None
  }

  ghost predicate LandsIn(es: seq<Event>, trees: set<Tree>) {
    forall i :: 0 <= i < |es| && Landed(es[i]).Some? ==> Landed(es[i]).value in trees
  }

  ghost predicate Trees(s: Sys, trees: set<Tree>) {
    && (s.local.Some? ==> s.local.value == s.orig)
    && (s.remote.Some? ==> s.remote.value in trees)
  }

  lemma TreesStep(s: Sys, e: Event, trees: set<Tree>)
    requires Trees(s, trees) && !e.Tear? && (Landed(e).Some? ==> Landed(e).value in trees)
    ensures Trees(Next(s, e), trees) && Next(s, e).orig == s.orig
  {
  }

  lemma {:induction false} TreesRun(s: Sys, es: seq<Event>, trees: set<Tree>)
    requires Trees(s, trees) && Clean(s, es) && LandsIn(es, trees)
    ensures Trees(Exec(s, es), trees) && Exec(s, es).orig == s.orig
    decreases |es|
  {
    if es != [] {
      TreesStep(s, es[0], trees);
      TreesRun(Next(s, es[0]), es[1..], trees);
    }
  }

  lemma PruneUploadEvents(k: int, c: Tree, trees: set<Tree>)
    requires c in trees
    ensures var es := Upload(k, c, Prune(k, true)); LandsIn(es, trees) && forall i :: 0 <= i < |es| ==> !es[i].Tear? && !es[i].Fire?
  {
    var a, b := CopyHalf(k, c), PruneHalf(k, Prune(k, true));
    assert forall i :: 0 <= i < |a| ==> (Landed(a[i]).Some? ==> Landed(a[i]).value == c) && !a[i].Tear? && !a[i].Fire?;
    assert forall i :: 0 <= i < |b| ==> Landed(b[i]) == None && !b[i].Tear? && !b[i].Fire?;
  }

  /** Another tree with the event's digest passes for its copy, and the event is removed. */
  lemma LookalikeReplaces(t: Tree, c: Tree, trees: set<Tree>) returns (es: seq<Event>)
    requires Same(c, t) && c != t && c in trees
    ensures Clean(Start(t), es) && LandsIn(es, trees) && !TreeKept(Exec(Start(t), es))
  {
    es := Upload(0, c, Prune(0, true));
    PruneUploadEvents(0, c, trees);
    CleanByKind(Start(t), es);
    UploadRun(Start(t), 0, c, Prune(0, true), None);
  }

  /** In every clean run in which only certain trees ever appear on the store, the event
      itself is kept, exactly if none of them is another tree with the event's digest. */
  lemma TreeKeptExact(t: Tree, trees: set<Tree>)
    ensures (forall es :: Clean(Start(t), es) && LandsIn(es, trees) ==> TreeKept(Exec(Start(t), es)))
            <==> forall c :: c in trees && Same(c, t) ==> c == t
  {
    if forall c :: c in trees && Same(c, t) ==> c == t {
      forall es | Clean(Start(t), es) && LandsIn(es, trees) ensures TreeKept(Exec(Start(t), es)) {
        StartReady(t);
        NothingLost(Start(t), es);
        TreesRun(Start(t), es, trees);
      }
    } else {
      var c :| c in trees && Same(c, t) && c != t;
      var es := LookalikeReplaces(t, c, trees);
    }
  }

  /** If every tree that appears on the store has as many files, with names and contents of
      the same lengths, the event itself is always kept. */
  lemma NothingLostOfShape(t: Tree, es: seq<Event>, trees: set<Tree>)
    requires Clean(Start(t), es) && LandsIn(es, trees) && forall c :: c in trees ==> SameShape(c, t)
    ensures TreeKept(Exec(Start(t), es))
  {
    forall c | c in trees && Same(c, t) ensures c == t { DigestDecidesShape(c, t); }
    TreeKeptExact(t, trees);
  }

  lemma FailsOnce(s: Sys, j: int)
    requires Idle(s) && s.local.Some? && s.remote == None
    ensures var t := Exec(s, [Enqueue(j, false), Dispatch(j), Look(j, false), Copy(j, None, true, true)]);
            t.jobs == map[j := Job(Timed, true)] && t.leaving == map[j := true] && t.active
  {
    var a := [Enqueue(j, false), Dispatch(j), Look(j, false), Copy(j, None, true, true)];
    var s1 := Next(s, a[0]);
    var s2 := Next(s1, a[1]);
    var s3 := Next(s2, a[2]);
    ExecTrace([s, s1, s2, s3, Next(s3, a[3])], a);
  }

  /** If the timer fires before the failed worker has left, that worker's exit clears the
      marker of the running retry, and a second upload of the event starts beside it. */
  lemma EarlyFireUploadsTwice(s: Sys, j: int, k: int)
    requires Idle(s) && j != k && s.local.Some? && s.remote == None
    ensures var t := Exec(s, [Enqueue(j, false), Dispatch(j), Look(j, false), Copy(j, None, true, true)]);
            var u := Exec(t, [Fire(j), Dispatch(j), Leave(j), Enqueue(k, false)]);
            EarlyFire(t, Fire(j)) && j in u.jobs && k in u.jobs
  {
    FailsOnce(s, j);
    var t := Exec(s, [Enqueue(j, false), Dispatch(j), Look(j, false), Copy(j, None, true, true)]);
    var b := [Fire(j), Dispatch(j), Leave(j), Enqueue(k, false)];
    var s5 := Next(t, b[0]);
    var s6 := Next(s5, b[1]);
    assert s6.leaving == map[j := false] && j in s6.jobs;
    var s7 := Next(s6, b[2]);
    assert s7.leaving == map[];
    ExecTrace([t, s5, s6, s7, Next(s7, b[3])], b);
  }
}
