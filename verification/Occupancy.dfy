/** Which job occupies which device on the host: the in-memory sets shared by the claim
    tick, the register and deregister bindings, the lease renewer, the recovery actions
    and the exiting workers.

    All these maps are guarded by one lock, but every operation takes it several times.
    `Occ` and the functions on it are the single lock regions; the class performs the
    operations; `Sys` interleaves the regions of all threads. */
module Occupancy {

  import opened Options

  // A worker token names one attempt at a job.
  type Token = nat

  datatype Occ = Occ(
    jobs: set<int>,
    devices: set<int>,
    tokens: map<int, Token>,
    owner: map<int, int>,
    running: map<int, Token>,
    aborts: set<int>,
    fence: map<int, Token>,
    workerTok: map<int, Token>,
    leaseDevice: map<int, int>)

  const EMPTY := Occ({}, {}, map[], map[], map[], {}, map[], map[], map[])

  function Get<K, V>(m: map<K, V>, k: K): Option<V> {
    if k in m then Some(m[k]) else None
  }

  function Remove<K, V>(m: map<K, V>, k: K): map<K, V> { m - {k} }

  // ---------------------------------------------------------------------------
  // Lock regions
  // ---------------------------------------------------------------------------

  function PreOccupy(o: Occ, j: int, d: int): Occ {
    if d in o.devices then o else o.(devices := o.devices + {d}, owner := o.owner[d := j])
  }

  function Register(o: Occ, j: int, w: Token, d: int): Occ {
    o.(jobs := o.jobs + {j}, tokens := o.tokens[j := w],
       devices := o.devices + {d}, owner := o.owner[d := j])
  }

  function SetFence(o: Occ, j: int, f: Token, w: Token, d: int): Occ {
    o.(fence := o.fence[j := f], workerTok := o.workerTok[j := w], leaseDevice := o.leaseDevice[j := d])
  }

  function ClearFence(o: Occ, j: int): Occ {
    o.(fence := Remove(o.fence, j), workerTok := Remove(o.workerTok, j), leaseDevice := Remove(o.leaseDevice, j))
  }

  predicate FenceCurrent(o: Occ, j: int, f: Token, w: Token) {
    && (j in o.fence ==> o.fence[j] == f)
    && (if j in o.workerTok then o.workerTok[j] == w else j in o.fence ==> o.fence[j] == w)
  }

  function ClearFenceIfCurrent(o: Occ, j: int, f: Token, w: Token): Occ {
    if FenceCurrent(o, j, f, w) then ClearFence(o, j) else o
  }

  function ClearedDevice(o: Occ, j: int, f: Token, w: Token): Option<int> {
    if FenceCurrent(o, j, f, w) then Get(o.leaseDevice, j) else None
  }

  function DropOwner(o: Occ, d: int, j: int): map<int, int> {
    if Get(o.owner, d) == Some(j) then Remove(o.owner, d) else o.owner
  }

  /** Frees the device whatever the owner map says; the owner entry goes only if it is `j`'s. */
  function Free(o: Occ, d: Option<int>, j: int): Occ {
    match d
    case None => o
    case Some(x) => o.(devices := o.devices - {x}, owner := DropOwner(o, x, j))
  }

  predicate Current(o: Occ, j: int, w: Token) {
    j in o.jobs && Get(o.tokens, j) == Some(w)
  }

  function Unregister(o: Occ, j: int): Occ {
    o.(jobs := o.jobs - {j}, tokens := Remove(o.tokens, j))
  }

  /** The region of the job-exit cleanup. */
  function JobExit(o: Occ, j: int, w: Token, d: Option<int>): Occ {
    if Current(o, j, w) then Free(Unregister(o, j), d, j) else o
  }

  predicate ReleaseFrees(o: Occ, j: int, w: Token, d: int) {
    && (Get(o.tokens, j) == None || Get(o.tokens, j) == Some(w))
    && (Get(o.owner, d) == None || Get(o.owner, d) == Some(j))
  }

  /** The region of the worker's own release, after the job-exit cleanup. */
  function WorkerRelease(o: Occ, j: int, w: Token, d: int): Occ {
    var o1 := if Get(o.running, j) == Some(w) then o.(running := Remove(o.running, j)) else o;
    var mine := Get(o.tokens, j) == None || Get(o.tokens, j) == Some(w);
    var o2 := if mine then o1.(aborts := o1.aborts - {j}) else o1;
    if ReleaseFrees(o, j, w, d)
    then o2.(devices := o2.devices - {d}, owner := Remove(o2.owner, d))
    else o2
  }

  predicate LossAccepted(o: Occ, j: int, f: Token) {
    j in o.fence ==> o.fence[j] == f
  }

  /** The renewer's region of a lease loss: the shared job id goes here, before the callback. */
  function LossDetected(o: Occ, j: int): Occ {
    ClearFence(o.(jobs := o.jobs - {j}), j)
  }

  function MarkAbort(o: Occ, j: int): Occ {
    if j in o.jobs then o.(aborts := o.aborts + {j}) else o
  }

  function LossCleanup(o: Occ, j: int, d: Option<int>, keep: bool): Occ {
    if keep then Unregister(o, j) else Free(Unregister(o, j), d, j)
  }

  function Purge(o: Occ): Occ {
    o.(fence := map j | j in o.fence && j in o.jobs :: o.fence[j],
       workerTok := map j | j in o.workerTok && (j in o.jobs || j !in o.fence) :: o.workerTok[j],
       leaseDevice := map j | j in o.leaseDevice && (j in o.jobs || j !in o.fence) :: o.leaseDevice[j])
  }

  /** Registering an unknown job on a free device and leaving again under the same tokens
      restores every table. */
  lemma RegisterExitRoundTrip(o: Occ, j: int, f: Token, d: int, w: Token)
    requires j !in o.jobs && j !in o.tokens && j !in o.fence && j !in o.workerTok && j !in o.leaseDevice
    requires d !in o.devices && d !in o.owner
    ensures var o1 := SetFence(Register(o, j, w, d), j, f, w, d);
            && ClearedDevice(o1, j, f, w) == Some(d)
            && JobExit(ClearFenceIfCurrent(o1, j, f, w), j, w, Some(d)) == o
  {
    PutRemove(o.fence, j, f);
    PutRemove(o.workerTok, j, w);
    PutRemove(o.leaseDevice, j, d);
    PutRemove(o.tokens, j, w);
    PutRemove(o.owner, d, j);
    var o1 := Register(o, j, w, d);
    assert ClearFenceIfCurrent(SetFence(o1, j, f, w, d), j, f, w) == o1;
    assert o1.jobs - {j} == o.jobs && o1.devices - {d} == o.devices;
  }

  lemma PutRemove<V>(m: map<int, V>, k: int, v: V)
    requires k !in m
    ensures Remove(m[k := v], k) == m
  {
  }

  // ---------------------------------------------------------------------------
  // The operations
  // ---------------------------------------------------------------------------

  class HostOccupancy {
    var jobs: set<int>
    var devices: set<int>
    var tokens: map<int, Token>
    var owner: map<int, int>
    var running: map<int, Token>
    var aborts: set<int>
    var fence: map<int, Token>
    var workerTok: map<int, Token>
    var leaseDevice: map<int, int>

    function State(): Occ
      reads this
    {
      Occ(jobs, devices, tokens, owner, running, aborts, fence, workerTok, leaseDevice)
    }

    constructor ()
      ensures State() == EMPTY
    {
      jobs, devices, tokens, owner := {}, {}, map[], map[];
      running, aborts, fence, workerTok, leaseDevice := map[], {}, map[], map[], map[];
    }

    method RegisterActiveJob(j: int, f: Token, d: int, w: Token)
      modifies this
      ensures State() == SetFence(Register(old(State()), j, w, d), j, f, w, d)
      // The attempt is now the current one in both tables, and the device is its job's.
      ensures Current(State(), j, w) && FenceCurrent(State(), j, f, w) && ClearedDevice(State(), j, f, w) == Some(d)
      ensures d in devices && d in owner && owner[d] == j
      // No other job's registration, lease or abort changes.
      ensures jobs - {j} == old(jobs) - {j} && tokens - {j} == old(tokens) - {j} && fence - {j} == old(fence) - {j}
      ensures devices - {d} == old(devices) - {d} && owner - {d} == old(owner) - {d} && aborts == old(aborts)
    {
      jobs := jobs + {j};
      tokens := tokens[j := w];
      devices := devices + {d};
      owner := owner[d := j];
      fence, workerTok, leaseDevice := fence[j := f], workerTok[j := w], leaseDevice[j := d];
    }

    /** The job's fencing entries go, and its device comes back, exactly under the lease and
        worker tokens they were set with; a job without a worker token is known by its lease
        token alone. */
    method ClearFencingTokenIfCurrent(j: int, f: Token, w: Token) returns (d: Option<int>)
      modifies this
      ensures State() == ClearFenceIfCurrent(old(State()), j, f, w)
      ensures d == ClearedDevice(old(State()), j, f, w)
      ensures old((j in fence && fence[j] != f) || (j in workerTok && workerTok[j] != w) || (j !in workerTok && j in fence && fence[j] != w))
              ==> d == None && fence == old(fence) && workerTok == old(workerTok) && leaseDevice == old(leaseDevice)
      ensures old((j in fence ==> fence[j] == f) && (j in workerTok ==> workerTok[j] == w) && (j in fence && j !in workerTok ==> f == w))
              ==> j !in fence && j !in workerTok && j !in leaseDevice && (d.Some? <==> j in old(leaseDevice)) && (d.Some? ==> d.value == old(leaseDevice)[j])
      ensures fence - {j} == old(fence) - {j} && workerTok - {j} == old(workerTok) - {j} && leaseDevice - {j} == old(leaseDevice) - {j}
    {
      if j in fence && fence[j] != f { return None; }
      if j in workerTok && workerTok[j] != w { return None; }
      if j !in workerTok && j in fence && fence[j] != w { return None; }
      d := Get(leaseDevice, j);
      fence, workerTok, leaseDevice := Remove(fence, j), Remove(workerTok, j), Remove(leaseDevice, j);
    }

    method CleanupAfterJobExit(j: int, f: Token, w: Token) returns (wasActive: bool)
      modifies this
      ensures State() == JobExit(ClearFenceIfCurrent(old(State()), j, f, w), j, w, ClearedDevice(old(State()), j, f, w))
      ensures wasActive <==> old(j in jobs && j in tokens && tokens[j] == w)
      ensures wasActive ==> jobs == old(jobs) - {j} && j !in tokens && tokens == old(tokens) - {j}
      ensures wasActive && old(j in fence && fence[j] == f && j in workerTok && workerTok[j] == w && j in leaseDevice)
              ==> devices == old(devices) - {old(leaseDevice)[j]}
      ensures !wasActive ==> jobs == old(jobs) && tokens == old(tokens) && devices == old(devices) && owner == old(owner)
      ensures running == old(running) && aborts == old(aborts)
      ensures forall x :: x in old(owner) && old(owner)[x] != j ==> x in owner && owner[x] == old(owner)[x]
    {
      var d := ClearFencingTokenIfCurrent(j, f, w);
      wasActive := j in jobs && j in tokens && tokens[j] == w;
      if wasActive {
        jobs, tokens := jobs - {j}, Remove(tokens, j);
        if d.Some? {
          devices := devices - {d.value};
          if d.value in owner && owner[d.value] == j { owner := Remove(owner, d.value); }
        }
      }
    }

    /** The worker's own release, after the clean-up: it frees the device unless its job is
        registered under another token or the device has become another job's; and it clears
        its own entry, and the abort unless that is meant for another attempt. */
    method ReleaseWorker(j: int, d: int, w: Token)
      modifies this
      ensures State() == WorkerRelease(old(State()), j, w, d)
      ensures old((j !in tokens || tokens[j] == w) && (d !in owner || owner[d] == j)) ==> devices == old(devices) - {d} && owner == old(owner) - {d}
      ensures old((j in tokens && tokens[j] != w) || (d in owner && owner[d] != j)) ==> devices == old(devices) && owner == old(owner)
      ensures aborts == if old(j in tokens && tokens[j] != w) then old(aborts) else old(aborts) - {j}
      ensures running == if old(j in running && running[j] == w) then old(running) - {j} else old(running)
    {
      var mine := j !in tokens || tokens[j] == w;
      if j in running && running[j] == w { running := Remove(running, j); }
      if mine {
        aborts := aborts - {j};
        if d !in owner || owner[d] == j {
          devices := devices - {d};
          owner := Remove(owner, d);
        }
      }
    }

    /** A worker's whole exit when no other thread interferes. */
    method Release(j: int, f: Token, d: int, w: Token)
      modifies this
      // The current worker frees its own device, also when a recovery action has
      // already cleared the fencing maps.
      ensures Current(old(State()), j, w) && old(d in owner && owner[d] == j)
              ==> d !in devices && j !in jobs && j !in tokens
      // A superseded worker leaves every occupation alone.
      ensures old(j in tokens && tokens[j] != w)
              ==> devices == old(devices) && owner == old(owner) && jobs == old(jobs) && tokens == old(tokens)
      // A worker that lost its lease does not touch a device another job has taken.
      ensures old(j !in tokens && d in owner && owner[d] != j)
              ==> devices == old(devices) && owner == old(owner)
      // A worker whose job is registered no more frees its device unless another job has it.
      ensures old(j !in tokens && (d in owner ==> owner[d] == j)) ==> devices == old(devices) - {d} && d !in owner
      ensures Get(running, j) != Some(w) && running - {j} == old(running) - {j}
      ensures Get(old(running), j) != Some(w) ==> running == old(running)
      ensures aborts == if old(j in tokens && tokens[j] != w) then old(aborts) else old(aborts) - {j}
    {
      var _ := CleanupAfterJobExit(j, f, w);
      ReleaseWorker(j, d, w);
    }

    method RequestAbort(j: int) returns (dispatched: bool)
      modifies this
      ensures State() == MarkAbort(old(State()), j) && dispatched == (j in old(jobs))
      ensures aborts == if j in old(jobs) then old(aborts) + {j} else old(aborts)
    {
      dispatched := j in jobs;
      if dispatched { aborts := aborts + {j}; }
    }

    /** Abort first, then clean up; the device stays occupied exactly when an abort was
        dispatched, and an abort is dispatched exactly when the id is still active. */
    method HandleLeaseLost(j: int, d: Option<int>) returns (dispatched: bool)
      modifies this
      ensures dispatched <==> j in old(jobs)
      ensures dispatched ==> j in aborts && devices == old(devices) && owner == old(owner)
      ensures !dispatched ==> aborts == old(aborts) && (d.Some? ==> d.value !in devices)
      ensures jobs == old(jobs) - {j} && tokens == old(tokens) - {j} && running == old(running)
      ensures fence == old(fence) && workerTok == old(workerTok) && leaseDevice == old(leaseDevice)
      ensures forall x :: x in old(owner) && old(owner)[x] != j ==> x in owner && owner[x] == old(owner)[x]
      ensures State() == LossCleanup(MarkAbort(old(State()), j), j, d, dispatched)
    {
      dispatched := RequestAbort(j);
      jobs, tokens := jobs - {j}, Remove(tokens, j);
      if d.Some? && !dispatched {
        devices := devices - {d.value};
        if d.value in owner && owner[d.value] == j { owner := Remove(owner, d.value); }
      }
    }

    /** The composition that runs in production: the renewer discards the id before it
        calls back, so no abort is ever dispatched and the device is given up although
        the worker may still be running. */
    method RenewerLeaseLost(j: int, f: Token) returns (handled: bool, dispatched: bool)
      modifies this
      ensures handled <==> LossAccepted(old(State()), j, f)
      ensures !dispatched && aborts == old(aborts) && running == old(running)
      ensures handled && old(j in leaseDevice) ==> devices == old(devices) - {old(leaseDevice)[j]}
      ensures handled && old(j !in leaseDevice) ==> devices == old(devices)
      ensures handled ==> jobs == old(jobs) - {j} && tokens == old(tokens) - {j} && j !in fence && j !in workerTok && j !in leaseDevice
      ensures !handled ==> State() == old(State())
    {
      dispatched := false;
      handled := j !in fence || fence[j] == f;
      if !handled { return; }
      var d := Get(leaseDevice, j);
      jobs := jobs - {j};
      fence, workerTok, leaseDevice := Remove(fence, j), Remove(workerTok, j), Remove(leaseDevice, j);
      dispatched := HandleLeaseLost(j, d);
    }
  }

  // ---------------------------------------------------------------------------
  // Threads
  // ---------------------------------------------------------------------------

  datatype Attempt = Attempt(job: int, device: int, fence: Token)

  /** The claim loop: between a job's pre-occupation and its submission, or undoing it. */
  datatype Claim =
    | Idle
    | Occupied(w: Token)
    | Registered(w: Token)
    | Failed(w: Token)
    | FailedCleared(w: Token, d: Option<int>)
    | FailedExited(w: Token)
    | Rolling(w: Token)
    | RollingCleared(w: Token, d: Option<int>)
    | RollingGone(w: Token, d: Option<int>)

  datatype Exit = Queued | Working | Cleared(d: Option<int>) | Exited

  /** A lease loss on its way through the callback. */
  datatype Loss = NoLoss | Detected(j: int, d: Option<int>) | Aborted(j: int, d: Option<int>, keep: bool)

  datatype Sys = Sys(
    o: Occ,
    att: map<Token, Attempt>,
    toFence: set<Token>,
    claim: Claim,
    workers: map<Token, Exit>,
    loss: Loss)

  datatype Event =
    | ClaimJob(w: Token, j: int, d: int, f: Token)
    | ClaimRegister
    | Fence(w: Token)
    | ClaimSubmit
    | ClaimSubmitFails
    | ClaimRegisterFails
    | ClaimUndo
    | WorkerRegisters(w: Token)
    | Resume(w: Token, j: int, d: int, f: Token)
    | ResumeSubmit(w: Token)
    | WorkerStarts(w: Token)
    | WorkerExits(w: Token)
    | LoseLease(j: int, f: Token)
    | LossCallback
    | AbortJob(j: int)
    | ClearToken(j: int)
    | PurgeOrphans

  const INIT := Sys(EMPTY, map[], {}, Idle, map[], NoLoss)

  predicate Fresh(s: Sys, w: Token, a: Attempt) {
    w in s.att ==> s.att[w] == a
  }

  function DoRegister(s: Sys, w: Token): Sys
    requires w in s.att
  {
    s.(o := Register(s.o, s.att[w].job, w, s.att[w].device), toFence := s.toFence + {w})
  }

  /** The next region of undoing a failed claim. */
  function UndoClaim(s: Sys): Sys {
    match s.claim
    case Failed(w) =>
      if w !in s.att then s else
        var a := s.att[w];
        s.(o := ClearFenceIfCurrent(s.o, a.job, a.fence, w),
           claim := FailedCleared(w, ClearedDevice(s.o, a.job, a.fence, w)))
    case FailedCleared(w, d) =>
      if w !in s.att then s else s.(o := JobExit(s.o, s.att[w].job, w, d), claim := FailedExited(w))
    case FailedExited(w) =>
      if w !in s.att then s else s.(o := s.o.(devices := s.o.devices - {s.att[w].device}), claim := Idle)
    case Rolling(w) =>
      if w !in s.att then s else
        var a := s.att[w];
        s.(o := ClearFenceIfCurrent(s.o, a.job, a.fence, w),
           claim := RollingCleared(w, ClearedDevice(s.o, a.job, a.fence, w)))
    case RollingCleared(w, d) =>
      if w !in s.att then s else s.(o := Unregister(s.o, s.att[w].job), claim := RollingGone(w, d))
    case RollingGone(w, d) =>
      if w !in s.att then s else
        s.(o := Free(s.o, if d.Some? then d else Some(s.att[w].device), s.att[w].job), claim := Idle)
    case _ => s
  }

  /** The next region of a worker's exit. */
  function ExitWorker(s: Sys, w: Token): Sys {
    if w !in s.workers || w !in s.att then s else
      var a := s.att[w];
      match s.workers[w]
      case Working =>
        s.(o := ClearFenceIfCurrent(s.o, a.job, a.fence, w),
           workers := s.workers[w := Cleared(ClearedDevice(s.o, a.job, a.fence, w))])
      case Cleared(d) => s.(o := JobExit(s.o, a.job, w, d), workers := s.workers[w := Exited])
      case Exited => s.(o := WorkerRelease(s.o, a.job, w, a.device), workers := s.workers - {w})
      case Queued => s
  }

  function CallBack(s: Sys): Sys {
    match s.loss
    case Detected(j, d) => s.(o := MarkAbort(s.o, j), loss := Aborted(j, d, j in s.o.jobs))
    case Aborted(j, d, keep) => s.(o := LossCleanup(s.o, j, d, keep), loss := NoLoss)
    case NoLoss => s
  }

  /** One lock region of one thread; an event that cannot happen changes nothing. */
  function Next(s: Sys, e: Event): Sys {
    match e
    case ClaimJob(w, j, d, f) =>
      if s.claim != Idle || w in s.att || d in s.o.devices then s
      else s.(o := PreOccupy(s.o, j, d), att := s.att[w := Attempt(j, d, f)], claim := Occupied(w))
    case ClaimRegister =>
      if s.claim.Occupied? && s.claim.w in s.att then DoRegister(s, s.claim.w).(claim := Registered(s.claim.w)) else s
    case Fence(w) =>
      if w in s.toFence && w in s.att
      then s.(o := SetFence(s.o, s.att[w].job, s.att[w].fence, w, s.att[w].device), toFence := s.toFence - {w})
      else s
    case ClaimSubmit =>
      if s.claim.Registered? && s.claim.w !in s.toFence
      then s.(workers := s.workers[s.claim.w := Queued], claim := Idle) else s
    case ClaimSubmitFails =>
      if s.claim.Registered? && s.claim.w !in s.toFence then s.(claim := Failed(s.claim.w)) else s
    case ClaimRegisterFails =>
      if s.claim.Registered? && s.claim.w !in s.toFence then s.(claim := Rolling(s.claim.w)) else s
    case ClaimUndo => UndoClaim(s)
    case WorkerRegisters(w) =>
      if w in s.workers && w in s.att && s.workers[w] == Working then DoRegister(s, w) else s
    case Resume(w, j, d, f) =>
      if Fresh(s, w, Attempt(j, d, f)) then DoRegister(s.(att := s.att[w := Attempt(j, d, f)]), w) else s
    case ResumeSubmit(w) =>
      if w in s.att && w !in s.workers then s.(workers := s.workers[w := Queued]) else s
    case WorkerStarts(w) =>
      if w !in s.workers || w !in s.att || s.workers[w] != Queued then s
      else if Get(s.o.running, s.att[w].job) == Some(w) then s.(workers := s.workers - {w})
      else s.(workers := s.workers[w := Working], o := s.o.(running := s.o.running[s.att[w].job := w]))
    case WorkerExits(w) => ExitWorker(s, w)
    case LoseLease(j, f) =>
      if s.loss == NoLoss && LossAccepted(s.o, j, f)
      then s.(o := LossDetected(s.o, j), loss := Detected(j, Get(s.o.leaseDevice, j))) else s
    case LossCallback => CallBack(s)
    case AbortJob(j) => s.(o := MarkAbort(s.o, j))
    case ClearToken(j) => s.(o := ClearFence(s.o, j))
    case PurgeOrphans => s.(o := Purge(s.o))
  }

  function Exec(s: Sys, es: seq<Event>): Sys
    decreases |es|
  {
    if es == [] then s else Exec(Next(s, es[0]), es[1..])
  }

  // ---------------------------------------------------------------------------
  // The invariant and the steps that can break it
  // ---------------------------------------------------------------------------

  ghost predicate Holds(s: Sys, j: int, d: int) {
    j in s.o.jobs && j in s.o.tokens && s.o.tokens[j] in s.att && s.att[s.o.tokens[j]].device == d
  }

  /** The device a half-undone claim still means to free. */
  function ClaimDevice(c: Claim): Option<int> {
    match c
    case FailedCleared(_, d) => d
    case RollingCleared(_, d) => d
    case RollingGone(_, d) => d
    case _ => None
  }

  ghost predicate OccBase(o: Occ, att: map<Token, Attempt>) {
    && (forall j :: j in o.tokens ==> o.tokens[j] in att && att[o.tokens[j]].job == j)
    && (forall j :: j in o.leaseDevice ==> j in o.workerTok)
    && (forall j :: j in o.workerTok ==> o.workerTok[j] in att && att[o.workerTok[j]].job == j)
    && (forall j :: j in o.leaseDevice ==> o.leaseDevice[j] == att[o.workerTok[j]].device)
  }

  /** Bookkeeping that every step keeps: entries belong to known attempts at their job. */
  ghost predicate Base(s: Sys) {
    && OccBase(s.o, s.att)
    && (forall w :: w in s.workers ==> w in s.att)
    && (forall w :: w in s.workers && s.workers[w].Cleared? && s.workers[w].d.Some? ==>
          s.workers[w].d.value == s.att[w].device)
    && (s.claim != Idle ==> s.claim.w in s.att)
    && (s.claim != Idle && ClaimDevice(s.claim).Some? ==> ClaimDevice(s.claim).value == s.att[s.claim.w].device)
  }

  /** Every registered job's device is marked busy and belongs to that job. */
  ghost predicate SecureJobs(s: Sys) {
    forall j, d :: Holds(s, j, d) ==> d in s.o.devices && Get(s.o.owner, d) == Some(j)
  }

  /** A registered job holds device `d`. */
  ghost predicate Taken(s: Sys, d: int) {
    exists j :: Holds(s, j, d)
  }

  ghost predicate TakenByOther(s: Sys, d: int, j: int) {
    exists k :: k != j && Holds(s, k, d)
  }

  /** The guard under which a step leaves some registered job without its device. */
  ghost predicate BadForJobs(s: Sys, e: Event) {
    match e
    case ClaimRegister => s.claim.Occupied? && s.claim.w in s.att && TakenByOther(s, s.att[s.claim.w].device, s.att[s.claim.w].job)
    case WorkerRegisters(w) =>
      w in s.workers && w in s.att && s.workers[w] == Working && TakenByOther(s, s.att[w].device, s.att[w].job)
    case Resume(w, j, d, f) => Fresh(s, w, Attempt(j, d, f)) && TakenByOther(s, d, j)
    case ClaimUndo =>
      || (s.claim.FailedExited? && s.claim.w in s.att && Taken(s, s.att[s.claim.w].device))
      || (s.claim.RollingGone? && s.claim.w in s.att && Taken(s, s.att[s.claim.w].device))
    case WorkerExits(w) =>
      w in s.workers && w in s.att && s.workers[w] == Exited && Current(s.o, s.att[w].job, w)
    case LossCallback =>
      s.loss.Aborted? && !s.loss.keep && s.loss.d.Some? && TakenByOther(s, s.loss.d.value, s.loss.j)
    case _ => false
  }

  lemma ClearedIsOwn(s: Sys, w: Token)
    requires Base(s) && w in s.att
    ensures var d := ClearedDevice(s.o, s.att[w].job, s.att[w].fence, w);
            d.Some? ==> d.value == s.att[w].device
  {
  }

  ghost predicate Shrinks(o: Occ, o': Occ) {
    && (forall j :: j in o'.tokens ==> j in o.tokens && o'.tokens[j] == o.tokens[j])
    && (forall j :: j in o'.workerTok ==> j in o.workerTok && o'.workerTok[j] == o.workerTok[j])
    && (forall j :: j in o'.leaseDevice ==> j in o.leaseDevice && o'.leaseDevice[j] == o.leaseDevice[j])
    && (forall j :: j in o'.leaseDevice && j in o.workerTok ==> j in o'.workerTok)
  }

  lemma ShrinksKeepsBase(o: Occ, o': Occ, att: map<Token, Attempt>)
    requires OccBase(o, att) && Shrinks(o, o')
    ensures OccBase(o', att)
  {
  }

  lemma ClearFenceShrinks(o: Occ, j: int)
    ensures Shrinks(o, ClearFence(o, j))
  {
  }

  lemma UnregisterShrinks(o: Occ, j: int, d: Option<int>)
    ensures Shrinks(o, Unregister(o, j)) && Shrinks(o, Free(Unregister(o, j), d, j))
  {
  }

  lemma ReleaseShrinks(o: Occ, j: int, w: Token, x: int)
    ensures Shrinks(o, WorkerRelease(o, j, w, x))
  {
  }

  lemma BaseUndo(s: Sys)
    requires Base(s)
    ensures Base(UndoClaim(s))
  {
    if !s.claim.Idle? {
      var w, o' := s.claim.w, UndoClaim(s).o;
      var a := s.att[w];
      match s.claim {
        case Failed(_) => ClearedIsOwn(s, w); ClearFenceShrinks(s.o, a.job);
        case Rolling(_) => ClearedIsOwn(s, w); ClearFenceShrinks(s.o, a.job);
        case FailedCleared(_, d) => UnregisterShrinks(s.o, a.job, d);
        case RollingCleared(_, d) => UnregisterShrinks(s.o, a.job, d);
        case _ =>
      }
      assert Shrinks(s.o, o');
      ShrinksKeepsBase(s.o, o', s.att);
    }
  }

  lemma BaseExit(s: Sys, w: Token)
    requires Base(s)
    ensures Base(ExitWorker(s, w))
  {
    if w in s.workers {
      var a, o' := s.att[w], ExitWorker(s, w).o;
      match s.workers[w] {
        case Working => ClearedIsOwn(s, w); ClearFenceShrinks(s.o, a.job);
        case Cleared(d) => UnregisterShrinks(s.o, a.job, d);
        case Exited => ReleaseShrinks(s.o, a.job, w, a.device);
        case Queued =>
      }
      assert Shrinks(s.o, o');
      ShrinksKeepsBase(s.o, o', s.att);
    }
  }

  /** The registrations and the fencing writes. */
  lemma BaseRegister(s: Sys, e: Event)
    requires Base(s)
    requires e.ClaimRegister? || e.WorkerRegisters? || e.Resume? || e.Fence?
    ensures Base(Next(s, e))
  {
  }

  /** The claim tick's and the starting worker's moves. */
  lemma BaseClaim(s: Sys, e: Event)
    requires Base(s)
    requires e.ClaimJob? || e.ClaimSubmit? || e.ClaimSubmitFails? || e.ClaimRegisterFails? || e.ResumeSubmit? || e.WorkerStarts?
    ensures Base(Next(s, e))
  {
  }

  lemma BaseCallBack(s: Sys)
    requires Base(s)
    ensures Base(CallBack(s))
  {
    match s.loss {
      case Aborted(j, d, keep) => UnregisterShrinks(s.o, j, d);
      case _ =>
    }
    ShrinksKeepsBase(s.o, CallBack(s).o, s.att);
  }

  lemma BaseLoss(s: Sys, j: int, f: Token)
    requires Base(s)
    ensures Base(Next(s, LoseLease(j, f)))
  {
    var o1 := s.o.(jobs := s.o.jobs - {j});
    assert Shrinks(s.o, o1);
    ShrinksKeepsBase(s.o, o1, s.att);
    ClearFenceShrinks(o1, j);
    ShrinksKeepsBase(o1, LossDetected(s.o, j), s.att);
  }

  lemma BaseClear(s: Sys, j: int)
    requires Base(s)
    ensures Base(Next(s, ClearToken(j)))
  {
    ClearFenceShrinks(s.o, j);
    ShrinksKeepsBase(s.o, ClearFence(s.o, j), s.att);
  }

  lemma BasePurge(s: Sys)
    requires Base(s)
    ensures Base(Next(s, PurgeOrphans))
  {
    ShrinksKeepsBase(s.o, Purge(s.o), s.att);
  }

  lemma BaseStep(s: Sys, e: Event)
    requires Base(s)
    ensures Base(Next(s, e))
  {
    match e
    case ClaimUndo => BaseUndo(s);
    case WorkerExits(w) => BaseExit(s, w);
    case ClaimRegister => BaseRegister(s, e);
    case WorkerRegisters(_) => BaseRegister(s, e);
    case Resume(_, _, _, _) => BaseRegister(s, e);
    case Fence(_) => BaseRegister(s, e);
    case LoseLease(j, f) => BaseLoss(s, j, f);
    case LossCallback => BaseCallBack(s);
    case AbortJob(_) =>
    case ClearToken(j) => BaseClear(s, j);
    case PurgeOrphans => BasePurge(s);
    case _ => BaseClaim(s, e);
  }

  /** Steps that only shrink the registrations and leave the occupation alone are safe. */
  lemma ShrinkKeepsSecure(s: Sys, s': Sys)
    requires SecureJobs(s) && Base(s)
    requires s'.o.jobs <= s.o.jobs && (forall j :: j in s'.o.tokens ==> j in s.o.tokens && s'.o.tokens[j] == s.o.tokens[j])
    requires forall w :: w in s.att ==> w in s'.att && s'.att[w] == s.att[w]
    requires s'.o.devices == s.o.devices && s'.o.owner == s.o.owner
    ensures SecureJobs(s')
  {
    forall j, d | Holds(s', j, d) ensures d in s'.o.devices && Get(s'.o.owner, d) == Some(j) {
      assert Holds(s, j, d);
    }
  }

  lemma RegisterExact(s: Sys, w: Token)
    requires SecureJobs(s) && Base(s) && w in s.att
    ensures SecureJobs(DoRegister(s, w)) <==> !TakenByOther(s, s.att[w].device, s.att[w].job)
  {
    var s', a := DoRegister(s, w), s.att[w];
    assert Holds(s', a.job, a.device);
    if k :| k != a.job && Holds(s, k, a.device) {
      assert Holds(s', k, a.device);
    } else {
      forall j, d | Holds(s', j, d) ensures d in s'.o.devices && Get(s'.o.owner, d) == Some(j) {
        if j != a.job { assert Holds(s, j, d); }
      }
    }
  }

  /** Unregistering `j` and freeing a device breaks security exactly when another
      registered job holds that device. */
  lemma FreeExact(s: Sys, s': Sys, j: int, d: Option<int>)
    requires SecureJobs(s) && Base(s) && s'.att == s.att && s'.o == Free(Unregister(s.o, j), d, j)
    ensures SecureJobs(s') <==> !(d.Some? && TakenByOther(s, d.value, j))
  {
    forall k, x | k != j ensures Holds(s, k, x) <==> Holds(s', k, x) {}
    if d.Some? && TakenByOther(s, d.value, j) {
      var k :| k != j && Holds(s, k, d.value);
      assert Holds(s', k, d.value);
    } else {
      forall k, x | Holds(s', k, x) ensures x in s'.o.devices && Get(s'.o.owner, x) == Some(k) {
        assert k != j && Holds(s, k, x);
      }
    }
  }

  lemma DiscardExact(s: Sys, s': Sys, d: int)
    requires SecureJobs(s) && s'.att == s.att && s'.o == s.o.(devices := s.o.devices - {d})
    ensures SecureJobs(s') <==> !Taken(s, d)
  {
    forall k, x ensures Holds(s, k, x) <==> Holds(s', k, x) {}
    if Taken(s, d) {
      var k :| Holds(s, k, d);
      assert Holds(s', k, d);
    }
  }

  lemma RollbackExact(s: Sys, s': Sys, j: int, d: int)
    requires SecureJobs(s) && s'.att == s.att && s'.o == Free(s.o, Some(d), j)
    ensures SecureJobs(s') <==> !Taken(s, d)
  {
    forall k, x ensures Holds(s, k, x) <==> Holds(s', k, x) {}
    if Taken(s, d) {
      var k :| Holds(s, k, d);
      assert Holds(s', k, d);
    } else {
      forall k, x | Holds(s', k, x) ensures x in s'.o.devices && Get(s'.o.owner, x) == Some(k) {
        assert Holds(s, k, x) && x != d;
      }
    }
  }

  /** A worker that exits through its cleanup never frees a device of another job: the
      device it was handed back is its own. */
  lemma JobExitSafe(s: Sys, s': Sys, w: Token, d: Option<int>)
    requires SecureJobs(s) && Base(s) && w in s.att && (d.Some? ==> d.value == s.att[w].device)
    requires s'.att == s.att && s'.o == JobExit(s.o, s.att[w].job, w, d)
    ensures SecureJobs(s')
  {
    var j := s.att[w].job;
    if Current(s.o, j, w) {
      assert Holds(s, j, s.att[w].device);
      FreeExact(s, s', j, d);
    } else {
      ShrinkKeepsSecure(s, s');
    }
  }

  /** A release frees a device of a registered job only when that job is registered
      under the very token of the releasing worker. */
  lemma ReleaseExact(s: Sys, s': Sys, w: Token)
    requires SecureJobs(s) && Base(s) && w in s.att
    requires s'.att == s.att && s'.o == WorkerRelease(s.o, s.att[w].job, w, s.att[w].device)
    ensures SecureJobs(s') <==> !Current(s.o, s.att[w].job, w)
  {
    var j, d := s.att[w].job, s.att[w].device;
    forall k, x ensures Holds(s, k, x) <==> Holds(s', k, x) {}
    if Current(s.o, j, w) {
      assert Holds(s, j, d) && Holds(s', j, d);
    } else {
      forall k, x | Holds(s', k, x) ensures x in s'.o.devices && Get(s'.o.owner, x) == Some(k) {
        assert Holds(s, k, x);
      }
    }
  }

  lemma UndoExact(s: Sys)
    requires Base(s) && SecureJobs(s)
    ensures SecureJobs(UndoClaim(s)) <==> !BadForJobs(s, ClaimUndo)
  {
    var s' := UndoClaim(s);
    match s.claim
    case FailedCleared(w, d) => if w in s.att { JobExitSafe(s, s', w, d); }
    case FailedExited(w) => if w in s.att { DiscardExact(s, s', s.att[w].device); }
    case RollingGone(w, d) => if w in s.att { RollbackExact(s, s', s.att[w].job, s.att[w].device); }
    case Idle =>
    case _ => ShrinkKeepsSecure(s, s');
  }

  lemma ExitExact(s: Sys, w: Token)
    requires Base(s) && SecureJobs(s)
    ensures SecureJobs(ExitWorker(s, w)) <==> !BadForJobs(s, WorkerExits(w))
  {
    if w in s.workers && w in s.att {
      var s' := ExitWorker(s, w);
      match s.workers[w]
      case Cleared(d) => JobExitSafe(s, s', w, d);
      case Exited => ReleaseExact(s, s', w);
      case _ => ShrinkKeepsSecure(s, s');
    }
  }

  lemma CallBackExact(s: Sys)
    requires Base(s) && SecureJobs(s)
    ensures SecureJobs(CallBack(s)) <==> !BadForJobs(s, LossCallback)
  {
    var s' := CallBack(s);
    match s.loss
    case Aborted(j, d, keep) => if !keep { FreeExact(s, s', j, d); } else { ShrinkKeepsSecure(s, s'); }
    case _ => ShrinkKeepsSecure(s, s');
  }

  lemma ResumeExact(s: Sys, w: Token, a: Attempt)
    requires Base(s) && SecureJobs(s) && Fresh(s, w, a)
    ensures SecureJobs(DoRegister(s.(att := s.att[w := a]), w)) <==> !TakenByOther(s, a.device, a.job)
  {
    var s1 := s.(att := s.att[w := a]);
    ShrinkKeepsSecure(s, s1);
    assert Base(s1);
    forall k, x ensures Holds(s, k, x) <==> Holds(s1, k, x) {}
    RegisterExact(s1, w);
    assert TakenByOther(s1, a.device, a.job) <==> TakenByOther(s, a.device, a.job);
  }

  /** Every registered job keeps its device through a step exactly when the step is not
      one of the guarded unsafe ones. */
  lemma JobsStepExact(s: Sys, e: Event)
    requires Base(s) && SecureJobs(s)
    ensures SecureJobs(Next(s, e)) <==> !BadForJobs(s, e)
  {
    match e
    case ClaimJob(w, j, d, f) => ClaimKeepsSecure(s, w, j, d, f);
    case ClaimRegister => if s.claim.Occupied? && s.claim.w in s.att { RegisterExact(s, s.claim.w); SameRegistrations(s, s.claim.w); }
    case ClaimUndo => UndoExact(s);
    case WorkerRegisters(w) => if w in s.att { RegisterExact(s, w); }
    case Resume(w, j, d, f) => if Fresh(s, w, Attempt(j, d, f)) { ResumeExact(s, w, Attempt(j, d, f)); }
    case WorkerExits(w) => ExitExact(s, w);
    case LossCallback => CallBackExact(s);
    case _ => ShrinkKeepsSecure(s, Next(s, e));
  }

  lemma SameRegistrations(s: Sys, w: Token)
    requires w in s.att
    ensures SecureJobs(DoRegister(s, w).(claim := Registered(w))) <==> SecureJobs(DoRegister(s, w))
  {
    var s1 := DoRegister(s, w);
    forall j, d ensures Holds(s1, j, d) <==> Holds(s1.(claim := Registered(w)), j, d) {}
  }

  lemma ClaimKeepsSecure(s: Sys, w: Token, j: int, d: int, f: Token)
    requires Base(s) && SecureJobs(s)
    ensures SecureJobs(Next(s, ClaimJob(w, j, d, f)))
  {
    var s' := Next(s, ClaimJob(w, j, d, f));
    forall k, x | Holds(s', k, x) ensures x in s'.o.devices && Get(s'.o.owner, x) == Some(k) {
      assert Holds(s, k, x);
    }
  }

  // ---------------------------------------------------------------------------
  // One device of one job, through any step
  // ---------------------------------------------------------------------------

  predicate OwnedBy(o: Occ, d: int, j: int) {
    d in o.devices && Get(o.owner, d) == Some(j)
  }

  /** The tests under which a step takes device `d` away from job `j`, whose it is: another
      job registers on it; the undoing of a claim frees it; a worker's clean-up or release
      frees it; or a lease-loss clean-up that does not keep it. */
  predicate TakesAway(s: Sys, e: Event, j: int, d: int) {
    match e
    case ClaimRegister => s.claim.Occupied? && Registers(s, s.claim.w, j, d)
    case WorkerRegisters(w) => w in s.workers && s.workers[w] == Working && Registers(s, w, j, d)
    case Resume(w, k, x, f) => Fresh(s, w, Attempt(k, x, f)) && x == d && k != j
    case ClaimUndo =>
      || (s.claim.FailedCleared? && s.claim.w in s.att && s.claim.d == Some(d) && Current(s.o, s.att[s.claim.w].job, s.claim.w))
      || (s.claim.FailedExited? && s.claim.w in s.att && s.att[s.claim.w].device == d)
      || (s.claim.RollingGone? && s.claim.w in s.att && (if s.claim.d.Some? then s.claim.d.value else s.att[s.claim.w].device) == d)
    case WorkerExits(w) =>
      w in s.workers && w in s.att &&
      (match s.workers[w]
       case Cleared(x) => x == Some(d) && Current(s.o, s.att[w].job, w)
       case Exited =>
         s.att[w].device == d && s.att[w].job == j && (Get(s.o.tokens, j) == None || Get(s.o.tokens, j) == Some(w))
       case _ => false)
    case LossCallback => s.loss.Aborted? && !s.loss.keep && s.loss.d == Some(d)
    case _ => false
  }

  predicate Registers(s: Sys, w: Token, j: int, d: int) {
    w in s.att && s.att[w].device == d && s.att[w].job != j
  }

  lemma OwnedThroughRegister(s: Sys, e: Event, j: int, d: int)
    requires OwnedBy(s.o, d, j) && (e.ClaimRegister? || e.WorkerRegisters? || e.Resume?)
    ensures OwnedBy(Next(s, e).o, d, j) <==> !TakesAway(s, e, j, d)
  {
  }

  lemma OwnedThroughFree(o: Occ, x: Option<int>, k: int, j: int, d: int)
    requires OwnedBy(o, d, j)
    ensures OwnedBy(Free(o, x, k), d, j) <==> x != Some(d)
  {
  }

  lemma OwnedThroughJobExit(o: Occ, k: int, w: Token, x: Option<int>, j: int, d: int)
    requires OwnedBy(o, d, j)
    ensures OwnedBy(JobExit(o, k, w, x), d, j) <==> !(x == Some(d) && Current(o, k, w))
  {
    OwnedThroughFree(Unregister(o, k), x, k, j, d);
  }

  lemma OwnedThroughRelease(o: Occ, k: int, w: Token, x: int, j: int, d: int)
    requires OwnedBy(o, d, j)
    ensures OwnedBy(WorkerRelease(o, k, w, x), d, j) <==> !(x == d && k == j && (Get(o.tokens, j) == None || Get(o.tokens, j) == Some(w)))
  {
  }

  lemma OwnedThroughUndo(s: Sys, j: int, d: int)
    requires OwnedBy(s.o, d, j)
    ensures OwnedBy(UndoClaim(s).o, d, j) <==> !TakesAway(s, ClaimUndo, j, d)
  {
    if s.claim != Idle && s.claim.w in s.att {
      var a := s.att[s.claim.w];
      match s.claim
      case FailedCleared(w, x) => OwnedThroughJobExit(s.o, a.job, w, x, j, d);
      case RollingGone(w, x) => OwnedThroughFree(s.o, if x.Some? then x else Some(a.device), a.job, j, d);
      case _ =>
    }
  }

  lemma OwnedThroughExit(s: Sys, w: Token, j: int, d: int)
    requires OwnedBy(s.o, d, j)
    ensures OwnedBy(ExitWorker(s, w).o, d, j) <==> !TakesAway(s, WorkerExits(w), j, d)
  {
    if w in s.workers && w in s.att {
      var a := s.att[w];
      match s.workers[w]
      case Cleared(x) => OwnedThroughJobExit(s.o, a.job, w, x, j, d);
      case Exited => OwnedThroughRelease(s.o, a.job, w, a.device, j, d);
      case _ =>
    }
  }

  lemma OwnedThroughLoss(s: Sys, j: int, d: int)
    requires OwnedBy(s.o, d, j)
    ensures OwnedBy(CallBack(s).o, d, j) <==> !TakesAway(s, LossCallback, j, d)
  {
    match s.loss
    case Aborted(k, x, keep) => OwnedThroughFree(Unregister(s.o, k), x, k, j, d);
    case _ =>
  }

  lemma OwnedStepExact(s: Sys, e: Event, j: int, d: int)
    requires OwnedBy(s.o, d, j)
    ensures OwnedBy(Next(s, e).o, d, j) <==> !TakesAway(s, e, j, d)
  {
    match e
    case ClaimUndo => OwnedThroughUndo(s, j, d);
    case WorkerExits(w) => OwnedThroughExit(s, w, j, d);
    case ClaimRegister => OwnedThroughRegister(s, e, j, d);
    case WorkerRegisters(_) => OwnedThroughRegister(s, e, j, d);
    case Resume(_, _, _, _) => OwnedThroughRegister(s, e, j, d);
    case LossCallback => OwnedThroughLoss(s, j, d);
    case _ =>
  }

  // ---------------------------------------------------------------------------
  // Registered jobs and the pre-occupying claim together
  // ---------------------------------------------------------------------------

  /** A claim that has pre-occupied its device but not registered yet still has it. */
  predicate SecureClaim(s: Sys) {
    s.claim.Occupied? && s.claim.w in s.att ==> OwnedBy(s.o, s.att[s.claim.w].device, s.att[s.claim.w].job)
  }

  /** The guard under which a step opens a pre-occupied device. */
  predicate BadForClaim(s: Sys, e: Event) {
    && s.claim.Occupied? && s.claim.w in s.att && !e.ClaimRegister?
    && TakesAway(s, e, s.att[s.claim.w].job, s.att[s.claim.w].device)
  }

  ghost predicate Secure(s: Sys) {
    SecureJobs(s) && SecureClaim(s)
  }

  ghost predicate Bad(s: Sys, e: Event) {
    BadForJobs(s, e) || BadForClaim(s, e)
  }

  lemma ClaimStays(s: Sys, e: Event)
    requires s.claim.Occupied? && s.claim.w in s.att && !e.ClaimRegister?
    ensures var s' := Next(s, e); s'.claim == s.claim && s.claim.w in s'.att && s'.att[s.claim.w] == s.att[s.claim.w]
  {
  }

  lemma ClaimStepExact(s: Sys, e: Event)
    requires SecureClaim(s) && Base(s)
    ensures SecureClaim(Next(s, e)) <==> !BadForClaim(s, e)
  {
    if s.claim.Occupied? && s.claim.w in s.att && !e.ClaimRegister? {
      ClaimStays(s, e);
      OwnedStepExact(s, e, s.att[s.claim.w].job, s.att[s.claim.w].device);
    } else {
      NewClaim(s, e);
    }
  }

  lemma NewClaim(s: Sys, e: Event)
    requires Base(s) && (!s.claim.Occupied? || e.ClaimRegister?)
    ensures SecureClaim(Next(s, e))
  {
  }

  /** Registered jobs and the pre-occupying claim keep their devices through a step exactly
      when the step is not one of the guarded ones. */
  lemma SecureStepExact(s: Sys, e: Event)
    requires Base(s) && Secure(s)
    ensures Secure(Next(s, e)) <==> !Bad(s, e)
  {
    JobsStepExact(s, e);
    ClaimStepExact(s, e);
  }

  // ---------------------------------------------------------------------------
  // A device kept for a worker until it has gone
  // ---------------------------------------------------------------------------

  /** The last lock region of worker `w`. */
  predicate LastExit(s: Sys, e: Event, w: Token) {
    e == WorkerExits(w) && w in s.workers && w in s.att && s.workers[w] == Exited
  }

  /** Device `d` stays job `j`'s until the last region of `w`. */
  predicate StaysUntilExit(s: Sys, es: seq<Event>, w: Token, j: int, d: int)
    decreases |es|
  {
    OwnedBy(s.o, d, j) && (es == [] || LastExit(s, es[0], w) || StaysUntilExit(Next(s, es[0]), es[1..], w, j, d))
  }

  predicate NobodyTakes(s: Sys, es: seq<Event>, w: Token, j: int, d: int)
    decreases |es|
  {
    es == [] || LastExit(s, es[0], w) || (!TakesAway(s, es[0], j, d) && NobodyTakes(Next(s, es[0]), es[1..], w, j, d))
  }

  lemma {:induction false} OwnedUntilExitExact(s: Sys, es: seq<Event>, w: Token, j: int, d: int)
    requires OwnedBy(s.o, d, j)
    ensures StaysUntilExit(s, es, w, j, d) <==> NobodyTakes(s, es, w, j, d)
    decreases |es|
  {
    if es != [] && !LastExit(s, es[0], w) {
      OwnedStepExact(s, es[0], j, d);
      if OwnedBy(Next(s, es[0]).o, d, j) {
        OwnedUntilExitExact(Next(s, es[0]), es[1..], w, j, d);
      }
    }
  }

  /** After a lease loss whose abort was dispatched, the device stays the job's through
      every continuation up to the last region of its worker exactly when no other step
      takes it: and then that region frees it, unless the job has a newer attempt. */
  lemma LossKeepsDeviceUntilExit(s: Sys, es: seq<Event>, w: Token, j: int, d: int)
    requires s.loss == Aborted(j, Some(d), true) && OwnedBy(s.o, d, j) && w in s.att && s.att[w].job == j && s.att[w].device == d
    ensures var s' := Next(s, LossCallback);
            && OwnedBy(s'.o, d, j)
            && (StaysUntilExit(s', es, w, j, d) <==> NobodyTakes(s', es, w, j, d))
    ensures forall t: Sys :: LastExit(t, WorkerExits(w), w) && w in t.att && t.att[w] == s.att[w] && OwnedBy(t.o, d, j) ==>
              (d !in Next(t, WorkerExits(w)).o.devices <==> Get(t.o.tokens, j) == None || Get(t.o.tokens, j) == Some(w))
  {
    OwnedUntilExitExact(Next(s, LossCallback), es, w, j, d);
  }

  /** The step that decides whether the device is kept: an abort is dispatched exactly when
      the id is still active at that moment. */
  lemma LossKeepsIfActive(s: Sys, j: int, d: Option<int>)
    requires s.loss == Detected(j, d)
    ensures Next(s, LossCallback).loss == Aborted(j, d, j in s.o.jobs)
    ensures j in Next(s, LossCallback).o.aborts <==> j in s.o.jobs || j in s.o.aborts
  {
  }

  // ---------------------------------------------------------------------------
  // Whole runs
  // ---------------------------------------------------------------------------

  ghost predicate AlwaysSecure(s: Sys, es: seq<Event>)
    decreases |es|
  {
    Secure(s) && (es == [] || AlwaysSecure(Next(s, es[0]), es[1..]))
  }

  ghost predicate NeverBad(s: Sys, es: seq<Event>)
    decreases |es|
  {
    es == [] || (!Bad(s, es[0]) && NeverBad(Next(s, es[0]), es[1..]))
  }

  /** Through any interleaving of claim, register, roll-back, submit failure, RESUME,
      lease loss, CLEANUP and worker exit, every registered job keeps its device, and every
      claim its pre-occupied one, exactly when no guarded step is taken. */
  lemma {:induction false} SecureRunExact(s: Sys, es: seq<Event>)
    requires Base(s) && Secure(s)
    ensures AlwaysSecure(s, es) <==> NeverBad(s, es)
    decreases |es|
  {
    if es != [] {
      SecureStepExact(s, es[0]);
      BaseStep(s, es[0]);
      if Secure(Next(s, es[0])) {
        SecureRunExact(Next(s, es[0]), es[1..]);
      }
    }
  }

  /** A device has one registered job, and the job that has pre-occupied it is that one. */
  ghost predicate Exclusive(s: Sys) {
    && (forall j, k, d :: Holds(s, j, d) && Holds(s, k, d) ==> j == k)
    && (forall j, d :: Holds(s, j, d) && s.claim.Occupied? && s.claim.w in s.att && s.att[s.claim.w].device == d ==>
          s.att[s.claim.w].job == j)
    && (forall w, j, d, f :: Next(s, ClaimJob(w, j, d, f)) != s ==> !Taken(s, d))
  }

  lemma SecureIsExclusive(s: Sys)
    requires Secure(s)
    ensures Exclusive(s)
  {
    forall j, d | Holds(s, j, d) ensures OwnedBy(s.o, d, j) {}
    forall w, j, d, f, k | Holds(s, k, d) ensures Next(s, ClaimJob(w, j, d, f)) == s {
      assert OwnedBy(s.o, d, k);
    }
  }

  /** In such a run no device is ever held by two registered jobs or by one and another's
      claim, and the claim tick never pre-occupies a device of a registered job. */
  lemma {:induction false} OneJobPerDevice(s: Sys, es: seq<Event>)
    requires Base(s) && Secure(s) && NeverBad(s, es)
    ensures Exclusive(Exec(s, es))
    decreases |es|
  {
    if es == [] {
      SecureIsExclusive(s);
    } else {
      SecureStepExact(s, es[0]);
      BaseStep(s, es[0]);
      OneJobPerDevice(Next(s, es[0]), es[1..]);
    }
  }

  lemma InitSecure()
    ensures Base(INIT) && Secure(INIT)
  {
  }

  /** A late release: no job registered under another token loses its device; a re-claim
      loses its pre-occupied one exactly when it is the same job on the same device and no
      other token is registered for it; and the worker's own device, if it is still its
      job's, is freed exactly when no other token is registered. */
  lemma LateReleaseExact(s: Sys, w: Token)
    requires Base(s) && Secure(s) && w in s.workers && s.workers[w] == Exited
    ensures var a, s' := s.att[w], Next(s, WorkerExits(w));
            var free := Get(s.o.tokens, a.job) == None || Get(s.o.tokens, a.job) == Some(w);
            && (forall j, d :: Holds(s, j, d) && s.o.tokens[j] != w ==> OwnedBy(s'.o, d, j))
            && (s.claim.Occupied? ==>
                  (SecureClaim(s') <==> !(free && s.att[s.claim.w].job == a.job && s.att[s.claim.w].device == a.device)))
            && (OwnedBy(s.o, a.device, a.job) ==> (a.device !in s'.o.devices <==> free))
  {
    var a, s' := s.att[w], Next(s, WorkerExits(w));
    forall j, d | Holds(s, j, d) && s.o.tokens[j] != w ensures OwnedBy(s'.o, d, j) {
      OwnedStepExact(s, WorkerExits(w), j, d);
    }
    if s.claim.Occupied? { ClaimStepExact(s, WorkerExits(w)); }
  }

  // ---------------------------------------------------------------------------
  // Runs that take a guarded step
  // ---------------------------------------------------------------------------

  lemma {:induction false} ExecTrace(ss: seq<Sys>, es: seq<Event>)
    requires |ss| == |es| + 1
    requires forall i :: 0 <= i < |es| ==> ss[i + 1] == Next(ss[i], es[i])
    ensures Exec(ss[0], es) == ss[|es|]
    decreases |es|
  {
    if es != [] { ExecTrace(ss[1..], es[1..]); }
  }

  lemma {:induction false} ExecAppend(s: Sys, es: seq<Event>, fs: seq<Event>)
    ensures Exec(s, es + fs) == Exec(Exec(s, es), fs)
    decreases |es|
  {
    if es == [] {
      assert es + fs == fs;
    } else {
      assert (es + fs)[1..] == es[1..] + fs;
      ExecAppend(Next(s, es[0]), es[1..], fs);
    }
  }

  /** Attempt `w` at job `j` on device `d`, registered and holding the lease. */
  function Claimed(w: Token, j: int, d: int, f: Token): Sys {
    Sys(Occ({j}, {d}, map[j := w], map[d := j], map[], {}, map[j := f], map[j := w], map[j := d]),
        map[w := Attempt(j, d, f)], {}, Registered(w), map[], NoLoss)
  }

  /** The same attempt with its lease reported lost while the worker runs on. */
  function Lost(w: Token, j: int, d: int, f: Token): Sys {
    Sys(Occ({}, {}, map[], map[], map[j := w], {}, map[], map[], map[]),
        map[w := Attempt(j, d, f)], {}, Idle, map[w := Working], NoLoss)
  }

  function ClaimEvents(w: Token, j: int, d: int, f: Token): seq<Event> {
    [ClaimJob(w, j, d, f), ClaimRegister, Fence(w)]
  }

  function LossEvents(w: Token, j: int, f: Token): seq<Event> {
    [ClaimSubmit, WorkerStarts(w), LoseLease(j, f), LossCallback, LossCallback]
  }

  lemma ClaimRun(w: Token, j: int, d: int, f: Token)
    ensures Exec(INIT, ClaimEvents(w, j, d, f)) == Claimed(w, j, d, f)
  {
    var s1 := Next(INIT, ClaimJob(w, j, d, f));
    var s2 := Next(s1, ClaimRegister);
    assert s2.claim == Registered(w) && s2.toFence == {w};
    ExecTrace([INIT, s1, s2, Next(s2, Fence(w))], ClaimEvents(w, j, d, f));
  }

  lemma LossRun(w: Token, j: int, d: int, f: Token)
    ensures Exec(Claimed(w, j, d, f), LossEvents(w, j, f)) == Lost(w, j, d, f)
  {
    var s0 := Claimed(w, j, d, f);
    var s1 := Next(s0, ClaimSubmit);
    var s2 := Next(s1, WorkerStarts(w));
    var s3 := Next(s2, LoseLease(j, f));
    assert s3.loss == Detected(j, Some(d)) && j !in s3.o.jobs;
    var s4 := Next(s3, LossCallback);
    assert s4.loss == Aborted(j, Some(d), false);
    var s5 := Next(s4, LossCallback);
    assert s5.o.owner == map[] && s5.o.tokens == map[] && s5.o.fence == map[] && s5.o.workerTok == map[];
    assert s5.o.leaseDevice == map[];
    ExecTrace([s0, s1, s2, s3, s4, s5], LossEvents(w, j, f));
  }

  /** The attempt at work, before it exits. */
  function AtWork(w: Token, j: int, d: int, f: Token): Sys {
    Claimed(w, j, d, f).(claim := Idle, workers := map[w := Working], o := Claimed(w, j, d, f).o.(running := map[j := w], aborts := {j}))
  }

  /** Nothing but the memory of the attempt. */
  function Over(w: Token, j: int, d: int, f: Token): Sys {
    Sys(EMPTY, map[w := Attempt(j, d, f)], {}, Idle, map[], NoLoss)
  }

  lemma StartRun(w: Token, j: int, d: int, f: Token)
    ensures var s := Claimed(w, j, d, f);
            Exec(s, [ClaimSubmit, WorkerStarts(w)]) == s.(claim := Idle, workers := map[w := Working], o := s.o.(running := map[j := w]))
  {
    var s := Claimed(w, j, d, f);
    var s1 := Next(s, ClaimSubmit);
    assert s1.workers == map[w := Queued];
    ExecTrace([s, s1, Next(s1, WorkerStarts(w))], [ClaimSubmit, WorkerStarts(w)]);
  }

  lemma AgainRun(s: Sys, w: Token, j: int, d: int, f: Token)
    requires s == AtWork(w, j, d, f).(o := AtWork(w, j, d, f).o.(aborts := {}))
    ensures Exec(s, [WorkerRegisters(w), Fence(w), AbortJob(j)]) == AtWork(w, j, d, f)
  {
    var s1 := Next(s, WorkerRegisters(w));
    assert s1 == s.(toFence := {w});
    var s2 := Next(s1, Fence(w));
    assert s2 == s;
    ExecTrace([s, s1, s2, Next(s2, AbortJob(j))], [WorkerRegisters(w), Fence(w), AbortJob(j)]);
  }

  lemma WorkRun(w: Token, j: int, d: int, f: Token)
    ensures Exec(Claimed(w, j, d, f), [ClaimSubmit, WorkerStarts(w), WorkerRegisters(w), Fence(w), AbortJob(j)]) == AtWork(w, j, d, f)
  {
    var a, b := [ClaimSubmit, WorkerStarts(w)], [WorkerRegisters(w), Fence(w), AbortJob(j)];
    StartRun(w, j, d, f);
    AgainRun(Exec(Claimed(w, j, d, f), a), w, j, d, f);
    ExecAppend(Claimed(w, j, d, f), a, b);
    assert a + b == [ClaimSubmit, WorkerStarts(w), WorkerRegisters(w), Fence(w), AbortJob(j)];
  }

  lemma ExitFromWork(w: Token, j: int, d: int, f: Token)
    ensures Exec(AtWork(w, j, d, f), [WorkerExits(w), WorkerExits(w), WorkerExits(w)]) == Over(w, j, d, f)
  {
    var s, es := AtWork(w, j, d, f), [WorkerExits(w), WorkerExits(w), WorkerExits(w)];
    var s1 := Next(s, es[0]);
    assert s1.o == s.o.(fence := map[], workerTok := map[], leaseDevice := map[]) && s1.workers == map[w := Cleared(Some(d))];
    var s2 := Next(s1, es[1]);
    assert s2.o == EMPTY.(running := map[j := w], aborts := {j});
    var s3 := Next(s2, es[2]);
    assert s3.o == EMPTY && s3.workers == map[];
    ExecTrace([s, s1, s2, s3], es);
  }

  lemma ExitFromLoss(w: Token, j: int, d: int, f: Token)
    ensures Exec(Lost(w, j, d, f), [WorkerExits(w), WorkerExits(w), WorkerExits(w)]) == Over(w, j, d, f)
  {
    var s, es := Lost(w, j, d, f), [WorkerExits(w), WorkerExits(w), WorkerExits(w)];
    var s1 := Next(s, es[0]);
    assert s1.o == s.o && s1.workers == map[w := Cleared(None)];
    var s2 := Next(s1, es[1]);
    assert s2.o == s.o && s2.workers == map[w := Exited];
    var s3 := Next(s2, es[2]);
    assert s3.o == EMPTY && s3.workers == map[];
    ExecTrace([s, s1, s2, s3], es);
  }

  function FirstUndo(w: Token, j: int, d: int, f: Token): Occ {
    Claimed(w, j, d, f).o.(fence := map[], workerTok := map[], leaseDevice := map[])
  }

  lemma UndoSubmission(w: Token, j: int, d: int, f: Token)
    ensures Exec(Claimed(w, j, d, f), [ClaimSubmitFails, ClaimUndo, ClaimUndo, ClaimUndo]) == Over(w, j, d, f)
  {
    var s0, es := Claimed(w, j, d, f), [ClaimSubmitFails, ClaimUndo, ClaimUndo, ClaimUndo];
    var s1 := Next(s0, es[0]);
    var s2 := Next(s1, es[1]);
    assert s2 == s1.(o := FirstUndo(w, j, d, f), claim := FailedCleared(w, Some(d)));
    var s3 := Next(s2, es[2]);
    assert s3 == s1.(o := EMPTY, claim := FailedExited(w));
    ExecTrace([s0, s1, s2, s3, Next(s3, es[3])], es);
  }

  lemma UndoRegistration(w: Token, j: int, d: int, f: Token)
    ensures Exec(Claimed(w, j, d, f), [ClaimRegisterFails, ClaimUndo, ClaimUndo, ClaimUndo]) == Over(w, j, d, f)
  {
    var s0, es := Claimed(w, j, d, f), [ClaimRegisterFails, ClaimUndo, ClaimUndo, ClaimUndo];
    var s1 := Next(s0, es[0]);
    var s2 := Next(s1, es[1]);
    assert s2 == s1.(o := FirstUndo(w, j, d, f), claim := RollingCleared(w, Some(d)));
    var s3 := Next(s2, es[2]);
    assert s3.o == FirstUndo(w, j, d, f).(jobs := {}, tokens := map[]) && s3.claim == RollingGone(w, Some(d));
    var s4 := Next(s3, es[3]);
    assert s4.o == EMPTY;
    ExecTrace([s0, s1, s2, s3, s4], es);
  }

  lemma UndoRun(w: Token, j: int, d: int, f: Token, fails: Event)
    requires fails == ClaimSubmitFails || fails == ClaimRegisterFails
    ensures Exec(Claimed(w, j, d, f), [fails, ClaimUndo, ClaimUndo, ClaimUndo]) == Over(w, j, d, f)
  {
    if fails == ClaimSubmitFails { UndoSubmission(w, j, d, f); } else { UndoRegistration(w, j, d, f); }
  }

  /** A job resumed by the server is registered, fenced, queued and started like a claimed one. */
  lemma ResumeStarts(w: Token, j: int, d: int, f: Token)
    ensures var t := Exec(INIT, [Resume(w, j, d, f), Fence(w), ResumeSubmit(w), WorkerStarts(w)]);
            t == AtWork(w, j, d, f).(o := AtWork(w, j, d, f).o.(aborts := {}))
  {
    var es := [Resume(w, j, d, f), Fence(w), ResumeSubmit(w), WorkerStarts(w)];
    var s1 := Next(INIT, es[0]);
    var s2 := Next(s1, es[1]);
    assert s2.o == Claimed(w, j, d, f).o && s2.toFence == {};
    var s3 := Next(s2, es[2]);
    assert s3.workers == map[w := Queued];
    ExecTrace([INIT, s1, s2, s3, Next(s3, es[3])], es);
  }

  /** What does not happen: a submission before the lease entries are written, a second start
      of an attempt that is at work, a second queueing of a worker, and a lease loss reported
      under another lease token. */
  lemma NotBeforeItsTime(s: Sys, w: Token, j: int, f: Token)
    ensures s.claim == Registered(w) && w in s.toFence ==>
              Next(s, ClaimSubmit) == s && Next(s, ClaimSubmitFails) == s && Next(s, ClaimRegisterFails) == s
    ensures w in s.workers && w in s.att && s.workers[w] == Queued && Get(s.o.running, s.att[w].job) == Some(w) ==>
              Next(s, WorkerStarts(w)) == s.(workers := s.workers - {w})
    ensures w in s.workers ==> Next(s, ResumeSubmit(w)) == s && (s.workers[w] != Queued ==> Next(s, WorkerStarts(w)) == s)
    ensures j in s.o.fence && s.o.fence[j] != f ==> Next(s, LoseLease(j, f)) == s
  {
  }

  /** Orphaned fencing entries go, those of an active job stay; a cleared token takes the
      entries of its job with it and no others. */
  lemma PurgeExact(s: Sys, j: int, k: int)
    ensures var o := Next(s, PurgeOrphans).o;
            && (j in s.o.jobs || j !in s.o.fence ==>
                  Get(o.fence, j) == Get(s.o.fence, j) && Get(o.workerTok, j) == Get(s.o.workerTok, j) && Get(o.leaseDevice, j) == Get(s.o.leaseDevice, j))
            && (j !in s.o.jobs && j in s.o.fence ==> j !in o.fence && j !in o.workerTok && j !in o.leaseDevice)
            && o.jobs == s.o.jobs && o.devices == s.o.devices && o.tokens == s.o.tokens && o.owner == s.o.owner
    ensures var o := Next(s, ClearToken(k)).o;
            && k !in o.fence && k !in o.workerTok && k !in o.leaseDevice
            && (j != k ==> Get(o.fence, j) == Get(s.o.fence, j) && Get(o.workerTok, j) == Get(s.o.workerTok, j) && Get(o.leaseDevice, j) == Get(s.o.leaseDevice, j))
            && o.jobs == s.o.jobs && o.devices == s.o.devices && o.tokens == s.o.tokens && o.owner == s.o.owner
  {
  }

  /** Nothing is left behind: a job that is claimed, works, is aborted and exits, one that
      loses its lease meanwhile, and one whose submission or registration fails, all end with
      every table as it was before the claim. */
  lemma LifeLeavesNothing(w: Token, j: int, d: int, f: Token, fails: Event)
    requires fails == ClaimSubmitFails || fails == ClaimRegisterFails
    ensures var exits := [WorkerExits(w), WorkerExits(w), WorkerExits(w)];
            var works := [ClaimSubmit, WorkerStarts(w), WorkerRegisters(w), Fence(w), AbortJob(j)];
            && Exec(INIT, ClaimEvents(w, j, d, f) + works + exits) == Over(w, j, d, f)
            && Exec(INIT, ClaimEvents(w, j, d, f) + LossEvents(w, j, f) + exits) == Over(w, j, d, f)
            && Exec(INIT, ClaimEvents(w, j, d, f) + [fails, ClaimUndo, ClaimUndo, ClaimUndo]) == Over(w, j, d, f)
    ensures Over(w, j, d, f).o == INIT.o
  {
    var exits := [WorkerExits(w), WorkerExits(w), WorkerExits(w)];
    var works := [ClaimSubmit, WorkerStarts(w), WorkerRegisters(w), Fence(w), AbortJob(j)];
    ClaimRun(w, j, d, f);
    WorkRun(w, j, d, f);
    Through(ClaimEvents(w, j, d, f), Claimed(w, j, d, f), works);
    ExitFromWork(w, j, d, f);
    Through(ClaimEvents(w, j, d, f) + works, AtWork(w, j, d, f), exits);
    LossRun(w, j, d, f);
    Through(ClaimEvents(w, j, d, f), Claimed(w, j, d, f), LossEvents(w, j, f));
    ExitFromLoss(w, j, d, f);
    Through(ClaimEvents(w, j, d, f) + LossEvents(w, j, f), Lost(w, j, d, f), exits);
    UndoRun(w, j, d, f, fails);
    Through(ClaimEvents(w, j, d, f), Claimed(w, j, d, f), [fails, ClaimUndo, ClaimUndo, ClaimUndo]);
  }

  /** Cutting a run in two after a known state. */
  lemma Through(es: seq<Event>, s: Sys, fs: seq<Event>)
    requires Exec(INIT, es) == s
    ensures Exec(INIT, es + fs) == Exec(s, fs)
  {
    ExecAppend(INIT, es, fs);
  }

  lemma SubmitFailureTail(s: Sys, w: Token, j: int, d: int, f: Token, w2: Token, k: int)
    requires s == Claimed(w, j, d, f) && w != w2 && j != k
    ensures var t := Exec(s, [ClaimSubmitFails, ClaimUndo, ClaimUndo, Resume(w2, k, d, f), ClaimUndo]);
            && Holds(t, k, d) && d !in t.o.devices && t.claim == Idle
            && t.att == map[w := Attempt(j, d, f), w2 := Attempt(k, d, f)]
  {
    var es := [ClaimSubmitFails, ClaimUndo, ClaimUndo, Resume(w2, k, d, f), ClaimUndo];
    var s1 := Next(s, es[0]);
    var s2 := Next(s1, es[1]);
    assert s2.claim == FailedCleared(w, Some(d));
    var s3 := Next(s2, es[2]);
    assert s3.claim == FailedExited(w) && s3.att == s.att;
    var s4 := Next(s3, es[3]);
    assert s4.claim == FailedExited(w);
    ExecTrace([s, s1, s2, s3, s4, Next(s4, es[4])], es);
  }

  /** A claim of a free device registers, whoever else is registered on it. */
  lemma ClaimOnTop(s: Sys, w: Token, l: int, d: int, f: Token, k: int)
    requires s.claim == Idle && w !in s.att && d !in s.o.devices && Holds(s, k, d) && k != l
    ensures var t := Exec(s, [ClaimJob(w, l, d, f), ClaimRegister]); Holds(t, k, d) && Holds(t, l, d)
  {
    var s1 := Next(s, ClaimJob(w, l, d, f));
    ExecTrace([s, s1, Next(s1, ClaimRegister)], [ClaimJob(w, l, d, f), ClaimRegister]);
  }

  /** A failed submission frees the device a second time, without asking who owns it. If
      another job was resumed there in between, that job loses its occupation and the next
      claim tick runs a third job on the device. */
  lemma SubmitFailureDoubleBooks(w: Token, j: int, d: int, f: Token, w2: Token, k: int, w3: Token, l: int)
    requires w != w2 && w3 != w && w3 != w2 && j != k && k != l
    ensures var t := Exec(INIT, ClaimEvents(w, j, d, f)
              + [ClaimSubmitFails, ClaimUndo, ClaimUndo, Resume(w2, k, d, f), ClaimUndo]
              + [ClaimJob(w3, l, d, f), ClaimRegister]);
            Holds(t, k, d) && Holds(t, l, d)
  {
    var tail := [ClaimSubmitFails, ClaimUndo, ClaimUndo, Resume(w2, k, d, f), ClaimUndo];
    var s := Claimed(w, j, d, f);
    ClaimRun(w, j, d, f);
    Through(ClaimEvents(w, j, d, f), s, tail);
    SubmitFailureTail(s, w, j, d, f, w2, k);
    Through(ClaimEvents(w, j, d, f) + tail, Exec(s, tail), [ClaimJob(w3, l, d, f), ClaimRegister]);
    ClaimOnTop(Exec(s, tail), w3, l, d, f, k);
  }

  lemma ClaimOnFree(s: Sys, w: Token, w3: Token, l: int, d: int, f: Token)
    requires s.claim == Idle && w3 !in s.att && d !in s.o.devices && w3 !in s.toFence && w in s.att && w != w3
    ensures var t := Exec(s, ClaimEvents(w3, l, d, f));
            && t.claim == Registered(w3) && w3 !in t.toFence && w3 in t.att && t.att[w3] == Attempt(l, d, f)
            && w in t.att && t.att[w] == s.att[w]
            && t.workers == s.workers && t.o.running == s.o.running && t.o.aborts == s.o.aborts
  {
    var es := ClaimEvents(w3, l, d, f);
    var s1 := Next(s, es[0]);
    var s2 := Next(s1, es[1]);
    assert s2.claim == Registered(w3) && w3 in s2.toFence;
    ExecTrace([s, s1, s2, Next(s2, es[2])], es);
  }

  /** A free device can be claimed and a worker started on it while another works. */
  lemma SecondWorker(s: Sys, w: Token, w3: Token, l: int, d: int, f: Token)
    requires s.claim == Idle && w3 !in s.att && d !in s.o.devices && w3 !in s.toFence && l !in s.o.running
    requires w in s.workers && w in s.att && w != w3
    ensures var t := Exec(s, ClaimEvents(w3, l, d, f) + [ClaimSubmit, WorkerStarts(w3)]);
            && w3 in t.workers && t.workers[w3] == Working && w3 in t.att && t.att[w3].device == d
            && w in t.workers && t.workers[w] == s.workers[w] && w in t.att && t.att[w] == s.att[w]
            && t.o.aborts == s.o.aborts
  {
    ClaimOnFree(s, w, w3, l, d, f);
    var t := Exec(s, ClaimEvents(w3, l, d, f));
    ExecAppend(s, ClaimEvents(w3, l, d, f), [ClaimSubmit, WorkerStarts(w3)]);
    var t1 := Next(t, ClaimSubmit);
    ExecTrace([t, t1, Next(t1, WorkerStarts(w3))], [ClaimSubmit, WorkerStarts(w3)]);
  }

  /** Through the renewer a lease loss is reported after the id has left the shared set:
      no abort is recorded, the device is free at once, and a second worker starts on it
      while the first is still at work. */
  lemma LeaseLossRunsTwoWorkers(w: Token, j: int, d: int, f: Token, w3: Token, l: int)
    requires w != w3 && j != l
    ensures var t := Exec(INIT, ClaimEvents(w, j, d, f) + LossEvents(w, j, f)
                                + (ClaimEvents(w3, l, d, f) + [ClaimSubmit, WorkerStarts(w3)]));
            && (forall x :: x in {w, w3} ==> x in t.workers && t.workers[x] == Working && x in t.att && t.att[x].device == d)
            && j !in t.o.aborts
  {
    LostRun(w, j, d, f);
    Through(ClaimEvents(w, j, d, f) + LossEvents(w, j, f), Lost(w, j, d, f),
            ClaimEvents(w3, l, d, f) + [ClaimSubmit, WorkerStarts(w3)]);
    SecondWorker(Lost(w, j, d, f), w, w3, l, d, f);
  }

  lemma LostRun(w: Token, j: int, d: int, f: Token)
    ensures Exec(INIT, ClaimEvents(w, j, d, f) + LossEvents(w, j, f)) == Lost(w, j, d, f)
  {
    ClaimRun(w, j, d, f);
    LossRun(w, j, d, f);
    Through(ClaimEvents(w, j, d, f), Claimed(w, j, d, f), LossEvents(w, j, f));
  }

  lemma LateRelease(s: Sys, w: Token, j: int, d: int, f: Token, v: Token, g: Token)
    requires s == Lost(w, j, d, f) && w != v
    ensures var t := Exec(s, [ClaimJob(v, j, d, g), WorkerExits(w), WorkerExits(w), WorkerExits(w)]);
            && t.claim == Occupied(v) && d !in t.o.devices
            && t.att == map[w := Attempt(j, d, f), v := Attempt(j, d, g)]
    ensures BadForClaim(Exec(s, [ClaimJob(v, j, d, g), WorkerExits(w), WorkerExits(w)]), WorkerExits(w))
  {
    var es := [ClaimJob(v, j, d, g), WorkerExits(w), WorkerExits(w), WorkerExits(w)];
    var s1 := Next(s, es[0]);
    assert s1.claim == Occupied(v) && s1.o.tokens == map[] && s1.o.owner == map[d := j];
    var s2 := Next(s1, es[1]);
    assert s2.workers[w] == Cleared(None) && s2.o.owner == map[d := j] && s2.o.tokens == map[];
    var s3 := Next(s2, es[2]);
    assert s3.workers[w] == Exited && s3.o.tokens == map[] && s3.o.owner == map[d := j];
    ExecTrace([s, s1, s2, s3, Next(s3, es[3])], es);
    ExecTrace([s, s1, s2, s3], [ClaimJob(v, j, d, g), WorkerExits(w), WorkerExits(w)]);
  }

  lemma ResumeOnTop(s: Sys, v: Token, w2: Token, k: int, d: int, g: Token)
    requires s.claim == Occupied(v) && v in s.att && s.att[v].device == d && s.att[v].job != k && w2 !in s.att
    ensures var u := Exec(s, [Resume(w2, k, d, g), ClaimRegister]); Holds(u, s.att[v].job, d) && Holds(u, k, d)
  {
    var s1 := Next(s, Resume(w2, k, d, g));
    ExecTrace([s, s1, Next(s1, ClaimRegister)], [Resume(w2, k, d, g), ClaimRegister]);
  }

  /** The worker that lost the lease of job `j` exits after the same job was claimed again
      but before that claim is registered: it sees no token and its own job as the owner,
      and frees the pre-occupied device. A resumed job can then land on it too. */
  lemma LateReleaseOpensClaim(w: Token, j: int, d: int, f: Token, v: Token, g: Token, w2: Token, k: int)
    requires w != v && w != w2 && v != w2 && j != k
    ensures var t := Exec(INIT, ClaimEvents(w, j, d, f) + LossEvents(w, j, f)
                                + [ClaimJob(v, j, d, g), WorkerExits(w), WorkerExits(w), WorkerExits(w)]);
            && t.claim == Occupied(v) && d !in t.o.devices
            && (var u := Exec(t, [Resume(w2, k, d, g), ClaimRegister]); Holds(u, j, d) && Holds(u, k, d))
  {
    var es := [ClaimJob(v, j, d, g), WorkerExits(w), WorkerExits(w), WorkerExits(w)];
    LostRun(w, j, d, f);
    Through(ClaimEvents(w, j, d, f) + LossEvents(w, j, f), Lost(w, j, d, f), es);
    LateRelease(Lost(w, j, d, f), w, j, d, f, v, g);
    ResumeOnTop(Exec(Lost(w, j, d, f), es), v, w2, k, d, g);
  }
}
