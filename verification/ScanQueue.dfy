/** The scan queue: one pending job per (run, round), a single worker thread guarded by a
    flag, two locks. The steps are the lock regions of enqueuers and workers, plus the
    death of a worker. */
module ScanQueue {

  import opened Options

  // `n` numbers the requests; `key` is the pair of plan run and fact round.
  datatype Job = Job(key: int, n: nat)

  // The ordered dictionary: at most one job per key, in order of first insertion.
  type Queue = seq<Job>

  predicate HasKey(q: Queue, k: int) {
    exists i :: 0 <= i < |q| && q[i].key == k
  }

  ghost predicate OnePerKey(q: Queue) {
    forall i, j :: 0 <= i < j < |q| ==> q[i].key != q[j].key
  }

  /** Assignment keeps the place of a key that is already there. */
  function Put(q: Queue, job: Job): Queue {
    if q == [] then [job]
    else if q[0].key == job.key then [job] + q[1..]
    else [q[0]] + Put(q[1..], job)
  }

  lemma {:induction false} PutMembers(q: Queue, job: Job, j: Job)
    requires OnePerKey(q)
    ensures j in Put(q, job) <==> j == job || (j in q && j.key != job.key)
    decreases |q|
  {
    if q != [] {
      if q[0].key == job.key {
        assert q == [q[0]] + q[1..];
        if j in q[1..] {
          var i :| 0 <= i < |q[1..]| && q[1..][i] == j;
          assert q[i + 1] == j;
        }
      } else {
        PutMembers(q[1..], job, j);
        assert q == [q[0]] + q[1..];
      }
    }
  }

  lemma KeyInTail(q: Queue, k: int)
    requires q != [] && q[0].key != k
    ensures HasKey(q, k) <==> HasKey(q[1..], k)
  {
    if HasKey(q[1..], k) {
      var i :| 0 <= i < |q[1..]| && q[1..][i].key == k;
      assert q[i + 1].key == k;
    }
    if HasKey(q, k) {
      var i :| 0 <= i < |q| && q[i].key == k;
      assert q[1..][i - 1].key == k;
    }
  }

  lemma {:induction false} PutKeys(q: Queue, job: Job)
    ensures |Put(q, job)| == if HasKey(q, job.key) then |q| else |q| + 1
    ensures !HasKey(q, job.key) ==> Put(q, job) == q + [job]
    ensures forall i :: 0 <= i < |q| ==> i < |Put(q, job)| && Put(q, job)[i].key == q[i].key
    decreases |q|
  {
    if q != [] {
      assert q == [q[0]] + q[1..];
      if q[0].key != job.key {
        PutKeys(q[1..], job);
        KeyInTail(q, job.key);
      }
    }
  }

  lemma PutOnePerKey(q: Queue, job: Job)
    requires OnePerKey(q)
    ensures OnePerKey(Put(q, job))
  {
    PutKeys(q, job);
  }

  lemma InHasKey(q: Queue, j: Job)
    requires j in q
    ensures HasKey(q, j.key)
  {
    var i :| 0 <= i < |q| && q[i] == j;
  }

  // ---------------------------------------------------------------------------
  // The runner's own state
  // ---------------------------------------------------------------------------

  class ScanRunner {
    var pending: Queue
    var workerStarted: bool

    ghost predicate Valid() reads this { OnePerKey(pending) }

    constructor ()
      ensures Valid() && pending == [] && !workerStarted
    {
      pending, workerStarted := [], false;
    }

    method Insert(job: Job)
      requires Valid()
      modifies `pending
      ensures Valid() && pending == Put(old(pending), job)
      ensures job in pending
    {
      PutOnePerKey(pending, job);
      PutMembers(pending, job, job);
      pending := Put(pending, job);
    }

    method EnsureWorker() returns (spawned: bool)
      modifies `workerStarted
      ensures workerStarted && spawned == !old(workerStarted)
    {
      if workerStarted { return false; }
      workerStarted := true;
      spawned := true;
    }

    method EnqueueScanNow(job: Job) returns (spawned: bool)
      requires Valid()
      modifies this
      ensures Valid() && job in pending && workerStarted && spawned == !old(workerStarted)
      ensures forall j :: j in old(pending) && j.key != job.key ==> j in pending
      ensures forall j :: j in pending && j.key == job.key ==> j == job
    {
      ghost var before := pending;
      forall j ensures j in Put(before, job) <==> j == job || (j in before && j.key != job.key) {
        PutMembers(before, job, j);
      }
      Insert(job);
      spawned := EnsureWorker();
    }

    method DequeueNext() returns (job: Option<Job>)
      requires Valid()
      modifies `pending
      ensures Valid()
      ensures old(pending) == [] ==> job == None && pending == []
      ensures old(pending) != [] ==> job == Some(old(pending)[0]) && pending == old(pending)[1..]
    {
      if pending == [] { return None; }
      job := Some(pending[0]);
      pending := pending[1..];
    }

    /** Both locks held: the worker retires only when nothing is pending. */
    method Retire() returns (stopped: bool)
      modifies `workerStarted
      ensures stopped == (pending == [])
      ensures workerStarted == (old(workerStarted) && !stopped)
    {
      stopped := pending == [];
      if stopped { workerStarted := false; }
    }
  }

  // ---------------------------------------------------------------------------
  // Interleavings
  // ---------------------------------------------------------------------------

  datatype Phase = Dequeuing | Empty | Has(job: Job) | Running(job: Job) | Dying

  /** `newest` is the last request per key, `taken` the requests whose execution began. */
  datatype Sys = Sys(
    pending: Queue,
    flag: bool,
    workers: map<int, Phase>,
    waiting: set<int>,
    newest: map<int, nat>,
    clock: nat,
    taken: set<Job>)

  datatype Event =
    | Request(t: int, key: int)
    | Ensure(t: int, w: int)
    | Dequeue(w: int)
    | Drain(w: int)
    | Defer(w: int)
    | Execute(w: int)
    | Finish(w: int)
    | Die(w: int)
    | Finally(w: int)

  const INIT := Sys([], false, map[], {}, map[], 0, {})

  predicate Is(s: Sys, w: int, ph: Phase) {
    w in s.workers && s.workers[w] == ph
  }

  function To(s: Sys, w: int, ph: Phase): Sys {
    s.(workers := s.workers[w := ph])
  }

  function Next(s: Sys, e: Event): Sys {
    match e
    case Request(t, key) =>
      if t in s.waiting then s
      else s.(pending := Put(s.pending, Job(key, s.clock)), waiting := s.waiting + {t},
              newest := s.newest[key := s.clock], clock := s.clock + 1)
    case Ensure(t, w) =>
      if t !in s.waiting || w in s.workers then s
      else if s.flag then s.(waiting := s.waiting - {t})
      else To(s.(waiting := s.waiting - {t}, flag := true), w, Dequeuing)
    case Dequeue(w) =>
      if !Is(s, w, Dequeuing) then s
      else if s.pending == [] then To(s, w, Empty)
      else To(s.(pending := s.pending[1..]), w, Has(s.pending[0]))
    case Drain(w) =>
      if !Is(s, w, Empty) then s
      else if s.pending != [] then To(s, w, Dequeuing)
      else s.(flag := false, workers := s.workers - {w})
    case Defer(w) =>
      if w in s.workers && s.workers[w].Has? then To(s.(pending := Put(s.pending, s.workers[w].job)), w, Dequeuing) else s
    case Execute(w) =>
      if w in s.workers && s.workers[w].Has?
      then To(s.(taken := s.taken + {s.workers[w].job}), w, Running(s.workers[w].job)) else s
    case Finish(w) => if w in s.workers && s.workers[w].Running? then To(s, w, Dequeuing) else s
    case Die(w) => if w in s.workers then To(s, w, Dying) else s
    case Finally(w) => if Is(s, w, Dying) then s.(flag := false, workers := s.workers - {w}) else s
  }

  function Exec(s: Sys, es: seq<Event>): Sys
    decreases |es|
  {
    if es == [] then s else Exec(Next(s, es[0]), es[1..])
  }

  // ---------------------------------------------------------------------------
  // One worker
  // ---------------------------------------------------------------------------

  /** There is exactly one live worker while the flag is set and none while it is not; the
      queue holds one job per key; a held job is the newest of its key exactly when none of
      that key is pending. */
  ghost predicate Base(s: Sys) {
    && (forall v, w :: v in s.workers && w in s.workers ==> v == w)
    && (s.flag <==> exists w :: w in s.workers)
    && OnePerKey(s.pending)
    && (forall k :: k in s.newest ==> s.newest[k] < s.clock)
    && (forall j :: j in s.pending ==> j.key in s.newest && j.n < s.clock)
    && (forall w :: w in s.workers && s.workers[w].Has? ==> s.workers[w].job.key in s.newest && s.workers[w].job.n < s.clock)
  }

  lemma BaseRequest(s: Sys, t: int, key: int)
    requires Base(s)
    ensures Base(Next(s, Request(t, key)))
  {
    var job := Job(key, s.clock);
    PutOnePerKey(s.pending, job);
    forall j | j in Put(s.pending, job) ensures j == job || j in s.pending { PutMembers(s.pending, job, j); }
  }

  lemma BaseDefer(s: Sys, w: int)
    requires Base(s)
    ensures Base(Next(s, Defer(w)))
  {
    if w in s.workers && s.workers[w].Has? {
      var job := s.workers[w].job;
      PutOnePerKey(s.pending, job);
      forall j | j in Put(s.pending, job) ensures j == job || j in s.pending { PutMembers(s.pending, job, j); }
      assert w in Next(s, Defer(w)).workers;
    }
  }

  lemma BaseStep(s: Sys, e: Event)
    requires Base(s)
    ensures Base(Next(s, e))
  {
    var s' := Next(s, e);
    match e
    case Request(t, key) => BaseRequest(s, t, key);
    case Defer(w) => BaseDefer(s, w);
    case Dequeue(w) =>
      if Is(s, w, Dequeuing) {
        assert w in s'.workers;
        if s.pending != [] { assert s.pending[0] in s.pending && forall j :: j in s'.pending ==> j in s.pending; }
      }
    case Ensure(t, w) => if t in s.waiting && w !in s.workers && !s.flag { assert w in s'.workers; }
    case Drain(w) => if Is(s, w, Empty) && s.pending != [] { assert w in s'.workers; }
    case Finally(w) =>
    case Execute(w) => if w in s.workers { assert w in s'.workers; }
    case Finish(w) => if w in s.workers { assert w in s'.workers; }
    case Die(w) => if w in s.workers { assert w in s'.workers; }
  }

  /** In every reachable state there is one worker exactly when the flag is set. */
  lemma {:induction false} OneWorker(s: Sys, es: seq<Event>)
    requires Base(s)
    ensures Base(Exec(s, es))
    decreases |es|
  {
    if es != [] {
      BaseStep(s, es[0]);
      OneWorker(Next(s, es[0]), es[1..]);
    }
  }

  // ---------------------------------------------------------------------------
  // No request is stranded, overtaken or lost: exactly when
  // ---------------------------------------------------------------------------

  /** A pending job has a worker, or an enqueuer about to make sure of one. */
  ghost predicate Served(s: Sys) {
    s.pending != [] ==> s.flag || s.waiting != {}
  }

  ghost predicate Held(s: Sys, j: Job) {
    exists w :: w in s.workers && s.workers[w] == Has(j)
  }

  /** The newest request of a key is pending, or in the worker's hands, or its execution has
      begun; and an older one is never pending in its place. */
  ghost predicate Latest(s: Sys) {
    && (forall k :: k in s.newest ==>
          var j := Job(k, s.newest[k]); j in s.pending || Held(s, j) || j in s.taken)
    && (forall j :: j in s.pending ==> j.key in s.newest && j.n == s.newest[j.key])
  }

  /** What the steps rely on: a held job is the newest of its key exactly when none of that
      key is pending, and execution of a pending or held job has not begun. */
  ghost predicate Tidy(s: Sys) {
    && (forall j :: Held(s, j) ==> j.key in s.newest && (HasKey(s.pending, j.key) <==> j.n != s.newest[j.key]))
    && (forall j :: j in s.taken ==> j.n < s.clock && j !in s.pending && !Held(s, j))
  }

  /** The steps that strand, overwrite or lose a request. */
  ghost predicate Bad(s: Sys, e: Event) {
    match e
    case Defer(w) => w in s.workers && s.workers[w].Has? && HasKey(s.pending, s.workers[w].job.key)
    case Die(w) => w in s.workers && s.workers[w].Has? && !HasKey(s.pending, s.workers[w].job.key)
    case Finally(w) => Is(s, w, Dying) && s.pending != [] && s.waiting == {}
    case _ => false
  }

  ghost predicate Good(s: Sys) {
    Served(s) && Latest(s)
  }

  lemma HeldBy(s: Sys, w: int, j: Job)
    requires Base(s) && w in s.workers && s.workers[w] == Has(j)
    ensures forall x :: Held(s, x) <==> x == j
  {
  }

  lemma NotHeld(s: Sys, w: int)
    requires Base(s) && w in s.workers && !s.workers[w].Has?
    ensures forall x :: !Held(s, x)
  {
  }

  lemma RequestExact(s: Sys, t: int, key: int)
    requires Base(s) && Good(s) && Tidy(s) && t !in s.waiting
    ensures var s' := Next(s, Request(t, key)); Good(s') && Tidy(s')
  {
    var s', job := Next(s, Request(t, key)), Job(key, s.clock);
    forall j: Job ensures j in s'.pending <==> j == job || (j in s.pending && j.key != key) {
      PutMembers(s.pending, job, j);
    }
    forall j: Job ensures Held(s', j) <==> Held(s, j) {}
    forall k ensures HasKey(s'.pending, k) <==> k == key || HasKey(s.pending, k) {
      KeysAfterPut(s.pending, job, k);
    }
  }

  lemma KeysAfterPut(q: Queue, job: Job, k: int)
    requires OnePerKey(q)
    ensures HasKey(Put(q, job), k) <==> k == job.key || HasKey(q, k)
  {
    PutMembers(q, job, job);
    InHasKey(Put(q, job), job);
    if k != job.key && HasKey(q, k) {
      var i :| 0 <= i < |q| && q[i].key == k;
      PutMembers(q, job, q[i]);
      InHasKey(Put(q, job), q[i]);
    }
    if k != job.key && HasKey(Put(q, job), k) {
      var i :| 0 <= i < |Put(q, job)| && Put(q, job)[i].key == k;
      PutMembers(q, job, Put(q, job)[i]);
      InHasKey(q, Put(q, job)[i]);
    }
  }

  lemma DequeueGood(s: Sys, w: int)
    requires Base(s) && Good(s) && Tidy(s) && Is(s, w, Dequeuing)
    ensures var s' := Next(s, Dequeue(w)); Good(s') && Tidy(s')
  {
    var s' := Next(s, Dequeue(w));
    NotHeld(s, w);
    BaseStep(s, Dequeue(w));
    if s.pending == [] {
      NotHeld(s', w);
    } else {
      var job := s.pending[0];
      HeldBy(s', w, job);
      assert s.pending == [job] + s'.pending && job in s.pending;
      assert !HasKey(s'.pending, job.key);
    }
  }

  lemma DeferExact(s: Sys, w: int)
    requires Base(s) && Good(s) && Tidy(s) && w in s.workers && s.workers[w].Has?
    ensures var s' := Next(s, Defer(w));
            (Good(s') <==> !Bad(s, Defer(w))) && (Good(s') ==> Tidy(s'))
  {
    var s', job := Next(s, Defer(w)), s.workers[w].job;
    HeldBy(s, w, job);
    BaseStep(s, Defer(w));
    NotHeld(s', w);
    assert Held(s, job);
    forall j: Job ensures j in s'.pending <==> j == job || (j in s.pending && j.key != job.key) {
      PutMembers(s.pending, job, j);
    }
    if HasKey(s.pending, job.key) { assert job in s'.pending && job.n != s'.newest[job.key]; }
  }

  lemma ExecuteGood(s: Sys, w: int)
    requires Base(s) && Good(s) && Tidy(s) && w in s.workers && s.workers[w].Has?
    ensures var s' := Next(s, Execute(w)); Good(s') && Tidy(s')
  {
    var s', job := Next(s, Execute(w)), s.workers[w].job;
    HeldBy(s, w, job);
    BaseStep(s, Execute(w));
    NotHeld(s', w);
    assert Held(s, job);
    if job in s.pending { InHasKey(s.pending, job); }
  }

  lemma DieExact(s: Sys, w: int)
    requires Base(s) && Good(s) && Tidy(s) && w in s.workers
    ensures var s' := Next(s, Die(w));
            (Good(s') <==> !Bad(s, Die(w))) && (Good(s') ==> Tidy(s'))
  {
    var s' := Next(s, Die(w));
    BaseStep(s, Die(w));
    NotHeld(s', w);
    if s.workers[w].Has? {
      var job := s.workers[w].job;
      HeldBy(s, w, job);
      assert Held(s, job);
      if !HasKey(s.pending, job.key) {
        if job in s.pending { InHasKey(s.pending, job); }
        assert job == Job(job.key, s'.newest[job.key]);
      } else {
        forall k | k in s'.newest ensures Job(k, s'.newest[k]) != job {}
      }
    } else {
      NotHeld(s, w);
    }
  }

  /** Steps that leave queue and requests alone and do not touch a held job. */
  lemma QuietGood(s: Sys, s': Sys)
    requires Good(s) && Tidy(s) && s'.pending == s.pending && s'.newest == s.newest && s'.taken == s.taken
    requires s'.clock == s.clock && (forall j :: Held(s', j) <==> Held(s, j))
    ensures (Good(s') <==> Served(s')) && Tidy(s')
  {
  }

  lemma RetireExact(s: Sys, w: int)
    requires Base(s) && Good(s) && Tidy(s)
    ensures var e := Drain(w); Good(Next(s, e)) && Tidy(Next(s, e))
    ensures var e := Finally(w); (Good(Next(s, e)) <==> !Bad(s, e)) && Tidy(Next(s, e))
    ensures var e := Finish(w); Good(Next(s, e)) && Tidy(Next(s, e))
  {
    if w in s.workers && !s.workers[w].Has? {
      NotHeld(s, w);
      forall j ensures !Held(Next(s, Drain(w)), j) && !Held(Next(s, Finally(w)), j) && !Held(Next(s, Finish(w)), j) {}
      QuietGood(s, Next(s, Drain(w)));
      QuietGood(s, Next(s, Finally(w)));
      QuietGood(s, Next(s, Finish(w)));
    }
  }

  lemma EnsureGood(s: Sys, t: int, w: int)
    requires Base(s) && Good(s) && Tidy(s)
    ensures Good(Next(s, Ensure(t, w))) && Tidy(Next(s, Ensure(t, w)))
  {
    var s' := Next(s, Ensure(t, w));
    forall j ensures Held(s', j) <==> Held(s, j) {
      if v :| v in s.workers && s.workers[v] == Has(j) { assert v in s'.workers && s'.workers[v] == Has(j); }
    }
    QuietGood(s, s');
  }

  /** No request is stranded, overwritten by an older one, or lost exactly when the worker
      does not put back a job whose successor is pending, does not die with the newest
      request of a key in its hands, and does not, dying, leave work to nobody. */
  lemma GoodStepExact(s: Sys, e: Event)
    requires Base(s) && Good(s) && Tidy(s)
    ensures Good(Next(s, e)) <==> !Bad(s, e)
    ensures Good(Next(s, e)) ==> Tidy(Next(s, e))
  {
    match e
    case Request(t, key) => if t !in s.waiting { RequestExact(s, t, key); }
    case Ensure(t, w) => EnsureGood(s, t, w);
    case Dequeue(w) => if Is(s, w, Dequeuing) { DequeueGood(s, w); }
    case Defer(w) => if w in s.workers && s.workers[w].Has? { DeferExact(s, w); }
    case Execute(w) => if w in s.workers && s.workers[w].Has? { ExecuteGood(s, w); }
    case Die(w) => if w in s.workers { DieExact(s, w); }
    case Drain(w) => RetireExact(s, w);
    case Finish(w) => RetireExact(s, w);
    case Finally(w) => RetireExact(s, w);
  }

  ghost predicate AlwaysGood(s: Sys, es: seq<Event>)
    decreases |es|
  {
    Good(s) && (es == [] || AlwaysGood(Next(s, es[0]), es[1..]))
  }

  ghost predicate NeverBad(s: Sys, es: seq<Event>)
    decreases |es|
  {
    es == [] || (!Bad(s, es[0]) && NeverBad(Next(s, es[0]), es[1..]))
  }

  lemma {:induction false} QueueRunExact(s: Sys, es: seq<Event>)
    requires Base(s) && Good(s) && Tidy(s)
    ensures AlwaysGood(s, es) <==> NeverBad(s, es)
    decreases |es|
  {
    if es != [] {
      GoodStepExact(s, es[0]);
      BaseStep(s, es[0]);
      if Good(Next(s, es[0])) { QueueRunExact(Next(s, es[0]), es[1..]); }
    }
  }

  predicate Configured(e: Event) { !e.Defer? && !e.Die? }

  ghost predicate Living(s: Sys) {
    forall w :: w in s.workers ==> s.workers[w] != Dying
  }

  /** On a configured host whose worker does not die, every request is served, the latest
      of its key winning. */
  lemma {:induction false} ConfiguredHostServes(s: Sys, es: seq<Event>)
    requires Base(s) && Good(s) && Tidy(s) && Living(s)
    requires forall i :: 0 <= i < |es| ==> Configured(es[i])
    ensures Good(Exec(s, es))
    decreases |es|
  {
    if es != [] {
      assert Configured(es[0]);
      GoodStepExact(s, es[0]);
      BaseStep(s, es[0]);
      ConfiguredHostServes(Next(s, es[0]), es[1..]);
    }
  }

  // ---------------------------------------------------------------------------
  // The worker gets through the queue
  // ---------------------------------------------------------------------------

  lemma {:induction false} ExecAppend(s: Sys, es: seq<Event>, fs: seq<Event>)
    ensures Exec(s, es + fs) == Exec(Exec(s, es), fs)
    decreases |es|
  {
    if es == [] {
      assert es + fs == fs;
    } else {
      assert (es + fs)[1..] == es[1..] + fs;
      ExecAppend(Next(s, es[0]), es[1..], fs);
    }
  }

  function OneJob(w: int): seq<Event> {
    [Dequeue(w), Execute(w), Finish(w)]
  }

  function AllJobs(w: int, n: nat): seq<Event> {
    if n == 0 then [Dequeue(w), Drain(w)] else OneJob(w) + AllJobs(w, n - 1)
  }

  function Jobs(q: Queue): set<Job> {
    set j | j in q
  }

  lemma OneJobRun(s: Sys, w: int)
    requires Is(s, w, Dequeuing) && s.pending != []
    ensures Exec(s, OneJob(w)) == s.(pending := s.pending[1..], taken := s.taken + {s.pending[0]})
  {
    var es := OneJob(w);
    var s1 := Next(s, es[0]);
    var s2 := Next(s1, es[1]);
    var s3 := Next(s2, es[2]);
    assert s3.workers == s.workers;
    ExecTrace([s, s1, s2, s3], es);
  }

  lemma LastLookRun(s: Sys, w: int)
    requires Is(s, w, Dequeuing) && s.pending == []
    ensures Exec(s, AllJobs(w, 0)) == s.(flag := false, workers := s.workers - {w})
  {
    var es := AllJobs(w, 0);
    var s1 := Next(s, es[0]);
    var s2 := Next(s1, es[1]);
    assert s2.workers == s.workers - {w};
    ExecTrace([s, s1, s2], es);
  }

  /** Undisturbed, the worker executes every pending request and retires. */
  lemma {:induction false} QueueDrains(s: Sys, w: int)
    requires Is(s, w, Dequeuing)
    ensures Exec(s, AllJobs(w, |s.pending|))
            == s.(pending := [], taken := s.taken + Jobs(s.pending), flag := false, workers := s.workers - {w})
    decreases |s.pending|
  {
    if s.pending == [] {
      LastLookRun(s, w);
      assert s.taken + Jobs([]) == s.taken;
    } else {
      var t := s.(pending := s.pending[1..], taken := s.taken + {s.pending[0]});
      OneJobRun(s, w);
      QueueDrains(t, w);
      ExecAppend(s, OneJob(w), AllJobs(w, |s.pending| - 1));
      assert s.pending == [s.pending[0]] + s.pending[1..];
      assert t.taken + Jobs(t.pending) == s.taken + Jobs(s.pending);
    }
  }

  /** An enqueuer returns once a worker is sure to look at the queue: the one at work, or the
      new one it starts. */
  lemma EnqueuerReturns(s: Sys, t: int, w: int)
    requires Base(s) && t in s.waiting && w !in s.workers
    ensures var u := Next(s, Ensure(t, w));
            && u.waiting == s.waiting - {t} && u.flag && u.pending == s.pending
            && (s.flag ==> u.workers == s.workers) && (!s.flag ==> u.workers == map[w := Dequeuing])
  {
    if !s.flag { assert forall v :: v !in s.workers; }
  }

  /** A worker that is done with a job, or finds the queue refilled at its last look, goes
      on with the queue. */
  lemma WorkerGoesOn(s: Sys, w: int)
    requires w in s.workers
    ensures s.workers[w].Running? ==> Next(s, Finish(w)) == To(s, w, Dequeuing)
    ensures s.workers[w].Empty? && s.pending != [] ==> Next(s, Drain(w)) == To(s, w, Dequeuing)
    ensures s.workers[w].Has? ==> Is(Next(s, Defer(w)), w, Dequeuing) && s.workers[w].job in Next(s, Defer(w)).pending
  {
    if s.workers[w].Has? { PutHas(s.pending, s.workers[w].job); }
  }

  lemma {:induction false} PutHas(q: Queue, job: Job)
    ensures job in Put(q, job)
    decreases |q|
  {
    if q != [] && q[0].key != job.key { PutHas(q[1..], job); }
  }

  lemma InitGood()
    ensures Base(INIT) && Good(INIT) && Tidy(INIT) && Living(INIT)
  {
  }

  lemma {:induction false} ExecTrace(ss: seq<Sys>, es: seq<Event>)
    requires |ss| == |es| + 1
    requires forall i :: 0 <= i < |es| ==> ss[i + 1] == Next(ss[i], es[i])
    ensures Exec(ss[0], es) == ss[|es|]
    decreases |es|
  {
    if es != [] { ExecTrace(ss[1..], es[1..]); }
  }

  /** Before the host is configured a newer request for the same run replaces nothing: the
      worker's put-back overwrites it with the older one. */
  lemma DeferOverwritesNewer(t: int, u: int, w: int, key: int)
    requires t != u
    ensures var s := Exec(INIT, [Request(t, key), Ensure(t, w), Dequeue(w), Request(u, key), Defer(w)]);
            s.pending == [Job(key, 0)] && s.newest == map[key := 1] && s.taken == {}
  {
    var es := [Request(t, key), Ensure(t, w), Dequeue(w), Request(u, key), Defer(w)];
    var s1 := Next(INIT, es[0]);
    assert s1.pending == [Job(key, 0)];
    var s2 := Next(s1, es[1]);
    var s3 := Next(s2, es[2]);
    assert s3.pending == [] && s3.workers[w] == Has(Job(key, 0)) && s3.waiting == {};
    var s4 := Next(s3, es[3]);
    assert s4.pending == [Job(key, 1)];
    ExecTrace([INIT, s1, s2, s3, s4, Next(s4, es[4])], es);
  }
}
