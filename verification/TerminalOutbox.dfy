/** Where a job's terminal fact is kept: the report of a finishing worker, the clean-up of
    its recovery record, the drain of the outbox and the recovery sync.

    A fact is safe while the server has settled it, or an outbox row holds it (pending or
    dead), or the job's recovery record is still there. */
module TerminalOutbox {
  import opened Options
  import D = OutboxDrain

  type Row = D.Row

  /** A fact: a job and the payload reported for it (which carries the fencing token). */
  datatype Fact = Fact(job: int, payload: int)

  // ---------------------------------------------------------------------------
  // The local table and the reporting worker
  // ---------------------------------------------------------------------------

  datatype Post = Accepted | Conflict | Failed

  datatype Outcome = Confirmed | Deferred | Lost

  predicate Accepts(rows: map<int, Row>, f: Fact) {
    f.job in rows ==> rows[f.job].payload == f.payload
  }

  predicate InRow(rows: map<int, Row>, f: Fact) {
    f.job in rows && rows[f.job].payload == f.payload
  }

  function Enqueued(rows: map<int, Row>, f: Fact): map<int, Row> {
    if f.job in rows then rows else rows[f.job := D.Row(f.payload, 0, false, false)]
  }

  /** The first `n` posts get through: one of them is accepted and none before it meets
      the definitive 409. */
  ghost predicate GetsThrough(posts: seq<Post>, n: nat) {
    exists k :: 0 <= k < n && k < |posts| && posts[k] == Accepted && forall i :: 0 <= i < k ==> posts[i] == Failed
  }

  class LocalStore {
    var rows: map<int, Row>
    var active: set<int>

    constructor ()
      ensures rows == map[] && active == {}
    {
      rows, active := map[], {};
    }

    /** `writable` is whether the database accepts the write. */
    method EnqueueTerminal(f: Fact, writable: bool) returns (ok: bool)
      modifies `rows
      ensures ok <==> writable && Accepts(old(rows), f)
      ensures ok ==> InRow(rows, f)
      ensures rows == if ok then Enqueued(old(rows), f) else old(rows)
      // A row that is there stays as it is; a new one starts pending.
      ensures f.job in old(rows) ==> rows == old(rows)
      ensures f.job !in old(rows) && ok ==> rows == old(rows)[f.job := D.Row(f.payload, 0, false, false)]
    {
      if !writable { return false; }
      if f.job in rows { return rows[f.job].payload == f.payload; }
      rows := rows[f.job := D.Row(f.payload, 0, false, false)];
      ok := true;
    }

    method PostWithRetry(posts: seq<Post>, attempts: nat) returns (ok: bool, sent: nat)
      requires |posts| >= attempts > 0
      ensures ok <==> GetsThrough(posts, attempts)
      ensures 0 < sent <= attempts
    {
      ok, sent := false, 0;
      while sent < attempts
        invariant sent <= attempts && !ok && (forall i :: 0 <= i < sent ==> posts[i] == Failed)
      {
        sent := sent + 1;
        match posts[sent - 1]
        case Accepted => ok := true; return;
        case Conflict => return;
        case Failed =>
      }
    }

    /** Writes the fact locally, posts it once (or `retries` times when the local write
        failed), and acknowledges the row when the post got through. The fact is lost from
        both sinks exactly when the write was refused and no post got through. */
    method CompleteJob(f: Fact, writable: bool, posts: seq<Post>, retries: nat, ackable: bool) returns (outcome: Outcome)
      requires |posts| >= retries > 0
      modifies `rows
      ensures var ok := writable && Accepts(old(rows), f);
              && (outcome == Lost <==> !ok && !GetsThrough(posts, retries))
              && (outcome == Deferred <==> ok && posts[0] != Accepted)
              && (outcome == Deferred ==> InRow(rows, f))
              && rows == (if !ok then old(rows)
                          else if outcome == Confirmed && ackable then D.AnswerRow(Enqueued(old(rows), f), f.job, D.Settle)
                          else Enqueued(old(rows), f))
    {
      var ok := EnqueueTerminal(f, writable);
      var through, _ := PostWithRetry(posts, if ok then 1 else retries);
      if through {
        if ok && ackable { rows := rows[f.job := rows[f.job].(acked := true)]; }
        outcome := Confirmed;
      } else {
        outcome := if ok then Deferred else Lost;
      }
    }

    /** A record is never deleted while no row stands for its job, nor for a job that was
        not active; other jobs' records stay. */
    method CleanupRecord(j: int, wasActive: bool) returns (kept: bool)
      modifies `active
      ensures j !in rows || !wasActive ==> active == old(active)
      ensures j in rows && wasActive ==> j !in active
      ensures forall k :: k != j ==> (k in active <==> k in old(active))
      ensures kept <==> wasActive && j !in rows
    {
      kept := false;
      if wasActive {
        if j in rows { active := active - {j}; } else { kept := true; }
      }
    }

    /** What a recovery sync deletes after its drain: the records of reported rows that the
        server calls settled (`noop`), and of those no longer on the page of pending rows. */
    method DeleteRecovered(reported: seq<int>, noop: set<int>, still: set<int>)
      modifies `active
      ensures forall j :: j in active <==> j in old(active) && !(j in reported && (j in noop || j !in still))
    {
      for k := 0 to |reported|
        invariant forall j :: j in active <==> j in old(active) && !(j in reported[..k] && (j in noop || j !in still))
      {
        assert reported[..k + 1] == reported[..k] + [reported[k]];
        if reported[k] in noop || reported[k] !in still { active := active - {reported[k]}; }
      }
      assert reported[..|reported|] == reported;
    }
  }

  // ---------------------------------------------------------------------------
  // Interleavings
  // ---------------------------------------------------------------------------

  /** A worker with its attempt, from its start to the end of its clean-up. */
  datatype Stage = Running | Posting | Answered2xx | Reported | Leaving

  /** A recovery sync: the jobs whose rows it reported, and those it found pending after
      its drain. */
  datatype Recovery = Recovery(reported: set<int>, still: Option<set<int>>)

  /** Attempts are numbered; the number stands for the payload an attempt reports, and
      `jobOf` gives its job. `current` is the last attempt of a job, `finished` the jobs
      whose last attempt has reported, `dropped` those the server told the host to forget
      (CLEANUP, ABORT_LOCAL). `stored` are the attempts whose local write was accepted,
      `accepted` those whose own post got through, `settled` those for which any settling
      reply came. `misacked` are jobs whose row was acknowledged on a reply to another
      payload. */
  datatype Sys = Sys(
    active: set<int>,
    rows: map<int, Row>,
    jobOf: map<int, int>,
    current: map<int, int>,
    finished: set<int>,
    dropped: set<int>,
    stored: set<int>,
    accepted: set<int>,
    settled: set<int>,
    misacked: set<int>,
    calls: map<int, Stage>,
    drains: map<int, int>,
    recovery: Option<Recovery>)

  datatype Event =
    | TakeUp(w: int, j: int)
    | RollBack(w: int)
    | Finish(w: int, writable: bool)
    | Answer(w: int, ok: bool)
    | AckRow(w: int, ackable: bool)
    | Leave(w: int, wasActive: bool)
    | Delete(w: int)
    | DrainReads(t: int, j: int)
    | DrainAnswers(t: int, reply: D.Reply)
    | Prune(js: set<int>)
    | Report(js: set<int>)
    | Relist(js: set<int>)
    | Forget(j: int, noop: bool)
    | EndRecovery
    | ServerDrops(j: int)
    | Crash

  const INIT := Sys({}, map[], map[], map[], {}, {}, {}, {}, {}, {}, map[], map[], None)

  predicate Holds(rows: map<int, Row>, j: int, w: int) {
    j in rows && rows[j].payload == w
  }

  predicate Is(s: Sys, w: int, st: Stage) {
    w in s.calls && s.calls[w] == st && w in s.jobOf
  }

  function To(s: Sys, w: int, st: Stage): Sys {
    s.(calls := s.calls[w := st])
  }

  function FinishStep(s: Sys, w: int, j: int, writable: bool): Sys {
    var ok := writable && Accepts(s.rows, Fact(j, w));
    To(s, w, Posting).(
      rows := if ok then Enqueued(s.rows, Fact(j, w)) else s.rows,
      stored := if ok then s.stored + {w} else s.stored,
      finished := if j in s.current && s.current[j] == w && j !in s.dropped then s.finished + {j} else s.finished)
  }

  /** Acknowledging the row of `j` on a settling reply to the payload of attempt `w`. */
  function Acknowledge(s: Sys, j: int, w: int): Sys {
    s.(rows := D.AnswerRow(s.rows, j, D.Settle),
       misacked := if j in s.rows && !s.rows[j].acked && s.rows[j].payload != w then s.misacked + {j} else s.misacked)
  }

  predicate Pruned(s: Sys, js: set<int>, j: int) {
    j in js && j in s.rows && s.rows[j].acked && !s.rows[j].dead
  }

  /** The recovery sync deletes the record of a job it reported a row for: at once when the
      server answers that nothing is left to do, otherwise once the row is off the page. */
  predicate Forgets(s: Sys, j: int, noop: bool) {
    s.recovery.Some? && j in s.recovery.value.reported
    && s.recovery.value.still.Some? && (noop || j !in s.recovery.value.still.value)
  }

  function Next(s: Sys, e: Event): Sys {
    match e
    case TakeUp(w, j) =>
      if w in s.jobOf then s
      else s.(active := s.active + {j}, jobOf := s.jobOf[w := j], current := s.current[j := w],
              finished := s.finished - {j}, dropped := s.dropped - {j}, calls := s.calls[w := Running])
    case RollBack(w) =>
      if Is(s, w, Running) then s.(active := s.active - {s.jobOf[w]}, calls := s.calls - {w}) else s
    case Finish(w, writable) => if Is(s, w, Running) then FinishStep(s, w, s.jobOf[w], writable) else s
    case Answer(w, ok) =>
      if !Is(s, w, Posting) then s
      else if ok then To(s, w, Answered2xx).(accepted := s.accepted + {w}, settled := s.settled + {w})
      else To(s, w, Reported)
    case AckRow(w, ackable) =>
      if !Is(s, w, Answered2xx) then s
      else To(if ackable && w in s.stored then Acknowledge(s, s.jobOf[w], w) else s, w, Reported)
    case Leave(w, wasActive) =>
      // A superseded worker skips its report, so it may leave from `Running` too.
      if !Is(s, w, Reported) && !Is(s, w, Running) then s
      else if wasActive && s.jobOf[w] in s.current && s.current[s.jobOf[w]] == w then To(s, w, Leaving)
      else s.(calls := s.calls - {w})
    case Delete(w) =>
      if !Is(s, w, Leaving) then s
      else s.(active := if s.jobOf[w] in s.rows then s.active - {s.jobOf[w]} else s.active, calls := s.calls - {w})
    case DrainReads(t, j) =>
      if t in s.drains || !D.Pending(s.rows, j) then s else s.(drains := s.drains[t := s.rows[j].payload])
    case DrainAnswers(t, reply) =>
      if t !in s.drains || s.drains[t] !in s.jobOf then s
      else
        var w, v := s.drains[t], D.Classify(reply);
        var s1 := s.(drains := s.drains - {t});
        if v == D.Settle then Acknowledge(s1, s.jobOf[w], w).(settled := s.settled + {w})
        else s1.(rows := D.AnswerRow(s.rows, s.jobOf[w], v))
    case Prune(js) => s.(rows := map j | j in s.rows && !Pruned(s, js, j) :: s.rows[j])
    case Report(js) =>
      if s.recovery == None && forall j :: j in js ==> D.Pending(s.rows, j)
      then s.(recovery := Some(Recovery(js, None))) else s
    case Relist(js) =>
      if s.recovery.Some? then s.(recovery := Some(s.recovery.value.(still := Some(js)))) else s
    case Forget(j, noop) => if Forgets(s, j, noop) then s.(active := s.active - {j}) else s
    case EndRecovery => s.(recovery := None)
    case ServerDrops(j) =>
      s.(active := s.active - {j}, dropped := s.dropped + {j}, finished := s.finished - {j})
    case Crash => s.(calls := map[], drains := map[], recovery := None)
  }

  function Exec(s: Sys, es: seq<Event>): Sys
    decreases |es|
  {
    if es == [] then s else Exec(Next(s, es[0]), es[1..])
  }

  // ---------------------------------------------------------------------------
  // No terminal fact vanishes: exactly when
  // ---------------------------------------------------------------------------

  /** The fact of the last attempt at `j` is settled, or in a row, or recoverable. */
  predicate Kept(s: Sys, j: int) {
    j in s.current && (s.current[j] in s.settled || Holds(s.rows, j, s.current[j]) || j in s.active)
  }

  /** Every finished job's fact is kept, and no row was acknowledged for another payload. */
  ghost predicate Safe(s: Sys) {
    (forall j :: j in s.finished ==> Kept(s, j)) && s.misacked == {}
  }

  /** The last report of `j` ended as lost: its local write was refused and none of its
      posts got through. */
  predicate ReportLost(s: Sys, j: int) {
    j in s.finished && j in s.current && s.current[j] !in s.stored && s.current[j] !in s.accepted
  }

  /** The row of the job is not yet acknowledged and holds another payload. */
  predicate OtherRow(s: Sys, j: int, w: int) {
    j in s.rows && !s.rows[j].acked && s.rows[j].payload != w
  }

  /** The steps that lose a fact, in the terms of the code's own tests: whether the write is
      refused, whether a row and the record stand for the job, how its last report ended,
      and whether the row's payload is the one just settled. */
  predicate Bad(s: Sys, e: Event) {
    match e
    case RollBack(w) => Is(s, w, Running) && s.jobOf[w] in s.active && ReportLost(s, s.jobOf[w])
    case Finish(w, writable) =>
      && Is(s, w, Running)
      && (var j := s.jobOf[w];
          && j in s.current && s.current[j] == w && j !in s.dropped
          && !(writable && Accepts(s.rows, Fact(j, w))) && j !in s.active)
    case AckRow(w, ackable) => Is(s, w, Answered2xx) && ackable && w in s.stored && OtherRow(s, s.jobOf[w], w)
    case Delete(w) =>
      Is(s, w, Leaving) && s.jobOf[w] in s.rows && s.jobOf[w] in s.active && ReportLost(s, s.jobOf[w])
    case DrainAnswers(t, reply) =>
      t in s.drains && s.drains[t] in s.jobOf && D.Settles(reply) && OtherRow(s, s.jobOf[s.drains[t]], s.drains[t])
    case Forget(j, noop) => Forgets(s, j, noop) && j in s.active && ReportLost(s, j)
    case _ => false
  }

  /** Rows, replies and threads belong to known attempts; a stored fact is in its row until
      it is settled; a fact is settled only through its own post or its row. */
  ghost predicate Base(s: Sys) {
    && (forall j :: j in s.finished ==> j in s.current)
    && (forall j :: j in s.current ==> s.current[j] in s.jobOf && s.jobOf[s.current[j]] == j)
    && (forall j :: j in s.rows ==> s.rows[j].payload in s.stored && s.rows[j].payload in s.jobOf && s.jobOf[s.rows[j].payload] == j)
    && (forall j :: j in s.rows && s.rows[j].acked && j !in s.misacked ==> s.rows[j].payload in s.settled)
    && (forall w :: w in s.stored ==>
          w in s.jobOf && (Holds(s.rows, s.jobOf[w], w) || w in s.settled || s.jobOf[w] in s.misacked))
    && (forall w :: w in s.settled ==> w in s.stored || w in s.accepted)
    && s.accepted <= s.settled && s.settled <= s.jobOf.Keys
    && (forall t :: t in s.drains ==> s.drains[t] in s.stored)
    && (forall w :: w in s.calls ==> w in s.jobOf && (s.calls[w] == Running ==> w !in s.stored && w !in s.settled))
    && (forall w :: w in s.calls && s.calls[w] == Answered2xx ==> w in s.accepted)
    && (forall w :: Is(s, w, Running) && s.jobOf[w] in s.current && s.current[s.jobOf[w]] == w ==> s.jobOf[w] !in s.finished)
  }

  /** A finished fact is beyond loss exactly when its report did not end as lost. */
  lemma LostMeansLost(s: Sys, j: int)
    requires Base(s) && s.misacked == {} && j in s.finished
    ensures ReportLost(s, j) <==> !(s.current[j] in s.settled || Holds(s.rows, j, s.current[j]))
  {
    var c := s.current[j];
    assert s.jobOf[c] == j;
    if c in s.stored { assert Holds(s.rows, s.jobOf[c], c) || c in s.settled; }
    if c in s.accepted { assert c in s.settled; }
  }

  // ---------------------------------------------------------------------------
  // The bookkeeping
  // ---------------------------------------------------------------------------

  lemma AcknowledgeBase(s: Sys, j: int, w: int)
    requires Base(s) && w in s.stored + s.accepted && w in s.jobOf && s.jobOf[w] == j
    ensures Base(Acknowledge(s, j, w).(settled := s.settled + {w}))
  {
    var s' := Acknowledge(s, j, w).(settled := s.settled + {w});
    forall k ensures k in s'.rows <==> k in s.rows {}
    forall k | k in s.rows ensures s'.rows[k].payload == s.rows[k].payload {}
    forall k, v ensures Holds(s'.rows, k, v) <==> Holds(s.rows, k, v) {}
    assert w !in s.calls || s.calls[w] != Running;
    forall v ensures Is(s', v, Running) <==> Is(s, v, Running) {}
    forall k | k in s'.rows && s'.rows[k].acked && k !in s'.misacked ensures s'.rows[k].payload in s'.settled {}
    forall v | v in s'.stored ensures v in s'.jobOf && (Holds(s'.rows, s'.jobOf[v], v) || v in s'.settled || s'.jobOf[v] in s'.misacked) {}
  }

  /** A refused, retained or deferred row keeps its payload and its acknowledgement. */
  lemma RetainBase(s: Sys, j: int, v: D.Verdict)
    requires Base(s) && v != D.Settle
    ensures Base(s.(rows := D.AnswerRow(s.rows, j, v)))
  {
    var s' := s.(rows := D.AnswerRow(s.rows, j, v));
    forall k, w ensures Holds(s'.rows, k, w) <==> Holds(s.rows, k, w) {}
    forall w ensures Is(s', w, Running) <==> Is(s, w, Running) {}
  }

  lemma FewerDrains(s: Sys, t: int)
    requires Base(s)
    ensures Base(s.(drains := s.drains - {t}))
  {
    forall w ensures Is(s.(drains := s.drains - {t}), w, Running) <==> Is(s, w, Running) {}
  }

  lemma MoveBase(s: Sys, w: int, st: Stage)
    requires Base(s) && w in s.jobOf && st != Running && (st == Answered2xx ==> w in s.accepted)
    ensures Base(To(s, w, st))
  {
    forall v ensures Is(To(s, w, st), v, Running) ==> Is(s, v, Running) {}
  }

  lemma DrainBase(s: Sys, t: int, reply: D.Reply)
    requires Base(s)
    ensures Base(Next(s, DrainAnswers(t, reply)))
  {
    if t in s.drains {
      var w, s1 := s.drains[t], s.(drains := s.drains - {t});
      DrainKnown(s, t);
      FewerDrains(s, t);
      if D.Classify(reply) == D.Settle {
        AcknowledgeBase(s1, s.jobOf[w], w);
      } else {
        RetainBase(s1, s.jobOf[w], D.Classify(reply));
      }
    }
  }

  lemma AckRowBase(s: Sys, w: int, ackable: bool)
    requires Base(s)
    ensures Base(Next(s, AckRow(w, ackable)))
  {
    if Is(s, w, Answered2xx) {
      if ackable && w in s.stored {
        AcknowledgeBase(s, s.jobOf[w], w);
        assert s.settled + {w} == s.settled;
        assert Base(Acknowledge(s, s.jobOf[w], w));
        MoveBase(Acknowledge(s, s.jobOf[w], w), w, Reported);
      } else {
        MoveBase(s, w, Reported);
      }
    }
  }

  lemma AnswerBase(s: Sys, w: int, ok: bool)
    requires Base(s)
    ensures Base(Next(s, Answer(w, ok)))
  {
    if Is(s, w, Posting) {
      var s1 := s.(accepted := s.accepted + {w}, settled := s.settled + {w});
      if ok {
        forall v ensures Is(s1, v, Running) <==> Is(s, v, Running) {}
        assert Base(s1);
        MoveBase(s1, w, Answered2xx);
      } else {
        MoveBase(s, w, Reported);
      }
    }
  }

  lemma FinishBase(s: Sys, w: int, writable: bool)
    requires Base(s)
    ensures Base(Next(s, Finish(w, writable)))
  {
    if Is(s, w, Running) {
      var s' := Next(s, Finish(w, writable));
      forall k, v | Holds(s.rows, k, v) ensures Holds(s'.rows, k, v) {}
      forall v ensures Is(s', v, Running) <==> Is(s, v, Running) && v != w {}
    }
  }

  lemma TakeUpBase(s: Sys, w: int, j: int)
    requires Base(s)
    ensures Base(Next(s, TakeUp(w, j)))
  {
    if w !in s.jobOf {
      var s' := Next(s, TakeUp(w, j));
      forall v ensures Is(s', v, Running) <==> Is(s, v, Running) || v == w {}
    }
  }

  lemma LeaveBase(s: Sys, w: int, wasActive: bool)
    requires Base(s)
    ensures Base(Next(s, Leave(w, wasActive)))
  {
    if Is(s, w, Reported) || Is(s, w, Running) {
      MoveBase(s, w, Leaving);
      DropBase(s, w, s.active);
    }
  }

  /** A worker is gone; the records do not matter to the bookkeeping. */
  lemma DropBase(s: Sys, w: int, active: set<int>)
    requires Base(s)
    ensures Base(s.(active := active, calls := s.calls - {w}))
  {
    forall v ensures Is(s.(active := active, calls := s.calls - {w}), v, Running) ==> Is(s, v, Running) {}
  }

  lemma ReadBase(s: Sys, t: int, j: int)
    requires Base(s)
    ensures Base(Next(s, DrainReads(t, j)))
  {
    forall v ensures Is(Next(s, DrainReads(t, j)), v, Running) <==> Is(s, v, Running) {}
  }

  lemma PruneBase(s: Sys, js: set<int>)
    requires Base(s)
    ensures Base(Next(s, Prune(js)))
  {
    var s' := Next(s, Prune(js));
    forall v ensures Is(s', v, Running) <==> Is(s, v, Running) {}
    forall v | v in s.stored && Holds(s.rows, s.jobOf[v], v)
      ensures Holds(s'.rows, s.jobOf[v], v) || v in s.settled || s.jobOf[v] in s.misacked {}
  }

  lemma RecoveryShape(s: Sys, e: Event)
    requires e.Report? || e.Relist? || e.Forget? || e.EndRecovery? || e.ServerDrops?
    ensures var s' := Next(s, e);
            && s' == s.(active := s'.active, dropped := s'.dropped, finished := s'.finished, recovery := s'.recovery)
            && s'.finished <= s.finished
  {
  }

  lemma RecoveryBase(s: Sys, e: Event)
    requires Base(s) && (e.Report? || e.Relist? || e.Forget? || e.EndRecovery? || e.ServerDrops?)
    ensures Base(Next(s, e))
  {
    var s' := Next(s, e);
    RecoveryShape(s, e);
    LooseBase(s, s'.active, s'.dropped, s'.finished, s'.recovery);
  }

  /** Records, dropped jobs and the recovery sync do not matter to the bookkeeping. */
  lemma LooseBase(s: Sys, active: set<int>, dropped: set<int>, finished: set<int>, recovery: Option<Recovery>)
    requires Base(s) && finished <= s.finished
    ensures Base(s.(active := active, dropped := dropped, finished := finished, recovery := recovery))
  {
    var s' := s.(active := active, dropped := dropped, finished := finished, recovery := recovery);
    forall v ensures Is(s', v, Running) <==> Is(s, v, Running) {}
  }

  lemma CrashBase(s: Sys)
    requires Base(s)
    ensures Base(Next(s, Crash))
  {
  }

  lemma BaseStep(s: Sys, e: Event)
    requires Base(s)
    ensures Base(Next(s, e))
  {
    match e
    case TakeUp(w, j) => TakeUpBase(s, w, j);
    case RollBack(w) => if Is(s, w, Running) { DropBase(s, w, s.active - {s.jobOf[w]}); }
    case Finish(w, writable) => FinishBase(s, w, writable);
    case Answer(w, ok) => AnswerBase(s, w, ok);
    case AckRow(w, ackable) => AckRowBase(s, w, ackable);
    case Leave(w, wasActive) => LeaveBase(s, w, wasActive);
    case Delete(w) => if Is(s, w, Leaving) { DropBase(s, w, Next(s, e).active); }
    case DrainReads(t, j) => ReadBase(s, t, j);
    case DrainAnswers(t, reply) => DrainBase(s, t, reply);
    case Prune(js) => PruneBase(s, js);
    case Crash => CrashBase(s);
    case _ => RecoveryBase(s, e);
  }

  // ---------------------------------------------------------------------------
  // One step
  // ---------------------------------------------------------------------------

  /** Deleting the record of `j` loses a fact exactly when its last report ended as lost. */
  lemma DeleteExact(s: Sys, s': Sys, j: int)
    requires Base(s) && Safe(s)
    requires s'.active == s.active - {j} && s'.rows == s.rows && s'.settled == s.settled && s'.misacked == {}
    requires s'.finished == s.finished && s'.current == s.current
    ensures Safe(s') <==> !(j in s.active && ReportLost(s, j))
  {
    if j in s.finished { LostMeansLost(s, j); assert Kept(s, j); }
    forall k | k in s'.finished && k != j ensures Kept(s', k) { assert Kept(s, k); }
  }

  lemma FinishExact(s: Sys, w: int, writable: bool)
    requires Base(s) && Safe(s)
    ensures Safe(Next(s, Finish(w, writable))) <==> !Bad(s, Finish(w, writable))
  {
    if Is(s, w, Running) {
      var s', j := Next(s, Finish(w, writable)), s.jobOf[w];
      forall k | k in s.finished && k != j ensures Kept(s', k) { assert Kept(s, k); }
      if j in s.finished { assert Kept(s, j); }
    }
  }

  lemma AcknowledgeExact(s: Sys, s': Sys, j: int, w: int)
    requires Safe(s) && s'.rows == Acknowledge(s, j, w).rows && s'.misacked == Acknowledge(s, j, w).misacked
    requires s.settled <= s'.settled && s'.active == s.active && s'.finished == s.finished && s'.current == s.current
    ensures Safe(s') <==> !OtherRow(s, j, w)
  {
    forall k | k in s'.finished ensures Kept(s', k) { assert Kept(s, k); }
    if OtherRow(s, j, w) { assert j in s'.misacked; }
  }

  lemma DrainKnown(s: Sys, t: int)
    requires Base(s) && t in s.drains
    ensures s.drains[t] in s.stored && s.drains[t] in s.jobOf
  {
    var w := s.drains[t];
    assert w in s.stored;
  }

  lemma ReplyExact(s: Sys, e: Event)
    requires Base(s) && Safe(s) && (e.DrainAnswers? || e.AckRow?)
    ensures Safe(Next(s, e)) <==> !Bad(s, e)
  {
    var s' := Next(s, e);
    match e
    case DrainAnswers(t, reply) =>
      if t in s.drains && D.Classify(reply) == D.Settle {
        DrainKnown(s, t);
        AcknowledgeExact(s, s', s.jobOf[s.drains[t]], s.drains[t]);
      } else {
        forall k | k in s'.finished ensures Kept(s', k) { assert Kept(s, k); }
      }
    case AckRow(w, ackable) =>
      if Is(s, w, Answered2xx) && ackable && w in s.stored {
        AcknowledgeExact(s, s', s.jobOf[w], w);
      } else {
        forall k | k in s'.finished ensures Kept(s', k) { assert Kept(s, k); }
      }
  }

  /** Steps that cannot lose a fact. */
  lemma QuietStep(s: Sys, e: Event)
    requires Base(s) && Safe(s)
    requires e.TakeUp? || e.Answer? || e.Leave? || e.DrainReads? || e.Report? || e.Relist? || e.EndRecovery? || e.ServerDrops? || e.Crash?
    ensures Safe(Next(s, e))
  {
    forall k | k in Next(s, e).finished ensures Kept(Next(s, e), k) { assert Kept(s, k); }
  }

  lemma PruneKeeps(s: Sys, js: set<int>)
    requires Base(s) && Safe(s)
    ensures Safe(Next(s, Prune(js)))
  {
    var s' := Next(s, Prune(js));
    forall k | k in s'.finished ensures Kept(s', k) { assert Kept(s, k); }
  }

  lemma SafeStepExact(s: Sys, e: Event)
    requires Base(s) && Safe(s)
    ensures Safe(Next(s, e)) <==> !Bad(s, e)
  {
    var s' := Next(s, e);
    match e
    case Finish(w, writable) => FinishExact(s, w, writable);
    case AckRow(_, _) => ReplyExact(s, e);
    case DrainAnswers(_, _) => ReplyExact(s, e);
    case RollBack(w) => if Is(s, w, Running) { DeleteExact(s, s', s.jobOf[w]); }
    case Delete(w) =>
      if Is(s, w, Leaving) {
        if s.jobOf[w] in s.rows {
          DeleteExact(s, s', s.jobOf[w]);
        } else {
          forall k | k in s'.finished ensures Kept(s', k) { assert Kept(s, k); }
        }
      }
    case Forget(j, noop) => if Forgets(s, j, noop) { DeleteExact(s, s', j); }
    case Prune(js) => PruneKeeps(s, js);
    case _ => QuietStep(s, e);
  }

  // ---------------------------------------------------------------------------
  // Whole runs
  // ---------------------------------------------------------------------------

  ghost predicate AlwaysSafe(s: Sys, es: seq<Event>)
    decreases |es|
  {
    Safe(s) && (es == [] || AlwaysSafe(Next(s, es[0]), es[1..]))
  }

  ghost predicate NeverBad(s: Sys, es: seq<Event>)
    decreases |es|
  {
    es == [] || (!Bad(s, es[0]) && NeverBad(Next(s, es[0]), es[1..]))
  }

  /** Through any interleaving of reports, clean-ups, drains, prunes, recovery syncs and
      crashes, with any failure of posts and of local writes: every finished fact stays
      settled, stored or recoverable exactly when no guarded step is taken. */
  lemma {:induction false} NoFactVanishesExact(s: Sys, es: seq<Event>)
    requires Base(s) && Safe(s)
    ensures AlwaysSafe(s, es) <==> NeverBad(s, es)
    decreases |es|
  {
    if es != [] {
      SafeStepExact(s, es[0]);
      BaseStep(s, es[0]);
      if Safe(Next(s, es[0])) { NoFactVanishesExact(Next(s, es[0]), es[1..]); }
    }
  }

  lemma InitSafe()
    ensures Base(INIT) && Safe(INIT) && OneAttempt(INIT)
  {
  }

  // ---------------------------------------------------------------------------
  // Taken up with a clean table
  // ---------------------------------------------------------------------------

  /** A job is taken up only when no row, no worker, no drain and no recovery sync of an
      earlier attempt is left. */
  ghost predicate CleanTakeUp(s: Sys, e: Event) {
    e.TakeUp? ==>
      && e.j !in s.rows
      && (forall v :: v in s.calls && v in s.jobOf ==> s.jobOf[v] != e.j)
      && (forall t :: t in s.drains && s.drains[t] in s.jobOf ==> s.jobOf[s.drains[t]] != e.j)
      && (s.recovery.Some? ==> e.j !in s.recovery.value.reported)
  }

  /** Everything in flight belongs to the last attempt of its job, a worker that has not
      reported has its record, and a recovery sync speaks of stored facts. */
  ghost predicate OneAttempt(s: Sys) {
    && (forall j :: j in s.rows ==> j in s.current && s.current[j] == s.rows[j].payload)
    && (forall w :: w in s.calls && w in s.jobOf ==> s.jobOf[w] in s.current && s.current[s.jobOf[w]] == w)
    && (forall t :: t in s.drains && s.drains[t] in s.jobOf ==>
          s.jobOf[s.drains[t]] in s.current && s.current[s.jobOf[s.drains[t]]] == s.drains[t])
    && (s.recovery.Some? ==> forall j :: j in s.recovery.value.reported ==> j in s.current && s.current[j] in s.stored)
    && (forall w :: Is(s, w, Running) && s.jobOf[w] !in s.dropped ==> s.jobOf[w] in s.active)
  }

  lemma OneAttemptTakeUp(s: Sys, w: int, j: int)
    requires Base(s) && OneAttempt(s) && CleanTakeUp(s, TakeUp(w, j))
    ensures OneAttempt(Next(s, TakeUp(w, j)))
  {
  }

  lemma OneAttemptReport(s: Sys, e: Event)
    requires Base(s) && OneAttempt(s) && (e.Finish? || e.Answer? || e.AckRow?)
    ensures OneAttempt(Next(s, e))
  {
  }

  lemma OneAttemptLeave(s: Sys, e: Event)
    requires Base(s) && OneAttempt(s) && (e.RollBack? || e.Leave? || e.Delete?)
    ensures OneAttempt(Next(s, e))
  {
  }

  lemma OneAttemptDrain(s: Sys, e: Event)
    requires Base(s) && OneAttempt(s) && (e.DrainReads? || e.DrainAnswers? || e.Prune?)
    ensures OneAttempt(Next(s, e))
  {
  }

  lemma OneAttemptRecovery(s: Sys, e: Event)
    requires Base(s) && OneAttempt(s)
    requires e.Report? || e.Relist? || e.Forget? || e.EndRecovery? || e.ServerDrops? || e.Crash?
    ensures OneAttempt(Next(s, e))
  {
  }

  lemma OneAttemptStep(s: Sys, e: Event)
    requires Base(s) && OneAttempt(s) && CleanTakeUp(s, e)
    ensures OneAttempt(Next(s, e))
  {
    if e.TakeUp? { OneAttemptTakeUp(s, e.w, e.j); }
    else if e.Finish? || e.Answer? || e.AckRow? { OneAttemptReport(s, e); }
    else if e.RollBack? || e.Leave? || e.Delete? { OneAttemptLeave(s, e); }
    else if e.DrainReads? || e.DrainAnswers? || e.Prune? { OneAttemptDrain(s, e); }
    else { OneAttemptRecovery(s, e); }
  }

  lemma OneAttemptNeverBad(s: Sys, e: Event)
    requires Base(s) && OneAttempt(s)
    ensures !Bad(s, e)
  {
  }

  /** When every job is taken up with a clean table, nothing that the clean-up, the drain,
      the prune, the recovery sync or a crash does can lose a fact, whatever fails. */
  lemma {:induction false} CleanAttemptsNeverVanish(s: Sys, es: seq<Event>)
    requires Base(s) && Safe(s) && OneAttempt(s) && AllClean(s, es)
    ensures AlwaysSafe(s, es)
    decreases |es|
  {
    if es != [] {
      OneAttemptNeverBad(s, es[0]);
      SafeStepExact(s, es[0]);
      BaseStep(s, es[0]);
      OneAttemptStep(s, es[0]);
      CleanAttemptsNeverVanish(Next(s, es[0]), es[1..]);
    }
  }

  ghost predicate AllClean(s: Sys, es: seq<Event>)
    decreases |es|
  {
    es == [] || (CleanTakeUp(s, es[0]) && AllClean(Next(s, es[0]), es[1..]))
  }

  // ---------------------------------------------------------------------------
  // A second attempt over a row
  // ---------------------------------------------------------------------------

  lemma {:induction false} ExecTrace(ss: seq<Sys>, es: seq<Event>)
    requires |ss| == |es| + 1
    requires forall i :: 0 <= i < |es| ==> ss[i + 1] == Next(ss[i], es[i])
    ensures Exec(ss[0], es) == ss[|es|]
    decreases |es|
  {
    if es != [] { ExecTrace(ss[1..], es[1..]); }
  }

  lemma RefusedReport(s: Sys, w: int, j: int)
    requires Base(s) && w !in s.jobOf && j in s.rows
    ensures var t := Exec(s, [TakeUp(w, j), Finish(w, true), Answer(w, false), Leave(w, true)]);
            && Is(t, w, Leaving) && t.jobOf[w] == j && j in t.rows && j in t.active
            && ReportLost(t, j) && t.rows == s.rows && t.current == s.current[j := w] && t.settled == s.settled
  {
    var es := [TakeUp(w, j), Finish(w, true), Answer(w, false), Leave(w, true)];
    var s1 := Next(s, es[0]);
    var s2 := Next(s1, es[1]);
    assert s2.rows == s.rows && w !in s2.stored && j in s2.finished && Is(s2, w, Posting);
    var s3 := Next(s2, es[2]);
    ExecTrace([s, s1, s2, s3, Next(s3, es[3])], es);
  }

  /** A job taken up again while any row of an earlier attempt stands, even one that was
      delivered long ago: the new fact is refused by the outbox, its post fails, and the
      clean-up, seeing a row, deletes the record. The fact is gone. */
  lemma SecondFactVanishes(s: Sys, w: int, j: int)
    requires Base(s) && w !in s.jobOf && j in s.rows
    ensures var t := Exec(s, [TakeUp(w, j), Finish(w, true), Answer(w, false), Leave(w, true)]);
            Bad(t, Delete(w)) && j in Next(t, Delete(w)).finished && !Kept(Next(t, Delete(w)), j)
  {
    RefusedReport(s, w, j);
  }

  // ---------------------------------------------------------------------------
  // What a report, a drain and a recovery sync achieve undisturbed
  // ---------------------------------------------------------------------------

  lemma {:induction false} ExecAppend(s: Sys, es: seq<Event>, fs: seq<Event>)
    ensures Exec(s, es + fs) == Exec(Exec(s, es), fs)
    decreases |es|
  {
    if es == [] {
      assert es + fs == fs;
    } else {
      assert (es + fs)[1..] == es[1..] + fs;
      ExecAppend(Next(s, es[0]), es[1..], fs);
    }
  }

  function ReportEvents(w: int, j: int, writable: bool): seq<Event> {
    [TakeUp(w, j), Finish(w, writable)]
  }

  function LeaveEvents(w: int, ok: bool, ackable: bool): seq<Event> {
    [Answer(w, ok), AckRow(w, ackable), Leave(w, true), Delete(w)]
  }

  lemma ReportStart(s: Sys, w: int, j: int, writable: bool)
    requires w !in s.jobOf && j !in s.rows
    ensures var t := Exec(s, ReportEvents(w, j, writable));
            && t.rows == (if writable then s.rows[j := D.Row(w, 0, false, false)] else s.rows)
            && t.active == s.active + {j} && j in t.finished && t.stored == (if writable then s.stored + {w} else s.stored)
            && t.current == s.current[j := w] && t.jobOf == s.jobOf[w := j] && t.calls == s.calls[w := Posting]
            && t.accepted == s.accepted && t.settled == s.settled && t.misacked == s.misacked
  {
    var es := ReportEvents(w, j, writable);
    var s1 := Next(s, es[0]);
    ExecTrace([s, s1, Next(s1, es[1])], es);
  }

  lemma ReportEnd(s: Sys, w: int, j: int, ok: bool, ackable: bool)
    requires Is(s, w, Posting) && s.jobOf[w] == j && j in s.current && s.current[j] == w && s.misacked == {}
    requires if w in s.stored then j in s.rows && s.rows[j] == D.Row(w, 0, false, false) else j !in s.rows
    ensures var t := Exec(s, LeaveEvents(w, ok, ackable));
            && t.rows == (if w in s.stored && ok && ackable then s.rows[j := D.Row(w, 0, true, false)] else s.rows)
            && t.active == (if w in s.stored then s.active - {j} else s.active)
            && t.settled == (if ok then s.settled + {w} else s.settled) && t.misacked == {} && w !in t.calls && t.finished == s.finished
            && t.current == s.current
  {
    var es := LeaveEvents(w, ok, ackable);
    var s1 := Next(s, es[0]);
    var s2 := Next(s1, es[1]);
    assert Is(s2, w, Reported);
    var s3 := Next(s2, es[2]);
    ExecTrace([s, s1, s2, s3, Next(s3, es[3])], es);
  }

  /** A worker's whole report for a job without a row: the fact is in its row exactly if the
      write was accepted, acknowledged there exactly if its post also got through, and the
      record is given up exactly if there is a row. */
  lemma WholeReport(s: Sys, w: int, j: int, writable: bool, ok: bool, ackable: bool)
    requires w !in s.jobOf && j !in s.rows && w !in s.stored && s.misacked == {}
    ensures var t := Exec(s, ReportEvents(w, j, writable) + LeaveEvents(w, ok, ackable));
            && t.rows == (if writable then s.rows[j := D.Row(w, 0, ok && ackable, false)] else s.rows)
            && (j in t.active <==> !writable) && (ok ==> w in t.settled) && j in t.finished && w !in t.calls
            && (Kept(t, j) && t.misacked == {})
  {
    var a, b := ReportEvents(w, j, writable), LeaveEvents(w, ok, ackable);
    ReportStart(s, w, j, writable);
    ReportEnd(Exec(s, a), w, j, ok, ackable);
    ExecAppend(s, a, b);
  }

  /** A worker whose job was taken up again leaves the new attempt's record and row alone. */
  lemma SupersededLeaves(s: Sys, w: int, wasActive: bool)
    requires Is(s, w, Running) || Is(s, w, Reported)
    requires s.jobOf[w] in s.current && s.current[s.jobOf[w]] != w
    ensures Next(s, Leave(w, wasActive)) == s.(calls := s.calls - {w})
  {
  }

  /** A drain delivers a pending row exactly if the reply settles it, and counts an attempt
      otherwise. */
  lemma DrainDelivers(s: Sys, t: int, j: int, reply: D.Reply)
    requires t !in s.drains && D.Pending(s.rows, j) && s.rows[j].payload in s.jobOf && s.jobOf[s.rows[j].payload] == j
    ensures var u := Exec(s, [DrainReads(t, j), DrainAnswers(t, reply)]);
            && j in u.rows && D.AnsweredBy(s.rows[j], reply, u.rows[j]) && u.rows - {j} == s.rows - {j}
            && u.drains == s.drains && u.misacked == s.misacked && u.active == s.active
            && u.settled == (if D.Settles(reply) then s.settled + {s.rows[j].payload} else s.settled)
  {
    var es := [DrainReads(t, j), DrainAnswers(t, reply)];
    var s1 := Next(s, es[0]);
    ExecTrace([s, s1, Next(s1, es[1])], es);
    D.ClassifyExact(reply);
    D.AnsweredExact(s.rows[j], reply, D.Answered(s.rows[j], D.Classify(reply)));
    assert s1.drains - {t} == s.drains;
  }

  /** A prune takes away acknowledged rows that are not dead letters, and no others. */
  lemma PruneExact(s: Sys, js: set<int>, j: int)
    ensures var t := Next(s, Prune(js));
            && (j in t.rows <==> j in s.rows && !(j in js && s.rows[j].acked && !s.rows[j].dead))
            && (j in t.rows ==> t.rows[j] == s.rows[j])
  {
  }

  /** A recovery sync gives up the record of a row it reported exactly if the server has
      nothing left to do for it, or the row is off the page it lists after its drain. */
  lemma RecoveryExact(s: Sys, j: int, page: set<int>, noop: bool)
    requires s.recovery == None && D.Pending(s.rows, j) && j in s.active
    ensures var t := Exec(s, [Report({j}), Relist(page), Forget(j, noop), EndRecovery]);
            && t.active == (if noop || j !in page then s.active - {j} else s.active)
            && t.rows == s.rows && t.recovery == None
    ensures forall i :: !D.Pending(s.rows, i) ==> Next(s, Report({i})) == s
  {
    var es := [Report({j}), Relist(page), Forget(j, noop), EndRecovery];
    var s1 := Next(s, es[0]);
    assert s1 == s.(recovery := Some(Recovery({j}, None)));
    var s2 := Next(s1, es[1]);
    assert s2 == s.(recovery := Some(Recovery({j}, Some(page))));
    var s3 := Next(s2, es[2]);
    ExecTrace([s, s1, s2, s3, Next(s3, es[3])], es);
    forall i | !D.Pending(s.rows, i) ensures Next(s, Report({i})) == s { assert i in {i}; }
  }
}
