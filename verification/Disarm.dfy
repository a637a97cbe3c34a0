/** The disarm steps of a teardown: the permit wait, the lease checks before every attempt,
    the retries with their pauses, the accumulated results, and the tail deadlines that the
    control plane's guard tightens; with the lease lost, the job cancelled or the guard
    renewed at any moment. */
module Disarm {

  import opened Options

  const QUEUE_SECONDS := 7200.0
  const JOB_MAX_SECONDS := 86400.0

  function Min(a: real, b: real): real { if a < b then a else b }

  function Max0(a: real): real { if a < 0.0 then 0.0 else a }

  // ---------------------------------------------------------------------------
  // Results
  // ---------------------------------------------------------------------------

  datatype Value = Confirmed | ExecutedUnverified | Failed | ReadbackFailed | NotExecuted | Incomplete

  datatype Entry = Entry(value: Value, leaseLost: bool)

  /** What a step reports for its family. */
  datatype Report = Lost | Skipped | Outcome(value: Value)

  predicate Completed(v: Value) {
    v.Confirmed? || v.ExecutedUnverified? || v.Failed? || v.ReadbackFailed?
  }

  function Recorded(results: map<int, Entry>, family: int, r: Report): map<int, Entry> {
    if family in results && results[family].leaseLost && !r.Lost? then results
    else match r
      case Lost => results[family := Entry(NotExecuted, true)]
      case Skipped =>
        if family in results && Completed(results[family].value) then results
        else results[family := Entry(NotExecuted, false)]
      case Outcome(v) => results[family := Entry(v, false)]
  }

  // ---------------------------------------------------------------------------
  // Tail deadlines
  // ---------------------------------------------------------------------------

  datatype Tail = Tail(deadline: real, queue: real, steps: map<int, real>)

  /** The control plane's view: absent, an old protocol, or a guard with the seconds left
      for the job and for each step it knows. */
  datatype Guard = NoGuard | OldProtocol | Guard(left: real, queue: real, regressed: bool, steps: map<int, real>)

  function Tightened(steps: map<int, real>, now: real, guard: map<int, real>): map<int, real> {
    map k | k in steps.Keys + guard.Keys ::
      if k !in guard then steps[k]
      else if k in steps then Min(steps[k], now + Max0(guard[k]))
      else now + Max0(guard[k])
  }

  function Refreshed(tail: Option<Tail>, now: real, guard: Guard, queueing: bool): Option<Tail> {
    if tail == None then None
    else match guard
      case NoGuard => tail
      case OldProtocol => None
      case Guard(left, queue, regressed, steps) =>
        var t := tail.value;
        Some(Tail(if regressed then now else Min(t.deadline, now + Max0(left)),
                  if queueing then t.queue else Min(t.queue, queue),
                  Tightened(t.steps, now, steps)))
  }

  // ---------------------------------------------------------------------------
  // Steps
  // ---------------------------------------------------------------------------

  datatype Step = Step(family: int, key: int, disarm: bool, enabled: bool, retry: nat, budget: real, wall: Option<real>)

  /** What befalls one attempt: the server's answer to the probe before it, its end, and the
      answers during the pause after it. */
  datatype Try = Try(conflict: bool, success: bool, value: Value, pauseConflict: bool)

  class DisarmWorker {
    var leaseLost: bool
    var tail: Option<Tail>
    var results: map<int, Entry>

    constructor (t: Option<Tail>)
      ensures !leaseLost && tail == t && results == map[]
    {
      leaseLost, tail, results := false, t, map[];
    }

    /** A reported loss of the lease stays unless the new report is one too, a completed
        result is not replaced by a skip, and no other family's result changes. */
    method RecordDisarm(family: int, r: Report)
      modifies `results
      ensures results == Recorded(old(results), family, r)
      ensures results.Keys == old(results).Keys + {family}
      ensures forall f :: f in results && f != family ==> results[f] == old(results)[f]
      ensures results[family].leaseLost <==> r.Lost? || (family in old(results) && old(results)[family].leaseLost)
      ensures family in old(results) && old(results)[family].value in {Confirmed, ExecutedUnverified, Failed, ReadbackFailed} && r.Skipped?
              ==> results == old(results)
      ensures family in old(results) && old(results)[family].value in {NotExecuted, Incomplete} && r.Skipped? && !results[family].leaseLost
              ==> results[family].value == NotExecuted
      ensures r.Lost? ==> results[family].value == NotExecuted
      ensures r.Outcome? && !results[family].leaseLost ==> results[family].value == r.value
      ensures Completed(results[family].value) && (family in old(results) ==> results[family] != old(results)[family])
              ==> r == Outcome(results[family].value)
    {
      if family in results && results[family].leaseLost && !r.Lost? { return; }
      match r
      case Lost => results := results[family := Entry(NotExecuted, true)];
      case Skipped =>
        if family in results && Completed(results[family].value) { return; }
        results := results[family := Entry(NotExecuted, false)];
      case Outcome(v) => results := results[family := Entry(v, false)];
    }

    /** A refresh only tightens: the deadline is no later than before or than the present, the
        queue and the steps keep no more time than they had, and what the guard grants bounds
        them all. */
    method RefreshGuard(now: real, guard: Guard, queueing: bool)
      modifies `tail
      ensures tail == Refreshed(old(tail), now, guard, queueing)
      ensures tail.Some? ==> old(tail).Some? && (tail.value.deadline <= old(tail).value.deadline || tail.value.deadline <= now)
      ensures tail.Some? ==> tail.value.queue <= old(tail).value.queue
      ensures tail.Some? ==> forall k :: k in old(tail).value.steps ==>
                               k in tail.value.steps && tail.value.steps[k] <= old(tail).value.steps[k]
      ensures tail.Some? && guard.Guard? ==>
                && (guard.left >= 0.0 ==> tail.value.deadline <= now + guard.left) && (guard.left < 0.0 ==> tail.value.deadline <= now)
                && forall k :: k in guard.steps ==> k in tail.value.steps && tail.value.steps[k] <= (if guard.steps[k] < 0.0 then now else now + guard.steps[k])
      // And it takes nothing away that is not asked for.
      ensures tail.None? <==> old(tail).None? || guard.OldProtocol?
      ensures tail.Some? && tail.value.deadline < old(tail).value.deadline ==>
                guard.Guard? && (guard.regressed || guard.left < 0.0 || tail.value.deadline == now + guard.left)
      ensures tail.Some? && tail.value.queue < old(tail).value.queue ==> guard.Guard? && !queueing && tail.value.queue == guard.queue
      ensures tail.Some? && guard.Guard? && !queueing ==> tail.value.queue <= guard.queue
    {
      if tail.Some? { RefreshedNoLater(tail.value, now, guard, queueing); }
      if tail == None { return; }
      match guard
      case NoGuard =>
      case OldProtocol => tail := None;
      case Guard(left, queue, regressed, steps) =>
        var t := tail.value;
        var deadline := Min(t.deadline, now + Max0(left));
        if regressed { deadline := now; }
        tail := Some(Tail(deadline, if queueing then t.queue else Min(t.queue, queue), Tightened(t.steps, now, steps)));
    }

    method ProbeLease(conflict: bool) returns (lost: bool)
      modifies `leaseLost
      ensures lost == (old(leaseLost) || conflict) && leaseLost == lost
    {
      leaseLost := leaseLost || conflict;
      lost := leaseLost;
    }

    /** Attempts of one disarm step when nothing happens in between. */
    method RunStepWithRetry(step: Step, tries: seq<Try>) returns (ok: bool, starts: nat)
      requires |tries| > step.retry
      modifies this
      ensures old(leaseLost) ==> starts == 0 && !ok
      ensures old(leaseLost) ==> leaseLost
      ensures starts <= step.retry + 1
      // Every attempt that started had the lease; the first conflict ends the step.
      ensures forall i :: 0 < i < starts ==> !tries[i].conflict
      ensures forall i :: 0 <= i < starts - 1 ==> !tries[i].pauseConflict
      ensures leaseLost ==> step.family in results && results[step.family].leaseLost
      ensures ok <==> starts > 0 && tries[starts - 1].success
      ensures forall i :: 0 <= i < starts - 1 ==> !tries[i].success
      // It gives up before its last try only for a conflict, met at the probe before the next
      // attempt or in the pause after this one.
      ensures !ok && !leaseLost ==> starts == step.retry + 1
      ensures !old(leaseLost) && leaseLost ==>
                0 < starts <= step.retry && !ok && (tries[starts - 1].pauseConflict || tries[starts].conflict)
      ensures !leaseLost && !(step.family in old(results) && old(results)[step.family].leaseLost) ==>
                step.family in results && results[step.family] == Entry(tries[starts - 1].value, false)
      ensures tail == old(tail)
      ensures forall f :: f in old(results) && old(results)[f].leaseLost ==> f in results && results[f].leaseLost
    {
      ok, starts := false, 0;
      while starts <= step.retry
        invariant starts <= step.retry + 1 && !ok && tail == old(tail)
        invariant old(leaseLost) ==> starts == 0 && leaseLost
        invariant starts > 0 ==> !leaseLost
        invariant starts == 0 ==> results == old(results) && leaseLost == old(leaseLost)
        invariant forall i :: 0 <= i < starts ==> !tries[i].success
        invariant starts > 0 && !(step.family in old(results) && old(results)[step.family].leaseLost) ==>
                    step.family in results && results[step.family] == Entry(tries[starts - 1].value, false)
        invariant starts > 0 ==> !tries[starts - 1].pauseConflict || starts == step.retry + 1
        invariant forall i :: 0 < i < starts ==> !tries[i].conflict
        invariant forall i :: 0 <= i < starts - 1 ==> !tries[i].pauseConflict
        invariant forall f :: f in old(results) && old(results)[f].leaseLost ==> f in results && results[f].leaseLost
      {
        var lost := leaseLost;
        if !lost && starts > 0 { lost := ProbeLease(tries[starts].conflict); }
        if lost {
          leaseLost := true;
          RecordDisarm(step.family, Lost);
          return;
        }
        var t := tries[starts];
        starts := starts + 1;
        RecordDisarm(step.family, Outcome(t.value));
        if t.success { return true, starts; }
        if starts <= step.retry {
          var gone := ProbeLease(t.pauseConflict);
          if gone {
            RecordDisarm(step.family, Lost);
            return;
          }
        }
      }
    }
  }

  // ---------------------------------------------------------------------------
  // The whole teardown, step by step
  // ---------------------------------------------------------------------------

  /** `k` is the step, `a` the attempt. A job without a device id runs its steps without
      the permit and without the lease checks. */
  datatype Phase =
    | Between(k: nat)
    | Queueing(k: nat, wait: Option<real>, legacy: Option<real>)
    | Granted(k: nat, wait: Option<real>)
    | Boundary(k: nat, a: nat)
    | Cleared(k: nat, a: nat)
    | Live(k: nat, a: nat)
    | Pausing(k: nat, a: nat)

  datatype Sys = Sys(
    steps: seq<Step>,
    hasDevice: bool,
    now: real,
    leaseLost: bool,
    canceled: bool,
    tail: Option<Tail>,
    results: map<int, Entry>,
    phase: Phase)

  datatype Answer = Permit | Again | Shutdown | Denied

  datatype Event =
    | Tick(dt: real)
    | MarkLost
    | Cancel
    | Enter
    | Poll(guard: Guard, answer: Answer)
    | CheckGrant(guard: Guard, conflict: bool, waited: real)
    | CheckAttempt(conflict: bool)
    | Start(guard: Guard)
    | Finish(success: bool, value: Value)
    | Pause(conflict: bool, over: bool)

  predicate Guarded(s: Sys, k: nat) {
    k < |s.steps| && s.steps[k].disarm && s.hasDevice
  }

  /** The step at `k` is over; a guarded one reports `r`. */
  function Leave(s: Sys, k: nat, r: Report): Sys {
    s.(phase := Between(k + 1), results := if Guarded(s, k) then Recorded(s.results, s.steps[k].family, r) else s.results)
  }

  function LoseAt(s: Sys, k: nat): Sys {
    Leave(s.(leaseLost := true), k, Lost)
  }

  function AfterAttempt(s: Sys, k: nat, a: nat, success: bool, v: Value): Sys
    requires k < |s.steps|
  {
    s.(results := if Guarded(s, k) then Recorded(s.results, s.steps[k].family, Outcome(v)) else s.results,
       phase := if success || a >= s.steps[k].retry then Between(k + 1) else Pausing(k, a))
  }

  function EarlierWait(wait: Option<real>, tail: Option<Tail>, legacy: Option<real>): Option<real> {
    match tail
    case None => legacy
    case Some(t) => if wait.Some? then Some(Min(wait.value, t.deadline)) else Some(t.deadline)
  }

  function SpendQueue(tail: Option<Tail>, waited: real): Option<Tail> {
    if tail.Some? then Some(tail.value.(queue := Max0(tail.value.queue - Max0(waited)))) else None
  }

  /** The permit came too late; an old protocol found at this moment leaves the last known
      deadline in force for this one check. */
  predicate WaitedOut(before: Option<Tail>, tail: Option<Tail>, wait: Option<real>, now: real) {
    && before.Some?
    && (|| now >= (if tail.Some? then tail.value.deadline else before.value.deadline)
        || (wait.Some? && now >= wait.value))
  }

  /** The tail with the step's own deadline set on its first attempt. */
  function WithStep(t: Tail, key: int, now: real, budget: real): Tail {
    if key in t.steps then t else t.(steps := t.steps[key := Min(now + budget, t.deadline)])
  }

  predicate Expired(t: Tail, key: int, now: real) {
    now >= t.deadline || (key in t.steps && now >= t.steps[key])
  }

  function StartAt(s: Sys, guard: Guard): Option<Tail>
    requires s.phase.Cleared? && s.phase.k < |s.steps|
  {
    var step := s.steps[s.phase.k];
    match Refreshed(s.tail, s.now, guard, false)
    case None => None
    case Some(t) => Some(WithStep(t, step.key, s.now, step.budget))
  }

  function Next(s: Sys, e: Event): Sys {
    match e
    case Tick(dt) => if dt >= 0.0 then s.(now := s.now + dt) else s
    case MarkLost => s.(leaseLost := true)
    case Cancel => s.(canceled := true)
    case Enter =>
      (match s.phase
       case Between(k) =>
         if k >= |s.steps| then s
         else if !s.steps[k].enabled then Leave(s, k, Skipped)
         else if !s.hasDevice then s.(phase := Boundary(k, 0))
         else
           var legacy := if s.steps[k].wall.Some? then Some(s.now + s.steps[k].wall.value) else None;
           var wait := if s.tail.Some? then Some(Min(s.now + s.tail.value.queue, s.tail.value.deadline)) else legacy;
           s.(phase := Queueing(k, wait, legacy))
       case _ => s)
    case Poll(guard, answer) =>
      (match s.phase
       case Queueing(k, wait0, legacy) =>
         var tail := Refreshed(s.tail, s.now, guard, true);
         var wait := if s.tail == None then wait0 else EarlierWait(wait0, tail, legacy);
         var s1 := s.(tail := tail);
         if wait.Some? && wait.value <= s.now then Leave(s1, k, Outcome(Incomplete))
         else (match answer
           case Permit => s1.(phase := Granted(k, wait))
           case Again => s1.(phase := Queueing(k, wait, legacy))
           case Shutdown => Leave(s1.(canceled := true), k, Outcome(Incomplete))
           case Denied => s1.(phase := Between(k + 1)))
       case _ => s)
    case CheckGrant(guard, conflict, waited) =>
      (match s.phase
       case Granted(k, wait) =>
         var s1 := s.(tail := Refreshed(SpendQueue(s.tail, waited), s.now, guard, false));
         if WaitedOut(s.tail, s1.tail, wait, s.now) then Leave(s1, k, Outcome(Incomplete))
         else if Guarded(s, k) && (s.leaseLost || conflict) then LoseAt(s1, k)
         else s1.(phase := Boundary(k, 0))
       case _ => s)
    case CheckAttempt(conflict) =>
      (match s.phase
       case Boundary(k, a) =>
         if Guarded(s, k) && (s.leaseLost || (a > 0 && conflict)) then LoseAt(s, k) else s.(phase := Cleared(k, a))
       case _ => s)
    case Start(guard) =>
      (match s.phase
       case Cleared(k, a) =>
         if k >= |s.steps| then s
         else
           var tail := StartAt(s, guard);
           var s1 := s.(tail := tail);
           if tail.Some? && Expired(tail.value, s.steps[k].key, s.now) then AfterAttempt(s1, k, a, false, Failed)
           else s1.(phase := Live(k, a))
       case _ => s)
    case Finish(success, v) =>
      (match s.phase
       case Live(k, a) => if k < |s.steps| then AfterAttempt(s, k, a, success, v) else s
       case _ => s)
    case Pause(conflict, over) =>
      (match s.phase
       case Pausing(k, a) =>
         if Guarded(s, k) && (s.leaseLost || conflict) then LoseAt(s, k)
         else if over then s.(phase := Boundary(k, a + 1)) else s
       case _ => s)
  }

  function Exec(s: Sys, es: seq<Event>): Sys
    decreases |es|
  {
    if es == [] then s else Exec(Next(s, es[0]), es[1..])
  }

  // ---------------------------------------------------------------------------
  // Lease loss is final
  // ---------------------------------------------------------------------------

  /** The step starts an attempt of the step at `k`. */
  predicate Starts(s: Sys, e: Event) {
    e.Start? && s.phase.Cleared? && Next(s, e).phase.Live?
  }

  /** A disarm attempt starts although the lease is known to be lost. */
  predicate LateStart(s: Sys, e: Event) {
    Starts(s, e) && Guarded(s, s.phase.k) && s.leaseLost
  }

  ghost predicate NeverLate(s: Sys, es: seq<Event>)
    decreases |es|
  {
    es == [] || (!LateStart(s, es[0]) && NeverLate(Next(s, es[0]), es[1..]))
  }

  /** Whether the loss was marked since the current attempt passed its check. */
  predicate MarkSince(s: Sys, e: Event, m: bool) {
    s.phase.Cleared? && Next(s, e).phase.Cleared? && (m || e.MarkLost?)
  }

  /** No disarm attempt starts after a mark that fell between its check and its start. */
  ghost predicate NoMarkedStart(s: Sys, es: seq<Event>, m: bool)
    decreases |es|
  {
    es == [] || (!(Starts(s, es[0]) && Guarded(s, s.phase.k) && m) && NoMarkedStart(Next(s, es[0]), es[1..], MarkSince(s, es[0], m)))
  }

  /** Over a whole teardown, with retries, permit cancels and guard refreshes: no disarm
      attempt starts once the lease is known to be lost, exactly if no attempt starts after
      a mark that fell in the gap between its check and its start. */
  lemma {:induction false} NoStartAfterLoss(s: Sys, es: seq<Event>, m: bool)
    requires s.phase.Cleared? && Guarded(s, s.phase.k) ==> (s.leaseLost <==> m)
    ensures NeverLate(s, es) <==> NoMarkedStart(s, es, m)
    decreases |es|
  {
    if es != [] {
      MarkStep(s, es[0], m);
      NoStartAfterLoss(Next(s, es[0]), es[1..], MarkSince(s, es[0], m));
    }
  }

  lemma MarkStep(s: Sys, e: Event, m: bool)
    requires s.phase.Cleared? && Guarded(s, s.phase.k) ==> (s.leaseLost <==> m)
    ensures var s' := Next(s, e); s'.phase.Cleared? && Guarded(s', s'.phase.k) ==> (s'.leaseLost <==> MarkSince(s, e, m))
  {
  }

  /** A job without a device id is not checked at all: its disarm steps run on after the loss. */
  lemma NoDeviceNoCheck(s: Sys, k: nat, conflict: bool)
    requires k < |s.steps| && s.phase == Boundary(k, 0) && !s.hasDevice && s.leaseLost && s.tail == None
    ensures Exec(s, [CheckAttempt(conflict), Start(NoGuard)]).phase == Live(k, 0)
  {
    var s1 := Next(s, CheckAttempt(conflict));
    ExecTrace([s, s1, Next(s1, Start(NoGuard))], [CheckAttempt(conflict), Start(NoGuard)]);
  }

  lemma {:induction false} ExecTrace(ss: seq<Sys>, es: seq<Event>)
    requires |ss| == |es| + 1
    requires forall i :: 0 <= i < |es| ==> ss[i + 1] == Next(ss[i], es[i])
    ensures Exec(ss[0], es) == ss[|es|]
    decreases |es|
  {
    if es != [] { ExecTrace(ss[1..], es[1..]); }
  }

  ghost predicate KeepsLoss(s: Sys, t: Sys) {
    && (s.leaseLost ==> t.leaseLost)
    && forall f :: f in s.results && s.results[f].leaseLost ==> f in t.results && t.results[f].leaseLost
  }

  lemma RecordedKeepsLoss(results: map<int, Entry>, family: int, r: Report)
    ensures forall f :: f in results && results[f].leaseLost ==>
              f in Recorded(results, family, r) && Recorded(results, family, r)[f].leaseLost
  {
  }

  lemma LeaveKeepsLoss(s: Sys, s': Sys, k: nat, r: Report)
    requires s'.results == (if Guarded(s, k) then Recorded(s.results, s.steps[k].family, r) else s.results)
    requires s.leaseLost ==> s'.leaseLost
    ensures KeepsLoss(s, s')
  {
    if Guarded(s, k) { RecordedKeepsLoss(s.results, s.steps[k].family, r); }
  }

  lemma QueueKeepsLoss(s: Sys, e: Event)
    requires e.Enter? || e.Poll? || e.CheckGrant?
    ensures KeepsLoss(s, Next(s, e))
  {
    var s' := Next(s, e);
    if s'.results != s.results {
      match e
      case Enter => LeaveKeepsLoss(s, s', s.phase.k, Skipped);
      case Poll(_, _) => LeaveKeepsLoss(s, s', s.phase.k, Outcome(Incomplete));
      case CheckGrant(_, _, _) => LeaveKeepsLoss(s, s', s.phase.k, if s'.leaseLost && !WaitedOutAt(s, e) then Lost else Outcome(Incomplete));
    }
  }

  predicate WaitedOutAt(s: Sys, e: Event)
    requires e.CheckGrant?
  {
    s.phase.Granted?
    && WaitedOut(s.tail, Refreshed(SpendQueue(s.tail, e.waited), s.now, e.guard, false), s.phase.wait, s.now)
  }

  lemma AttemptKeepsLoss(s: Sys, e: Event)
    requires !e.Enter? && !e.Poll? && !e.CheckGrant?
    ensures KeepsLoss(s, Next(s, e))
  {
    var s' := Next(s, e);
    if s'.results != s.results {
      match e
      case CheckAttempt(_) => LeaveKeepsLoss(s, s', s.phase.k, Lost);
      case Pause(_, _) => LeaveKeepsLoss(s, s', s.phase.k, Lost);
      case Start(_) => LeaveKeepsLoss(s, s', s.phase.k, Outcome(Failed));
      case Finish(_, v) => LeaveKeepsLoss(s, s', s.phase.k, Outcome(v));
      case _ =>
    }
  }

  lemma KeepsLossStep(s: Sys, e: Event)
    ensures KeepsLoss(s, Next(s, e))
  {
    if e.Enter? || e.Poll? || e.CheckGrant? { QueueKeepsLoss(s, e); } else { AttemptKeepsLoss(s, e); }
  }

  /** Lease loss is never taken back, and a result that reports it is never overwritten. */
  lemma {:induction false} LossIsFinal(s: Sys, es: seq<Event>)
    ensures KeepsLoss(s, Exec(s, es))
    decreases |es|
  {
    if es != [] {
      KeepsLossStep(s, es[0]);
      LossIsFinal(Next(s, es[0]), es[1..]);
    }
  }

  // ---------------------------------------------------------------------------
  // Deadlines
  // ---------------------------------------------------------------------------

  /** While the tail is in force its deadlines are no later than before, or already over. */
  ghost predicate NoLater(s: Sys, t: Sys) {
    && s.now <= t.now
    && (t.tail.Some? ==>
          && s.tail.Some?
          && (t.tail.value.deadline <= s.tail.value.deadline || t.tail.value.deadline <= t.now)
          && forall k :: k in s.tail.value.steps ==>
               k in t.tail.value.steps && t.tail.value.steps[k] <= s.tail.value.steps[k])
  }

  lemma RefreshedNoLater(tail: Tail, now: real, guard: Guard, queueing: bool)
    ensures var t := Refreshed(Some(tail), now, guard, queueing);
            t.Some? ==>
              && (t.value.deadline <= tail.deadline || t.value.deadline <= now)
              && forall k :: k in tail.steps ==> k in t.value.steps && t.value.steps[k] <= tail.steps[k]
  {
  }

  lemma PollNoLater(s: Sys, guard: Guard, answer: Answer)
    requires s.tail.Some?
    ensures NoLater(s, Next(s, Poll(guard, answer)))
  {
    RefreshedNoLater(s.tail.value, s.now, guard, true);
  }

  lemma GrantNoLater(s: Sys, guard: Guard, conflict: bool, waited: real)
    requires s.tail.Some?
    ensures NoLater(s, Next(s, CheckGrant(guard, conflict, waited)))
  {
    RefreshedNoLater(SpendQueue(s.tail, waited).value, s.now, guard, false);
  }

  lemma StartNoLater(s: Sys, guard: Guard)
    requires s.tail.Some?
    ensures NoLater(s, Next(s, Start(guard)))
  {
    RefreshedNoLater(s.tail.value, s.now, guard, false);
  }

  /** A step touches the tail by a refresh, by spending queue time, or by setting the
      deadline of its own step. */
  lemma NoLaterStep(s: Sys, e: Event)
    ensures NoLater(s, Next(s, e))
  {
    if s.tail.Some? {
      match e
      case Poll(guard, answer) => PollNoLater(s, guard, answer);
      case CheckGrant(guard, conflict, waited) => GrantNoLater(s, guard, conflict, waited);
      case Start(guard) => StartNoLater(s, guard);
      case _ =>
    }
  }

  lemma NoLaterTrans(s: Sys, t: Sys, u: Sys)
    requires NoLater(s, t) && NoLater(t, u)
    ensures NoLater(s, u)
  {
  }

  lemma {:induction false} DeadlinesOnlyTighten(s: Sys, es: seq<Event>)
    ensures NoLater(s, Exec(s, es))
    decreases |es|
  {
    if es != [] {
      NoLaterStep(s, es[0]);
      DeadlinesOnlyTighten(Next(s, es[0]), es[1..]);
      NoLaterTrans(s, Next(s, es[0]), Exec(s, es));
    }
  }

  /** The guard a step refreshes the tail with. */
  function GuardOf(s: Sys, e: Event): Guard {
    match e
    case Poll(guard, _) => if s.phase.Queueing? then guard else NoGuard
    case CheckGrant(guard, _, _) => if s.phase.Granted? then guard else NoGuard
    case Start(guard) => if s.phase.Cleared? && s.phase.k < |s.steps| then guard else NoGuard
    case _ => NoGuard
  }

  /** The server's clock went back and the deadline had already passed. */
  predicate Restamps(s: Sys, e: Event) {
    s.tail.Some? && s.tail.value.deadline < s.now && GuardOf(s, e).Guard? && GuardOf(s, e).regressed
  }

  predicate MovesLater(s: Sys, e: Event) {
    s.tail.Some? && Next(s, e).tail.Some? && Next(s, e).tail.value.deadline > s.tail.value.deadline
  }

  lemma RefreshLaterExact(tail: Tail, now: real, guard: Guard, queueing: bool)
    requires Refreshed(Some(tail), now, guard, queueing).Some?
    ensures Refreshed(Some(tail), now, guard, queueing).value.deadline > tail.deadline
            <==> guard.Guard? && guard.regressed && tail.deadline < now
  {
  }

  lemma LaterStepExact(s: Sys, e: Event)
    ensures MovesLater(s, e) <==> Restamps(s, e)
  {
    if MovesLater(s, e) || Restamps(s, e) {
      match e
      case Poll(guard, _) => RefreshLaterExact(s.tail.value, s.now, guard, true);
      case CheckGrant(guard, _, waited) => RefreshLaterExact(SpendQueue(s.tail, waited).value, s.now, guard, false);
      case Start(guard) => RefreshLaterExact(s.tail.value, s.now, guard, false);
      case _ =>
    }
  }

  ghost predicate NeverLater(s: Sys, es: seq<Event>)
    decreases |es|
  {
    es == [] || (!MovesLater(s, es[0]) && NeverLater(Next(s, es[0]), es[1..]))
  }

  ghost predicate NeverRestamped(s: Sys, es: seq<Event>)
    decreases |es|
  {
    es == [] || (!Restamps(s, es[0]) && NeverRestamped(Next(s, es[0]), es[1..]))
  }

  /** No step of a teardown moves the deadline later, exactly if none meets a server clock
      that went back after the deadline had passed. */
  lemma {:induction false} DeadlineLaterExact(s: Sys, es: seq<Event>)
    ensures NeverLater(s, es) <==> NeverRestamped(s, es)
    decreases |es|
  {
    if es != [] {
      LaterStepExact(s, es[0]);
      DeadlineLaterExact(Next(s, es[0]), es[1..]);
    }
  }

  /** Under the tail every attempt starts before every deadline that was ever in force for
      it, at any earlier point of the teardown. */
  lemma StartsBeforeDeadlines(s: Sys, es: seq<Event>, guard: Guard)
    requires var t := Exec(s, es); Starts(t, Start(guard)) && Next(t, Start(guard)).tail.Some?
    ensures var t := Exec(s, es);
            && s.tail.Some? && t.now < s.tail.value.deadline
            && (t.steps[t.phase.k].key in s.tail.value.steps ==> t.now < s.tail.value.steps[t.steps[t.phase.k].key])
  {
    var t := Exec(s, es);
    var u := Next(t, Start(guard));
    DeadlinesOnlyTighten(s, es);
    NoLaterStep(t, Start(guard));
    NoLaterTrans(s, t, u);
    assert !Expired(u.tail.value, t.steps[t.phase.k].key, t.now);
  }

  function Budgets(steps: seq<Step>): real {
    if steps == [] then 0.0
    else (if steps[0].enabled then steps[0].budget else 0.0) + Budgets(steps[1..])
  }

  function BeginTail(steps: seq<Step>, now: real): Tail {
    Tail(now + Min(QUEUE_SECONDS + Budgets(steps), JOB_MAX_SECONDS), QUEUE_SECONDS, map[])
  }

  /** However often it is retried, cancelled or refreshed, a teardown under the tail starts
      no attempt a day after it began, nor after its queue time and budgets are spent. */
  lemma TeardownIsBounded(s: Sys, es: seq<Event>, guard: Guard)
    requires s.tail == Some(BeginTail(s.steps, s.now))
    requires var t := Exec(s, es); Starts(t, Start(guard)) && Next(t, Start(guard)).tail.Some?
    ensures Exec(s, es).now < s.now + JOB_MAX_SECONDS && Exec(s, es).now < s.now + QUEUE_SECONDS + Budgets(s.steps)
  {
    StartsBeforeDeadlines(s, es, guard);
  }

  lemma {:induction false} BudgetsAppend(a: seq<Step>, b: seq<Step>)
    ensures Budgets(a + b) == Budgets(a) + Budgets(b)
    ensures forall x: Step :: Budgets([x]) == if x.enabled then x.budget else 0.0
  {
    forall x: Step ensures Budgets([x]) == if x.enabled then x.budget else 0.0 { assert [x][1..] == []; }
    if a == [] {
      assert a + b == b;
    } else {
      assert (a + b)[1..] == a[1..] + b;
      BudgetsAppend(a[1..], b);
    }
  }

  // ---------------------------------------------------------------------------
  // One step from its first attempt to its end
  // ---------------------------------------------------------------------------

  lemma {:induction false} ExecAppend(s: Sys, es: seq<Event>, fs: seq<Event>)
    ensures Exec(s, es + fs) == Exec(Exec(s, es), fs)
    ensures LiveStarts(s, es + fs) == LiveStarts(s, es) + LiveStarts(Exec(s, es), fs)
    decreases |es|
  {
    if es == [] {
      assert es + fs == fs;
    } else {
      assert (es + fs)[1..] == es[1..] + fs;
      ExecAppend(Next(s, es[0]), es[1..], fs);
    }
  }

  /** The attempts that a run starts. */
  function LiveStarts(s: Sys, es: seq<Event>): nat
    decreases |es|
  {
    if es == [] then 0 else (if Starts(s, es[0]) then 1 else 0) + LiveStarts(Next(s, es[0]), es[1..])
  }

  /** Time is left for the step at `k`. */
  predicate Ample(s: Sys, k: nat) {
    && k < |s.steps|
    && (s.tail.Some? ==>
          && s.now < s.tail.value.deadline && s.steps[k].budget > 0.0
          && (s.steps[k].key in s.tail.value.steps ==> s.now < s.tail.value.steps[s.steps[k].key]))
  }

  function ReportedIf(s: Sys, k: nat, r: Report): map<int, Entry> {
    if Guarded(s, k) then Recorded(s.results, s.steps[k].family, r) else s.results
  }

  /** What else a step leaves alone. */
  predicate Same(s: Sys, t: Sys) {
    t.steps == s.steps && t.hasDevice == s.hasDevice && t.now == s.now && t.canceled == s.canceled
  }

  function AttemptOf(t: Try): seq<Event> {
    [CheckAttempt(t.conflict), Start(NoGuard), Finish(t.success, t.value)]
  }

  lemma AttemptRun(s: Sys, k: nat, a: nat, t: Try)
    requires s.phase == Boundary(k, a) && Ample(s, k)
    requires !(Guarded(s, k) && (s.leaseLost || (a > 0 && t.conflict)))
    ensures var u := Exec(s, AttemptOf(t));
            && u.phase == (if t.success || a >= s.steps[k].retry then Between(k + 1) else Pausing(k, a))
            && u.results == ReportedIf(s, k, Outcome(t.value)) && u.leaseLost == s.leaseLost && Same(s, u) && Ample(u, k)
            && LiveStarts(s, AttemptOf(t)) == 1
  {
    var es := AttemptOf(t);
    var s1 := Next(s, es[0]);
    var s2 := Next(s1, es[1]);
    StartLive(s1, k, a);
    ExecTrace([s, s1, s2, Next(s2, es[2])], es);
    assert es[1..][0] == es[1] && es[1..][1..][0] == es[2] && es[1..][1..][1..] == [];
    assert LiveStarts(s2, [es[2]]) == 0 && LiveStarts(s1, es[1..]) == 1;
  }

  lemma StartLive(s: Sys, k: nat, a: nat)
    requires s.phase == Cleared(k, a) && Ample(s, k)
    ensures var u := Next(s, Start(NoGuard));
            u.phase == Live(k, a) && u.results == s.results && u.leaseLost == s.leaseLost && Same(s, u) && Ample(u, k)
  {
  }

  lemma RefusedRun(s: Sys, k: nat, a: nat, conflict: bool)
    requires s.phase == Boundary(k, a) && Guarded(s, k) && (s.leaseLost || (a > 0 && conflict))
    ensures var u := Exec(s, [CheckAttempt(conflict)]);
            && u.phase == Between(k + 1) && u.leaseLost && u.results == Recorded(s.results, s.steps[k].family, Lost)
            && Same(s, u) && LiveStarts(s, [CheckAttempt(conflict)]) == 0
  {
    ExecTrace([s, Next(s, CheckAttempt(conflict))], [CheckAttempt(conflict)]);
    assert [CheckAttempt(conflict)][1..] == [];
  }

  /** A pause that goes on for a while and then ends with the server's answer. */
  function PauseOf(conflict: bool): seq<Event> {
    [Pause(false, false), Pause(conflict, true)]
  }

  lemma PauseRun(s: Sys, k: nat, a: nat, conflict: bool)
    requires s.phase == Pausing(k, a) && !s.leaseLost
    ensures var u := Exec(s, PauseOf(conflict));
            && (Guarded(s, k) && conflict ==>
                  u.phase == Between(k + 1) && u.leaseLost && u.results == Recorded(s.results, s.steps[k].family, Lost) && Same(s, u))
            && (!(Guarded(s, k) && conflict) ==> u == s.(phase := Boundary(k, a + 1)))
            && LiveStarts(s, PauseOf(conflict)) == 0
  {
    var es := PauseOf(conflict);
    var s1 := Next(s, es[0]);
    ExecTrace([s, s1, Next(s1, es[1])], es);
    assert es[1..] == [es[1]] && es[1..][1..] == [];
    assert LiveStarts(s1, es[1..]) == 0;
  }

  lemma RecordedTwice(results: map<int, Entry>, f: int, v: Value, r: Report)
    requires !r.Skipped?
    ensures Recorded(Recorded(results, f, Outcome(v)), f, r) == Recorded(results, f, r)
  {
  }

  /** How a step with the given tries ends, from attempt `a` on: `n` attempts were reached. */
  ghost predicate EndsWell(s: Sys, k: nat, a: nat, tries: seq<Try>, n: nat, u: Sys)
    requires k < |s.steps| && |tries| > s.steps[k].retry
  {
    && a < n <= s.steps[k].retry + 1 && !u.leaseLost
    && (tries[n - 1].success || n == s.steps[k].retry + 1)
    && u.results == ReportedIf(s, k, Outcome(tries[n - 1].value))
  }

  ghost predicate EndsLost(s: Sys, k: nat, a: nat, tries: seq<Try>, n: nat, u: Sys)
    requires k < |s.steps| && |tries| > s.steps[k].retry
  {
    && a <= n <= s.steps[k].retry && u.leaseLost && Guarded(s, k)
    && ((n > a && !tries[n - 1].success && tries[n - 1].pauseConflict) || (n > 0 && tries[n].conflict))
    && u.results == Recorded(s.results, s.steps[k].family, Lost)
  }

  /** No earlier attempt succeeded, nor, for a guarded step, met a conflict. */
  ghost predicate GoesOn(s: Sys, k: nat, a: nat, tries: seq<Try>, n: nat)
    requires k < |s.steps| && |tries| > s.steps[k].retry && n <= s.steps[k].retry + 1
  {
    && (forall i :: a <= i < n - 1 ==> !tries[i].success && (Guarded(s, k) ==> !tries[i].pauseConflict))
    && (forall i :: a <= i < n && i > 0 && Guarded(s, k) ==> !tries[i].conflict)
  }

  /** A lone step runs attempt after attempt until one succeeds, they are used up, or, if it
      disarms a device, the server reports a conflict at the check before an attempt or in a
      pause; and its result is that of its last attempt, or the loss. */
  lemma {:induction false} LoneStep(s: Sys, k: nat, a: nat, tries: seq<Try>) returns (es: seq<Event>, n: nat)
    requires s.phase == Boundary(k, a) && Ample(s, k) && !s.leaseLost && a <= s.steps[k].retry < |tries|
    ensures a <= n <= s.steps[k].retry + 1 && LiveStarts(s, es) == n - a && GoesOn(s, k, a, tries, n)
    ensures var u := Exec(s, es);
            u.phase == Between(k + 1) && Same(s, u) && (EndsWell(s, k, a, tries, n, u) || EndsLost(s, k, a, tries, n, u))
    decreases s.steps[k].retry - a
  {
    var t := tries[a];
    if Guarded(s, k) && a > 0 && t.conflict {
      es, n := [CheckAttempt(t.conflict)], a;
      RefusedRun(s, k, a, t.conflict);
      return;
    }
    es, n := AttemptOf(t), a + 1;
    AttemptRun(s, k, a, t);
    var s1 := Exec(s, es);
    if t.success || a == s.steps[k].retry { return; }
    var pause := PauseOf(t.pauseConflict);
    PauseRun(s1, k, a, t.pauseConflict);
    ExecAppend(s, es, pause);
    if Guarded(s, k) {
      RecordedTwice(s.results, s.steps[k].family, t.value, Lost);
      if t.pauseConflict {
        es := es + pause;
        return;
      }
    }
    es, n := RestOfStep(s, k, a, tries, es + pause);
  }

  /** The induction step of `LoneStep`: one more attempt has failed without a conflict. */
  lemma {:induction false} RestOfStep(s: Sys, k: nat, a: nat, tries: seq<Try>, head: seq<Event>) returns (es: seq<Event>, n: nat)
    requires Ample(s, k) && a < s.steps[k].retry < |tries|
    requires !tries[a].success && (Guarded(s, k) ==> !tries[a].pauseConflict && !(a > 0 && tries[a].conflict))
    requires LiveStarts(s, head) == 1
    requires var u := Exec(s, head);
             && u.phase == Boundary(k, a + 1) && Ample(u, k) && !u.leaseLost && Same(s, u)
             && u.results == ReportedIf(s, k, Outcome(tries[a].value))
    ensures a <= n <= s.steps[k].retry + 1 && LiveStarts(s, es) == n - a && GoesOn(s, k, a, tries, n)
    ensures var u := Exec(s, es);
            u.phase == Between(k + 1) && Same(s, u) && (EndsWell(s, k, a, tries, n, u) || EndsLost(s, k, a, tries, n, u))
    decreases s.steps[k].retry - a, 0
  {
    var u := Exec(s, head);
    var rest, m := LoneStep(u, k, a + 1, tries);
    es, n := head + rest, m;
    ExecAppend(s, head, rest);
    if Guarded(s, k) {
      RecordedTwice(s.results, s.steps[k].family, tries[a].value, Lost);
      if n > 0 { RecordedTwice(s.results, s.steps[k].family, tries[a].value, Outcome(tries[n - 1].value)); }
    }
  }

  // ---------------------------------------------------------------------------
  // Waiting for the permit
  // ---------------------------------------------------------------------------

  function Polls(dts: seq<real>): seq<Event> {
    if dts == [] then [] else [Tick(dts[0]), Poll(NoGuard, Again)] + Polls(dts[1..])
  }

  function Total(dts: seq<real>): real {
    if dts == [] then 0.0 else dts[0] + Total(dts[1..])
  }

  ghost predicate Forward(dts: seq<real>) {
    forall i :: 0 <= i < |dts| ==> dts[i] >= 0.0
  }

  lemma {:induction false} TotalForward(dts: seq<real>)
    requires Forward(dts)
    ensures Total(dts) >= 0.0
  {
    if dts != [] { TotalForward(dts[1..]); }
  }

  /** The moment at which a wait that begins now is over, if ever: with the tail, when its
      queue time or the deadline has passed, else after the step's own wall clock. */
  function WaitUntil(s: Sys, k: nat): Option<real>
    requires k < |s.steps|
  {
    match s.tail
    case Some(t) => Some(if s.now + t.queue < t.deadline then s.now + t.queue else t.deadline)
    case None => if s.steps[k].wall.Some? then Some(s.now + s.steps[k].wall.value) else None
  }

  predicate Over(wait: Option<real>, now: real) { wait.Some? && wait.value <= now }

  /** A queued step whose wait ends at `wait`. */
  predicate InQueue(s: Sys, k: nat, wait: Option<real>) {
    && s.phase.Queueing? && s.phase.k == k && s.phase.wait == wait
    && (s.tail.Some? ==> wait.Some? && wait.value <= s.tail.value.deadline)
  }

  /** The step was left unexecuted because no permit came in time. */
  predicate GaveUp(s: Sys, u: Sys, k: nat) {
    u.phase == Between(k + 1) && u.results == ReportedIf(s, k, Outcome(Incomplete))
  }

  lemma EnterQueue(s: Sys, k: nat)
    requires s.phase == Between(k) && k < |s.steps| && s.steps[k].enabled && s.hasDevice
    ensures var u := Next(s, Enter); InQueue(u, k, WaitUntil(s, k)) && u == s.(phase := u.phase)
  {
  }

  lemma OnePoll(s: Sys, k: nat, wait: Option<real>, dt: real)
    requires InQueue(s, k, wait) && dt >= 0.0
    ensures var u := Exec(s, [Tick(dt), Poll(NoGuard, Again)]);
            && u.now == s.now + dt && u.tail == s.tail && u.steps == s.steps && u.hasDevice == s.hasDevice
            && (Over(wait, u.now) ==> GaveUp(s, u, k)) && (!Over(wait, u.now) ==> InQueue(u, k, wait) && u.results == s.results)
  {
    var s1 := Next(s, Tick(dt));
    ExecTrace([s, s1, Next(s1, Poll(NoGuard, Again))], [Tick(dt), Poll(NoGuard, Again)]);
  }

  lemma {:induction false} PollsOutside(s: Sys, dts: seq<real>)
    requires !s.phase.Queueing? && Forward(dts)
    ensures Exec(s, Polls(dts)) == s.(now := s.now + Total(dts))
    decreases |dts|
  {
    if dts != [] {
      var s1 := Next(s, Tick(dts[0]));
      var es := [Tick(dts[0]), Poll(NoGuard, Again)];
      assert Next(s1, es[1]) == s1;
      ExecTrace([s, s1, s1], es);
      PollsOutside(s1, dts[1..]);
      ExecAppend(s, es, Polls(dts[1..]));
    }
  }

  lemma {:induction false} PollsRun(s: Sys, k: nat, wait: Option<real>, dts: seq<real>)
    requires InQueue(s, k, wait) && Forward(dts) && dts != []
    ensures var u := Exec(s, Polls(dts));
            && u.now == s.now + Total(dts) && u.tail == s.tail && u.steps == s.steps && u.hasDevice == s.hasDevice
            && (Over(wait, u.now) ==> GaveUp(s, u, k)) && (!Over(wait, u.now) ==> InQueue(u, k, wait) && u.results == s.results)
    decreases |dts|
  {
    var es := [Tick(dts[0]), Poll(NoGuard, Again)];
    var s1 := Exec(s, es);
    OnePoll(s, k, wait, dts[0]);
    ExecAppend(s, es, Polls(dts[1..]));
    TotalForward(dts[1..]);
    if Over(wait, s1.now) {
      PollsOutside(s1, dts[1..]);
    } else if dts[1..] != [] {
      PollsRun(s1, k, wait, dts[1..]);
    }
  }

  /** However often a step is turned away, it goes on waiting for its permit exactly until
      its queue time, the deadline or its wall clock is over; then it is given up as
      incomplete. */
  lemma WaitExact(s: Sys, k: nat, dts: seq<real>)
    requires s.phase == Between(k) && k < |s.steps| && s.steps[k].enabled && s.hasDevice && Forward(dts) && dts != []
    ensures var u := Exec(s, [Enter] + Polls(dts));
            && (u.phase.Queueing? <==> !Over(WaitUntil(s, k), s.now + Total(dts)))
            && (!u.phase.Queueing? ==> GaveUp(s, u, k))
  {
    EnterQueue(s, k);
    PollsRun(Next(s, Enter), k, WaitUntil(s, k), dts);
    assert ([Enter] + Polls(dts))[1..] == Polls(dts);
  }

  /** A guard read while the step waits can only shorten the wait, to the time the server has
      left for the job; an old protocol found then leaves the step's own wall clock. */
  lemma GuardedWait(s: Sys, k: nat, w: real, guard: Guard)
    requires InQueue(s, k, Some(w)) && s.tail.Some?
    ensures guard.Guard? && guard.left >= 0.0 && !guard.regressed ==>
              var u, end := Next(s, Poll(guard, Again)), if w <= s.now + guard.left then w else s.now + guard.left;
              (end <= s.now ==> GaveUp(s, u, k)) && (end > s.now ==> InQueue(u, k, Some(end)) && u.results == s.results)
    ensures guard.OldProtocol? ==>
              var u := Next(s, Poll(guard, Again));
              && u.tail == None && (Over(s.phase.legacy, s.now) ==> GaveUp(s, u, k))
              && (!Over(s.phase.legacy, s.now) ==> InQueue(u, k, s.phase.legacy) && u.results == s.results)
  {
  }

  /** The check after the permit came. */
  lemma GrantStep(s: Sys, k: nat, wait: Option<real>, guard: Guard, conflict: bool, waited: real)
    requires s.phase == Granted(k, wait) && (s.tail.Some? ==> wait.Some? && wait.value <= s.tail.value.deadline)
    requires guard.Guard? ==> guard.left >= 0.0 && !guard.regressed
    ensures var u := Next(s, CheckGrant(guard, conflict, waited));
            var late := s.tail.Some? && (Over(wait, s.now) || (guard.Guard? && guard.left == 0.0));
            && (late ==> GaveUp(s, u, k))
            && (!late && Guarded(s, k) && (s.leaseLost || conflict) ==>
                  u.phase == Between(k + 1) && u.leaseLost && u.results == Recorded(s.results, s.steps[k].family, Lost))
            && (!late && !(Guarded(s, k) && (s.leaseLost || conflict)) ==>
                  u.phase == Boundary(k, 0) && u.results == s.results && u.leaseLost == s.leaseLost)
  {
  }

  /** A permit is used exactly if it comes before the wait and the deadline are over, also a
      deadline that the guard has just brought forward, and the lease is still held. */
  lemma PermitExact(s: Sys, k: nat, wait: Option<real>, dt: real, guard: Guard, conflict: bool, waited: real)
    requires InQueue(s, k, wait) && !Over(wait, s.now) && dt >= 0.0
    requires guard.Guard? ==> guard.left >= 0.0 && !guard.regressed
    ensures var u := Exec(s, [Poll(NoGuard, Permit), Tick(dt), CheckGrant(guard, conflict, waited)]);
            var late := s.tail.Some? && (Over(wait, s.now + dt) || (guard.Guard? && guard.left == 0.0));
            && (late ==> GaveUp(s, u, k))
            && (!late && Guarded(s, k) && (s.leaseLost || conflict) ==>
                  u.phase == Between(k + 1) && u.leaseLost && u.results == Recorded(s.results, s.steps[k].family, Lost))
            && (!late && !(Guarded(s, k) && (s.leaseLost || conflict)) ==>
                  u.phase == Boundary(k, 0) && u.results == s.results && u.leaseLost == s.leaseLost)
  {
    var es := [Poll(NoGuard, Permit), Tick(dt), CheckGrant(guard, conflict, waited)];
    var s1 := Next(s, es[0]);
    assert s1 == s.(phase := Granted(k, wait));
    var s2 := Next(s1, es[1]);
    assert s2 == s.(phase := Granted(k, wait), now := s.now + dt);
    GrantStep(s2, k, wait, guard, conflict, waited);
    ExecTrace([s, s1, s2, Next(s2, es[2])], es);
  }

  /** The queue time left to the later steps is what this one did not use up. */
  lemma QueueSpent(s: Sys, k: nat, wait: Option<real>, conflict: bool, waited: real)
    requires s.phase == Granted(k, wait) && s.tail.Some? && 0.0 <= waited <= s.tail.value.queue
    ensures Next(s, CheckGrant(NoGuard, conflict, waited)).tail == Some(s.tail.value.(queue := s.tail.value.queue - waited))
  {
  }

  /** Without a permit no step runs: a shutdown gives the step up at once and stops the job,
      a denial ends it without a result, and any other refusal leaves it queued. */
  lemma NoPermitNoStep(s: Sys, k: nat, wait: Option<real>)
    requires InQueue(s, k, wait) && !Over(wait, s.now)
    ensures GaveUp(s, Next(s, Poll(NoGuard, Shutdown)), k) && Next(s, Poll(NoGuard, Shutdown)).canceled
    ensures Next(s, Poll(NoGuard, Denied)) == s.(phase := Between(k + 1))
    ensures Next(s, Poll(NoGuard, Again)) == s
  {
  }

  // ---------------------------------------------------------------------------
  // A step's own budget
  // ---------------------------------------------------------------------------

  function Retry(v: Value, dt: real): seq<Event> {
    [Finish(false, v), Tick(dt), Pause(false, true), CheckAttempt(false)]
  }

  lemma RetryRun(s: Sys, k: nat, a: nat, v: Value, dt: real)
    requires s.phase == Live(k, a) && k < |s.steps| && a < s.steps[k].retry && dt >= 0.0 && !s.leaseLost
    ensures var u := Exec(s, Retry(v, dt)); u.phase == Cleared(k, a + 1) && u.tail == s.tail && u.now == s.now + dt && u.steps == s.steps
  {
    var es := Retry(v, dt);
    var s1 := Next(s, es[0]);
    var s2 := Next(s1, es[1]);
    var s3 := Next(s2, es[2]);
    assert s3.phase == Boundary(k, a + 1);
    ExecTrace([s, s1, s2, s3, Next(s3, es[3])], es);
  }

  /** Under the tail a step's budget runs from its first attempt: a later one starts exactly
      before it and the deadline are over. */
  lemma BudgetExact(s: Sys, k: nat, a: nat, v: Value, dt: real)
    requires s.phase == Cleared(k, a) && Ample(s, k) && s.tail.Some? && s.steps[k].key !in s.tail.value.steps
    requires a < s.steps[k].retry && dt >= 0.0 && !s.leaseLost
    ensures var u := Exec(Next(s, Start(NoGuard)), Retry(v, dt));
            Next(u, Start(NoGuard)).phase.Live? <==> dt < s.steps[k].budget && s.now + dt < s.tail.value.deadline
  {
    StartLive(s, k, a);
    var s0 := Next(s, Start(NoGuard));
    assert s0.tail == Some(WithStep(s.tail.value, s.steps[k].key, s.now, s.steps[k].budget));
    RetryRun(s0, k, a, v, dt);
  }

  // ---------------------------------------------------------------------------
  // A teardown in which nothing goes wrong
  // ---------------------------------------------------------------------------

  /** Nobody has lost the lease, and there is time for every step. */
  ghost predicate Calm(s: Sys) {
    && !s.leaseLost
    && (forall k :: 0 <= k < |s.steps| && s.steps[k].wall.Some? ==> s.steps[k].wall.value > 0.0)
    && (s.tail.Some? ==>
          && s.now < s.tail.value.deadline && s.tail.value.queue > 0.0
          && (forall k :: 0 <= k < |s.steps| ==> s.steps[k].budget > 0.0)
          && (forall x :: x in s.tail.value.steps ==> s.now < s.tail.value.steps[x]))
  }

  function CleanStep(s: Sys, k: nat, v: Value): seq<Event>
    requires k < |s.steps|
  {
    if !s.steps[k].enabled then [Enter]
    else (if s.hasDevice then [Enter, Poll(NoGuard, Permit), CheckGrant(NoGuard, false, 0.0)] else [Enter]) + AttemptOf(Try(false, true, v, false))
  }

  lemma CleanStart(s: Sys, k: nat)
    requires s.phase == Between(k) && k < |s.steps| && Calm(s) && s.steps[k].enabled
    ensures var es := if s.hasDevice then [Enter, Poll(NoGuard, Permit), CheckGrant(NoGuard, false, 0.0)] else [Enter];
            Exec(s, es) == s.(phase := Boundary(k, 0))
  {
    if s.hasDevice {
      var es := [Enter, Poll(NoGuard, Permit), CheckGrant(NoGuard, false, 0.0)];
      EnterQueue(s, k);
      var s1 := Next(s, es[0]);
      var s2 := Next(s1, es[1]);
      assert s2 == s.(phase := Granted(k, WaitUntil(s, k)));
      ExecTrace([s, s1, s2, Next(s2, es[2])], es);
    } else {
      ExecTrace([s, Next(s, Enter)], [Enter]);
    }
  }

  lemma CleanAttempt(s: Sys, k: nat, v: Value)
    requires s.phase == Boundary(k, 0) && k < |s.steps| && Calm(s)
    ensures var u := Exec(s, AttemptOf(Try(false, true, v, false)));
            && u.phase == Between(k + 1) && u.results == ReportedIf(s, k, Outcome(v))
            && Calm(u) && Same(s, u)
  {
    var es := AttemptOf(Try(false, true, v, false));
    AttemptRun(s, k, 0, Try(false, true, v, false));
    var s1 := Next(s, es[0]);
    var s2 := Next(s1, es[1]);
    ExecTrace([s, s1, s2, Next(s2, es[2])], es);
    assert s.tail.Some? ==> s2.tail == Some(WithStep(s.tail.value, s.steps[k].key, s.now, s.steps[k].budget));
  }

  lemma CleanStepRun(s: Sys, k: nat, v: Value)
    requires s.phase == Between(k) && k < |s.steps| && Calm(s)
    ensures var u := Exec(s, CleanStep(s, k, v));
            && u.phase == Between(k + 1) && Calm(u) && Same(s, u)
            && u.results == ReportedIf(s, k, if s.steps[k].enabled then Outcome(v) else Skipped)
  {
    if s.steps[k].enabled {
      var es := if s.hasDevice then [Enter, Poll(NoGuard, Permit), CheckGrant(NoGuard, false, 0.0)] else [Enter];
      CleanStart(s, k);
      ExecAppend(s, es, AttemptOf(Try(false, true, v, false)));
      CleanAttempt(Exec(s, es), k, v);
    } else {
      ExecTrace([s, Next(s, Enter)], [Enter]);
    }
  }

  /** No two disarm steps from `k` on report for one family, and none has yet. */
  ghost predicate OwnFamilies(s: Sys, k: nat) {
    && (forall i, j :: k <= i < j < |s.steps| && s.steps[i].disarm && s.steps[j].disarm ==> s.steps[i].family != s.steps[j].family)
    && (forall i :: k <= i < |s.steps| && s.steps[i].disarm ==> s.steps[i].family !in s.results)
  }

  /** Every disarm step of a device that was enabled reports what it found, every other one
      that it was not executed. */
  ghost predicate AllReported(s: Sys, k: nat, vs: seq<Value>, u: Sys)
    requires |vs| == |s.steps|
  {
    && (forall i :: k <= i < |s.steps| && s.steps[i].disarm && s.hasDevice ==>
          s.steps[i].family in u.results
          && u.results[s.steps[i].family] == Entry(if s.steps[i].enabled then vs[i] else NotExecuted, false))
    && (forall f :: f in s.results ==> f in u.results && u.results[f] == s.results[f])
  }

  /** A teardown with time, permits and the lease runs every enabled step in turn, to the last. */
  lemma {:induction false} CleanTeardown(s: Sys, k: nat, vs: seq<Value>) returns (es: seq<Event>)
    requires s.phase == Between(k) && k <= |s.steps| == |vs| && Calm(s) && OwnFamilies(s, k)
    ensures var u := Exec(s, es); u.phase == Between(|s.steps|) && Same(s, u) && AllReported(s, k, vs, u)
    decreases |s.steps| - k
  {
    if k == |s.steps| {
      es := [];
    } else {
      var head := CleanStep(s, k, vs[k]);
      var u := Exec(s, head);
      CleanStepRun(s, k, vs[k]);
      var rest := CleanTeardown(u, k + 1, vs);
      ExecAppend(s, head, rest);
      es := head + rest;
    }
  }
}
