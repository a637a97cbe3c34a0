/** The phase barrier of a plan-run host: arming per destination phase, arrivals, waiters on
    an event that arming replaces, and the projection of the host, which disappears with the
    last job registered for it. Every call reads the projection under the coordinator's lock
    and then works on it under its own, so both are separate steps. */
module Barrier {

  import opened Options

  /** One arming of a barrier and the arrivals counted since. */
  datatype Arming = Arming(total: int, arrived: nat)

  predicate Complete(a: Arming) { a.total > 0 && a.arrived >= a.total }

  // `ev` names the event (and with it the arming) a projection currently uses.
  datatype View = View(armed: Option<int>, ev: nat)

  // ---------------------------------------------------------------------------
  // One projection
  // ---------------------------------------------------------------------------

  class PlanRunHostView {
    var phase: int
    var total: int
    var arrived: nat
    var armed: Option<int>
    var event: nat
    var signalled: set<nat>

    ghost predicate Valid()
      reads this
    {
      && (event in signalled <==> Complete(Arming(total, arrived)))
      && (forall e :: e in signalled ==> e <= event)
    }

    constructor (p: int)
      ensures Valid() && total == 0 && arrived == 0 && armed == None && signalled == {} && event == 0
    {
      phase, total, arrived, armed, event, signalled := p, 0, 0, None, 0, {};
    }

    /** Arming again for the same destination changes nothing. */
    method SetBarrierTotal(t: int, forPhase: Option<int>, waitPhase: int)
      requires Valid()
      modifies this
      ensures Valid() && signalled == old(signalled)
      ensures forPhase.Some? && old(armed) == forPhase
              ==> total == old(total) && arrived == old(arrived) && event == old(event) && armed == old(armed) && phase == old(phase)
      ensures !(forPhase.Some? && old(armed) == forPhase)
              ==> total == t && arrived == 0 && event == old(event) + 1 && phase == waitPhase
                  && armed == if forPhase.Some? then forPhase else old(armed)
    {
      if forPhase.Some? && armed == forPhase { return; }
      if forPhase.Some? { armed := forPhase; }
      total, arrived := t, 0;
      event := event + 1;
      phase := waitPhase;
    }

    method ArriveAtBarrier() returns (last: bool)
      requires Valid()
      modifies `arrived, `signalled
      ensures Valid() && arrived == old(arrived) + 1
      ensures last <==> Complete(Arming(total, arrived))
      ensures signalled == if last then old(signalled) + {event} else old(signalled)
    {
      arrived := arrived + 1;
      last := total > 0 && arrived >= total;
      if last { signalled := signalled + {event}; }
    }

    /** Either the caller may go on, or it has to wait for the event it gets. */
    method EnterWait() returns (go: bool, e: nat)
      requires Valid()
      ensures go <==> Complete(Arming(total, arrived))
      ensures e == event && (go <==> e in signalled)
    {
      go := total > 0 && arrived >= total;
      e := event;
    }

    method AdvancePhase(p: int)
      requires Valid()
      modifies `phase
      ensures Valid() && phase == p
    {
      phase := p;
    }

    /** All arrivals of one arming: exactly the `total`-th and those after it are told that
        they are the last. */
    method ArriveAll(n: nat) returns (last: seq<bool>)
      requires Valid() && arrived == 0 && total > 0
      modifies `arrived, `signalled
      ensures Valid() && arrived == n && |last| == n
      ensures forall i :: 0 <= i < n ==> (last[i] <==> i + 1 >= total)
      ensures event in signalled <==> n >= total
    {
      last := [];
      while |last| < n
        invariant Valid() && arrived == |last| <= n
        invariant forall i :: 0 <= i < |last| ==> (last[i] <==> i + 1 >= total)
      {
        var one := ArriveAtBarrier();
        last := last + [one];
      }
    }
  }

  // ---------------------------------------------------------------------------
  // The coordinator
  // ---------------------------------------------------------------------------

  predicate HasJob(jobPrh: map<int, int>, prh: int) {
    exists j :: j in jobPrh && jobPrh[j] == prh
  }

  class HostRunCoordinator {
    var hosts: map<int, int>
    var jobPrh: map<int, int>

    constructor ()
      ensures hosts == map[] && jobPrh == map[]
    {
      hosts, jobPrh := map[], map[];
    }

    /** The projection goes with the last job registered for it, and no other does. */
    method DeregisterJob(j: int) returns (removed: Option<int>)
      modifies this
      ensures jobPrh == old(jobPrh) - {j}
      ensures removed.Some? <==>
                old(j in jobPrh && jobPrh[j] in hosts) && forall k :: k in jobPrh ==> jobPrh[k] != old(jobPrh)[j]
      ensures removed.Some? ==> removed == Some(old(jobPrh)[j])
      ensures hosts == if removed.Some? then old(hosts) - {removed.value} else old(hosts)
    {
      removed := None;
      if j !in jobPrh { return; }
      var prh := jobPrh[j];
      jobPrh := jobPrh - {j};
      if HasJob(jobPrh, prh) { return; }
      if prh in hosts {
        hosts := hosts - {prh};
        removed := Some(prh);
      }
    }

    /** A projection stays exactly when some job is registered for its host. */
    method ReclaimStaleProjections()
      modifies `hosts
      ensures hosts == Reclaimed(old(hosts), jobPrh)
      ensures forall p :: p in hosts <==> p in old(hosts) && exists j :: j in jobPrh && jobPrh[j] == p
      ensures forall p :: p in hosts ==> hosts[p] == old(hosts)[p]
    {
      hosts := map p | p in hosts && HasJob(jobPrh, p) :: hosts[p];
    }
  }

  function Reclaimed(hosts: map<int, int>, jobPrh: map<int, int>): map<int, int> {
    map p | p in hosts && HasJob(jobPrh, p) :: hosts[p]
  }

  // ---------------------------------------------------------------------------
  // Threads
  // ---------------------------------------------------------------------------

  /** Where the thread of a job stands between arming, arriving and waiting; `v` is the
      projection it read. A thread that finds no projection passes through. */
  datatype Phase =
    | Idle
    | ToArm(prh: int, v: int)
    | Armed(prh: int)
    | ToArrive(prh: int, v: int)
    | Arrived(prh: int)
    | ToWait(prh: int, v: int)
    | Blocked(prh: int, v: int, ev: nat)
    | Free(via: Option<nat>)

  datatype Sys = Sys(
    hosts: map<int, int>,
    views: map<int, View>,
    armings: map<nat, Arming>,
    signalled: set<nat>,
    nextView: int,
    nextEv: nat,
    jobPrh: map<int, int>,
    threads: map<int, Phase>)

  const INIT := Sys(map[], map[], map[], {}, 0, 0, map[], map[])

  datatype Event =
    | RegisterHost(prh: int)
    | RegisterJob(j: int, prh: int)
    | Deregister(j: int)
    | Reclaim
    | ArmFetch(j: int, prh: int)
    | ArmDo(j: int, total: int, dest: int)
    | ArriveFetch(j: int)
    | ArriveDo(j: int)
    | WaitFetch(j: int)
    | WaitDo(j: int)
    | Wake(j: int)
    | TimeOut(j: int)
    | Quit(j: int)

  function At(s: Sys, j: int): Phase {
    if j in s.threads then s.threads[j] else Idle
  }

  function To(s: Sys, j: int, ph: Phase): Sys {
    s.(threads := s.threads[j := ph])
  }

  function Arm(s: Sys, v: int, total: int, dest: int): Sys {
    if v !in s.views || s.views[v].armed == Some(dest) then s
    else s.(views := s.views[v := View(Some(dest), s.nextEv)],
            armings := s.armings[s.nextEv := Arming(total, 0)], nextEv := s.nextEv + 1)
  }

  function Arrive(s: Sys, v: int): Sys {
    if v !in s.views || s.views[v].ev !in s.armings then s
    else
      var e := s.views[v].ev;
      var a := s.armings[e].(arrived := s.armings[e].arrived + 1);
      s.(armings := s.armings[e := a], signalled := if Complete(a) then s.signalled + {e} else s.signalled)
  }

  predicate Satisfied(s: Sys, v: int) {
    v in s.views && s.views[v].ev in s.armings && Complete(s.armings[s.views[v].ev])
  }

  function Next(s: Sys, e: Event): Sys {
    match e
    case RegisterHost(prh) =>
      if prh in s.hosts then s
      else s.(hosts := s.hosts[prh := s.nextView], views := s.views[s.nextView := View(None, s.nextEv)],
              armings := s.armings[s.nextEv := Arming(0, 0)], nextView := s.nextView + 1, nextEv := s.nextEv + 1)
    case RegisterJob(j, prh) => s.(jobPrh := s.jobPrh[j := prh])
    case Deregister(j) =>
      if j !in s.jobPrh then s
      else
        var rest := s.jobPrh - {j};
        s.(jobPrh := rest, hosts := if HasJob(rest, s.jobPrh[j]) then s.hosts else s.hosts - {s.jobPrh[j]})
    case Reclaim => s.(hosts := Reclaimed(s.hosts, s.jobPrh))
    case ArmFetch(j, prh) =>
      if !At(s, j).Idle? then s else To(s, j, if prh in s.hosts then ToArm(prh, s.hosts[prh]) else Armed(prh))
    case ArmDo(j, total, dest) =>
      (match At(s, j) case ToArm(prh, v) => To(Arm(s, v, total, dest), j, Armed(prh)) case _ => s)
    case ArriveFetch(j) =>
      (match At(s, j)
       case Armed(prh) => To(s, j, if prh in s.hosts then ToArrive(prh, s.hosts[prh]) else Arrived(prh))
       case _ => s)
    case ArriveDo(j) =>
      (match At(s, j) case ToArrive(prh, v) => To(Arrive(s, v), j, Arrived(prh)) case _ => s)
    case WaitFetch(j) =>
      (match At(s, j)
       case Arrived(prh) => To(s, j, if prh in s.hosts then ToWait(prh, s.hosts[prh]) else Free(None))
       case _ => s)
    case WaitDo(j) =>
      (match At(s, j)
       case ToWait(prh, v) =>
         if v !in s.views then s
         else To(s, j, if Satisfied(s, v) then Free(Some(s.views[v].ev)) else Blocked(prh, v, s.views[v].ev))
       case _ => s)
    case Wake(j) =>
      (match At(s, j)
       case Blocked(prh, v, ev) => if ev in s.signalled then To(s, j, Free(Some(ev))) else s
       case _ => s)
    case TimeOut(j) =>
      (match At(s, j) case Blocked(prh, _, _) => To(s, j, Arrived(prh)) case _ => s)
    case Quit(j) => To(s, j, Idle)
  }

  function Exec(s: Sys, es: seq<Event>): Sys
    decreases |es|
  {
    if es == [] then s else Exec(Next(s, es[0]), es[1..])
  }

  // ---------------------------------------------------------------------------
  // No early release, in any run
  // ---------------------------------------------------------------------------

  /** Events are signalled exactly when their arming is complete, projections have their own
      events, and a thread was let go only by a complete arming or for want of a projection. */
  ghost predicate Sound(s: Sys) {
    && (forall e :: e in s.armings ==> e < s.nextEv && (e in s.signalled <==> Complete(s.armings[e])))
    && s.signalled <= s.armings.Keys
    && (forall v :: v in s.views ==> v < s.nextView && s.views[v].ev in s.armings)
    && (forall v, w :: v in s.views && w in s.views && v != w ==> s.views[v].ev != s.views[w].ev)
    && (forall p :: p in s.hosts ==> s.hosts[p] in s.views)
    && (forall j :: j in s.threads && s.threads[j].Blocked? ==> s.threads[j].ev in s.armings)
    && (forall j :: j in s.threads && s.threads[j].Free? && s.threads[j].via.Some? ==> s.threads[j].via.value in s.signalled)
  }

  lemma ArmSound(s: Sys, v: int, total: int, dest: int)
    requires Sound(s)
    ensures Sound(Arm(s, v, total, dest)) && Arm(s, v, total, dest).threads == s.threads
  {
  }

  lemma ArriveSound(s: Sys, v: int)
    requires Sound(s)
    ensures Sound(Arrive(s, v)) && Arrive(s, v).threads == s.threads
  {
  }

  /** Moving one thread. */
  lemma ToSound(s: Sys, j: int, ph: Phase)
    requires Sound(s)
    requires ph.Blocked? ==> ph.ev in s.armings
    requires ph.Free? && ph.via.Some? ==> ph.via.value in s.signalled
    ensures Sound(To(s, j, ph))
  {
  }

  lemma HostSound(s: Sys, e: Event)
    requires Sound(s) && (e.RegisterHost? || e.RegisterJob? || e.Deregister? || e.Reclaim?)
    ensures Sound(Next(s, e))
  {
  }

  lemma SoundStep(s: Sys, e: Event)
    requires Sound(s)
    ensures Sound(Next(s, e))
  {
    match e
    case ArmFetch(j, prh) => if At(s, j).Idle? { ToSound(s, j, At(Next(s, e), j)); }
    case ArmDo(j, total, dest) =>
      if At(s, j).ToArm? {
        ArmSound(s, At(s, j).v, total, dest);
        ToSound(Arm(s, At(s, j).v, total, dest), j, Armed(At(s, j).prh));
      }
    case ArriveFetch(j) => if At(s, j).Armed? { ToSound(s, j, At(Next(s, e), j)); }
    case ArriveDo(j) =>
      if At(s, j).ToArrive? {
        ArriveSound(s, At(s, j).v);
        ToSound(Arrive(s, At(s, j).v), j, Arrived(At(s, j).prh));
      }
    case WaitFetch(j) => if At(s, j).Arrived? { ToSound(s, j, At(Next(s, e), j)); }
    case WaitDo(j) => if At(s, j).ToWait? && At(s, j).v in s.views { ToSound(s, j, At(Next(s, e), j)); }
    case Wake(j) => if At(s, j).Blocked? { ToSound(s, j, At(Next(s, e), j)); }
    case TimeOut(j) => if At(s, j).Blocked? { ToSound(s, j, Arrived(At(s, j).prh)); }
    case Quit(j) => ToSound(s, j, Idle);
    case _ => HostSound(s, e);
  }

  /** Whatever is registered, armed, reclaimed or timed out, a waiter that was released by a
      projection was released by an arming with all its arrivals in. */
  lemma {:induction false} NoEarlyRelease(s: Sys, es: seq<Event>, j: int)
    requires Sound(s)
    ensures var t := Exec(s, es);
            Sound(t) && (At(t, j).Free? && At(t, j).via.Some? ==>
                           At(t, j).via.value in t.armings && Complete(t.armings[At(t, j).via.value]))
    decreases |es|
  {
    if es != [] {
      SoundStep(s, es[0]);
      NoEarlyRelease(Next(s, es[0]), es[1..], j);
    }
  }

  // ---------------------------------------------------------------------------
  // Nobody is left behind
  // ---------------------------------------------------------------------------

  /** The callers' discipline: one destination phase and a positive total; a job goes to the
      barrier only while registered for a host that has a projection, and is not
      deregistered or moved before it has left. */
  ghost predicate Orderly(s: Sys, e: Event, dest: int) {
    match e
    case ArmFetch(j, prh) => j in s.jobPrh && s.jobPrh[j] == prh && prh in s.hosts
    case ArmDo(j, total, d) => d == dest && total > 0
    case RegisterJob(j, prh) => At(s, j).Idle? || At(s, j).Free? || (j in s.jobPrh && s.jobPrh[j] == prh)
    case Deregister(j) => At(s, j).Idle? || At(s, j).Free?
    case _ => true
  }

  ghost predicate OnHost(s: Sys, j: int, prh: int, v: int) {
    j in s.jobPrh && s.jobPrh[j] == prh && prh in s.hosts && s.hosts[prh] == v
  }

  predicate ArmedFor(s: Sys, v: int, dest: int) {
    v in s.views && s.views[v].armed == Some(dest)
  }

  /** A job at the barrier holds on to the projection it armed, and blocks on its event. */
  ghost predicate PhaseOk(s: Sys, j: int, ph: Phase, dest: int) {
    match ph
    case ToArm(prh, v) => OnHost(s, j, prh, v)
    case Armed(prh) => prh in s.hosts && OnHost(s, j, prh, s.hosts[prh]) && ArmedFor(s, s.hosts[prh], dest)
    case ToArrive(prh, v) => OnHost(s, j, prh, v) && ArmedFor(s, v, dest)
    case Arrived(prh) => prh in s.hosts && OnHost(s, j, prh, s.hosts[prh]) && ArmedFor(s, s.hosts[prh], dest)
    case ToWait(prh, v) => OnHost(s, j, prh, v) && ArmedFor(s, v, dest)
    case Blocked(prh, v, ev) => OnHost(s, j, prh, v) && ArmedFor(s, v, dest) && s.views[v].ev == ev
    case _ => true
  }

  ghost predicate Stable(s: Sys, dest: int) {
    Sound(s) && forall j :: j in s.threads ==> PhaseOk(s, j, s.threads[j], dest)
  }

  /** What a step may do to a projection that a registered job relies on: nothing, or count
      an arrival. */
  ghost predicate KeepsHosts(s: Sys, s': Sys, dest: int) {
    && (forall j, prh :: j in s.jobPrh && s.jobPrh[j] == prh && prh in s.hosts && !At(s, j).Idle? && !At(s, j).Free?
          ==> j in s'.jobPrh && s'.jobPrh[j] == prh && prh in s'.hosts && s'.hosts[prh] == s.hosts[prh])
    && (forall v :: ArmedFor(s, v, dest) ==> ArmedFor(s', v, dest) && s'.views[v].ev == s.views[v].ev)
  }

  lemma KeepsPhase(s: Sys, s': Sys, j: int, dest: int)
    requires Sound(s) && KeepsHosts(s, s', dest) && j in s.threads && PhaseOk(s, j, s.threads[j], dest)
    ensures PhaseOk(s', j, s.threads[j], dest)
  {
    assert At(s, j) == s.threads[j];
  }

  lemma ArmedKept(s: Sys, e: Event, dest: int, v: int)
    requires Sound(s) && Orderly(s, e, dest) && ArmedFor(s, v, dest)
    ensures ArmedFor(Next(s, e), v, dest) && Next(s, e).views[v].ev == s.views[v].ev
  {
  }

  lemma HostKept(s: Sys, e: Event, dest: int, j: int, prh: int)
    requires Orderly(s, e, dest) && !At(s, j).Idle? && !At(s, j).Free?
    requires j in s.jobPrh && s.jobPrh[j] == prh && prh in s.hosts
    ensures var s' := Next(s, e); j in s'.jobPrh && s'.jobPrh[j] == prh && prh in s'.hosts && s'.hosts[prh] == s.hosts[prh]
  {
    if e.Deregister? && e.j in s.jobPrh { assert j != e.j && (s.jobPrh - {e.j})[j] == prh; }
  }

  lemma OrderlyKeepsHosts(s: Sys, e: Event, dest: int)
    requires Stable(s, dest) && Orderly(s, e, dest)
    ensures KeepsHosts(s, Next(s, e), dest)
  {
    var s' := Next(s, e);
    forall j, prh | j in s.jobPrh && s.jobPrh[j] == prh && prh in s.hosts && !At(s, j).Idle? && !At(s, j).Free?
      ensures j in s'.jobPrh && s'.jobPrh[j] == prh && prh in s'.hosts && s'.hosts[prh] == s.hosts[prh]
    {
      HostKept(s, e, dest, j, prh);
    }
    forall v | ArmedFor(s, v, dest) ensures ArmedFor(s', v, dest) && s'.views[v].ev == s.views[v].ev {
      ArmedKept(s, e, dest, v);
    }
  }

  lemma StableStep(s: Sys, e: Event, dest: int)
    requires Stable(s, dest) && Orderly(s, e, dest)
    ensures Stable(Next(s, e), dest)
  {
    var s' := Next(s, e);
    SoundStep(s, e);
    OrderlyKeepsHosts(s, e, dest);
    forall j | j in s'.threads ensures PhaseOk(s', j, s'.threads[j], dest) {
      if j in s.threads && s'.threads[j] == s.threads[j] {
        KeepsPhase(s, s', j, dest);
      } else {
        MovedPhase(s, e, j, dest);
      }
    }
  }

  lemma MovedPhase(s: Sys, e: Event, j: int, dest: int)
    requires Stable(s, dest) && Orderly(s, e, dest) && j in Next(s, e).threads
    requires !(j in s.threads && Next(s, e).threads[j] == s.threads[j])
    ensures PhaseOk(Next(s, e), j, Next(s, e).threads[j], dest)
  {
  }

  ghost predicate AllOrderly(s: Sys, es: seq<Event>, dest: int)
    decreases |es|
  {
    es == [] || (Orderly(s, es[0], dest) && AllOrderly(Next(s, es[0]), es[1..], dest))
  }

  /** In an orderly run, once a barrier is complete, every job blocked at it can wake and
      every job still on its way passes at once; and none was let through for want of a
      projection. */
  lemma {:induction false} EveryWaiterReleased(s: Sys, es: seq<Event>, dest: int)
    requires Stable(s, dest) && AllOrderly(s, es, dest)
    ensures var t := Exec(s, es);
            Stable(t, dest) && forall j ::
              && (At(t, j).Blocked? && Satisfied(t, At(t, j).v) ==> At(Next(t, Wake(j)), j).Free?)
              && (At(t, j).ToWait? && Satisfied(t, At(t, j).v) ==> At(Next(t, WaitDo(j)), j).Free?)
              && (At(t, j).Arrived? ==> At(Next(t, WaitFetch(j)), j).ToWait?)
    decreases |es|
  {
    if es != [] {
      StableStep(s, es[0], dest);
      EveryWaiterReleased(Next(s, es[0]), es[1..], dest);
    } else {
      forall j ensures
        && (At(s, j).Blocked? && Satisfied(s, At(s, j).v) ==> At(Next(s, Wake(j)), j).Free?)
        && (At(s, j).ToWait? && Satisfied(s, At(s, j).v) ==> At(Next(s, WaitDo(j)), j).Free?)
        && (At(s, j).Arrived? ==> At(Next(s, WaitFetch(j)), j).ToWait?)
      {
        if j in s.threads { assert PhaseOk(s, j, s.threads[j], dest); }
      }
    }
  }

  ghost predicate OneDestination(es: seq<Event>, dest: int) {
    forall i :: 0 <= i < |es| && es[i].ArmDo? ==> es[i].dest == dest
  }

  lemma CompletionStep(s: Sys, e: Event, v: int, dest: int)
    requires Sound(s) && (e.ArmDo? ==> e.dest == dest) && ArmedFor(s, v, dest) && Satisfied(s, v)
    ensures ArmedFor(Next(s, e), v, dest) && Satisfied(Next(s, e), v) && Next(s, e).views[v] == s.views[v]
  {
  }

  /** A complete barrier stays complete through further arming for the same destination,
      arrivals, phase changes and the projection's removal. */
  lemma {:induction false} CompletionStays(s: Sys, es: seq<Event>, v: int, dest: int)
    requires Sound(s) && OneDestination(es, dest) && ArmedFor(s, v, dest) && Satisfied(s, v)
    ensures var t := Exec(s, es); Satisfied(t, v) && t.views[v] == s.views[v]
    decreases |es|
  {
    if es != [] {
      SoundStep(s, es[0]);
      if es[0].ArmDo? { assert es[0].dest == dest; }
      CompletionStep(s, es[0], v, dest);
      CompletionStays(Next(s, es[0]), es[1..], v, dest);
    }
  }

  // ---------------------------------------------------------------------------
  // Exactly when counted arrivals stay with the host
  // ---------------------------------------------------------------------------

  /** A deregistration of the only job registered for the host, or a reclaim with none. */
  ghost predicate Drops(s: Sys, e: Event, prh: int) {
    || (e.Deregister? && e.j in s.jobPrh && s.jobPrh[e.j] == prh && forall k :: k in s.jobPrh && k != e.j ==> s.jobPrh[k] != prh)
    || (e.Reclaim? && forall k :: k in s.jobPrh ==> s.jobPrh[k] != prh)
  }

  lemma DropExact(s: Sys, e: Event, prh: int)
    requires prh in s.hosts
    ensures prh in Next(s, e).hosts <==> !Drops(s, e, prh)
    ensures prh in Next(s, e).hosts ==> Next(s, e).hosts[prh] == s.hosts[prh]
  {
    if e.Deregister? && e.j in s.jobPrh {
      var rest := s.jobPrh - {e.j};
      if k :| k in s.jobPrh && k != e.j && s.jobPrh[k] == prh { assert k in rest && rest[k] == prh; }
    }
  }

  ghost predicate NeverDropped(s: Sys, es: seq<Event>, prh: int)
    decreases |es|
  {
    es == [] || (!Drops(s, es[0], prh) && NeverDropped(Next(s, es[0]), es[1..], prh))
  }

  predicate ArrivesAt(s: Sys, e: Event, v: int) {
    e.ArriveDo? && At(s, e.j).ToArrive? && At(s, e.j).v == v
  }

  /** The arrivals a run counts on a projection. */
  function Arrivals(s: Sys, es: seq<Event>, v: int): nat
    decreases |es|
  {
    if es == [] then 0 else (if ArrivesAt(s, es[0], v) then 1 else 0) + Arrivals(Next(s, es[0]), es[1..], v)
  }

  predicate Arms(s: Sys, v: int, a: Arming) {
    v in s.views && s.views[v].ev in s.armings && s.armings[s.views[v].ev] == a
  }

  /** Every step leaves an armed projection's count alone, except that an arrival adds one. */
  lemma CountStep(s: Sys, e: Event, v: int, dest: int, a: Arming)
    requires Sound(s) && (e.ArmDo? ==> e.dest == dest) && ArmedFor(s, v, dest) && Arms(s, v, a)
    ensures ArmedFor(Next(s, e), v, dest) && Next(s, e).views[v] == s.views[v]
    ensures Arms(Next(s, e), v, a.(arrived := a.arrived + if ArrivesAt(s, e, v) then 1 else 0))
  {
  }

  /** A projection that was replaced does not come back: new ones are new. */
  lemma {:induction false} GoneForGood(s: Sys, es: seq<Event>, prh: int, v: int)
    requires v < s.nextView && (prh in s.hosts ==> s.hosts[prh] != v)
    ensures var t := Exec(s, es); prh in t.hosts ==> t.hosts[prh] != v
    decreases |es|
  {
    if es != [] {
      GoneStep(s, es[0], prh, v);
      GoneForGood(Next(s, es[0]), es[1..], prh, v);
    }
  }

  lemma GoneStep(s: Sys, e: Event, prh: int, v: int)
    requires v < s.nextView && (prh in s.hosts ==> s.hosts[prh] != v)
    ensures var s' := Next(s, e); v < s'.nextView && (prh in s'.hosts ==> s'.hosts[prh] != v)
  {
  }

  /** A registered job protects its host's projection from reclaims and from the
      deregistration of every other job, until it is deregistered itself. */
  lemma RegisteredProtects(s: Sys, j: int, prh: int, k: int)
    ensures var t := Next(s, RegisterJob(j, prh)); !Drops(t, Reclaim, prh) && (k != j ==> !Drops(t, Deregister(k), prh))
    ensures j !in Next(s, Deregister(j)).jobPrh && forall x :: x != j && x in s.jobPrh ==>
              x in Next(s, Deregister(j)).jobPrh && Next(s, Deregister(j)).jobPrh[x] == s.jobPrh[x]
  {
    var t := Next(s, RegisterJob(j, prh));
    assert j in t.jobPrh && t.jobPrh[j] == prh;
  }

  /** Over every run for one destination, no arrival counted on a projection is ever
      subtracted; and the host still answers with that projection, hence with those arrivals,
      exactly if no deregistration or reclaim came while no other job was registered for it. */
  lemma {:induction false} ArrivalStaysExact(s: Sys, es: seq<Event>, prh: int, v: int, dest: int, a: Arming)
    requires Sound(s) && OneDestination(es, dest) && prh in s.hosts && s.hosts[prh] == v
    requires ArmedFor(s, v, dest) && Arms(s, v, a)
    ensures var t := Exec(s, es);
            && Arms(t, v, a.(arrived := a.arrived + Arrivals(s, es, v)))
            && (prh in t.hosts && t.hosts[prh] == v <==> NeverDropped(s, es, prh))
    decreases |es|
  {
    CountRun(s, es, v, dest, a);
    if es != [] {
      DropExact(s, es[0], prh);
      SoundStep(s, es[0]);
      if Drops(s, es[0], prh) {
        GoneForGood(Next(s, es[0]), es[1..], prh, v);
      } else {
        if es[0].ArmDo? { assert es[0].dest == dest; }
        CountStep(s, es[0], v, dest, a);
        ArrivalStaysExact(Next(s, es[0]), es[1..], prh, v, dest, a.(arrived := a.arrived + if ArrivesAt(s, es[0], v) then 1 else 0));
      }
    }
  }

  lemma {:induction false} CountRun(s: Sys, es: seq<Event>, v: int, dest: int, a: Arming)
    requires Sound(s) && OneDestination(es, dest) && ArmedFor(s, v, dest) && Arms(s, v, a)
    ensures Arms(Exec(s, es), v, a.(arrived := a.arrived + Arrivals(s, es, v))) && Exec(s, es).views[v] == s.views[v]
    decreases |es|
  {
    if es != [] {
      SoundStep(s, es[0]);
      if es[0].ArmDo? { assert es[0].dest == dest; }
      CountStep(s, es[0], v, dest, a);
      CountRun(Next(s, es[0]), es[1..], v, dest, a.(arrived := a.arrived + if ArrivesAt(s, es[0], v) then 1 else 0));
    }
  }

  /** A job blocked on a projection can go on exactly when the arrivals counted there have
      reached the total, whatever else happened; arrivals counted elsewhere do not help it. */
  lemma WaiterReleasedExact(s: Sys, es: seq<Event>, b: int, prh: int, v: int, dest: int, a: Arming)
    requires Sound(s) && OneDestination(es, dest) && ArmedFor(s, v, dest) && Arms(s, v, a)
    requires At(Exec(s, es), b) == Blocked(prh, v, s.views[v].ev)
    ensures At(Next(Exec(s, es), Wake(b)), b).Free? <==> a.total > 0 && a.arrived + Arrivals(s, es, v) >= a.total
  {
    SoundRun(s, es);
    CountRun(s, es, v, dest, a);
  }

  // ---------------------------------------------------------------------------
  // An arrival that is forgotten
  // ---------------------------------------------------------------------------

  lemma {:induction false} ExecTrace(ss: seq<Sys>, es: seq<Event>)
    requires |ss| == |es| + 1
    requires forall i :: 0 <= i < |es| ==> ss[i + 1] == Next(ss[i], es[i])
    ensures Exec(ss[0], es) == ss[|es|]
    decreases |es|
  {
    if es != [] { ExecTrace(ss[1..], es[1..]); }
  }

  function PassBarrier(j: int, prh: int, total: int, dest: int): seq<Event> {
    [ArmFetch(j, prh), ArmDo(j, total, dest), ArriveFetch(j), ArriveDo(j)]
  }

  lemma {:induction false} SoundRun(s: Sys, es: seq<Event>)
    requires Sound(s)
    ensures Sound(Exec(s, es))
    decreases |es|
  {
    if es != [] {
      SoundStep(s, es[0]);
      SoundRun(Next(s, es[0]), es[1..]);
    }
  }

  lemma FreshArm(s: Sys, j: int, prh: int, total: int, dest: int)
    requires At(s, j).Idle? && prh in s.hosts && s.hosts[prh] in s.views && s.views[s.hosts[prh]].armed == None
    ensures var t, v := Exec(s, [ArmFetch(j, prh), ArmDo(j, total, dest)]), s.hosts[prh];
            && t.hosts == s.hosts && t.jobPrh == s.jobPrh && At(t, j) == Armed(prh)
            && v in t.views && t.views[v].ev in t.armings && t.armings[t.views[v].ev] == Arming(total, 0)
            && (forall k :: k != j ==> At(t, k) == At(s, k))
  {
    var s1 := Next(s, ArmFetch(j, prh));
    ExecTrace([s, s1, Next(s1, ArmDo(j, total, dest))], [ArmFetch(j, prh), ArmDo(j, total, dest)]);
  }

  lemma CountArrival(s: Sys, j: int, prh: int, a: Arming)
    requires At(s, j) == Armed(prh) && prh in s.hosts && s.hosts[prh] in s.views
    requires s.views[s.hosts[prh]].ev in s.armings && s.armings[s.views[s.hosts[prh]].ev] == a
    ensures var t, v := Exec(s, [ArriveFetch(j), ArriveDo(j)]), s.hosts[prh];
            && t.hosts == s.hosts && t.jobPrh == s.jobPrh && At(t, j) == Arrived(prh)
            && t.views == s.views && t.views[v].ev in t.armings && t.armings[t.views[v].ev] == a.(arrived := a.arrived + 1)
            && (forall k :: k != j ==> At(t, k) == At(s, k))
  {
    var s1 := Next(s, ArriveFetch(j));
    ExecTrace([s, s1, Next(s1, ArriveDo(j))], [ArriveFetch(j), ArriveDo(j)]);
  }

  /** A first arrival at a fresh projection. */
  lemma FirstArrival(s: Sys, j: int, prh: int, total: int, dest: int)
    requires Sound(s) && At(s, j).Idle? && prh in s.hosts && s.views[s.hosts[prh]].armed == None
    ensures var t, v := Exec(s, PassBarrier(j, prh, total, dest)), s.hosts[prh];
            && t.hosts == s.hosts && t.jobPrh == s.jobPrh && At(t, j) == Arrived(prh) && Sound(t)
            && v in t.views && t.views[v].ev in t.armings && t.armings[t.views[v].ev] == Arming(total, 1)
            && (forall k :: k != j ==> At(t, k) == At(s, k))
  {
    var a, b := [ArmFetch(j, prh), ArmDo(j, total, dest)], [ArriveFetch(j), ArriveDo(j)];
    FreshArm(s, j, prh, total, dest);
    CountArrival(Exec(s, a), j, prh, Arming(total, 0));
    ExecAppend(s, a, b);
    assert a + b == PassBarrier(j, prh, total, dest);
    SoundRun(s, PassBarrier(j, prh, total, dest));
  }

  lemma {:induction false} ExecAppend(s: Sys, es: seq<Event>, fs: seq<Event>)
    ensures Exec(s, es + fs) == Exec(Exec(s, es), fs)
    decreases |es|
  {
    if es == [] {
      assert es + fs == fs;
    } else {
      assert (es + fs)[1..] == es[1..] + fs;
      ExecAppend(Next(s, es[0]), es[1..], fs);
    }
  }

  function Renewal(b: int, prh: int): seq<Event> {
    [Reclaim, RegisterHost(prh), RegisterJob(b, prh)]
  }

  /** The projection is reclaimed, and made anew by the next claim. */
  lemma Renewed(s: Sys, b: int, prh: int)
    requires Sound(s) && prh in s.hosts && (forall j :: j in s.jobPrh ==> s.jobPrh[j] != prh) && At(s, b).Idle?
    ensures var t := Exec(s, Renewal(b, prh));
            && Sound(t) && prh in t.hosts && t.hosts[prh] in t.views && t.views[t.hosts[prh]].armed == None && At(t, b).Idle?
  {
    var es := Renewal(b, prh);
    var s1 := Next(s, es[0]);
    assert prh !in s1.hosts;
    var s2 := Next(s1, es[1]);
    ExecTrace([s, s1, s2, Next(s2, es[2])], es);
    SoundRun(s, es);
  }

  lemma Waits(s: Sys, b: int, prh: int)
    requires Sound(s) && At(s, b) == Arrived(prh) && prh in s.hosts && !Satisfied(s, s.hosts[prh])
    ensures var t := Exec(s, [WaitFetch(b), WaitDo(b)]);
            At(t, b).Blocked? && At(t, b).ev !in t.signalled
  {
    var s1 := Next(s, WaitFetch(b));
    var s2 := Next(s1, WaitDo(b));
    assert At(s1, b) == ToWait(prh, s.hosts[prh]);
    assert At(s2, b) == Blocked(prh, s.hosts[prh], s.views[s.hosts[prh]].ev) && s2.signalled == s.signalled;
    ExecTrace([s, s1, s2], [WaitFetch(b), WaitDo(b)]);
  }

  /** A job that fails before its engine starts arrives without being registered for the
      host. If a reclaim comes before its peer registers, the projection goes and the arrival
      with it; the peer, on a new projection, waits for an arrival that has already happened:
      both jobs of a barrier of two have arrived, and one is blocked. */
  lemma UnregisteredArrivalForgotten(s: Sys, a: int, b: int, prh: int, dest: int)
    requires Sound(s) && a != b && At(s, a).Idle? && At(s, b).Idle?
    requires prh in s.hosts && s.views[s.hosts[prh]].armed == None && forall j :: j in s.jobPrh ==> s.jobPrh[j] != prh
    ensures var s1 := Exec(s, PassBarrier(a, prh, 2, dest));
            var s2 := Exec(s1, Renewal(b, prh));
            var s3 := Exec(s2, PassBarrier(b, prh, 2, dest));
            var s4 := Exec(s3, [WaitFetch(b), WaitDo(b)]);
            At(s1, a) == Arrived(prh) && At(s4, b).Blocked? && At(s4, b).ev !in s4.signalled
  {
    FirstArrival(s, a, prh, 2, dest);
    var s1 := Exec(s, PassBarrier(a, prh, 2, dest));
    Renewed(s1, b, prh);
    var s2 := Exec(s1, Renewal(b, prh));
    FirstArrival(s2, b, prh, 2, dest);
    Waits(Exec(s2, PassBarrier(b, prh, 2, dest)), b, prh);
  }
}
