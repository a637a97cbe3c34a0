/** The host-wide permit scheduler: a counting semaphore with FIFO waiters, at most
    one permit per device, an adjustable cap, per-device cancellation and shutdown.

    `Core` holds the fields guarded by the scheduler's lock, and one function per lock
    region says what that region does.  The class carries the same fields and its
    methods are proved to perform exactly those functions.  `Sys` adds the threads
    inside `acquire`, the live permits and the wake-up events, so that `Next` is one
    lock region (or one wake-up) of one thread and a run is any sequence of events. */
module Scheduler {

  datatype Waiter = Waiter(device: int, ticket: nat)

  datatype Core = Core(
    cap: int,
    held: int,
    waiters: seq<Waiter>,
    shut: bool,
    cancelled: set<int>,
    heldDevices: set<int>,
    handoff: set<int>)

  datatype Entry = Granted | Queued | AlreadyWaiting | AlreadyHolding | Closed

  datatype Resolution = Permit | CancelSeen | ShutdownSeen

  function Devices(ws: seq<Waiter>): set<int> {
    set w | w in ws :: w.device
  }

  function Tickets(ws: seq<Waiter>): set<nat> {
    set w | w in ws :: w.ticket
  }

  /** The queue without the entry of device `d`. */
  function Without(ws: seq<Waiter>, d: int): (r: seq<Waiter>)
    ensures Devices(r) == Devices(ws) - {d}
    ensures forall w :: w in r <==> w in ws && w.device != d
  {
    if ws == [] then [] else
      assert ws == [ws[0]] + ws[1..];
      if ws[0].device == d then Without(ws[1..], d) else [ws[0]] + Without(ws[1..], d)
  }

  function Entries(ws: seq<Waiter>, d: int): (r: set<nat>)
    ensures forall k :: k in r <==> Waiter(d, k) in ws
  {
    set w | w in ws && w.device == d :: w.ticket
  }

  // The clamp of the two decrements.
  function Dec(held: int): int {
    if held - 1 > 0 then held - 1 else 0
  }

  /** How many waiters fit under the cap. */
  function Room(c: Core): nat {
    if c.shut || c.cap <= c.held then 0
    else if c.cap - c.held <= |c.waiters| then c.cap - c.held
    else |c.waiters|
  }

  function Promote(c: Core, k: nat): Core
    requires k <= |c.waiters|
  {
    c.(held := c.held + k,
       waiters := c.waiters[k..],
       heldDevices := c.heldDevices + Devices(c.waiters[..k]),
       handoff := c.handoff + Devices(c.waiters[..k]))
  }

  function Wake(c: Core): Core { Promote(c, Room(c)) }

  function Woken(c: Core): seq<Waiter> { c.waiters[..Room(c)] }

  function DropHandoff(c: Core, d: int): Core {
    if d !in c.handoff then c else
      c.(handoff := c.handoff - {d}, held := Dec(c.held), heldDevices := c.heldDevices - {d})
  }

  function EnterKind(c: Core, d: int): Entry {
    if c.shut then Closed
    else if d in Devices(c.waiters) then AlreadyWaiting
    else if d in c.heldDevices then AlreadyHolding
    else if c.held < c.cap && c.waiters == [] then Granted
    else Queued
  }

  function Enter(c: Core, d: int, ticket: nat): Core {
    match EnterKind(c, d)
    case Granted => c.(held := c.held + 1, heldDevices := c.heldDevices + {d})
    case Queued => c.(waiters := c.waiters + [Waiter(d, ticket)])
    case _ => c
  }

  predicate GivesUp(c: Core, d: int) {
    d !in c.handoff && d !in c.cancelled && !c.shut
  }

  function GiveUp(c: Core, d: int): Core {
    if GivesUp(c, d) then c.(waiters := Without(c.waiters, d)) else c
  }

  function ResolveKind(c: Core, d: int): Resolution {
    if c.shut then ShutdownSeen else if d in c.cancelled then CancelSeen else Permit
  }

  /** The part of the resolving region that precedes its promotion. */
  function Settle(c: Core, d: int): Core {
    match ResolveKind(c, d)
    case ShutdownSeen => DropHandoff(c, d)
    case CancelSeen => DropHandoff(c.(cancelled := c.cancelled - {d}), d)
    case Permit => c.(handoff := c.handoff - {d})
  }

  predicate SettleWakes(c: Core, d: int) {
    ResolveKind(c, d) == CancelSeen && d in c.handoff
  }

  function ResolveCore(c: Core, d: int): Core {
    if SettleWakes(c, d) then Wake(Settle(c, d)) else Settle(c, d)
  }

  function FreeSlot(c: Core, d: int): Core {
    c.(held := Dec(c.held), heldDevices := c.heldDevices - {d})
  }

  function Cancel(c: Core, d: int): Core {
    var c1 := c.(waiters := Without(c.waiters, d));
    if d in Devices(c.waiters) || d in c.handoff then c1.(cancelled := c.cancelled + {d}) else c1
  }

  function SetCap(c: Core, n: int): Core {
    c.(cap := if n > 1 then n else 1)
  }

  function Close(c: Core): Core {
    c.(shut := true, waiters := [])
  }

  /** The scheduler's own fields and lock regions. */
  class OperationScheduler {
    var maxConcurrent: int
    var held: int
    var waiters: seq<Waiter>
    var isShutdown: bool
    var cancelled: set<int>
    var heldDevices: set<int>
    var pendingHandoff: set<int>

    function State(): Core
      reads this
    {
      Core(maxConcurrent, held, waiters, isShutdown, cancelled, heldDevices, pendingHandoff)
    }

    constructor (max: int)
      ensures State() == Core(max, 0, [], false, {}, {}, {})
    {
      maxConcurrent, held, waiters, isShutdown := max, 0, [], false;
      cancelled, heldDevices, pendingHandoff := {}, {}, {};
    }

    /** Promotes from the head of the queue while a slot is free; returns the waiters
        whose events it set. */
    method WakeOneLocked() returns (woken: seq<Waiter>)
      modifies this
      ensures State() == Wake(old(State()))
      ensures woken == Woken(old(State()))
    {
      woken := [];
      if isShutdown { return; }
      ghost var start := State();
      ghost var k := 0;
      while waiters != [] && held < maxConcurrent
        invariant k <= |start.waiters|
        invariant State() == Promote(start, k)
        invariant woken == start.waiters[..k]
        invariant k > 0 ==> start.held + k <= start.cap
        decreases |waiters|
      {
        var w := waiters[0];
        assert w == start.waiters[k];
        waiters := waiters[1..];
        held := held + 1;
        heldDevices := heldDevices + {w.device};
        pendingHandoff := pendingHandoff + {w.device};
        woken := woken + [w];
        PromoteOneMore(start, k);
        k := k + 1;
      }
      assert k == Room(start);
    }

    /** A slot reserved for the device is given back, no other slot or reservation is touched,
        and the accounting of slots stays exact. */
    method ReleasePendingHandoffLocked(d: int)
      modifies this
      ensures State() == DropHandoff(old(State()), d)
      ensures d !in pendingHandoff
      ensures d !in old(pendingHandoff) ==> State() == old(State())
      ensures forall x :: x != d ==> (x in pendingHandoff <==> x in old(pendingHandoff)) && (x in heldDevices <==> x in old(heldDevices))
      ensures forall pd :: Slots(old(State()), pd) && d in old(pendingHandoff)
                ==> Slots(State(), pd) && held == old(held) - 1 && d !in heldDevices
    {
      if d !in pendingHandoff { return; }
      pendingHandoff := pendingHandoff - {d};
      held := if held - 1 > 0 then held - 1 else 0;
      heldDevices := heldDevices - {d};
      forall pd | Slots(old(State()), pd) ensures Slots(State(), pd) && held == old(held) - 1 {
        DropKeepsSlots(old(State()), pd, d);
      }
    }

    /** First lock region of `acquire`: a permit at once only with a free slot, nobody waiting
        and no slot or queue entry of the device yet; otherwise it queues at the end or is
        turned away. */
    method AcquireEnter(d: int, ticket: nat) returns (r: Entry)
      modifies this
      ensures r == EnterKind(old(State()), d)
      ensures State() == Enter(old(State()), d, ticket)
      ensures r == Closed <==> old(isShutdown)
      ensures r == AlreadyWaiting || r == AlreadyHolding ==> d in Devices(old(waiters)) + old(heldDevices)
      ensures r == Granted || r == Queued ==> d !in Devices(old(waiters)) + old(heldDevices) && !old(isShutdown)
      ensures r == Granted ==> old(waiters) == [] && held == old(held) + 1 <= maxConcurrent && heldDevices == old(heldDevices) + {d}
      ensures r == Queued ==> waiters == old(waiters) + [Waiter(d, ticket)] && (old(waiters) != [] || old(held) >= maxConcurrent)
      ensures r != Granted ==> held == old(held) && heldDevices == old(heldDevices)
      ensures r != Queued ==> waiters == old(waiters)
      ensures maxConcurrent == old(maxConcurrent) && isShutdown == old(isShutdown)
      ensures cancelled == old(cancelled) && pendingHandoff == old(pendingHandoff)
    {
      if isShutdown { return Closed; }
      if d in Devices(waiters) { return AlreadyWaiting; }
      if d in heldDevices { return AlreadyHolding; }
      if held < maxConcurrent && waiters == [] {
        held := held + 1;
        heldDevices := heldDevices + {d};
        return Granted;
      }
      waiters := waiters + [Waiter(d, ticket)];
      return Queued;
    }

    /** Second lock region, reached only when the wait returned without a signal. A call that
        gives up leaves nothing behind, neither entry, slot nor mark; one that was promoted,
        cancelled or shut down in the meantime changes nothing and goes on to the third. */
    method AcquireTimedOut(d: int) returns (timedOut: bool)
      modifies this
      ensures State() == GiveUp(old(State()), d)
      ensures !timedOut ==> State() == old(State()) && (d in pendingHandoff || d in cancelled || isShutdown)
      ensures timedOut ==> d !in Devices(waiters) && d !in pendingHandoff && d !in cancelled && !isShutdown
      ensures forall x :: x != d ==> (x in Devices(waiters) <==> x in Devices(old(waiters)))
      ensures held == old(held) && heldDevices == old(heldDevices) && pendingHandoff == old(pendingHandoff)
      ensures forall pd :: Slots(old(State()), pd) ==> Slots(State(), pd)
    {
      timedOut := false;
      if d !in pendingHandoff && d !in cancelled && !isShutdown {
        waiters := Without(waiters, d);
        timedOut := true;
        forall pd | Slots(old(State()), pd) ensures Slots(State(), pd) { WithoutDistinct(old(waiters), d); }
      }
    }

    /** Third lock region: shutdown, cancellation or hand-over of the slot. A call that was
        cancelled or shut down keeps no slot; one that goes on has exactly its own. */
    method AcquireResolve(d: int) returns (r: Resolution, woken: seq<Waiter>)
      modifies this
      ensures r == ResolveKind(old(State()), d)
      ensures State() == ResolveCore(old(State()), d)
      ensures r == ShutdownSeen <==> old(isShutdown)
      ensures r == CancelSeen <==> !old(isShutdown) && d in old(cancelled)
      ensures r == CancelSeen ==> cancelled == old(cancelled) - {d}
      ensures r != CancelSeen ==> cancelled == old(cancelled)
      ensures r == Permit ==> held == old(held) && heldDevices == old(heldDevices) && pendingHandoff == old(pendingHandoff) - {d}
      ensures r != Permit && d in old(pendingHandoff) && d !in Devices(old(waiters)) ==> d !in heldDevices && d !in pendingHandoff
      ensures woken == if SettleWakes(old(State()), d) then Woken(Settle(old(State()), d)) else []
    {
      woken := [];
      if isShutdown {
        ReleasePendingHandoffLocked(d);
        return ShutdownSeen, [];
      }
      if d in cancelled {
        cancelled := cancelled - {d};
        if d in pendingHandoff {
          ReleasePendingHandoffLocked(d);
          woken := WakeOneLocked();
        }
        return CancelSeen, woken;
      }
      pendingHandoff := pendingHandoff - {d};
      return Permit, [];
    }

    method Release(d: int) returns (woken: seq<Waiter>)
      modifies this
      ensures State() == Wake(FreeSlot(old(State()), d))
      ensures woken == Woken(FreeSlot(old(State()), d))
    {
      held := if held - 1 > 0 then held - 1 else 0;
      heldDevices := heldDevices - {d};
      woken := WakeOneLocked();
    }

    /** Returns the queue entries whose events the caller sets after the lock. A call that
        waits or has a slot reserved is marked, whichever of the two it is. */
    method CancelDevice(d: int) returns (popped: set<nat>)
      modifies this
      ensures State() == Cancel(old(State()), d)
      ensures d in Devices(old(waiters)) + old(pendingHandoff) ==> cancelled == old(cancelled) + {d}
      ensures d !in Devices(old(waiters)) + old(pendingHandoff) ==> cancelled == old(cancelled)
      ensures d !in Devices(waiters) && forall w :: w in waiters <==> w in old(waiters) && w.device != d
      ensures held == old(held) && heldDevices == old(heldDevices) && pendingHandoff == old(pendingHandoff)
      ensures popped == Entries(old(waiters), d)
    {
      popped := Entries(waiters, d);
      var wasWaiting := d in Devices(waiters);
      waiters := Without(waiters, d);
      if wasWaiting || d in pendingHandoff {
        cancelled := cancelled + {d};
      }
    }

    method SetMaxConcurrent(n: int) returns (woken: seq<Waiter>)
      modifies this
      ensures State() == Wake(SetCap(old(State()), n))
      ensures maxConcurrent >= 1 && (n >= 1 ==> maxConcurrent == n)
      ensures held >= maxConcurrent || waiters == [] || isShutdown
      ensures woken == Woken(SetCap(old(State()), n))
    {
      maxConcurrent := if n > 1 then n else 1;
      woken := [];
      if held < maxConcurrent {
        woken := WakeOneLocked();
      } else {
        assert State() == Promote(State(), 0);
      }
    }

    method Shutdown() returns (popped: seq<Waiter>)
      modifies this
      ensures State() == Close(old(State())) && popped == old(waiters)
      ensures isShutdown && waiters == []
      ensures held == old(held) && heldDevices == old(heldDevices) && pendingHandoff == old(pendingHandoff)
    {
      isShutdown := true;
      popped := waiters;
      waiters := [];
    }
  }

  lemma DevicesSnoc(ws: seq<Waiter>, k: nat)
    requires k < |ws|
    ensures Devices(ws[..k + 1]) == Devices(ws[..k]) + {ws[k].device}
  {
    assert ws[..k + 1] == ws[..k] + [ws[k]];
  }

  lemma PromoteOneMore(c: Core, k: nat)
    requires k < |c.waiters|
    ensures var p := Promote(c, k);
            Promote(c, k + 1) == p.(held := p.held + 1,
                                    waiters := p.waiters[1..],
                                    heldDevices := p.heldDevices + {c.waiters[k].device},
                                    handoff := p.handoff + {c.waiters[k].device})
    ensures c.waiters[..k + 1] == c.waiters[..k] + [c.waiters[k]]
    ensures Promote(c, k).waiters[0] == c.waiters[k]
  {
    DevicesSnoc(c.waiters, k);
    assert c.waiters[k..][1..] == c.waiters[k + 1..];
  }

  // ---------------------------------------------------------------------------
  // Threads, events and permits
  // ---------------------------------------------------------------------------

  /** Where a queued `acquire` stands: blocked on its event, past an unsignalled wait,
      or about to enter the resolving region. */
  datatype Phase = Waiting | TimedOut | Resolving

  datatype Call = Call(device: int, ticket: nat, phase: Phase)

  datatype Outcome = GotPermit | GotTimeout | GotCancelled | GotShutdown | Denied

  datatype Sys = Sys(
    core: Core,
    calls: map<nat, Call>,
    permits: map<nat, int>,
    done: map<nat, Outcome>,
    signalled: set<nat>,
    toSignal: set<nat>,
    nextTicket: nat,
    promoted: seq<nat>)

  datatype Event =
    | Begin(t: nat, d: int)
    | WaitSignaled(t: nat)
    | WaitExpired(t: nat)
    | CheckTimeout(t: nat)
    | Resolve(t: nat)
    | Release(t: nat)
    | CancelDevice(d: int)
    | Deliver(ticket: nat)
    | SetMax(n: int)
    | Shutdown

  function Init(cap: int): Sys {
    Sys(Core(cap, 0, [], false, {}, {}, {}), map[], map[], map[], {}, {}, 0, [])
  }

  ghost predicate Enabled(s: Sys, e: Event) {
    match e
    case Begin(t, _) => t !in s.calls && t !in s.done
    case WaitSignaled(t) => t in s.calls && s.calls[t].phase == Waiting && s.calls[t].ticket in s.signalled
    case WaitExpired(t) => t in s.calls && s.calls[t].phase == Waiting && s.calls[t].ticket !in s.signalled
    case CheckTimeout(t) => t in s.calls && s.calls[t].phase == TimedOut
    case Resolve(t) => t in s.calls && s.calls[t].phase == Resolving
    case Release(t) => t in s.permits
    case Deliver(k) => k in s.toSignal
    case _ => true
  }

  function TicketSeq(ws: seq<Waiter>): seq<nat> {
    seq(|ws|, i requires 0 <= i < |ws| => ws[i].ticket)
  }

  /** Runs the promotion loop from the intermediate core `c`. */
  function AndWake(s: Sys, c: Core): Sys {
    s.(core := Wake(c),
       signalled := s.signalled + Tickets(Woken(c)),
       promoted := s.promoted + TicketSeq(Woken(c)))
  }

  function End(s: Sys, t: nat, o: Outcome): Sys {
    s.(calls := s.calls - {t}, done := s.done[t := o])
  }

  function BeginCall(s: Sys, t: nat, d: int): Sys {
    var s1 := s.(core := Enter(s.core, d, s.nextTicket));
    match EnterKind(s.core, d)
    case Granted => s1.(permits := s.permits[t := d], done := s.done[t := GotPermit])
    case Queued => s1.(calls := s.calls[t := Call(d, s.nextTicket, Waiting)], nextTicket := s.nextTicket + 1)
    case Closed => s.(done := s.done[t := GotShutdown])
    case _ => s.(done := s.done[t := Denied])
  }

  function ResolveCall(s: Sys, t: nat): Sys
    requires t in s.calls
  {
    var d := s.calls[t].device;
    match ResolveKind(s.core, d)
    case ShutdownSeen => End(s.(core := Settle(s.core, d)), t, GotShutdown)
    case CancelSeen =>
      End(if SettleWakes(s.core, d) then AndWake(s, Settle(s.core, d)) else s.(core := Settle(s.core, d)), t, GotCancelled)
    case Permit => End(s.(core := Settle(s.core, d), permits := s.permits[t := d]), t, GotPermit)
  }

  function CancelStep(s: Sys, d: int): Sys {
    s.(core := Cancel(s.core, d), toSignal := s.toSignal + Entries(s.core.waiters, d))
  }

  /** One atomic step; an event that is not enabled changes nothing. */
  ghost function Next(s: Sys, e: Event): Sys {
    if !Enabled(s, e) then s else
      match e
      case Begin(t, d) => BeginCall(s, t, d)
      case WaitSignaled(t) => s.(calls := s.calls[t := s.calls[t].(phase := Resolving)])
      case WaitExpired(t) => s.(calls := s.calls[t := s.calls[t].(phase := TimedOut)])
      case CheckTimeout(t) =>
        if GivesUp(s.core, s.calls[t].device)
        then End(s.(core := GiveUp(s.core, s.calls[t].device)), t, GotTimeout)
        else s.(calls := s.calls[t := s.calls[t].(phase := Resolving)])
      case Resolve(t) => ResolveCall(s, t)
      case Release(t) => AndWake(s.(permits := s.permits - {t}), FreeSlot(s.core, s.permits[t]))
      case CancelDevice(d) => CancelStep(s, d)
      case Deliver(k) => s.(signalled := s.signalled + {k}, toSignal := s.toSignal - {k})
      case SetMax(n) => AndWake(s, SetCap(s.core, n))
      case Shutdown => s.(core := Close(s.core), toSignal := s.toSignal + Tickets(s.core.waiters))
  }

  ghost function Exec(s: Sys, es: seq<Event>): Sys
    decreases |es|
  {
    if es == [] then s else Exec(Next(s, es[0]), es[1..])
  }

  // ---------------------------------------------------------------------------
  // Slot accounting, and the exact step that breaks it
  // ---------------------------------------------------------------------------

  function PermitDevices(s: Sys): set<int> {
    set t | t in s.permits :: s.permits[t]
  }

  ghost predicate Distinct(ws: seq<Waiter>) {
    forall i, j :: 0 <= i < j < |ws| ==> ws[i].device != ws[j].device
  }

  /** The counted slots are exactly those of the permit holders `pd` and of the pending
      handoffs, and nobody queues for a second one. */
  ghost predicate Slots(c: Core, pd: set<int>) {
    && c.held == |c.heldDevices|
    && c.heldDevices == pd + c.handoff
    && pd !! c.handoff
    && Distinct(c.waiters)
    && Devices(c.waiters) !! c.heldDevices
  }

  ghost predicate Clients(s: Sys) {
    && (forall t, u :: t in s.permits && u in s.permits && t != u ==> s.permits[t] != s.permits[u])
    && s.calls.Keys !! s.done.Keys
    && s.permits.Keys <= s.done.Keys
  }

  /** Every counted slot belongs to exactly one live permit or pending handoff. */
  ghost predicate Accounting(s: Sys) {
    Slots(s.core, PermitDevices(s)) && Clients(s)
  }

  /** A permit handed out although no slot is reserved for the device. */
  ghost predicate Unbacked(s: Sys, e: Event) {
    && e.Resolve? && Enabled(s, e)
    && ResolveKind(s.core, s.calls[e.t].device) == Permit
    && s.calls[e.t].device !in s.core.handoff
  }

  lemma {:induction false} PromotionSize(hd: set<int>, ws: seq<Waiter>, k: nat)
    requires k <= |ws| && Distinct(ws) && Devices(ws) !! hd
    ensures |hd + Devices(ws[..k])| == |hd| + k
  {
    if k == 0 {
      assert hd + Devices(ws[..0]) == hd;
    } else {
      PromotionSize(hd, ws, k - 1);
      DevicesSnoc(ws, k - 1);
      assert hd + Devices(ws[..k]) == (hd + Devices(ws[..k - 1])) + {ws[k - 1].device};
      assert ws[k - 1] in ws && ws[k - 1].device !in hd;
      assert ws[k - 1].device !in Devices(ws[..k - 1]);
    }
  }

  lemma WakeKeepsSlots(c: Core, pd: set<int>)
    requires Slots(c, pd)
    ensures Slots(Wake(c), pd)
  {
    var k := Room(c);
    var moved, rest := Devices(c.waiters[..k]), Devices(c.waiters[k..]);
    PromotionSize(c.heldDevices, c.waiters, k);
    SplitDevices(c.waiters, k);
    assert rest !! (c.heldDevices + moved) && pd !! (c.handoff + moved);
    assert c.heldDevices + moved == pd + (c.handoff + moved);
  }

  lemma SplitDevices(ws: seq<Waiter>, k: nat)
    requires k <= |ws| && Distinct(ws)
    ensures Devices(ws[..k]) + Devices(ws[k..]) == Devices(ws)
    ensures Devices(ws[..k]) !! Devices(ws[k..])
    ensures Distinct(ws[k..])
  {
    forall w | w in ws[k..]
      ensures w.device !in Devices(ws[..k])
    {
      var j :| k <= j < |ws| && ws[j] == w;
    }
    assert ws == ws[..k] + ws[k..];
  }

  lemma WithoutDistinct(ws: seq<Waiter>, d: int)
    requires Distinct(ws)
    ensures Distinct(Without(ws, d))
  {
    if ws != [] {
      assert Distinct(ws[1..]);
      WithoutDistinct(ws[1..], d);
    }
  }

  lemma DropKeepsSlots(c: Core, pd: set<int>, d: int)
    requires Slots(c, pd)
    ensures Slots(DropHandoff(c, d), pd)
    ensures d in c.handoff ==> c.held > 0
  {
  }

  lemma PermitAdded(s: Sys, s': Sys, t: nat, d: int)
    requires t !in s.permits && s'.permits == s.permits[t := d]
    ensures PermitDevices(s') == PermitDevices(s) + {d}
  {
    assert s'.permits[t] == d;
    forall x | x in PermitDevices(s) ensures x in PermitDevices(s') {
      var u :| u in s.permits && s.permits[u] == x;
      assert u in s'.permits && s'.permits[u] == x;
    }
  }

  lemma PermitRemoved(s: Sys, s': Sys, t: nat)
    requires Clients(s) && t in s.permits && s'.permits == s.permits - {t}
    ensures PermitDevices(s') == PermitDevices(s) - {s.permits[t]}
    ensures s.permits[t] in PermitDevices(s)
  {
    forall x | x in PermitDevices(s) - {s.permits[t]} ensures x in PermitDevices(s') {
      var u :| u in s.permits && s.permits[u] == x;
      assert u in s'.permits && s'.permits[u] == x;
    }
  }

  lemma FreeKeepsSlots(c: Core, pd: set<int>, d: int)
    requires Slots(c, pd) && d in pd
    ensures Slots(FreeSlot(c, d), pd - {d})
    ensures c.held > 0
  {
  }

  lemma EnqueueKeepsSlots(c: Core, pd: set<int>, w: Waiter)
    requires Slots(c, pd) && w.device !in Devices(c.waiters) && w.device !in c.heldDevices
    ensures Slots(c.(waiters := c.waiters + [w]), pd)
  {
    assert Devices(c.waiters + [w]) == Devices(c.waiters) + {w.device};
    forall i | 0 <= i < |c.waiters| ensures c.waiters[i].device != w.device {
      assert c.waiters[i] in c.waiters;
    }
  }

  lemma GrantKeepsSlots(c: Core, pd: set<int>, d: int)
    requires Slots(c, pd) && d !in Devices(c.waiters) && d !in c.heldDevices
    ensures Slots(c.(held := c.held + 1, heldDevices := c.heldDevices + {d}), pd + {d})
  {
  }

  lemma EnterKeepsSlots(c: Core, pd: set<int>, d: int, k: nat)
    requires Slots(c, pd)
    ensures Slots(Enter(c, d, k), if EnterKind(c, d) == Granted then pd + {d} else pd)
  {
    match EnterKind(c, d)
    case Granted => GrantKeepsSlots(c, pd, d);
    case Queued => EnqueueKeepsSlots(c, pd, Waiter(d, k));
    case _ =>
  }

  /** The resolving region keeps the slots when it hands over a reserved one. */
  lemma SettleKeepsSlots(c: Core, pd: set<int>, d: int)
    requires Slots(c, pd)
    ensures ResolveKind(c, d) != Permit ==> Slots(Settle(c, d), pd)
    ensures ResolveKind(c, d) == Permit && d in c.handoff ==> Slots(Settle(c, d), pd + {d})
    ensures ResolveKind(c, d) == Permit && d !in c.handoff && d !in pd ==> !Slots(Settle(c, d), pd + {d})
  {
    if ResolveKind(c, d) == Permit && d !in c.handoff && d !in pd {
      assert d !in Settle(c, d).heldDevices;
    }
  }

  lemma ReleaseKeepsAccounting(s: Sys, t: nat)
    requires Accounting(s) && t in s.permits
    ensures Accounting(Next(s, Release(t)))
  {
    var d, c := s.permits[t], FreeSlot(s.core, s.permits[t]);
    var s' := Next(s, Release(t));
    PermitRemoved(s, s', t);
    FreeKeepsSlots(s.core, PermitDevices(s), d);
    WakeKeepsSlots(c, PermitDevices(s'));
    assert s'.core == Wake(c);
  }

  lemma SamePermits(s: Sys, s': Sys)
    requires s'.permits == s.permits
    ensures PermitDevices(s') == PermitDevices(s)
  {
  }

  lemma ResolveRefusedKeepsAccounting(s: Sys, t: nat)
    requires Accounting(s) && Enabled(s, Resolve(t))
    requires ResolveKind(s.core, s.calls[t].device) != Permit
    ensures Accounting(ResolveCall(s, t))
  {
    RefusalShape(s, t);
    RefusedAccounting(s, ResolveCall(s, t), t, s.calls[t].device);
  }

  lemma RefusedAccounting(s: Sys, s': Sys, t: nat, d: int)
    requires Accounting(s) && ResolveKind(s.core, d) != Permit
    requires s'.core == ResolveCore(s.core, d) && s'.permits == s.permits
    requires s'.calls == s.calls - {t} && s'.done.Keys == s.done.Keys + {t}
    ensures Accounting(s')
  {
    RefusalKeepsSlots(s.core, PermitDevices(s), d);
    SamePermits(s, s');
    EndKeepsClients(s, s', t);
  }

  lemma EndKeepsClients(s: Sys, s': Sys, t: nat)
    requires Clients(s) && s'.permits == s.permits
    requires s'.calls == s.calls - {t} && s'.done.Keys == s.done.Keys + {t}
    ensures Clients(s')
  {
  }

  lemma RefusalKeepsSlots(c: Core, pd: set<int>, d: int)
    requires Slots(c, pd) && ResolveKind(c, d) != Permit
    ensures Slots(ResolveCore(c, d), pd)
  {
    SettleKeepsSlots(c, pd, d);
    WakeKeepsSlots(Settle(c, d), pd);
  }

  lemma RefusalShape(s: Sys, t: nat)
    requires t in s.calls && ResolveKind(s.core, s.calls[t].device) != Permit
    ensures var s' := ResolveCall(s, t);
            && s'.core == ResolveCore(s.core, s.calls[t].device)
            && s'.permits == s.permits && s'.calls == s.calls - {t} && s'.done.Keys == s.done.Keys + {t}
  {
  }

  lemma ResolveGrantedAccountingExact(s: Sys, t: nat)
    requires Accounting(s) && Enabled(s, Resolve(t))
    requires ResolveKind(s.core, s.calls[t].device) == Permit
    ensures Accounting(ResolveCall(s, t)) <==> s.calls[t].device in s.core.handoff
  {
    var d, pd := s.calls[t].device, PermitDevices(s);
    var s' := ResolveCall(s, t);
    SettleKeepsSlots(s.core, pd, d);
    PermitAdded(s, s', t, d);
    PermitClash(s, s', t, d);
    assert s'.core == Settle(s.core, d);
  }

  lemma ResolveAccountingExact(s: Sys, t: nat)
    requires Accounting(s) && Enabled(s, Resolve(t))
    ensures Accounting(ResolveCall(s, t)) <==> !Unbacked(s, Resolve(t))
  {
    if ResolveKind(s.core, s.calls[t].device) == Permit {
      ResolveGrantedAccountingExact(s, t);
    } else {
      ResolveRefusedKeepsAccounting(s, t);
    }
  }

  lemma PermitClash(s: Sys, s': Sys, t: nat, d: int)
    requires Clients(s) && t !in s.permits && t in s.calls
    requires s'.permits == s.permits[t := d] && s'.calls == s.calls - {t} && s'.done.Keys == s.done.Keys + {t}
    ensures Clients(s') <==> d !in PermitDevices(s)
  {
    if d in PermitDevices(s) {
      var u :| u in s.permits && s.permits[u] == d;
      assert u in s'.permits && t in s'.permits && s'.permits[u] == s'.permits[t];
    }
  }

  lemma BeginShape(s: Sys, t: nat, d: int)
    requires t !in s.permits
    ensures var s' := BeginCall(s, t, d);
            && s'.core == Enter(s.core, d, s.nextTicket)
            && PermitDevices(s') == if EnterKind(s.core, d) == Granted then PermitDevices(s) + {d} else PermitDevices(s)
  {
    var s' := BeginCall(s, t, d);
    if EnterKind(s.core, d) == Granted { PermitAdded(s, s', t, d); } else { SamePermits(s, s'); }
  }

  lemma BeginKeepsClients(s: Sys, t: nat, d: int)
    requires Clients(s) && t !in s.calls && t !in s.done && PermitDevices(s) <= s.core.heldDevices
    ensures Clients(BeginCall(s, t, d))
  {
    if EnterKind(s.core, d) == Granted { FreshPermit(s, BeginCall(s, t, d), t, d); }
  }

  lemma BeginKeepsAccounting(s: Sys, t: nat, d: int)
    requires Accounting(s) && Enabled(s, Begin(t, d))
    ensures Accounting(BeginCall(s, t, d))
  {
    BeginShape(s, t, d);
    EnterKeepsSlots(s.core, PermitDevices(s), d, s.nextTicket);
    BeginKeepsClients(s, t, d);
  }

  lemma FreshPermit(s: Sys, s': Sys, t: nat, d: int)
    requires Clients(s) && t !in s.calls && d !in PermitDevices(s)
    requires s'.permits == s.permits[t := d] && s'.calls == s.calls && s'.done.Keys == s.done.Keys + {t}
    ensures Clients(s')
  {
  }

  /** Slot accounting survives a step exactly when the step does not hand out a permit
      for a device that has no pending handoff. */
  lemma AccountingStepExact(s: Sys, e: Event)
    requires Accounting(s)
    ensures Accounting(Next(s, e)) <==> !Unbacked(s, e)
  {
    if Enabled(s, e) {
      match e
      case Begin(t, d) => BeginKeepsAccounting(s, t, d);
      case Resolve(t) => ResolveAccountingExact(s, t);
      case Release(t) => ReleaseKeepsAccounting(s, t);
      case _ => QuietKeepsAccounting(s, e);
    }
  }

  lemma QuietKeepsAccounting(s: Sys, e: Event)
    requires Accounting(s) && Enabled(s, e)
    requires !e.Begin? && !e.Resolve? && !e.Release?
    ensures Accounting(Next(s, e))
  {
    var s' := Next(s, e);
    SamePermits(s, s');
    assert Clients(s');
    QuietKeepsSlots(s, e, PermitDevices(s));
  }

  lemma QuietKeepsSlots(s: Sys, e: Event, pd: set<int>)
    requires Slots(s.core, pd) && Enabled(s, e)
    requires !e.Begin? && !e.Resolve? && !e.Release?
    ensures Slots(Next(s, e).core, pd)
  {
    match e
    case CheckTimeout(t) => WithoutDistinct(s.core.waiters, s.calls[t].device);
    case CancelDevice(d) => WithoutDistinct(s.core.waiters, d);
    case SetMax(n) => WakeKeepsSlots(SetCap(s.core, n), pd);
    case _ =>
  }

  // ---------------------------------------------------------------------------
  // Queue order and work conservation
  // ---------------------------------------------------------------------------

  ghost predicate Ascending(xs: seq<nat>) {
    forall i, j :: 0 <= i < j < |xs| ==> xs[i] < xs[j]
  }

  /** Promotions so far followed by the current queue are in ticket order, and a free
      slot never coexists with a waiter. */
  ghost predicate Fifo(s: Sys) {
    && Ascending(s.promoted + TicketSeq(s.core.waiters))
    && (forall k :: k in s.promoted ==> k < s.nextTicket)
    && (forall w :: w in s.core.waiters ==> w.ticket < s.nextTicket)
    && (s.core.waiters != [] && !s.core.shut ==> s.core.held >= s.core.cap)
    && (s.core.shut ==> s.core.waiters == [])
  }

  lemma WakeKeepsFifo(s: Sys, c: Core)
    requires Ascending(s.promoted + TicketSeq(c.waiters))
    requires forall k :: k in s.promoted ==> k < s.nextTicket
    requires forall w :: w in c.waiters ==> w.ticket < s.nextTicket
    requires c.shut ==> c.waiters == []
    ensures Fifo(AndWake(s, c))
  {
    var k := Room(c);
    assert TicketSeq(c.waiters) == TicketSeq(c.waiters[..k]) + TicketSeq(c.waiters[k..]);
    assert s.promoted + TicketSeq(c.waiters) == s.promoted + TicketSeq(Woken(c)) + TicketSeq(c.waiters[k..]);
  }

  lemma AscendingParts(xs: seq<nat>, ys: seq<nat>)
    ensures Ascending(xs + ys) <==>
            Ascending(xs) && Ascending(ys) && forall x, y :: x in xs && y in ys ==> x < y
  {
    var z := xs + ys;
    if Ascending(z) {
      forall x, y | x in xs && y in ys ensures x < y {
        var i :| 0 <= i < |xs| && xs[i] == x;
        var j :| 0 <= j < |ys| && ys[j] == y;
        assert z[i] == x && z[|xs| + j] == y;
      }
      forall i, j | 0 <= i < j < |xs| ensures xs[i] < xs[j] { assert z[i] < z[j]; }
      forall i, j | 0 <= i < j < |ys| ensures ys[i] < ys[j] { assert z[|xs| + i] < z[|xs| + j]; }
    }
    if Ascending(xs) && Ascending(ys) && forall x, y :: x in xs && y in ys ==> x < y {
      forall i, j | 0 <= i < j < |z| ensures z[i] < z[j] {
        assert i < |xs| ==> z[i] in xs;
        assert |xs| <= j ==> z[j] in ys;
      }
    }
  }

  lemma {:induction false} WithoutAscending(ws: seq<Waiter>, d: int)
    requires Ascending(TicketSeq(ws))
    ensures Ascending(TicketSeq(Without(ws, d)))
  {
    if ws != [] {
      var r := Without(ws[1..], d);
      assert TicketSeq(ws) == [ws[0].ticket] + TicketSeq(ws[1..]);
      AscendingParts([ws[0].ticket], TicketSeq(ws[1..]));
      WithoutAscending(ws[1..], d);
      if ws[0].device == d {
        assert Without(ws, d) == r;
      } else {
        assert Without(ws, d) == [ws[0]] + r;
        assert TicketSeq([ws[0]] + r) == [ws[0].ticket] + TicketSeq(r);
        TicketsOf(ws[1..]);
        TicketsOf(r);
        forall y | y in TicketSeq(r) ensures ws[0].ticket < y {
          assert ws[0].ticket in [ws[0].ticket] && y in TicketSeq(ws[1..]);
        }
        AscendingParts([ws[0].ticket], TicketSeq(r));
      }
    } else {
      assert TicketSeq(ws) == [];
    }
  }

  lemma TicketsOf(ws: seq<Waiter>)
    ensures forall k :: k in TicketSeq(ws) <==> exists w :: w in ws && w.ticket == k
  {
    forall k | k in TicketSeq(ws) ensures exists w :: w in ws && w.ticket == k {
      var i :| 0 <= i < |ws| && TicketSeq(ws)[i] == k;
      assert ws[i] in ws;
    }
    forall w | w in ws ensures w.ticket in TicketSeq(ws) {
      var i :| 0 <= i < |ws| && ws[i] == w;
      assert TicketSeq(ws)[i] == w.ticket;
    }
  }

  lemma RemovalKeepsFifo(s: Sys, ws: seq<Waiter>, d: int)
    requires Fifo(s) && ws == Without(s.core.waiters, d)
    ensures Ascending(s.promoted + TicketSeq(ws))
  {
    AscendingParts(s.promoted, TicketSeq(s.core.waiters));
    WithoutAscending(s.core.waiters, d);
    TicketsOf(s.core.waiters);
    TicketsOf(ws);
    forall x, y | x in s.promoted && y in TicketSeq(ws) ensures x < y {
      assert y in TicketSeq(s.core.waiters);
    }
    AscendingParts(s.promoted, TicketSeq(ws));
  }

  lemma AscendingSnoc(xs: seq<nat>, k: nat)
    requires Ascending(xs) && forall x :: x in xs ==> x < k
    ensures Ascending(xs + [k])
  {
    var z := xs + [k];
    forall i, j | 0 <= i < j < |z| ensures z[i] < z[j] {
      assert z[i] in xs;
    }
  }

  lemma EnqueueKeepsFifo(s: Sys, t: nat, d: int)
    requires Fifo(s) && EnterKind(s.core, d) == Queued
    ensures Fifo(BeginCall(s, t, d))
  {
    var s', w := BeginCall(s, t, d), Waiter(d, s.nextTicket);
    assert TicketSeq(s.core.waiters + [w]) == TicketSeq(s.core.waiters) + [s.nextTicket];
    assert s.promoted + TicketSeq(s'.core.waiters) == s.promoted + TicketSeq(s.core.waiters) + [s.nextTicket];
    TicketsOf(s.core.waiters);
    forall x | x in s.promoted + TicketSeq(s.core.waiters) ensures x < s.nextTicket {
      assert x in s.promoted || x in TicketSeq(s.core.waiters);
    }
    AscendingSnoc(s.promoted + TicketSeq(s.core.waiters), s.nextTicket);
  }

  /** Whoever calls, cancels, times out or resizes, the queue stays in order and no slot
      idles while someone waits. */
  lemma FifoStep(s: Sys, e: Event)
    requires Fifo(s)
    ensures Fifo(Next(s, e))
  {
    if Enabled(s, e) {
      match e
      case Begin(t, d) => if EnterKind(s.core, d) == Queued { EnqueueKeepsFifo(s, t, d); }
      case CheckTimeout(t) => RemovalKeepsFifo(s, Without(s.core.waiters, s.calls[t].device), s.calls[t].device);
      case Resolve(t) => ResolveKeepsFifo(s, t);
      case Release(t) => WakeKeepsFifo(s.(permits := s.permits - {t}), FreeSlot(s.core, s.permits[t]));
      case CancelDevice(d) => RemovalKeepsFifo(s, Without(s.core.waiters, d), d);
      case SetMax(n) => WakeKeepsFifo(s, SetCap(s.core, n));
      case Shutdown => AscendingParts(s.promoted, TicketSeq(s.core.waiters)); AscendingParts(s.promoted, []);
      case _ =>
    }
  }

  lemma SettleKeepsQueue(c: Core, d: int)
    ensures var r := Settle(c, d); r.waiters == c.waiters && r.shut == c.shut && r.cap == c.cap
    ensures !c.shut && !SettleWakes(c, d) ==> Settle(c, d).held == c.held
  {
  }

  lemma EndKeepsFifo(s: Sys, t: nat, o: Outcome, c: Core, ps: map<nat, int>)
    requires Fifo(s) && c.waiters == s.core.waiters && c.shut == s.core.shut && c.cap == s.core.cap
    requires !c.shut ==> c.held == s.core.held
    ensures Fifo(End(s.(core := c, permits := ps), t, o))
  {
  }

  lemma ResolveKeepsFifo(s: Sys, t: nat)
    requires Fifo(s) && t in s.calls
    ensures Fifo(ResolveCall(s, t))
  {
    var d := s.calls[t].device;
    var c := Settle(s.core, d);
    SettleKeepsQueue(s.core, d);
    if SettleWakes(s.core, d) {
      WakeKeepsFifo(End(s, t, GotCancelled), c);
      assert ResolveCall(s, t) == AndWake(End(s, t, GotCancelled), c);
    } else {
      EndKeepsFifo(s, t, GotShutdown, c, s.permits);
      EndKeepsFifo(s, t, GotCancelled, c, s.permits);
      EndKeepsFifo(s, t, GotPermit, c, s.permits[t := d]);
    }
  }

  // ---------------------------------------------------------------------------
  // The disciplined system: at most one acquire in flight per device
  // ---------------------------------------------------------------------------

  function CallDevices(s: Sys): set<int> {
    set t | t in s.calls :: s.calls[t].device
  }

  ghost predicate Disciplined(s: Sys, e: Event) {
    e.Begin? ==> e.d !in CallDevices(s)
  }

  ghost predicate DisciplinedRun(s: Sys, es: seq<Event>)
    decreases |es|
  {
    es == [] || (Disciplined(s, es[0]) && DisciplinedRun(Next(s, es[0]), es[1..]))
  }

  /** The queue entry, reservation or cancellation mark that an in-flight call answers to. */
  ghost predicate Placed(s: Sys, c: Call) {
    && c.ticket < s.nextTicket
    && (!s.core.shut ==> c.device in Devices(s.core.waiters) + s.core.handoff + s.core.cancelled)
    && (c.device in Devices(s.core.waiters) ==> Waiter(c.device, c.ticket) in s.core.waiters)
    && (c.device in Devices(s.core.waiters) || c.ticket in s.signalled + s.toSignal)
    && (c.phase == Resolving || c.ticket in s.signalled + s.toSignal ==>
          s.core.shut || c.device in s.core.handoff + s.core.cancelled)
  }

  ghost predicate Threads(s: Sys) {
    && (forall t :: t in s.calls ==> Placed(s, s.calls[t]))
    && (forall t, u :: t in s.calls && u in s.calls && t != u ==>
          s.calls[t].device != s.calls[u].device && s.calls[t].ticket != s.calls[u].ticket)
    && Devices(s.core.waiters) <= CallDevices(s)
    && s.core.handoff <= CallDevices(s)
    && (!s.core.shut ==> s.core.cancelled <= CallDevices(s))
    && (!s.core.shut ==> s.core.cancelled !! Devices(s.core.waiters))
    && (forall k :: k in s.signalled + s.toSignal ==> k < s.nextTicket)
  }

  ghost predicate Inv(s: Sys) {
    Accounting(s) && Fifo(s) && Threads(s)
  }

  /** A promoted call trades its queue entry for a reservation and a set event. */
  lemma WakeKeepsPlaced(s: Sys, c: Core, t: nat)
    requires Threads(s.(core := c)) && Distinct(c.waiters) && t in s.calls
    ensures Placed(AndWake(s, c), s.calls[t])
  {
    var s0, k, call := s.(core := c), Room(c), s.calls[t];
    SplitDevices(c.waiters, k);
    assert c.waiters == c.waiters[..k] + c.waiters[k..];
    assert Placed(s0, call);
    forall w | w in c.waiters[..k] && w.ticket == call.ticket ensures w.device == call.device {
      TicketOwner(s0, w.device, w.ticket, t);
    }
    if call.device in Devices(c.waiters[..k]) {
      var w := Waiter(call.device, call.ticket);
      assert w in c.waiters && w !in c.waiters[k..];
      assert w in c.waiters[..k] && w.ticket in Tickets(Woken(c));
    }
  }

  lemma WakeKeepsThreads(s: Sys, c: Core)
    requires Threads(s.(core := c)) && Distinct(c.waiters)
    requires forall w :: w in c.waiters ==> w.ticket < s.nextTicket
    ensures Threads(AndWake(s, c))
  {
    var s0, s', k := s.(core := c), AndWake(s, c), Room(c);
    SplitDevices(c.waiters, k);
    assert CallDevices(s') == CallDevices(s0);
    forall x | x in s'.signalled + s'.toSignal ensures x < s.nextTicket {
      if x in Tickets(Woken(c)) {
        var w :| w in Woken(c) && w.ticket == x;
        assert w in c.waiters;
      } else {
        assert x in s0.signalled + s0.toSignal;
      }
    }
    forall t | t in s'.calls ensures Placed(s', s'.calls[t]) {
      WakeKeepsPlaced(s, c, t);
    }
  }

  lemma EnqueueKeepsThreads(s: Sys, t: nat, d: int)
    requires Threads(s) && Enabled(s, Begin(t, d)) && d !in CallDevices(s)
    requires EnterKind(s.core, d) == Queued
    ensures Threads(BeginCall(s, t, d))
  {
    var s', w := BeginCall(s, t, d), Waiter(d, s.nextTicket);
    assert s'.core.waiters == s.core.waiters + [w];
    assert Devices(s'.core.waiters) == Devices(s.core.waiters) + {d};
    CallAdded(s, s', t, Call(d, s.nextTicket, Waiting));
    forall u | u in s'.calls ensures Placed(s', s'.calls[u]) {
      if u == t { assert w in s'.core.waiters; } else { assert Placed(s, s.calls[u]); }
    }
  }

  lemma EnterKeepsThreads(s: Sys, t: nat, d: int)
    requires Threads(s) && Enabled(s, Begin(t, d)) && d !in CallDevices(s)
    ensures Threads(BeginCall(s, t, d))
  {
    if EnterKind(s.core, d) == Queued {
      EnqueueKeepsThreads(s, t, d);
    } else {
      SameQueueKeepsThreads(s, BeginCall(s, t, d));
    }
  }

  lemma CallAdded(s: Sys, s': Sys, t: nat, c: Call)
    requires t !in s.calls && s'.calls == s.calls[t := c]
    ensures CallDevices(s') == CallDevices(s) + {c.device}
  {
    assert s'.calls[t] == c;
    forall d | d in CallDevices(s) ensures d in CallDevices(s') {
      var u :| u in s.calls && s.calls[u].device == d;
      assert u in s'.calls && s'.calls[u].device == d;
    }
  }

  lemma CallEnded(s: Sys, s': Sys, t: nat)
    requires Threads(s) && t in s.calls && s'.calls == s.calls - {t}
    ensures CallDevices(s') == CallDevices(s) - {s.calls[t].device}
  {
    forall d | d in CallDevices(s) - {s.calls[t].device} ensures d in CallDevices(s') {
      var u :| u in s.calls && s.calls[u].device == d;
      assert u in s'.calls && s'.calls[u].device == d;
    }
  }

  lemma CallMoved(s: Sys, s': Sys, t: nat, p: Phase)
    requires t in s.calls && s'.calls == s.calls[t := s.calls[t].(phase := p)]
    ensures CallDevices(s') == CallDevices(s)
  {
    forall d | d in CallDevices(s) ensures d in CallDevices(s') {
      var u :| u in s.calls && s.calls[u].device == d;
      assert u in s'.calls && s'.calls[u].device == d;
    }
    forall d | d in CallDevices(s') ensures d in CallDevices(s) {
      var u :| u in s'.calls && s'.calls[u].device == d;
      assert u in s.calls && s.calls[u].device == d;
    }
  }

  lemma MoveKeepsThreads(s: Sys, t: nat, p: Phase)
    requires Threads(s) && t in s.calls
    requires p == Resolving ==> s.core.shut || s.calls[t].device in s.core.handoff + s.core.cancelled
    ensures Threads(s.(calls := s.calls[t := s.calls[t].(phase := p)]))
  {
    var s' := s.(calls := s.calls[t := s.calls[t].(phase := p)]);
    CallMoved(s, s', t, p);
    forall u | u in s'.calls ensures Placed(s', s'.calls[u]) { assert Placed(s, s.calls[u]); }
  }

  lemma GiveUpKeepsThreads(s: Sys, t: nat)
    requires Threads(s) && t in s.calls && GivesUp(s.core, s.calls[t].device)
    ensures Threads(Next(s, CheckTimeout(t)))
  {
    var s' := Next(s, CheckTimeout(t));
    if s.calls[t].phase == TimedOut {
      CallEnded(s, s', t);
      forall u | u in s'.calls ensures Placed(s', s'.calls[u]) { assert Placed(s, s.calls[u]); }
    }
  }

  lemma CancelKeepsPlaced(s: Sys, d: int, c: Call)
    requires Placed(s, c) && Devices(s.core.waiters) !! s.core.cancelled
    requires forall k :: Waiter(d, k) in s.core.waiters && k == c.ticket ==> c.device == d
    ensures Placed(CancelStep(s, d), c)
  {
    var ws, ws' := s.core.waiters, Without(s.core.waiters, d);
    var s' := CancelStep(s, d);
    if c.device == d {
      assert d !in Devices(ws');
      assert d in Devices(ws) ==> Waiter(d, c.ticket) in ws && c.ticket in Entries(ws, d);
    } else {
      assert c.device in Devices(ws) <==> c.device in Devices(ws');
      assert c.ticket !in Entries(ws, d);
      assert Waiter(c.device, c.ticket) in ws <==> Waiter(c.device, c.ticket) in ws';
    }
  }

  lemma TicketOwner(s: Sys, d: int, k: nat, u: nat)
    requires Threads(s) && Distinct(s.core.waiters)
    requires u in s.calls && Waiter(d, k) in s.core.waiters && s.calls[u].ticket == k
    ensures s.calls[u].device == d
  {
    var i :| 0 <= i < |s.core.waiters| && s.core.waiters[i] == Waiter(d, k);
    assert d in CallDevices(s);
    var v :| v in s.calls && s.calls[v].device == d;
    assert Placed(s, s.calls[v]);
    var j :| 0 <= j < |s.core.waiters| && s.core.waiters[j] == Waiter(d, s.calls[v].ticket);
  }

  lemma CancelKeepsThreads(s: Sys, d: int)
    requires Threads(s) && Distinct(s.core.waiters) && Fifo(s)
    ensures Threads(Next(s, CancelDevice(d)))
  {
    var s' := Next(s, CancelDevice(d));
    assert CallDevices(s') == CallDevices(s);
    forall u | u in s'.calls ensures Placed(s', s'.calls[u]) {
      assert Placed(s, s.calls[u]);
      forall k | Waiter(d, k) in s.core.waiters && k == s.calls[u].ticket ensures s.calls[u].device == d {
        TicketOwner(s, d, k, u);
      }
      CancelKeepsPlaced(s, d, s.calls[u]);
    }
    forall k | k in s'.signalled + s'.toSignal ensures k < s.nextTicket {
      assert k in s.signalled + s.toSignal || Waiter(d, k) in s.core.waiters;
    }
  }

  lemma ShutdownKeepsThreads(s: Sys)
    requires Inv(s)
    ensures Threads(Next(s, Shutdown))
  {
    var s' := Next(s, Shutdown);
    assert CallDevices(s') == CallDevices(s);
    forall u | u in s'.calls ensures Placed(s', s'.calls[u]) {
      assert Placed(s, s.calls[u]);
      var w := Waiter(s.calls[u].device, s.calls[u].ticket);
      assert w in s.core.waiters ==> w.ticket in Tickets(s.core.waiters);
    }
    forall k | k in s'.signalled + s'.toSignal ensures k < s.nextTicket {
      if k in Tickets(s.core.waiters) {
        var w :| w in s.core.waiters && w.ticket == k;
      } else {
        assert k in s.signalled + s.toSignal;
      }
    }
  }

  lemma DeliverKeepsThreads(s: Sys, k: nat)
    requires Threads(s) && k in s.toSignal
    ensures Threads(Next(s, Deliver(k)))
  {
    var s' := Next(s, Deliver(k));
    assert CallDevices(s') == CallDevices(s);
    assert s'.signalled + s'.toSignal == s.signalled + s.toSignal;
    forall u | u in s'.calls ensures Placed(s', s'.calls[u]) { assert Placed(s, s.calls[u]); }
  }

  /** A resolving call leaves no trace of its device in the queue, the handoffs or the marks. */
  lemma SettleThreads(s: Sys, t: nat, o: Outcome, ps: map<nat, int>)
    requires Inv(s) && Enabled(s, Resolve(t))
    ensures Threads(End(s.(core := Settle(s.core, s.calls[t].device), permits := ps), t, o))
  {
    var d := s.calls[t].device;
    var s' := End(s.(core := Settle(s.core, d), permits := ps), t, o);
    SettleKeepsQueue(s.core, d);
    CallEnded(s, s', t);
    assert Placed(s, s.calls[t]);
    assert d !in Devices(s.core.waiters);
    SettleClears(s.core, d);
    forall u | u in s'.calls ensures Placed(s', s'.calls[u]) { assert Placed(s, s.calls[u]); }
  }

  lemma SettleClears(c: Core, d: int)
    ensures Settle(c, d).handoff == c.handoff - {d}
    ensures !c.shut ==> Settle(c, d).cancelled == c.cancelled - {d}
  {
  }

  lemma ResolveKeepsThreads(s: Sys, t: nat)
    requires Inv(s) && Enabled(s, Resolve(t))
    ensures Threads(ResolveCall(s, t))
  {
    var d := s.calls[t].device;
    SettleThreads(s, t, GotShutdown, s.permits);
    SettleThreads(s, t, GotPermit, s.permits[t := d]);
    SettleThreads(s, t, GotCancelled, s.permits);
    if SettleWakes(s.core, d) {
      var c := Settle(s.core, d);
      SettleKeepsQueue(s.core, d);
      WakeKeepsThreads(End(s, t, GotCancelled), c);
      assert ResolveCall(s, t) == AndWake(End(s, t, GotCancelled), c);
    }
  }

  lemma ThreadsStep(s: Sys, e: Event)
    requires Inv(s) && Disciplined(s, e)
    ensures Threads(Next(s, e))
  {
    if Enabled(s, e) {
      match e
      case Begin(t, d) => EnterKeepsThreads(s, t, d);
      case WaitSignaled(t) => assert Placed(s, s.calls[t]); MoveKeepsThreads(s, t, Resolving);
      case WaitExpired(t) => MoveKeepsThreads(s, t, TimedOut);
      case CheckTimeout(t) =>
        if GivesUp(s.core, s.calls[t].device) { GiveUpKeepsThreads(s, t); } else { MoveKeepsThreads(s, t, Resolving); }
      case Resolve(t) => ResolveKeepsThreads(s, t);
      case Release(t) => ReleaseKeepsThreads(s, t);
      case CancelDevice(d) => CancelKeepsThreads(s, d);
      case Deliver(k) => DeliverKeepsThreads(s, k);
      case SetMax(n) => SetMaxKeepsThreads(s, n);
      case Shutdown => ShutdownKeepsThreads(s);
    }
  }

  lemma SameQueueKeepsThreads(s: Sys, s': Sys)
    requires Threads(s) && s'.calls == s.calls && s'.signalled == s.signalled
    requires s'.toSignal == s.toSignal && s'.nextTicket == s.nextTicket
    requires s'.core.waiters == s.core.waiters && s'.core.handoff == s.core.handoff
    requires s'.core.cancelled == s.core.cancelled && s'.core.shut == s.core.shut
    ensures Threads(s')
  {
    assert CallDevices(s') == CallDevices(s);
    forall u | u in s'.calls ensures Placed(s', s'.calls[u]) { assert Placed(s, s.calls[u]); }
  }

  lemma ReleaseKeepsThreads(s: Sys, t: nat)
    requires Inv(s) && t in s.permits
    ensures Threads(Next(s, Release(t)))
  {
    var s1, c := s.(permits := s.permits - {t}), FreeSlot(s.core, s.permits[t]);
    SameQueueKeepsThreads(s, s1.(core := c));
    WakeKeepsThreads(s1, c);
  }

  lemma SetMaxKeepsThreads(s: Sys, n: int)
    requires Inv(s)
    ensures Threads(Next(s, SetMax(n)))
  {
    SameQueueKeepsThreads(s, s.(core := SetCap(s.core, n)));
    WakeKeepsThreads(s, SetCap(s.core, n));
  }

  /** No disciplined step hands out a permit that has no slot. */
  lemma DisciplinedNeverUnbacked(s: Sys, e: Event)
    requires Inv(s)
    ensures !Unbacked(s, e)
  {
    if e.Resolve? && Enabled(s, e) {
      assert Placed(s, s.calls[e.t]);
    }
  }

  lemma InitInv(cap: int)
    ensures Inv(Init(cap))
  {
    assert Init(cap).promoted + TicketSeq([]) == [];
  }

  lemma InvStep(s: Sys, e: Event)
    requires Inv(s) && Disciplined(s, e)
    ensures Inv(Next(s, e))
  {
    DisciplinedNeverUnbacked(s, e);
    AccountingStepExact(s, e);
    FifoStep(s, e);
    ThreadsStep(s, e);
  }

  /** Slot accounting, queue order, work conservation and wake-up delivery hold after
      every disciplined run of any length, whatever the interleaving. */
  lemma {:induction false} RunKeepsInv(s: Sys, es: seq<Event>)
    requires Inv(s) && DisciplinedRun(s, es)
    ensures Inv(Exec(s, es))
    decreases |es|
  {
    if es != [] {
      InvStep(s, es[0]);
      RunKeepsInv(Next(s, es[0]), es[1..]);
    }
  }

  ghost predicate AlwaysAccounting(s: Sys, es: seq<Event>)
    decreases |es|
  {
    Accounting(s) && (es == [] || AlwaysAccounting(Next(s, es[0]), es[1..]))
  }

  ghost predicate NeverUnbacked(s: Sys, es: seq<Event>)
    decreases |es|
  {
    es == [] || (!Unbacked(s, es[0]) && NeverUnbacked(Next(s, es[0]), es[1..]))
  }

  /** With no discipline at all: the accounting holds throughout a run exactly when no
      resolving call takes a permit while its device has no pending handoff. */
  lemma {:induction false} AccountingRunExact(s: Sys, es: seq<Event>)
    requires Accounting(s)
    ensures AlwaysAccounting(s, es) <==> NeverUnbacked(s, es)
    decreases |es|
  {
    if es != [] {
      AccountingStepExact(s, es[0]);
      if !Unbacked(s, es[0]) {
        AccountingRunExact(Next(s, es[0]), es[1..]);
      } else {
        assert !Accounting(Next(s, es[0]));
      }
    }
  }

  // A run of the undisciplined system with one slot, first held by device 7.
  const STALE_RUN: seq<Event> :=
    [Begin(1, 7), Begin(2, 1), CancelDevice(1), Begin(3, 1), Deliver(0),
     Release(1), WaitSignaled(2), WaitSignaled(3), Resolve(3), Resolve(2)]

  /** The states the run passes through. */
  function StaleAt(i: nat): Sys {
    var first, second := Call(1, 0, Waiting), Call(1, 1, Waiting);
    var one := map[1 := GotPermit];
    if i == 0 then Init(1)
    else if i == 1 then Sys(Core(1, 1, [], false, {}, {7}, {}), map[], map[1 := 7], one, {}, {}, 0, [])
    else if i == 2 then Sys(Core(1, 1, [Waiter(1, 0)], false, {}, {7}, {}), map[2 := first], map[1 := 7], one, {}, {}, 1, [])
    else if i == 3 then Sys(Core(1, 1, [], false, {1}, {7}, {}), map[2 := first], map[1 := 7], one, {}, {0}, 1, [])
    else if i == 4 then Sys(Core(1, 1, [Waiter(1, 1)], false, {1}, {7}, {}), map[2 := first, 3 := second], map[1 := 7], one, {}, {0}, 2, [])
    else if i == 5 then Sys(Core(1, 1, [Waiter(1, 1)], false, {1}, {7}, {}), map[2 := first, 3 := second], map[1 := 7], one, {0}, {}, 2, [])
    else if i == 6 then Sys(Core(1, 1, [], false, {1}, {1}, {1}), map[2 := first, 3 := second], map[], one, {0, 1}, {}, 2, [1])
    else if i == 7 then Sys(Core(1, 1, [], false, {1}, {1}, {1}), map[2 := Call(1, 0, Resolving), 3 := second], map[], one, {0, 1}, {}, 2, [1])
    else if i == 8 then Sys(Core(1, 1, [], false, {1}, {1}, {1}), map[2 := Call(1, 0, Resolving), 3 := Call(1, 1, Resolving)], map[], one, {0, 1}, {}, 2, [1])
    else if i == 9 then Sys(Core(1, 0, [], false, {}, {}, {}), map[2 := Call(1, 0, Resolving)], map[], map[1 := GotPermit, 3 := GotCancelled], {0, 1}, {}, 2, [1])
    else Sys(Core(1, 0, [], false, {}, {}, {}), map[], map[2 := 1], map[1 := GotPermit, 3 := GotCancelled, 2 := GotPermit], {0, 1}, {}, 2, [1])
  }

  lemma StaleQueueSteps(i: nat)
    requires i < 5
    ensures Next(StaleAt(i), STALE_RUN[i]) == StaleAt(i + 1)
  {
    var s := StaleAt(i);
    if i == 2 {
      assert s.core.waiters == [Waiter(1, 0)];
      assert Without(s.core.waiters, 1) == [] && Entries(s.core.waiters, 1) == {0};
    }
  }

  lemma StaleReleaseStep()
    ensures Next(StaleAt(5), STALE_RUN[5]) == StaleAt(6)
  {
    var c := FreeSlot(StaleAt(5).core, 7);
    assert Woken(c) == [Waiter(1, 1)] && Tickets(Woken(c)) == {1} && Devices(Woken(c)) == {1};
    assert TicketSeq(Woken(c)) == [1];
  }

  lemma WakeNobody(s: Sys, c: Core)
    requires c.waiters == []
    ensures AndWake(s, c) == s.(core := c)
  {
    assert Woken(c) == [] && Tickets(Woken(c)) == {} && Devices(Woken(c)) == {} && TicketSeq(Woken(c)) == [];
    assert Wake(c) == c;
  }

  lemma ConsumeCancellation(s: Sys, t: nat, d: int, c: Core)
    requires Enabled(s, Resolve(t)) && s.calls[t].device == d && SettleWakes(s.core, d)
    requires c == Settle(s.core, d) && c.waiters == []
    ensures Next(s, Resolve(t)) == End(s.(core := c), t, GotCancelled)
  {
    assert ResolveCall(s, t) == End(AndWake(s, c), t, GotCancelled);
    WakeNobody(s, c);
  }

  lemma StaleResolveSteps(i: nat)
    requires 6 <= i < 10 && i != 8
    ensures Next(StaleAt(i), STALE_RUN[i]) == StaleAt(i + 1)
  {
  }

  /** Two acquires of device 1 overlap: the second consumes the cancellation meant for
      the first, releases the slot reserved for itself, and the first then returns a
      permit that no slot backs.  Taken at 0 this is the whole run from the initial state. */
  lemma {:induction false} StaleCancellationRun(es: seq<Event>, i: nat)
    requires es == STALE_RUN && i <= 10
    ensures Exec(StaleAt(i), es[i..]) == StaleAt(10)
    decreases 10 - i
  {
    if i < 10 {
      if i < 5 { StaleQueueSteps(i); } else if i == 5 { StaleReleaseStep(); } else if i == 8 { ConsumeCancellation(StaleAt(8), 3, 1, Core(1, 0, [], false, {}, {}, {})); } else { StaleResolveSteps(i); }
      assert es[i..][1..] == es[i + 1..] && es[i..][0] == STALE_RUN[i];
      StaleCancellationRun(es, i + 1);
    }
  }

  /** The run starts afresh, breaks the one-acquire-per-device rule at its fourth step,
      and ends with a live permit while no slot is held. */
  lemma StaleCancellationEnd()
    ensures StaleAt(0) == Init(1) && !Disciplined(StaleAt(3), STALE_RUN[3])
    ensures StaleAt(10).permits == map[2 := 1] && StaleAt(10).core.held == 0
    ensures !Accounting(StaleAt(10))
  {
    var s := StaleAt(10);
    assert s.permits[2] in PermitDevices(s);
    assert StaleAt(3).calls[2].device in CallDevices(StaleAt(3));
  }

  // ---------------------------------------------------------------------------
  // Grants, outcomes, cancellation and shutdown
  // ---------------------------------------------------------------------------

  /** Any step that gives a device a slot leaves the count within the current cap, even
      after the cap has shrunk below the slots already held. */
  lemma GrantsWithinCap(s: Sys, e: Event)
    ensures !(Next(s, e).core.heldDevices <= s.core.heldDevices) ==> Next(s, e).core.held <= Next(s, e).core.cap
  {
    if Enabled(s, e) {
      match e
      case Resolve(t) =>
        var d := s.calls[t].device;
        SettleNeverAdds(s.core, d);
        if SettleWakes(s.core, d) { WakeWithinCap(Settle(s.core, d)); }
      case Release(t) => WakeWithinCap(FreeSlot(s.core, s.permits[t]));
      case SetMax(n) => WakeWithinCap(SetCap(s.core, n));
      case _ =>
    }
  }

  lemma SettleNeverAdds(c: Core, d: int)
    ensures Settle(c, d).heldDevices <= c.heldDevices
    ensures !SettleWakes(c, d) ==> ResolveCore(c, d) == Settle(c, d)
  {
  }

  lemma WakeWithinCap(c: Core)
    ensures Wake(c).heldDevices <= c.heldDevices || Wake(c).held <= c.cap
  {
    if Room(c) == 0 {
      assert Devices(c.waiters[..0]) == {};
    }
  }

  /** A call that gets its permit without ever queueing overtakes nobody: every other
      call in flight already has a slot reserved or has been cancelled. */
  lemma NoBarging(s: Sys, t: nat, d: int, u: nat)
    requires Inv(s) && Enabled(s, Begin(t, d)) && t in Next(s, Begin(t, d)).permits
    requires u in s.calls
    ensures s.calls[u].device in s.core.handoff + s.core.cancelled
  {
    assert EnterKind(s.core, d) == Granted;
    EmptyQueuePlaces(s, u);
  }

  lemma EmptyQueuePlaces(s: Sys, u: nat)
    requires Threads(s) && u in s.calls && s.core.waiters == [] && !s.core.shut
    ensures s.calls[u].device in s.core.handoff + s.core.cancelled
  {
    assert Placed(s, s.calls[u]);
  }

  /** Promotions happen in the order in which the calls queued, and never past a call
      that still waits. */
  lemma PromotionsInQueueOrder(cap: int, es: seq<Event>)
    requires DisciplinedRun(Init(cap), es)
    ensures var s := Exec(Init(cap), es);
            && Ascending(s.promoted)
            && forall k, w :: k in s.promoted && w in s.core.waiters ==> k < w.ticket
  {
    InitInv(cap);
    RunKeepsInv(Init(cap), es);
    var s := Exec(Init(cap), es);
    AscendingParts(s.promoted, TicketSeq(s.core.waiters));
    TicketsOf(s.core.waiters);
    forall k, w | k in s.promoted && w in s.core.waiters ensures k < w.ticket {
      assert w.ticket in TicketSeq(s.core.waiters);
    }
  }

  /** An outcome, once reached, is final, and an acquire in flight stays in flight until
      it reaches its single outcome. */
  lemma {:induction false} OutcomeIsFinal(s: Sys, es: seq<Event>, t: nat)
    requires s.calls.Keys !! s.done.Keys
    requires t in s.calls || t in s.done
    ensures var s' := Exec(s, es);
            && s'.calls.Keys !! s'.done.Keys
            && (t in s.done ==> t in s'.done && s'.done[t] == s.done[t])
            && (t in s.calls ==> (t in s'.calls <==> t !in s'.done))
    decreases |es|
  {
    if es != [] {
      OutcomeStep(s, es[0], t);
      OutcomeIsFinal(Next(s, es[0]), es[1..], t);
    }
  }

  lemma OutcomeStep(s: Sys, e: Event, t: nat)
    requires s.calls.Keys !! s.done.Keys
    requires t in s.calls || t in s.done
    ensures var s' := Next(s, e);
            && s'.calls.Keys !! s'.done.Keys
            && (t in s.done ==> t in s'.done && s'.done[t] == s.done[t])
            && (t in s'.calls || t in s'.done)
  {
  }

  /** A device whose permit has been handed over is untouched by a cancellation. */
  lemma CancelAfterHandoffIsNoop(s: Sys, t: nat)
    requires Accounting(s) && t in s.permits
    ensures Next(s, CancelDevice(s.permits[t])) == s
  {
    var d := s.permits[t];
    assert d in PermitDevices(s) && d !in Devices(s.core.waiters);
    WithoutAbsent(s.core.waiters, d);
    assert Entries(s.core.waiters, d) == {};
  }

  lemma {:induction false} WithoutAbsent(ws: seq<Waiter>, d: int)
    requires d !in Devices(ws)
    ensures Without(ws, d) == ws
  {
    if ws != [] {
      assert ws[0] in ws;
      WithoutAbsent(ws[1..], d);
    }
  }

  /** From a cancellation that reaches an in-flight call, no continuation ever ends that
      call with a permit or a timeout. */
  lemma {:induction false} CancelledNeverGranted(s: Sys, es: seq<Event>, t: nat)
    requires Inv(s) && DisciplinedRun(s, es)
    requires t in s.calls && s.calls[t].device in s.core.cancelled
    ensures var s' := Exec(s, es);
            t in s'.calls || (t in s'.done && s'.done[t] in {GotCancelled, GotShutdown})
    decreases |es|
  {
    if es != [] {
      var s1 := Next(s, es[0]);
      CancelledStep(s, es[0], t);
      InvStep(s, es[0]);
      if t in s1.calls {
        CancelledNeverGranted(s1, es[1..], t);
      } else {
        OutcomeIsFinal(s1, es[1..], t);
      }
    }
  }

  /** A cancellation of a device with an acquire in flight, waiting or with its slot already
      reserved, reaches that call: no continuation ends it with a permit or a timeout. */
  lemma CancelReachesCall(s: Sys, es: seq<Event>, t: nat)
    requires Inv(s) && !s.core.shut && t in s.calls
    requires DisciplinedRun(Next(s, CancelDevice(s.calls[t].device)), es)
    ensures var s' := Exec(Next(s, CancelDevice(s.calls[t].device)), es);
            t in s'.calls || (t in s'.done && s'.done[t] in {GotCancelled, GotShutdown})
  {
    CancelMarks(s, t);
    InvStep(s, CancelDevice(s.calls[t].device));
    CancelledNeverGranted(Next(s, CancelDevice(s.calls[t].device)), es, t);
  }

  lemma CancelMarks(s: Sys, t: nat)
    requires t in s.calls && Placed(s, s.calls[t]) && !s.core.shut
    ensures var s' := Next(s, CancelDevice(s.calls[t].device)); s'.calls == s.calls && s.calls[t].device in s'.core.cancelled
  {
  }

  function EndOf(c: Core, d: int): Outcome {
    if c.shut then GotShutdown else if d in c.cancelled then GotCancelled else GotPermit
  }

  lemma ResolvingFinishes(s: Sys, t: nat)
    requires t in s.calls && s.calls[t].phase == Resolving
    ensures var s' := Next(s, Resolve(t)); t in s'.done && s'.done[t] == EndOf(s.core, s.calls[t].device)
  {
  }

  lemma SignalledFinishes(s: Sys, t: nat)
    requires t in s.calls && s.calls[t].phase == Waiting && s.calls[t].ticket in s.signalled
    ensures var s' := Exec(s, [WaitSignaled(t), Resolve(t)]); t in s'.done && s'.done[t] == EndOf(s.core, s.calls[t].device)
  {
    ExecShort(s, [WaitSignaled(t), Resolve(t)]);
    ResolvingFinishes(Next(s, WaitSignaled(t)), t);
  }

  /** A call that is out of the queue can finish by its own steps, whether it was promoted,
      cancelled or shut down, and even if its wait has timed out meanwhile: with its permit
      exactly when it was neither cancelled nor shut down. */
  lemma DequeuedCallFinishes(s: Sys, t: nat) returns (es: seq<Event>)
    requires Threads(s) && t in s.calls && s.calls[t].device !in Devices(s.core.waiters)
    ensures |es| <= 3 && t in Exec(s, es).done && Exec(s, es).done[t] == EndOf(s.core, s.calls[t].device)
  {
    var c := s.calls[t];
    assert Placed(s, c);
    match c.phase
    case Resolving =>
      es := [Resolve(t)];
      ExecShort(s, es);
      ResolvingFinishes(s, t);
    case TimedOut =>
      es := [CheckTimeout(t), Resolve(t)];
      ExecShort(s, es);
      ResolvingFinishes(Next(s, CheckTimeout(t)), t);
    case Waiting =>
      if c.ticket in s.signalled {
        es := [WaitSignaled(t), Resolve(t)];
        SignalledFinishes(s, t);
      } else {
        es := [Deliver(c.ticket), WaitSignaled(t), Resolve(t)];
        SignalledFinishes(Next(s, Deliver(c.ticket)), t);
        assert es[1..] == [WaitSignaled(t), Resolve(t)];
      }
  }

  /** A queued call whose wait expires unsignalled ends as a timeout and leaves the queue,
      exactly if it has been neither promoted, cancelled nor shut down. */
  lemma ExpiredCallGivesUp(s: Sys, t: nat)
    requires Threads(s) && t in s.calls && s.calls[t].phase == Waiting && s.calls[t].ticket !in s.signalled
    ensures var c := s.calls[t];
            var u := Exec(s, [WaitExpired(t), CheckTimeout(t)]);
            if c.device in s.core.handoff || c.device in s.core.cancelled || s.core.shut
            then u == s.(calls := s.calls[t := c.(phase := Resolving)])
            else t !in u.calls && u.done == s.done[t := GotTimeout] && c.device !in Devices(u.core.waiters) && u.permits == s.permits
  {
    ExecShort(s, [WaitExpired(t), CheckTimeout(t)]);
  }

  /** A call that is turned away at the door ends at once and changes nothing else. */
  lemma TurnedAway(s: Sys, t: nat, d: int)
    requires t !in s.calls && t !in s.done && (s.core.shut || d in Devices(s.core.waiters) || d in s.core.heldDevices)
    ensures Next(s, Begin(t, d)) == s.(done := s.done[t := if s.core.shut then GotShutdown else Denied])
  {
  }

  lemma CancelledStep(s: Sys, e: Event, t: nat)
    requires t in s.calls && s.calls[t].device in s.core.cancelled && s.calls.Keys !! s.done.Keys
    requires forall u :: u in s.calls && u != t ==> s.calls[u].device != s.calls[t].device
    ensures var s1 := Next(s, e);
            || (t in s1.calls && s1.calls[t].device in s1.core.cancelled)
            || (t in s1.done && s1.done[t] in {GotCancelled, GotShutdown})
  {
    if Enabled(s, e) && e.Resolve? && e.t != t {
      assert s.calls[e.t].device != s.calls[t].device;
    }
  }

  /** After shutdown no step adds a permit, a held device or a slot. */
  lemma {:induction false} ShutdownGrantsNothing(s: Sys, es: seq<Event>)
    requires s.core.shut && s.core.waiters == [] && s.core.held >= 0
    ensures var s' := Exec(s, es);
            && s'.core.shut && s'.core.waiters == [] && 0 <= s'.core.held <= s.core.held
            && s'.permits.Keys <= s.permits.Keys
            && s'.core.heldDevices <= s.core.heldDevices
            && s'.promoted == s.promoted
    decreases |es|
  {
    if es != [] {
      ClosedStep(s, es[0]);
      ShutdownGrantsNothing(Next(s, es[0]), es[1..]);
    }
  }

  lemma ClosedStep(s: Sys, e: Event)
    requires s.core.shut && s.core.waiters == [] && s.core.held >= 0
    ensures var s' := Next(s, e);
            && s'.core.shut && s'.core.waiters == [] && 0 <= s'.core.held <= s.core.held
            && s'.permits.Keys <= s.permits.Keys
            && s'.core.heldDevices <= s.core.heldDevices
            && s'.promoted == s.promoted
  {
    assert Devices([]) == {} && Tickets([]) == {};
  }

  /** Shutdown strands nobody: every call in flight has its event set, or about to be
      set, and can finish as a shutdown on its own. */
  lemma ShutdownReleasesEveryCall(s: Sys, t: nat) returns (es: seq<Event>)
    requires Threads(s) && s.core.shut && s.core.waiters == [] && t in s.calls
    ensures |es| <= 3 && Exec(s, es).done == s.done[t := GotShutdown]
    ensures Exec(s, es).calls == s.calls - {t}
  {
    var c := s.calls[t];
    assert Placed(s, c);
    assert c.ticket in s.signalled + s.toSignal;
    match c.phase
    case Resolving =>
      es := [Resolve(t)];
      ExecShort(s, es);
    case TimedOut =>
      es := [CheckTimeout(t), Resolve(t)];
      ExecShort(s, es);
    case Waiting =>
      if c.ticket in s.signalled {
        es := [WaitSignaled(t), Resolve(t)];
        ExecShort(s, es);
      } else {
        es := [Deliver(c.ticket), WaitSignaled(t), Resolve(t)];
        ExecShort(s, es);
      }
  }

  lemma ExecShort(s: Sys, es: seq<Event>)
    ensures |es| == 1 ==> Exec(s, es) == Next(s, es[0])
    ensures |es| == 2 ==> Exec(s, es) == Next(Next(s, es[0]), es[1])
    ensures |es| == 3 ==> Exec(s, es) == Next(Next(Next(s, es[0]), es[1]), es[2])
    decreases |es|
  {
    if |es| == 1 {
      assert es[1..] == [];
    } else if |es| == 2 {
      assert es[1..] == [es[1]];
      ExecShort(Next(s, es[0]), es[1..]);
    } else if |es| == 3 {
      assert es[1..] == [es[1], es[2]];
      ExecShort(Next(s, es[0]), es[1..]);
    }
  }

  /** Nothing is leaked: with no call in flight the held slots are the live permits, so
      once those are released none is held. */
  lemma QuiescentSlots(s: Sys)
    requires Inv(s) && s.calls == map[]
    ensures s.core.heldDevices == PermitDevices(s)
    ensures s.permits == map[] ==> s.core.held == 0
  {
    assert CallDevices(s) == {};
  }
}
