/** The return-debt consumer: server debts kept by identity, one lock, a queue of device
    passes with an in-flight set, one draining thread at a time, and the spacing of family
    runs by connection epoch and retry interval. */
module ReturnDebts {

  import opened Options

  const RETRY_SECONDS := 1800.0

  datatype Outcome = Confirmed | ExecutedUnverified | Failed | Incomplete | NotExecuted | Unreported

  predicate Retryable(r: Outcome) {
    r.Failed? || r.Incomplete? || r.NotExecuted? || r.Unreported?
  }

  /** The last run of a family: when, with what result, and in which connection epoch. */
  datatype Attempt = Attempt(at: real, result: Outcome, epoch: int)

  datatype Debt = Debt(device: int, serial: int, token: int, families: seq<int>, attempts: map<int, Attempt>, epoch: int)

  // One pass over a device: the debt object it was made for and the families then due.
  datatype Work = Work(id: int, device: int, due: seq<int>)

  datatype Phase = Fetching | Pass(work: Work, i: nat, started: bool) | Leaving(device: int)

  /** `objs` are the debt objects by identity, `debts` the current one of each device. */
  datatype Sys = Sys(
    now: real,
    objs: map<int, Debt>,
    nextId: int,
    debts: map<int, int>,
    online: set<int>,
    epochs: map<int, int>,
    rejected: set<(int, int)>,
    pending: seq<Work>,
    inflight: set<int>,
    running: bool,
    drainers: map<int, Phase>)

  const INIT := Sys(0.0, map[], 0, map[], {}, map[], {}, [], {}, false, map[])

  datatype Row = Row(device: int, serial: int, token: int, families: seq<int>)

  datatype Reply = Value(result: Outcome) | Conflict | Raised

  datatype Event =
    | Tick(dt: real)
    | Online(serials: set<int>)
    | NoDebts
    | Rows(rows: seq<Row>)
    | Schedule(order: seq<int>, only: Option<set<int>>, w: int)
    | Pop(w: int)
    | StartFamily(w: int)
    | EndFamily(w: int, reply: Reply)
    | StopPass(w: int)
    | Leave(w: int)

  function EpochOf(s: Sys, serial: int): int {
    if serial in s.epochs then s.epochs[serial] else 0
  }

  function Bump(epochs: map<int, int>, gained: set<int>): map<int, int> {
    map k | k in epochs.Keys + gained :: (if k in epochs then epochs[k] else 0) + (if k in gained then 1 else 0)
  }

  /** One row of a response: the device's debt object is kept while token and serial agree. */
  function TakeRow(s: Sys, cur: map<int, int>, row: Row): (Sys, map<int, int>) {
    if (row.device, row.token) in s.rejected then (s, cur)
    else if row.device in s.debts && s.debts[row.device] in s.objs
            && s.objs[s.debts[row.device]].token == row.token && s.objs[s.debts[row.device]].serial == row.serial
    then
      var id := s.debts[row.device];
      (s.(objs := s.objs[id := s.objs[id].(families := row.families)]), cur[row.device := id])
    else
      (s.(objs := s.objs[s.nextId := Debt(row.device, row.serial, row.token, row.families, map[], -1)], nextId := s.nextId + 1),
       cur[row.device := s.nextId])
  }

  function TakeRows(s: Sys, cur: map<int, int>, rows: seq<Row>): (Sys, map<int, int>)
    decreases |rows|
  {
    if rows == [] then (s, cur)
    else
      var (s1, cur1) := TakeRow(s, cur, rows[0]);
      TakeRows(s1, cur1, rows[1..])
  }

  predicate DueFamily(s: Sys, d: Debt, f: int) {
    || d.epoch != EpochOf(s, d.serial)
    || f !in d.attempts
    || (Retryable(d.attempts[f].result) && s.now - d.attempts[f].at >= RETRY_SECONDS)
  }

  function DueOf(s: Sys, d: Debt, fs: seq<int>): seq<int> {
    if fs == [] then []
    else (if DueFamily(s, d, fs[0]) then [fs[0]] else []) + DueOf(s, d, fs[1..])
  }

  lemma DueOfFrom(s: Sys, d: Debt, fs: seq<int>, k: nat, before: seq<int>)
    requires k < |fs|
    ensures before + DueOf(s, d, fs[k..]) ==
            (if DueFamily(s, d, fs[k]) then before + [fs[k]] else before) + DueOf(s, d, fs[k + 1..])
  {
    assert fs[k..][1..] == fs[k + 1..];
  }

  /** One device of the scheduling loop. */
  function Consider(s: Sys, device: int, only: Option<set<int>>): Sys {
    if device !in s.debts || s.debts[device] !in s.objs then s
    else
      var id := s.debts[device];
      var d := s.objs[id];
      if (only.Some? && d.serial !in only.value) || d.serial !in s.online || device in s.inflight then s
      else
        var due := DueOf(s, d, d.families);
        if due == [] then s
        else s.(inflight := s.inflight + {device}, pending := s.pending + [Work(id, device, due)])
  }

  function ConsiderAll(s: Sys, order: seq<int>, only: Option<set<int>>): Sys
    decreases |order|
  {
    if order == [] then s else ConsiderAll(Consider(s, order[0], only), order[1..], only)
  }

  /** The end of the scheduling region: a drainer is started unless one is running. */
  function Launch(s: Sys, w: int): Sys {
    if s.pending != [] && !s.running then s.(running := true, drainers := s.drainers[w := Fetching]) else s
  }

  function To(s: Sys, w: int, ph: Phase): Sys {
    s.(drainers := s.drainers[w := ph])
  }

  predicate InPass(s: Sys, w: int, started: bool) {
    && w in s.drainers && s.drainers[w].Pass? && s.drainers[w].started == started
    && s.drainers[w].i < |s.drainers[w].work.due| && s.drainers[w].work.id in s.objs
  }

  function Started(s: Sys, w: int): Sys
    requires InPass(s, w, false)
  {
    var p := s.drainers[w];
    var d := s.objs[p.work.id];
    var now := EpochOf(s, d.serial);
    To(s, w, p.(started := true)).(
      objs := s.objs[p.work.id := d.(epoch := now, attempts := d.attempts[p.work.due[p.i] := Attempt(s.now, Unreported, now)])])
  }

  function Ended(s: Sys, w: int, r: Outcome): Sys
    requires InPass(s, w, true)
  {
    var p := s.drainers[w];
    var d, f := s.objs[p.work.id], p.work.due[p.i];
    var ran := if f in d.attempts then d.attempts[f].epoch else d.epoch;
    To(s, w, Pass(p.work, p.i + 1, false)).(objs := s.objs[p.work.id := d.(attempts := d.attempts[f := Attempt(s.now, r, ran)])])
  }

  function Next(s: Sys, e: Event): Sys {
    match e
    case Tick(dt) => if dt >= 0.0 then s.(now := s.now + dt) else s
    case Online(serials) => s.(epochs := Bump(s.epochs, serials - s.online), online := serials)
    case NoDebts => s.(debts := map[])
    case Rows(rows) => var (s1, cur) := TakeRows(s, map[], rows); s1.(debts := cur)
    case Schedule(order, only, w) => if w in s.drainers then s else Launch(ConsiderAll(s, order, only), w)
    case Pop(w) =>
      if w !in s.drainers || s.drainers[w] != Fetching then s
      else if s.pending == [] then s.(running := false, drainers := s.drainers - {w})
      else To(s.(pending := s.pending[1..]), w, Pass(s.pending[0], 0, false))
    case StartFamily(w) =>
      if !InPass(s, w, false) then s
      else if Current(s, s.drainers[w].work) then Started(s, w)
      else s
    case EndFamily(w, reply) =>
      if !InPass(s, w, true) then s
      else
        var work := s.drainers[w].work;
        match reply {
          case Value(r) => Ended(s, w, r)
          case Conflict =>
            To(s.(rejected := s.rejected + {(work.device, s.objs[work.id].token)},
                  debts := if Current(s, work) then s.debts - {work.device} else s.debts), w, Leaving(work.device))
          case Raised => To(s, w, Leaving(work.device))
        }
    case StopPass(w) =>
      if w in s.drainers && s.drainers[w].Pass? && !s.drainers[w].started then To(s, w, Leaving(s.drainers[w].work.device)) else s
    case Leave(w) =>
      if w in s.drainers && s.drainers[w].Leaving?
      then To(s.(inflight := s.inflight - {s.drainers[w].device}), w, Fetching) else s
  }

  predicate Current(s: Sys, work: Work) {
    work.device in s.debts && s.debts[work.device] == work.id
  }

  function Exec(s: Sys, es: seq<Event>): Sys
    decreases |es|
  {
    if es == [] then s else Exec(Next(s, es[0]), es[1..])
  }

  // ---------------------------------------------------------------------------
  // The consumer's lock regions
  // ---------------------------------------------------------------------------

  class ReturnDebtConsumer {
    var now: real
    var objs: map<int, Debt>
    var nextId: int
    var debts: map<int, int>
    var online: set<int>
    var epochs: map<int, int>
    var rejected: set<(int, int)>
    var pending: seq<Work>
    var inflight: set<int>
    var running: bool
    ghost var drainers: map<int, Phase>

    ghost function State(): Sys
      reads this
    {
      Sys(now, objs, nextId, debts, online, epochs, rejected, pending, inflight, running, drainers)
    }

    constructor ()
      ensures State() == INIT
    {
      now, objs, nextId, debts, online, epochs := 0.0, map[], 0, map[], {}, map[];
      rejected, pending, inflight, running, drainers := {}, [], {}, false, map[];
    }

    function Epoch(serial: int): int
      reads `epochs
    {
      if serial in epochs then epochs[serial] else 0
    }

    method DueFamilies(d: Debt) returns (due: seq<int>)
      ensures due == DueOf(State(), d, d.families)
    {
      due := [];
      var reconnect := d.epoch != Epoch(d.serial);
      for k := 0 to |d.families|
        invariant due + DueOf(State(), d, d.families[k..]) == DueOf(State(), d, d.families)
      {
        var f := d.families[k];
        DueOfFrom(State(), d, d.families, k, due);
        if reconnect || f !in d.attempts
           || (Retryable(d.attempts[f].result) && now - d.attempts[f].at >= RETRY_SECONDS) {
          due := due + [f];
        }
      }
    }

    /** `order` is the order of the debt table, `only` the reconnected serials if any;
        `start` tells the caller to launch the drainer `w`. */
    method ScheduleDebts(order: seq<int>, only: Option<set<int>>, w: int) returns (start: bool)
      requires w !in drainers
      modifies this
      ensures State() == Next(old(State()), Schedule(order, only, w))
      ensures start <==> w in drainers
    {
      for k := 0 to |order|
        invariant ConsiderAll(State(), order[k..], only) == ConsiderAll(old(State()), order, only)
        invariant drainers == old(drainers)
      {
        assert order[k..][1..] == order[k + 1..];
        ghost var before := State();
        if order[k] in debts && debts[order[k]] in objs {
          var id := debts[order[k]];
          var d := objs[id];
          if (only == None || d.serial in only.value) && d.serial in online && order[k] !in inflight {
            var due := DueFamilies(d);
            if due != [] {
              inflight := inflight + {order[k]};
              pending := pending + [Work(id, order[k], due)];
            }
          }
        }
        assert State() == Consider(before, order[k], only);
      }
      start := pending != [] && !running;
      if start {
        running := true;
        drainers := drainers[w := Fetching];
      }
    }

    method TakePass(w: int) returns (work: Option<Work>)
      requires w in drainers && drainers[w] == Fetching
      modifies this
      ensures State() == Next(old(State()), Pop(w))
      ensures work == if old(pending) == [] then None else Some(old(pending)[0])
    {
      if pending == [] {
        running, drainers := false, drainers - {w};
        return None;
      }
      work := Some(pending[0]);
      drainers := drainers[w := Pass(pending[0], 0, false)];
      pending := pending[1..];
    }
  }

  // ---------------------------------------------------------------------------
  // The queue: each device once, one drainer
  // ---------------------------------------------------------------------------

  predicate Busy(ph: Phase, device: int) {
    (ph.Pass? && ph.work.device == device) || (ph.Leaving? && ph.device == device)
  }

  ghost predicate Queued(s: Sys, device: int) {
    exists i :: 0 <= i < |s.pending| && s.pending[i].device == device
  }

  ghost predicate Executing(s: Sys, device: int) {
    exists w :: w in s.drainers && Busy(s.drainers[w], device)
  }

  /** Every device in flight is queued once or executing, never both; at most one thread
      drains. */
  ghost predicate EachOnce(s: Sys) {
    && (forall i, j :: 0 <= i < j < |s.pending| ==> s.pending[i].device != s.pending[j].device)
    && (forall v, w :: v in s.drainers && w in s.drainers ==> v == w)
    && (forall d :: d in s.inflight <==> Queued(s, d) || Executing(s, d))
    && (forall d :: !(Queued(s, d) && Executing(s, d)))
    && (s.running <==> exists w :: w in s.drainers)
  }

  ghost predicate Drained(s: Sys) {
    s.pending != [] ==> s.running
  }

  lemma ConsiderOnce(s: Sys, device: int, only: Option<set<int>>)
    requires EachOnce(s)
    ensures EachOnce(Consider(s, device, only)) && Consider(s, device, only).drainers == s.drainers
    ensures Consider(s, device, only).running == s.running
  {
    var s' := Consider(s, device, only);
    if s' != s {
      var n := |s.pending|;
      assert s'.pending[n].device == device;
      forall d ensures Queued(s', d) <==> Queued(s, d) || d == device {
        if i :| 0 <= i < n && s.pending[i].device == d { assert s'.pending[i].device == d; }
        if i :| 0 <= i < n + 1 && s'.pending[i].device == d { assert i < n ==> s.pending[i].device == d; }
      }
      forall d ensures Executing(s', d) <==> Executing(s, d) {}
      assert !Queued(s, device);
    }
  }

  lemma {:induction false} ConsiderAllOnce(s: Sys, order: seq<int>, only: Option<set<int>>)
    requires EachOnce(s)
    ensures EachOnce(ConsiderAll(s, order, only)) && ConsiderAll(s, order, only).drainers == s.drainers
    ensures ConsiderAll(s, order, only).running == s.running
    decreases |order|
  {
    if order != [] {
      ConsiderOnce(s, order[0], only);
      ConsiderAllOnce(Consider(s, order[0], only), order[1..], only);
    }
  }

  lemma LaunchOnce(s: Sys, w: int)
    requires EachOnce(s) && w !in s.drainers
    ensures EachOnce(Launch(s, w)) && Drained(Launch(s, w))
  {
    var s' := Launch(s, w);
    if s' != s {
      assert w in s'.drainers;
      assert forall v :: v !in s.drainers;
      forall d ensures !Executing(s', d) && !Executing(s, d) { assert !Busy(s'.drainers[w], d); }
      forall d ensures Queued(s', d) <==> Queued(s, d) {}
    }
  }

  /** Taking the next pass moves its device from the queue into execution, still in flight
      and nowhere twice; with nothing queued the drainer stops and no device is in flight. */
  lemma PopOnce(s: Sys, w: int)
    requires EachOnce(s) && w in s.drainers && s.drainers[w] == Fetching
    ensures var s' := Next(s, Pop(w));
            && EachOnce(s')
            && (s.pending == [] ==> s'.drainers == map[] && !s'.running && s'.inflight == {})
            && (s.pending != [] ==>
                  var d := s.pending[0].device;
                  Queued(s, d) && !Queued(s', d) && Executing(s', d) && d in s'.inflight
                  && forall x :: x != d ==> (Queued(s', x) <==> Queued(s, x)))
  {
    var s' := Next(s, Pop(w));
    forall d ensures !Executing(s, d) {}
    if s.pending == [] {
      forall d ensures !Queued(s', d) && !Executing(s', d) {}
      assert forall v :: v !in s'.drainers && v !in s'.inflight;
    } else {
      var head := s.pending[0].device;
      assert w in s'.drainers && Busy(s'.drainers[w], head);
      forall d ensures Executing(s', d) <==> d == head {}
      forall d ensures Queued(s', d) <==> Queued(s, d) && d != head {
        if i :| 0 <= i < |s.pending| && s.pending[i].device == d { if i > 0 { assert s'.pending[i - 1].device == d; } }
        if i :| 0 <= i < |s'.pending| && s'.pending[i].device == d { assert s.pending[i + 1].device == d; }
      }
      assert Queued(s, head);
    }
  }

  /** A drainer's move that keeps the device it works on. */
  lemma MoveOnce(s: Sys, s': Sys, w: int)
    requires EachOnce(s) && w in s.drainers && w in s'.drainers && s'.drainers == s.drainers[w := s'.drainers[w]]
    requires s'.pending == s.pending && s'.inflight == s.inflight && s'.running == s.running
    requires forall d :: Busy(s'.drainers[w], d) <==> Busy(s.drainers[w], d)
    ensures EachOnce(s')
  {
    forall d ensures Executing(s', d) <==> Executing(s, d) {
      if v :| v in s.drainers && Busy(s.drainers[v], d) { assert v in s'.drainers && Busy(s'.drainers[v], d); }
    }
    forall d ensures Queued(s', d) <==> Queued(s, d) {}
  }

  lemma LeaveOnce(s: Sys, w: int)
    requires EachOnce(s) && w in s.drainers && s.drainers[w].Leaving?
    ensures EachOnce(Next(s, Leave(w)))
  {
    var s', dev := Next(s, Leave(w)), s.drainers[w].device;
    assert w in s'.drainers && Busy(s.drainers[w], dev);
    forall d ensures Executing(s, d) <==> d == dev {}
    forall d ensures !Executing(s', d) {}
    forall d ensures Queued(s', d) <==> Queued(s, d) {}
  }

  /** Events that touch neither the queue nor the drainers. */
  lemma OutsideOnce(s: Sys, s': Sys)
    requires EachOnce(s) && s'.drainers == s.drainers && s'.pending == s.pending && s'.inflight == s.inflight && s'.running == s.running
    ensures EachOnce(s')
  {
    forall d ensures (Executing(s', d) <==> Executing(s, d)) && (Queued(s', d) <==> Queued(s, d)) {}
  }

  lemma {:induction false} TakeRowsOutside(s: Sys, cur: map<int, int>, rows: seq<Row>)
    ensures var t := TakeRows(s, cur, rows).0;
            && t.drainers == s.drainers && t.pending == s.pending && t.inflight == s.inflight && t.running == s.running
            && t.epochs == s.epochs && t.now == s.now && t.debts == s.debts
    decreases |rows|
  {
    if rows != [] {
      var (s1, cur1) := TakeRow(s, cur, rows[0]);
      TakeRowsOutside(s1, cur1, rows[1..]);
    }
  }

  lemma QueueStep(s: Sys, e: Event)
    requires EachOnce(s) && Drained(s)
    ensures EachOnce(Next(s, e)) && Drained(Next(s, e))
  {
    var s' := Next(s, e);
    match e
    case Schedule(order, only, w) =>
      if w !in s.drainers {
        ConsiderAllOnce(s, order, only);
        LaunchOnce(ConsiderAll(s, order, only), w);
      }
    case Pop(w) => if w in s.drainers && s.drainers[w] == Fetching { PopOnce(s, w); assert s.running; }
    case StartFamily(w) => if s' != s { MoveOnce(s, s', w); }
    case EndFamily(w, reply) => if InPass(s, w, true) { MoveOnce(s, s', w); }
    case StopPass(w) => if s' != s { MoveOnce(s, s', w); }
    case Leave(w) => if w in s.drainers && s.drainers[w].Leaving? { LeaveOnce(s, w); }
    case Rows(rows) => TakeRowsOutside(s, map[], rows); OutsideOnce(s, s');
    case _ => OutsideOnce(s, s');
  }

  /** Through any interleaving: each device is in flight exactly when it is queued once or
      executing; queued work has a drainer; there are never two. */
  lemma {:induction false} QueueRun(s: Sys, es: seq<Event>)
    requires EachOnce(s) && Drained(s)
    ensures EachOnce(Exec(s, es)) && Drained(Exec(s, es))
    decreases |es|
  {
    if es != [] {
      QueueStep(s, es[0]);
      QueueRun(Next(s, es[0]), es[1..]);
    }
  }

  lemma InitOnce()
    ensures EachOnce(INIT) && Drained(INIT)
  {
  }

  // ---------------------------------------------------------------------------
  // The spacing of family runs
  // ---------------------------------------------------------------------------

  ghost predicate Distinct(fs: seq<int>) {
    forall i, j :: 0 <= i < j < |fs| ==> fs[i] != fs[j]
  }

  /** A family may run: it never did for this debt, or the device has reconnected since, or
      its last result is retryable and half an hour old. */
  ghost predicate MayRun(s: Sys, d: Debt, f: int) {
    || f !in d.attempts
    || d.attempts[f].epoch < EpochOf(s, d.serial)
    || (Retryable(d.attempts[f].result) && s.now - d.attempts[f].at >= RETRY_SECONDS)
  }

  ghost predicate Premature(s: Sys, e: Event) {
    e.StartFamily? && InPass(s, e.w, false) && Current(s, s.drainers[e.w].work)
    && !MayRun(s, s.objs[s.drainers[e.w].work.id], s.drainers[e.w].work.due[s.drainers[e.w].i])
  }

  ghost predicate DebtOk(s: Sys, d: Debt) {
    && d.epoch <= EpochOf(s, d.serial)
    && (forall f :: f in d.attempts ==> d.attempts[f].epoch <= d.epoch)
  }

  /** A pass whose first `k` families were started: the others that are not among those may
      still run. */
  ghost predicate WorkOk(s: Sys, work: Work, k: nat) {
    && work.id in s.objs && s.objs[work.id].device == work.device && k <= |work.due|
    && forall m :: k <= m < |work.due| && work.due[m] !in work.due[..k] ==> MayRun(s, s.objs[work.id], work.due[m])
  }

  function Todo(ph: Phase): nat
    requires ph.Pass?
  {
    if ph.started then ph.i + 1 else ph.i
  }

  ghost predicate Spaced(s: Sys) {
    && (forall k :: k in s.epochs ==> s.epochs[k] >= 0)
    && (forall id :: id in s.objs ==> id < s.nextId && DebtOk(s, s.objs[id]))
    && (forall d :: d in s.debts ==> s.debts[d] in s.objs && s.objs[s.debts[d]].device == d)
    && (forall i :: 0 <= i < |s.pending| ==> WorkOk(s, s.pending[i], 0))
    && (forall w :: w in s.drainers && s.drainers[w].Pass? ==> WorkOk(s, s.drainers[w].work, Todo(s.drainers[w])))
  }

  /** Time and epochs only grow, and the history of a debt object stays as it is. */
  ghost predicate Later(s: Sys, s': Sys) {
    && s'.now >= s.now && (forall k :: EpochOf(s, k) <= EpochOf(s', k))
    && s.nextId <= s'.nextId
    && forall id :: id in s.objs ==>
         (&& id in s'.objs
          && s'.objs[id].device == s.objs[id].device && s'.objs[id].serial == s.objs[id].serial
          && s'.objs[id].attempts == s.objs[id].attempts)
  }

  lemma LaterWork(s: Sys, s': Sys, work: Work, k: nat)
    requires Later(s, s') && WorkOk(s, work, k)
    ensures WorkOk(s', work, k)
  {
  }

  lemma LaterWorks(s: Sys, s': Sys)
    requires Later(s, s') && Spaced(s) && s'.pending == s.pending && s'.drainers == s.drainers
    ensures forall i :: 0 <= i < |s'.pending| ==> WorkOk(s', s'.pending[i], 0)
    ensures forall w :: w in s'.drainers && s'.drainers[w].Pass? ==> WorkOk(s', s'.drainers[w].work, Todo(s'.drainers[w]))
  {
    forall i | 0 <= i < |s'.pending| ensures WorkOk(s', s'.pending[i], 0) { LaterWork(s, s', s.pending[i], 0); }
    forall w | w in s'.drainers && s'.drainers[w].Pass? ensures WorkOk(s', s'.drainers[w].work, Todo(s'.drainers[w])) {
      LaterWork(s, s', s.drainers[w].work, Todo(s.drainers[w]));
    }
  }

  lemma OnlineSpaced(s: Sys, serials: set<int>)
    requires Spaced(s)
    ensures Spaced(Next(s, Online(serials)))
  {
    var s' := Next(s, Online(serials));
    assert Later(s, s');
    LaterWorks(s, s');
    forall id | id in s'.objs ensures id < s'.nextId && DebtOk(s', s'.objs[id]) {
      assert DebtOk(s, s.objs[id]);
    }
  }

  lemma TakeRowLater(s: Sys, cur: map<int, int>, row: Row)
    requires Spaced(s)
    ensures Later(s, TakeRow(s, cur, row).0)
  {
  }

  lemma TakeRowDebts(s: Sys, cur: map<int, int>, row: Row)
    requires Spaced(s)
    ensures var t := TakeRow(s, cur, row).0; forall id :: id in t.objs ==> id < t.nextId && DebtOk(t, t.objs[id])
  {
    var t := TakeRow(s, cur, row).0;
    forall id | id in t.objs ensures id < t.nextId && DebtOk(t, t.objs[id]) {
      if id in s.objs { assert DebtOk(s, s.objs[id]); }
    }
  }

  lemma TakeRowSpaced(s: Sys, cur: map<int, int>, row: Row)
    requires Spaced(s)
    requires forall d :: d in cur ==> cur[d] in s.objs && s.objs[cur[d]].device == d
    ensures var (t, cur') := TakeRow(s, cur, row);
            Spaced(t) && (forall d :: d in cur' ==> cur'[d] in t.objs && t.objs[cur'[d]].device == d)
  {
    var (t, cur') := TakeRow(s, cur, row);
    TakeRowLater(s, cur, row);
    LaterWorks(s, t);
    TakeRowDebts(s, cur, row);
  }

  lemma {:induction false} TakeRowsSpaced(s: Sys, cur: map<int, int>, rows: seq<Row>)
    requires Spaced(s)
    requires forall d :: d in cur ==> cur[d] in s.objs && s.objs[cur[d]].device == d
    ensures var (t, cur') := TakeRows(s, cur, rows);
            Spaced(t) && (forall d :: d in cur' ==> cur'[d] in t.objs && t.objs[cur'[d]].device == d)
    decreases |rows|
  {
    if rows != [] {
      TakeRowSpaced(s, cur, rows[0]);
      var (s1, cur1) := TakeRow(s, cur, rows[0]);
      TakeRowsSpaced(s1, cur1, rows[1..]);
    }
  }

  lemma {:induction false} DueOfMayRun(s: Sys, d: Debt, fs: seq<int>)
    requires DebtOk(s, d)
    ensures forall f :: f in DueOf(s, d, fs) ==> MayRun(s, d, f)
  {
    if fs != [] { DueOfMayRun(s, d, fs[1..]); }
  }

  lemma ConsiderSpaced(s: Sys, device: int, only: Option<set<int>>)
    requires Spaced(s)
    ensures Spaced(Consider(s, device, only))
  {
    var s' := Consider(s, device, only);
    if s' != s {
      var id := s.debts[device];
      assert DebtOk(s, s.objs[id]);
      DueOfMayRun(s, s.objs[id], s.objs[id].families);
      assert Later(s, s');
      forall i | 0 <= i < |s'.pending| ensures WorkOk(s', s'.pending[i], 0) {
        if i < |s.pending| {
          LaterWork(s, s', s.pending[i], 0);
        } else {
          assert forall m :: 0 <= m < |s'.pending[i].due| ==> s'.pending[i].due[m] in s'.pending[i].due;
        }
      }
      forall w | w in s'.drainers && s'.drainers[w].Pass? ensures WorkOk(s', s'.drainers[w].work, Todo(s'.drainers[w])) {
        LaterWork(s, s', s.drainers[w].work, Todo(s.drainers[w]));
      }
      forall k | k in s'.objs ensures DebtOk(s', s'.objs[k]) { assert DebtOk(s, s.objs[k]); }
    }
  }

  lemma {:induction false} ConsiderAllSpaced(s: Sys, order: seq<int>, only: Option<set<int>>)
    requires Spaced(s)
    ensures Spaced(ConsiderAll(s, order, only))
    decreases |order|
  {
    if order != [] {
      ConsiderSpaced(s, order[0], only);
      ConsiderAllSpaced(Consider(s, order[0], only), order[1..], only);
    }
  }

  /** The running pass writes its own debt object; the passes still queued are for other
      devices, hence other objects. */
  lemma RunSpaced(s: Sys, s': Sys, w: int, id: int)
    requires Spaced(s) && EachOnce(s) && w in s.drainers && s.drainers[w].Pass? && s.drainers[w].work.id == id
    requires w in s'.drainers && s'.drainers == s.drainers[w := s'.drainers[w]] && s'.pending == s.pending
    requires s'.now == s.now && s'.epochs == s.epochs && s'.nextId == s.nextId && s'.debts == s.debts
    requires id in s.objs && id in s'.objs && s'.objs == s.objs[id := s'.objs[id]]
    requires s'.objs[id].device == s.objs[id].device && s'.objs[id].serial == s.objs[id].serial
    requires DebtOk(s', s'.objs[id])
    requires s'.drainers[w].Pass? ==> WorkOk(s', s'.drainers[w].work, Todo(s'.drainers[w]))
    ensures Spaced(s')
  {
    assert WorkOk(s, s.drainers[w].work, Todo(s.drainers[w]));
    assert Executing(s, s.objs[id].device) by { assert Busy(s.drainers[w], s.objs[id].device); }
    forall i | 0 <= i < |s'.pending| ensures WorkOk(s', s'.pending[i], 0) {
      assert WorkOk(s, s.pending[i], 0);
      assert Queued(s, s.pending[i].device);
    }
    forall k | k in s'.objs ensures k < s'.nextId && DebtOk(s', s'.objs[k]) {
      if k != id { assert DebtOk(s, s.objs[k]); }
    }
  }

  lemma StartSpaced(s: Sys, w: int)
    requires Spaced(s) && EachOnce(s) && InPass(s, w, false)
    ensures Spaced(Started(s, w))
  {
    var s', p := Started(s, w), s.drainers[w];
    var d, f := s.objs[p.work.id], p.work.due[p.i];
    assert WorkOk(s, p.work, p.i) && DebtOk(s, d);
    assert p.work.due[..p.i + 1] == p.work.due[..p.i] + [f];
    assert WorkOk(s', p.work, p.i + 1);
    RunSpaced(s, s', w, p.work.id);
  }

  lemma EndSpaced(s: Sys, w: int, r: Outcome)
    requires Spaced(s) && EachOnce(s) && InPass(s, w, true)
    ensures Spaced(Ended(s, w, r))
  {
    var s', p := Ended(s, w, r), s.drainers[w];
    var d := s.objs[p.work.id];
    assert WorkOk(s, p.work, p.i + 1) && DebtOk(s, d);
    assert WorkOk(s', p.work, p.i + 1);
    RunSpaced(s, s', w, p.work.id);
  }

  lemma PopSpaced(s: Sys, w: int)
    requires Spaced(s) && w in s.drainers && s.drainers[w] == Fetching
    ensures Spaced(Next(s, Pop(w)))
  {
    var s' := Next(s, Pop(w));
    assert Later(s, s');
    forall i | 0 <= i < |s'.pending| ensures WorkOk(s', s'.pending[i], 0) {
      LaterWork(s, s', s.pending[i + 1], 0);
    }
    forall v | v in s'.drainers && s'.drainers[v].Pass? ensures WorkOk(s', s'.drainers[v].work, Todo(s'.drainers[v])) {
      if v == w { LaterWork(s, s', s.pending[0], 0); } else { LaterWork(s, s', s.drainers[v].work, Todo(s.drainers[v])); }
    }
    forall k | k in s'.objs ensures DebtOk(s', s'.objs[k]) { assert DebtOk(s, s.objs[k]); }
  }

  /** Moves out of a pass, and events that only narrow the current debts. */
  lemma NarrowSpaced(s: Sys, s': Sys)
    requires Spaced(s) && s'.objs == s.objs && s'.now == s.now && s'.epochs == s.epochs && s'.nextId == s.nextId
    requires s'.pending == s.pending && (forall d :: d in s'.debts ==> d in s.debts && s'.debts[d] == s.debts[d])
    requires forall w :: w in s'.drainers && s'.drainers[w].Pass? ==> w in s.drainers && s'.drainers[w] == s.drainers[w]
    ensures Spaced(s')
  {
    assert Later(s, s');
    forall i | 0 <= i < |s'.pending| ensures WorkOk(s', s'.pending[i], 0) { LaterWork(s, s', s.pending[i], 0); }
    forall w | w in s'.drainers && s'.drainers[w].Pass? ensures WorkOk(s', s'.drainers[w].work, Todo(s'.drainers[w])) {
      LaterWork(s, s', s.drainers[w].work, Todo(s.drainers[w]));
    }
    forall k | k in s'.objs ensures DebtOk(s', s'.objs[k]) { assert DebtOk(s, s.objs[k]); }
  }

  lemma TickSpaced(s: Sys, dt: real)
    requires Spaced(s) && dt >= 0.0
    ensures Spaced(s.(now := s.now + dt))
  {
    var s' := s.(now := s.now + dt);
    assert Later(s, s');
    LaterWorks(s, s');
    forall k | k in s'.objs ensures DebtOk(s', s'.objs[k]) { assert DebtOk(s, s.objs[k]); }
  }

  lemma RowsSpaced(s: Sys, rows: seq<Row>)
    requires Spaced(s)
    ensures Spaced(Next(s, Rows(rows)))
  {
    TakeRowsSpaced(s, map[], rows);
    DebtsSpaced(TakeRows(s, map[], rows).0, TakeRows(s, map[], rows).1);
  }

  lemma ScheduleSpaced(s: Sys, order: seq<int>, only: Option<set<int>>, w: int)
    requires Spaced(s)
    ensures Spaced(Next(s, Schedule(order, only, w)))
  {
    if w !in s.drainers {
      ConsiderAllSpaced(s, order, only);
      NarrowSpaced(ConsiderAll(s, order, only), Next(s, Schedule(order, only, w)));
    }
  }

  lemma EndFamilySpaced(s: Sys, w: int, reply: Reply)
    requires Spaced(s) && EachOnce(s)
    ensures Spaced(Next(s, EndFamily(w, reply)))
  {
    if InPass(s, w, true) {
      if reply.Value? { EndSpaced(s, w, reply.result); } else { NarrowSpaced(s, Next(s, EndFamily(w, reply))); }
    }
  }

  lemma SpacedStep(s: Sys, e: Event)
    requires Spaced(s) && EachOnce(s)
    ensures Spaced(Next(s, e))
  {
    match e
    case Tick(dt) => if dt >= 0.0 { TickSpaced(s, dt); }
    case Online(serials) => OnlineSpaced(s, serials);
    case Rows(rows) => RowsSpaced(s, rows);
    case Schedule(order, only, w) => ScheduleSpaced(s, order, only, w);
    case Pop(w) =>
      if w in s.drainers && s.drainers[w] == Fetching { PopSpaced(s, w); }
    case StartFamily(w) => if InPass(s, w, false) { StartSpaced(s, w); }
    case EndFamily(w, reply) => EndFamilySpaced(s, w, reply);
    case _ => RestSpaced(s, e);
  }

  lemma RestSpaced(s: Sys, e: Event)
    requires Spaced(s) && (e.NoDebts? || e.StopPass? || e.Leave?)
    ensures Spaced(Next(s, e))
  {
    NarrowSpaced(s, Next(s, e));
  }

  lemma DebtsSpaced(s: Sys, cur: map<int, int>)
    requires Spaced(s) && forall d :: d in cur ==> cur[d] in s.objs && s.objs[cur[d]].device == d
    ensures Spaced(s.(debts := cur))
  {
    var s' := s.(debts := cur);
    assert Later(s, s');
    LaterWorks(s, s');
    forall k | k in s'.objs ensures DebtOk(s', s'.objs[k]) { assert DebtOk(s, s.objs[k]); }
  }

  // ---------------------------------------------------------------------------
  // Exactly which runs come too early
  // ---------------------------------------------------------------------------

  /** The family about to start is listed earlier in the same pass, and its run there is in
      this connection epoch and not a retryable one half an hour old. */
  ghost predicate Repeats(s: Sys, e: Event) {
    && e.StartFamily? && InPass(s, e.w, false) && Current(s, s.drainers[e.w].work)
    && var p := s.drainers[e.w];
       var d, f := s.objs[p.work.id], p.work.due[p.i];
       && f in p.work.due[..p.i] && f in d.attempts && d.attempts[f].epoch == EpochOf(s, d.serial)
       && !(Retryable(d.attempts[f].result) && s.now - d.attempts[f].at >= RETRY_SECONDS)
  }

  /** A family is started before its time exactly when its pass lists it twice. */
  lemma PrematureExact(s: Sys, e: Event)
    requires Spaced(s)
    ensures Premature(s, e) <==> Repeats(s, e)
  {
    if e.StartFamily? && InPass(s, e.w, false) {
      var p := s.drainers[e.w];
      assert WorkOk(s, p.work, p.i) && DebtOk(s, s.objs[p.work.id]);
    }
  }

  ghost predicate NeverPremature(s: Sys, es: seq<Event>)
    decreases |es|
  {
    es == [] || (!Premature(s, es[0]) && NeverPremature(Next(s, es[0]), es[1..]))
  }

  ghost predicate NeverRepeats(s: Sys, es: seq<Event>)
    decreases |es|
  {
    es == [] || (!Repeats(s, es[0]) && NeverRepeats(Next(s, es[0]), es[1..]))
  }

  /** Over every run, a family of a debt runs again only in a later connection epoch, or at
      least half an hour after a retryable result, exactly if no pass repeats a family. */
  lemma {:induction false} SpacingRunExact(s: Sys, es: seq<Event>)
    requires Spaced(s) && EachOnce(s) && Drained(s)
    ensures NeverPremature(s, es) <==> NeverRepeats(s, es)
    decreases |es|
  {
    if es != [] {
      SpacedStep(s, es[0]);
      PrematureExact(s, es[0]);
      QueueStep(s, es[0]);
      SpacingRunExact(Next(s, es[0]), es[1..]);
    }
  }

  // A pass that runs to its end: each family started, then ended after some time.
  datatype Turn = Turn(dt: real, result: Outcome)

  function PassOf(w: int, turns: seq<Turn>): seq<Event> {
    if turns == [] then []
    else [StartFamily(w), Tick(turns[0].dt), EndFamily(w, Value(turns[0].result))] + PassOf(w, turns[1..])
  }

  function Elapsed(turns: seq<Turn>): real {
    if turns == [] then 0.0 else turns[0].dt + Elapsed(turns[1..])
  }

  ghost predicate Timed(turns: seq<Turn>) {
    forall i :: 0 <= i < |turns| ==> turns[i].dt >= 0.0
  }

  /** The families of the pass before position `i` ran in this epoch, at most `age` ago. */
  ghost predicate JustRan(s: Sys, work: Work, i: nat, age: real) {
    && work.id in s.objs && i <= |work.due|
    && var d := s.objs[work.id];
       forall m :: 0 <= m < i ==>
         work.due[m] in d.attempts && d.attempts[work.due[m]].epoch >= EpochOf(s, d.serial) && s.now - d.attempts[work.due[m]].at <= age
  }

  ghost predicate AtTurn(s: Sys, w: int, work: Work, i: nat) {
    && w in s.drainers && s.drainers[w] == Pass(work, i, false) && work.id in s.objs && Current(s, work)
  }

  ghost predicate Good(s: Sys) { Spaced(s) && EachOnce(s) && Drained(s) }

  lemma GoodStep(s: Sys, e: Event)
    requires Good(s)
    ensures Good(Next(s, e))
  {
    SpacedStep(s, e);
    QueueStep(s, e);
  }

  function TurnOf(w: int, t: Turn): seq<Event> {
    [StartFamily(w), Tick(t.dt), EndFamily(w, Value(t.result))]
  }

  lemma TurnShape(s: Sys, w: int, work: Work, i: nat, t: Turn, age: real)
    requires AtTurn(s, w, work, i) && i < |work.due| && t.dt >= 0.0 && age >= 0.0 && JustRan(s, work, i, age)
    ensures var s3 := Next(Next(Next(s, StartFamily(w)), Tick(t.dt)), EndFamily(w, Value(t.result)));
            AtTurn(s3, w, work, i + 1) && JustRan(s3, work, i + 1, age + t.dt)
  {
    var s1 := Next(s, StartFamily(w));
    var s2 := Next(s1, Tick(t.dt));
    assert InPass(s1, w, true) && InPass(s2, w, true);
  }

  lemma OneTurn(s: Sys, w: int, work: Work, i: nat, t: Turn, age: real) returns (s3: Sys)
    requires Good(s) && AtTurn(s, w, work, i) && i < |work.due| && t.dt >= 0.0 && age >= 0.0
    requires JustRan(s, work, i, age)
    ensures s3 == Next(Next(Next(s, StartFamily(w)), Tick(t.dt)), EndFamily(w, Value(t.result)))
    ensures Good(s3) && AtTurn(s3, w, work, i + 1) && JustRan(s3, work, i + 1, age + t.dt)
  {
    GoodStep(s, StartFamily(w));
    GoodStep(Next(s, StartFamily(w)), Tick(t.dt));
    GoodStep(Next(Next(s, StartFamily(w)), Tick(t.dt)), EndFamily(w, Value(t.result)));
    s3 := Next(Next(Next(s, StartFamily(w)), Tick(t.dt)), EndFamily(w, Value(t.result)));
    TurnShape(s, w, work, i, t, age);
  }

  lemma StartExact(s: Sys, w: int, work: Work, i: nat, age: real)
    requires Good(s) && AtTurn(s, w, work, i) && i < |work.due| && age < RETRY_SECONDS
    requires JustRan(s, work, i, age)
    ensures Premature(s, StartFamily(w)) <==> work.due[i] in work.due[..i]
  {
    PrematureExact(s, StartFamily(w));
    assert DebtOk(s, s.objs[work.id]);
  }

  lemma UnfoldTurn(s: Sys, w: int, t: Turn, rest: seq<Event>)
    ensures NeverPremature(s, TurnOf(w, t) + rest) <==>
            !Premature(s, StartFamily(w))
            && NeverPremature(Next(Next(Next(s, StartFamily(w)), Tick(t.dt)), EndFamily(w, Value(t.result))), rest)
  {
    var es := TurnOf(w, t) + rest;
    assert es[1..][0] == Tick(t.dt) && es[1..][1..][0] == EndFamily(w, Value(t.result)) && es[1..][1..][1..] == rest;
    var s1 := Next(s, es[0]);
    var s2 := Next(s1, es[1..][0]);
    assert NeverPremature(s1, es[1..]) <==> NeverPremature(s2, es[1..][1..]);
    assert NeverPremature(s2, es[1..][1..]) <==> NeverPremature(Next(s2, es[1..][1..][0]), rest);
  }

  lemma {:induction false} TailExact(s: Sys, w: int, work: Work, i: nat, turns: seq<Turn>, age: real)
    requires Good(s) && AtTurn(s, w, work, i) && i + |turns| == |work.due| && Timed(turns)
    requires age >= 0.0 && age + Elapsed(turns) < RETRY_SECONDS && JustRan(s, work, i, age)
    ensures NeverPremature(s, PassOf(w, turns)) <==> forall m :: i <= m < |work.due| ==> work.due[m] !in work.due[..m]
    decreases |turns|
  {
    if turns != [] {
      ElapsedNat(turns[1..]);
      var s3 := OneTurn(s, w, work, i, turns[0], age);
      StartExact(s, w, work, i, age);
      TailExact(s3, w, work, i + 1, turns[1..], age + turns[0].dt);
      UnfoldTurn(s, w, turns[0], PassOf(w, turns[1..]));
    }
  }

  lemma {:induction false} ElapsedNat(turns: seq<Turn>)
    requires Timed(turns)
    ensures Elapsed(turns) >= 0.0
  {
    if turns != [] { ElapsedNat(turns[1..]); }
  }

  /** A pass that takes less than half an hour and sees no reconnection starts a family
      before its time exactly when its list repeats a family, whatever the results. */
  lemma PassExact(s: Sys, w: int, work: Work, turns: seq<Turn>)
    requires Good(s) && AtTurn(s, w, work, 0) && |turns| == |work.due| && Timed(turns) && Elapsed(turns) < RETRY_SECONDS
    ensures NeverPremature(s, PassOf(w, turns)) <==> Distinct(work.due)
  {
    TailExact(s, w, work, 0, turns, 0.0);
    if forall m :: 0 <= m < |work.due| ==> work.due[m] !in work.due[..m] {
      forall i, j | 0 <= i < j < |work.due| ensures work.due[i] != work.due[j] {
        assert work.due[..j][i] == work.due[i];
      }
    }
  }

  /** The list of a pass repeats a family exactly when the server lists a due family twice. */
  lemma {:induction false} DueDistinctExact(s: Sys, d: Debt, fs: seq<int>)
    ensures Distinct(DueOf(s, d, fs)) <==> Untwinned(s, d, fs)
    ensures forall f :: f in DueOf(s, d, fs) <==> f in fs && DueFamily(s, d, f)
  {
    if fs != [] {
      var rest := DueOf(s, d, fs[1..]);
      DueDistinctExact(s, d, fs[1..]);
      DistinctFront(fs[0], rest);
      assert fs == [fs[0]] + fs[1..] && [] + rest == rest;
      NoTwins(s, d, fs);
    }
  }

  lemma DistinctFront(x: int, q: seq<int>)
    ensures Distinct([x] + q) <==> Distinct(q) && x !in q
  {
    if Distinct([x] + q) {
      forall i, j | 0 <= i < j < |q| ensures q[i] != q[j] {
        assert ([x] + q)[i + 1] == q[i] && ([x] + q)[j + 1] == q[j];
      }
      forall j | 0 <= j < |q| ensures q[j] != x { assert ([x] + q)[0] == x && ([x] + q)[j + 1] == q[j]; }
    } else {
      var i, j :| 0 <= i < j < |q| + 1 && ([x] + q)[i] == ([x] + q)[j];
      assert ([x] + q)[j] == q[j - 1];
      if i > 0 { assert ([x] + q)[i] == q[i - 1]; }
    }
  }

  ghost predicate Untwinned(s: Sys, d: Debt, fs: seq<int>) {
    forall i, j :: 0 <= i < j < |fs| && fs[i] == fs[j] ==> !DueFamily(s, d, fs[i])
  }

  lemma NoTwins(s: Sys, d: Debt, fs: seq<int>)
    requires fs != []
    ensures Untwinned(s, d, fs) <==> Untwinned(s, d, fs[1..]) && (DueFamily(s, d, fs[0]) ==> fs[0] !in fs[1..])
  {
    if Untwinned(s, d, fs) {
      forall i, j | 0 <= i < j < |fs[1..]| && fs[1..][i] == fs[1..][j] ensures !DueFamily(s, d, fs[1..][i]) {
        assert fs[i + 1] == fs[1..][i] && fs[j + 1] == fs[1..][j];
      }
      forall j | 0 <= j < |fs[1..]| && fs[1..][j] == fs[0] ensures !DueFamily(s, d, fs[0]) {
        assert fs[j + 1] == fs[1..][j];
      }
    } else {
      var i, j :| 0 <= i < j < |fs| && fs[i] == fs[j] && DueFamily(s, d, fs[i]);
      assert fs[1..][j - 1] == fs[i];
      if i > 0 { assert fs[1..][i - 1] == fs[1..][j - 1]; }
    }
  }

  // ---------------------------------------------------------------------------
  // What is due gets queued
  // ---------------------------------------------------------------------------

  ghost predicate QueuedFor(s: Sys, device: int, f: int) {
    exists i :: 0 <= i < |s.pending| && s.pending[i].device == device && f in s.pending[i].due
  }

  /** The device's debt can be scheduled now: it is current, online, asked for and not yet in flight. */
  predicate Ready(s: Sys, device: int, only: Option<set<int>>) {
    && device in s.debts && s.debts[device] in s.objs && device !in s.inflight
    && s.objs[s.debts[device]].serial in s.online
    && (only == None || s.objs[s.debts[device]].serial in only.value)
  }

  /** The family never ran for the debt, none has run since the device reconnected, or its
      last result is retryable and half an hour old. */
  predicate Owed(s: Sys, d: Debt, f: int) {
    || f !in d.attempts
    || d.epoch != (if d.serial in s.epochs then s.epochs[d.serial] else 0)
    || (d.attempts[f].result in {Failed, Incomplete, NotExecuted, Unreported} && s.now >= d.attempts[f].at + RETRY_SECONDS)
  }

  lemma ConsiderKeeps(s: Sys, device: int, only: Option<set<int>>)
    ensures var t := Consider(s, device, only);
            && t.objs == s.objs && t.debts == s.debts && t.online == s.online && t.epochs == s.epochs && t.now == s.now
            && s.pending <= t.pending
            && (forall x :: x != device ==> (x in t.inflight <==> x in s.inflight))
  {
  }

  /** A device that is not ready is passed over. */
  lemma NotReadyNotQueued(s: Sys, device: int, only: Option<set<int>>)
    requires !Ready(s, device, only)
    ensures Consider(s, device, only) == s
  {
  }

  lemma ConsiderQueues(s: Sys, device: int, only: Option<set<int>>, f: int)
    requires Ready(s, device, only) && f in s.objs[s.debts[device]].families
    ensures Owed(s, s.objs[s.debts[device]], f) ==> QueuedFor(Consider(s, device, only), device, f)
    ensures !(exists g :: g in s.objs[s.debts[device]].families && Owed(s, s.objs[s.debts[device]], g)) ==> Consider(s, device, only) == s
  {
    var d := s.objs[s.debts[device]];
    DueDistinctExact(s, d, d.families);
    forall g ensures DueFamily(s, d, g) <==> Owed(s, d, g) {}
    var t := Consider(s, device, only);
    if Owed(s, d, f) {
      assert f in DueOf(s, d, d.families);
      assert t.pending[|s.pending|].device == device && t.pending[|s.pending|].due == DueOf(s, d, d.families);
    }
    if DueOf(s, d, d.families) != [] {
      var g := DueOf(s, d, d.families)[0];
      assert g in DueOf(s, d, d.families) && g in d.families && Owed(s, d, g);
    }
  }

  lemma {:induction false} ConsideredStays(s: Sys, order: seq<int>, only: Option<set<int>>, device: int, f: int)
    requires QueuedFor(s, device, f)
    ensures QueuedFor(ConsiderAll(s, order, only), device, f)
    decreases |order|
  {
    if order != [] {
      var t := Consider(s, order[0], only);
      ConsiderKeeps(s, order[0], only);
      var i :| 0 <= i < |s.pending| && s.pending[i].device == device && f in s.pending[i].due;
      assert t.pending[i] == s.pending[i];
      ConsideredStays(t, order[1..], only, device, f);
    }
  }

  lemma {:induction false} AllQueued(s: Sys, order: seq<int>, only: Option<set<int>>, device: int, f: int)
    requires device in order && Ready(s, device, only)
    requires f in s.objs[s.debts[device]].families && Owed(s, s.objs[s.debts[device]], f)
    ensures QueuedFor(ConsiderAll(s, order, only), device, f)
    decreases |order|
  {
    var t := Consider(s, order[0], only);
    if order[0] == device {
      ConsiderQueues(s, device, only, f);
      ConsideredStays(t, order[1..], only, device, f);
    } else {
      ConsiderKeeps(s, order[0], only);
      AllQueued(t, order[1..], only, device, f);
    }
  }

  /** Scheduling queues every owed family of every device that is ready, and sees to it that
      a drainer is at work. */
  lemma OwedIsScheduled(s: Sys, order: seq<int>, only: Option<set<int>>, w: int, device: int, f: int)
    requires w !in s.drainers && device in order && Ready(s, device, only)
    requires f in s.objs[s.debts[device]].families && Owed(s, s.objs[s.debts[device]], f)
    ensures var t := Next(s, Schedule(order, only, w)); QueuedFor(t, device, f) && t.running
  {
    AllQueued(s, order, only, device, f);
    var c := ConsiderAll(s, order, only);
    var i :| 0 <= i < |c.pending| && c.pending[i].device == device && f in c.pending[i].due;
    assert Launch(c, w).pending[i] == c.pending[i];
  }

  // ---------------------------------------------------------------------------
  // What a heartbeat response makes of the debts
  // ---------------------------------------------------------------------------

  ghost predicate OneRowEach(rows: seq<Row>) {
    forall i, j :: 0 <= i < j < |rows| ==> rows[i].device != rows[j].device
  }

  ghost predicate Listed(rows: seq<Row>, device: int) {
    exists i :: 0 <= i < |rows| && rows[i].device == device
  }

  ghost predicate Numbered(s: Sys) {
    && (forall id :: id in s.objs ==> id < s.nextId)
    && (forall d :: d in s.debts ==> s.debts[d] in s.objs && s.objs[s.debts[d]].device == d)
  }

  /** The debt of the device has this token and serial. */
  predicate Known(s: Sys, row: Row) {
    row.device in s.debts && s.debts[row.device] in s.objs
    && s.objs[s.debts[row.device]].token == row.token && s.objs[s.debts[row.device]].serial == row.serial
  }

  /** The row is in force: as the known debt with its history, or as a new one without any;
      unless its token was rejected before. */
  ghost predicate RowTaken(s: Sys, t: Sys, cur: map<int, int>, row: Row) {
    if (row.device, row.token) in s.rejected then row.device !in cur
    else
      && row.device in cur && cur[row.device] in t.objs
      && var d := t.objs[cur[row.device]];
         && d.device == row.device && d.token == row.token && d.serial == row.serial && d.families == row.families
         && (if Known(s, row)
             then cur[row.device] == s.debts[row.device]
                  && d.attempts == s.objs[s.debts[row.device]].attempts && d.epoch == s.objs[s.debts[row.device]].epoch
             else cur[row.device] >= s.nextId && d.attempts == map[] && d.epoch == -1)
  }

  lemma TakeRowExact(s: Sys, cur: map<int, int>, row: Row)
    requires Numbered(s) && row.device !in cur
    ensures var (t, cur') := TakeRow(s, cur, row);
            && Numbered(t) && t.debts == s.debts && t.rejected == s.rejected && t.nextId >= s.nextId
            && RowTaken(s, t, cur', row)
            && (forall d :: d != row.device ==> (d in cur' <==> d in cur) && (d in cur ==> cur'[d] == cur[d]))
            && (forall id :: id in s.objs && s.objs[id].device != row.device ==> id in t.objs && t.objs[id] == s.objs[id])
            && (forall id :: id in t.objs && id !in s.objs ==> id >= s.nextId)
  {
  }

  /** Other rows leave a row's debt alone. */
  lemma TakenStays(s: Sys, t: Sys, u: Sys, cur: map<int, int>, cur': map<int, int>, row: Row)
    requires RowTaken(s, t, cur, row)
    requires (row.device in cur' <==> row.device in cur) && (row.device in cur ==> cur'[row.device] == cur[row.device])
    requires forall id :: id in t.objs && t.objs[id].device == row.device ==> id in u.objs && u.objs[id] == t.objs[id]
    ensures RowTaken(s, u, cur', row)
  {
  }

  /** A row of another device is taken after the first as it would have been before. */
  lemma TakenFrom(s: Sys, t: Sys, u: Sys, cur: map<int, int>, row: Row, device: int)
    requires Numbered(s) && RowTaken(t, u, cur, row) && row.device != device && t.debts == s.debts && t.rejected == s.rejected && t.nextId >= s.nextId
    requires forall id :: id in s.objs && s.objs[id].device != device ==> id in t.objs && t.objs[id] == s.objs[id]
    ensures RowTaken(s, u, cur, row)
  {
  }

  lemma {:induction false} TakeRowsExact(s: Sys, cur: map<int, int>, rows: seq<Row>)
    requires Numbered(s) && OneRowEach(rows) && forall i :: 0 <= i < |rows| ==> rows[i].device !in cur
    ensures var (t, cur') := TakeRows(s, cur, rows);
            && t.debts == s.debts && t.rejected == s.rejected
            && (forall i :: 0 <= i < |rows| ==> RowTaken(s, t, cur', rows[i]))
            && (forall d :: !Listed(rows, d) ==> (d in cur' <==> d in cur) && (d in cur ==> cur'[d] == cur[d]))
            && (forall id :: id in s.objs && !Listed(rows, s.objs[id].device) ==> id in t.objs && t.objs[id] == s.objs[id])
    decreases |rows|
  {
    if rows != [] {
      var row, rest := rows[0], rows[1..];
      var (s1, cur1) := TakeRow(s, cur, row);
      TakeRowExact(s, cur, row);
      assert forall i :: 0 <= i < |rest| ==> rest[i] == rows[i + 1];
      TakeRowsExact(s1, cur1, rest);
      var (t, cur') := TakeRows(s1, cur1, rest);
      ListedCons(rows);
      assert !Listed(rest, row.device);
      TakenStays(s, s1, t, cur1, cur', row);
      forall i | 0 <= i < |rows| ensures RowTaken(s, t, cur', rows[i]) {
        if i > 0 { TakenFrom(s, s1, t, cur', rest[i - 1], row.device); }
      }
    }
  }

  lemma ListedCons(rows: seq<Row>)
    requires rows != []
    ensures forall d :: Listed(rows, d) <==> d == rows[0].device || Listed(rows[1..], d)
  {
    forall d ensures Listed(rows, d) <==> d == rows[0].device || Listed(rows[1..], d) {
      if i :| 0 <= i < |rows[1..]| && rows[1..][i].device == d { assert rows[i + 1].device == d; }
      if i :| 0 <= i < |rows| && rows[i].device == d { if i > 0 { assert rows[1..][i - 1].device == d; } }
    }
  }

  /** After a response with one row per device exactly the listed debts are in force, each
      with its families; a debt keeps its history exactly if token and serial are the same,
      and one whose token was rejected does not come back. */
  lemma ResponseExact(s: Sys, rows: seq<Row>)
    requires Numbered(s) && OneRowEach(rows)
    ensures var t := Next(s, Rows(rows));
            && (forall i :: 0 <= i < |rows| ==> RowTaken(s, t, t.debts, rows[i]))
            && (forall d :: d in t.debts ==> Listed(rows, d))
    ensures Next(s, NoDebts).debts == map[]
  {
    TakeRowsExact(s, map[], rows);
    var (t, cur) := TakeRows(s, map[], rows);
    var u := t.(debts := cur);
    forall i | 0 <= i < |rows| ensures RowTaken(s, u, cur, rows[i]) { TakenStays(s, t, u, cur, cur, rows[i]); }
  }

  /** A device begins a new connection epoch exactly when it appears after it was away. */
  lemma OnlineExact(s: Sys, serials: set<int>, k: int)
    ensures var t := Next(s, Online(serials));
            && t.online == serials
            && EpochOf(t, k) == EpochOf(s, k) + if k in serials && k !in s.online then 1 else 0
  {
  }

  /** Once rejected, a token stays rejected. */
  lemma {:induction false} RejectedForGood(s: Sys, es: seq<Event>)
    ensures s.rejected <= Exec(s, es).rejected
    decreases |es|
  {
    if es != [] {
      if es[0].Rows? { TakeRowsRejected(s, map[], es[0].rows); }
      if es[0].Schedule? { ConsiderAllRejected(s, es[0].order, es[0].only); }
      RejectedForGood(Next(s, es[0]), es[1..]);
    }
  }

  lemma {:induction false} TakeRowsRejected(s: Sys, cur: map<int, int>, rows: seq<Row>)
    ensures TakeRows(s, cur, rows).0.rejected == s.rejected
    decreases |rows|
  {
    if rows != [] {
      var (s1, cur1) := TakeRow(s, cur, rows[0]);
      TakeRowsRejected(s1, cur1, rows[1..]);
    }
  }

  lemma {:induction false} ConsiderAllRejected(s: Sys, order: seq<int>, only: Option<set<int>>)
    ensures ConsiderAll(s, order, only).rejected == s.rejected
    decreases |order|
  {
    if order != [] { ConsiderAllRejected(Consider(s, order[0], only), order[1..], only); }
  }

  // ---------------------------------------------------------------------------
  // What a pass leaves behind
  // ---------------------------------------------------------------------------

  /** A server conflict ends the pass, bars the token, and drops the debt if it is still the
      one in force; other debts stay. */
  lemma ConflictEndsPass(s: Sys, w: int, work: Work, i: nat)
    requires AtTurn(s, w, work, i) && i < |work.due|
    ensures var t := Next(Next(s, StartFamily(w)), EndFamily(w, Conflict));
            && (work.device, s.objs[work.id].token) in t.rejected && t.debts == s.debts - {work.device}
            && w in t.drainers && t.drainers[w] == Leaving(work.device)
  {
  }

  /** A pass whose debt was replaced or dropped meanwhile starts no more families, and its
      conflict does not touch the new debt. */
  lemma ReplacedPassStops(s: Sys, w: int)
    requires w in s.drainers && s.drainers[w].Pass? && !Current(s, s.drainers[w].work)
    ensures Next(s, StartFamily(w)) == s
    ensures Next(s, EndFamily(w, Conflict)).debts == s.debts
    ensures !s.drainers[w].started ==> At(Next(s, StopPass(w)), w) == Some(Leaving(s.drainers[w].work.device))
  {
  }

  function At(s: Sys, w: int): Option<Phase> {
    if w in s.drainers then Some(s.drainers[w]) else None
  }

  lemma TurnRecords(s: Sys, w: int, work: Work, i: nat, t: Turn)
    requires AtTurn(s, w, work, i) && i < |work.due| && t.dt >= 0.0
    ensures var s3 := Next(Next(Next(s, StartFamily(w)), Tick(t.dt)), EndFamily(w, Value(t.result)));
            && AtTurn(s3, w, work, i + 1) && s3.inflight == s.inflight && s3.now == s.now + t.dt
            && s3.objs[work.id].attempts
               == s.objs[work.id].attempts[work.due[i] := Attempt(s.now + t.dt, t.result, EpochOf(s, s.objs[work.id].serial))]
            && s3.objs[work.id].serial == s.objs[work.id].serial && s3.epochs == s.epochs
  {
  }

  /** From position `i` on each family has the result of its turn, in this epoch; families
      that had no turn have what they had. */
  ghost predicate TurnsRecorded(before: map<int, Attempt>, after: map<int, Attempt>, due: seq<int>, i: nat, turns: seq<Turn>, epoch: int)
    requires i + |turns| == |due|
  {
    && (forall m :: i <= m < |due| ==> due[m] in after && after[due[m]].result == turns[m - i].result && after[due[m]].epoch == epoch)
    && (forall f :: f in before && f !in due[i..] ==> f in after && after[f] == before[f])
  }

  lemma KeptElsewhere(before: map<int, Attempt>, after: map<int, Attempt>, due: seq<int>, i: nat, turns: seq<Turn>, epoch: int, f: int)
    requires i + |turns| == |due| && TurnsRecorded(before, after, due, i, turns, epoch) && f in before && f !in due[i..]
    ensures f in after && after[f] == before[f]
  {
  }

  lemma RecordedCons(before: map<int, Attempt>, after: map<int, Attempt>, due: seq<int>, i: nat, turns: seq<Turn>, a: Attempt)
    requires turns != [] && i + |turns| == |due| && Distinct(due) && a.result == turns[0].result
    requires TurnsRecorded(before[due[i] := a], after, due, i + 1, turns[1..], a.epoch)
    ensures TurnsRecorded(before, after, due, i, turns, a.epoch)
  {
    var mid := before[due[i] := a];
    assert due[i..] == [due[i]] + due[i + 1..];
    assert due[i] !in due[i + 1..] && mid[due[i]] == a;
    forall m | i <= m < |due| ensures due[m] in after && after[due[m]].result == turns[m - i].result && after[due[m]].epoch == a.epoch {
      if m > i {
        assert i + 1 <= m < |due| && due[m] in after;
        assert turns[1..][m - (i + 1)] == turns[m - i];
      } else {
        KeptElsewhere(mid, after, due, i + 1, turns[1..], a.epoch, due[i]);
      }
    }
    forall f | f in before && f !in due[i..] ensures f in after && after[f] == before[f] { assert f in mid && f !in due[i + 1..]; }
  }

  function AfterTurn(s: Sys, w: int, t: Turn): Sys {
    Next(Next(Next(s, StartFamily(w)), Tick(t.dt)), EndFamily(w, Value(t.result)))
  }

  lemma ExecTurn(s: Sys, w: int, turns: seq<Turn>)
    requires turns != []
    ensures Exec(s, PassOf(w, turns)) == Exec(AfterTurn(s, w, turns[0]), PassOf(w, turns[1..]))
  {
    var t, rest := turns[0], PassOf(w, turns[1..]);
    var es := TurnOf(w, t) + rest;
    assert es[1..][0] == Tick(t.dt) && es[1..][1..][0] == EndFamily(w, Value(t.result)) && es[1..][1..][1..] == rest;
    var s1 := Next(s, es[0]);
    var s2 := Next(s1, es[1..][0]);
    assert Exec(s1, es[1..]) == Exec(s2, es[1..][1..]);
  }

  /** The turns from `i` on lead from `s` to `u`. */
  ghost predicate PassesTo(s: Sys, u: Sys, w: int, work: Work, i: nat, turns: seq<Turn>)
    requires work.id in s.objs && i + |turns| == |work.due|
  {
    && AtTurn(u, w, work, |work.due|) && u.inflight == s.inflight
    && TurnsRecorded(s.objs[work.id].attempts, u.objs[work.id].attempts, work.due, i, turns, EpochOf(s, s.objs[work.id].serial))
  }

  lemma PassesCons(s: Sys, s3: Sys, u: Sys, w: int, work: Work, i: nat, turns: seq<Turn>)
    requires AtTurn(s, w, work, i) && turns != [] && i + |turns| == |work.due| && Distinct(work.due) && turns[0].dt >= 0.0
    requires s3 == AfterTurn(s, w, turns[0]) && work.id in s3.objs && PassesTo(s3, u, w, work, i + 1, turns[1..])
    ensures PassesTo(s, u, w, work, i, turns)
  {
    TurnRecords(s, w, work, i, turns[0]);
    var a := Attempt(s.now + turns[0].dt, turns[0].result, EpochOf(s, s.objs[work.id].serial));
    RecordedCons(s.objs[work.id].attempts, u.objs[work.id].attempts, work.due, i, turns, a);
  }

  lemma {:induction false} PassRecords(s: Sys, w: int, work: Work, i: nat, turns: seq<Turn>)
    requires AtTurn(s, w, work, i) && i + |turns| == |work.due| && Timed(turns) && Distinct(work.due)
    ensures PassesTo(s, Exec(s, PassOf(w, turns)), w, work, i, turns)
    decreases |turns|
  {
    if turns != [] {
      var s3 := AfterTurn(s, w, turns[0]);
      TurnRecords(s, w, work, i, turns[0]);
      PassRecords(s3, w, work, i + 1, turns[1..]);
      ExecTurn(s, w, turns);
      PassesCons(s, s3, Exec(s3, PassOf(w, turns[1..])), w, work, i, turns);
    }
  }

  /** An undisturbed pass runs each of its families once, records what came of it in this
      connection epoch, and lets the device go. */
  lemma WholePass(s: Sys, w: int, work: Work, turns: seq<Turn>)
    requires AtTurn(s, w, work, 0) && |turns| == |work.due| && Timed(turns) && Distinct(work.due)
    ensures var u := Next(Next(Exec(s, PassOf(w, turns)), StopPass(w)), Leave(w));
            && At(u, w) == Some(Fetching) && u.inflight == s.inflight - {work.device} && work.id in u.objs
            && TurnsRecorded(s.objs[work.id].attempts, u.objs[work.id].attempts, work.due, 0, turns, EpochOf(s, s.objs[work.id].serial))
  {
    PassRecords(s, w, work, 0, turns);
  }

  // ---------------------------------------------------------------------------
  // A server that lists no family twice
  // ---------------------------------------------------------------------------

  ghost predicate AllDistinct(s: Sys) {
    && (forall id :: id in s.objs ==> Distinct(s.objs[id].families))
    && (forall i :: 0 <= i < |s.pending| ==> Distinct(s.pending[i].due))
    && (forall w :: w in s.drainers && s.drainers[w].Pass? ==> Distinct(s.drainers[w].work.due))
  }

  /** No row of the event lists a family twice. */
  ghost predicate NoRepeats(e: Event) {
    e.Rows? ==> forall i :: 0 <= i < |e.rows| ==> Distinct(e.rows[i].families)
  }

  lemma {:induction false} TakeRowsDistinct(s: Sys, cur: map<int, int>, rows: seq<Row>)
    requires AllDistinct(s) && forall i :: 0 <= i < |rows| ==> Distinct(rows[i].families)
    ensures AllDistinct(TakeRows(s, cur, rows).0)
    decreases |rows|
  {
    if rows != [] {
      var (s1, cur1) := TakeRow(s, cur, rows[0]);
      TakeRowsDistinct(s1, cur1, rows[1..]);
    }
  }

  lemma {:induction false} ConsiderAllDistinct(s: Sys, order: seq<int>, only: Option<set<int>>)
    requires AllDistinct(s)
    ensures AllDistinct(ConsiderAll(s, order, only))
    decreases |order|
  {
    if order != [] {
      var s1 := Consider(s, order[0], only);
      if s1 != s {
        var d := s.objs[s.debts[order[0]]];
        DueDistinctExact(s, d, d.families);
      }
      ConsiderAllDistinct(s1, order[1..], only);
    }
  }

  lemma DistinctStep(s: Sys, e: Event)
    requires AllDistinct(s) && NoRepeats(e)
    ensures AllDistinct(Next(s, e))
  {
    match e
    case Rows(rows) => TakeRowsDistinct(s, map[], rows);
    case Schedule(order, only, w) => ConsiderAllDistinct(s, order, only);
    case _ =>
  }

  /** When the server lists no family twice, no family is ever started before its time. */
  lemma {:induction false} RunsAreSpaced(s: Sys, es: seq<Event>)
    requires Good(s) && AllDistinct(s)
    requires forall i :: 0 <= i < |es| ==> NoRepeats(es[i])
    ensures NeverPremature(s, es)
    decreases |es|
  {
    if es != [] {
      assert NoRepeats(es[0]);
      PrematureExact(s, es[0]);
      DistinctStep(s, es[0]);
      GoodStep(s, es[0]);
      RunsAreSpaced(Next(s, es[0]), es[1..]);
    }
  }

  lemma InitSpaced()
    ensures Good(INIT) && AllDistinct(INIT)
  {
  }
}
