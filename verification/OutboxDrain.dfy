/** The background drain of the terminal outbox: how one server reply settles, retains,
    dead-letters or defers a row, and what that means over whole runs in which the drain
    thread and blocking drains of recovery and shutdown work on the same table. */
module OutboxDrain {

  // ---------------------------------------------------------------------------
  // Replies
  // ---------------------------------------------------------------------------

  const MAX_ATTEMPTS := 10
  const MAX_RETRY_AFTER := 300.0
  const BACKOFF_BASE := 15.0
  const MAX_BACKOFF := 300.0

  import opened Options

  /** What the drain reads from a response: the status line, the two fields of a 409 body,
      whether a 404 body names the missing job, and the parsed delay (0 when absent). */
  datatype Reply =
    | Response(status: int, payloadConflict: bool, current: Option<string>, jobGone: bool, retryAfter: real)
    | NoReply

  datatype Verdict = Settle | Retain | Transient(retryAfter: real)

  predicate Ackable(status: string) {
    status == "COMPLETED" || status == "FAILED" || status == "ABORTED"
  }

  function Classify(r: Reply): Verdict {
    match r
    case NoReply => Transient(0.0)
    case Response(status, conflict, current, gone, after) =>
      // Only 400 to 599 are raised as errors.
      if status < 400 || status >= 600 then Settle
      else if status == 409 then
        if conflict then Retain
        else if current == None then Retain
        else if Ackable(current.value) then Settle
        else Retain
      else if status == 404 then if gone then Settle else Retain
      else if status == 408 || status == 429 || status >= 500 then Transient(after)
      else Retain
  }

  /** The reply shows that the fact is durable or no longer wanted: it is no error, or the
      job is already terminal, or the server says that it does not know the job. */
  predicate Settles(r: Reply) {
    r.Response?
    && (|| !(400 <= r.status <= 599)
        || (r.status == 409 && !r.payloadConflict && r.current in {Some("COMPLETED"), Some("FAILED"), Some("ABORTED")})
        || (r.status == 404 && r.jobGone))
  }

  /** The server will not take the fact, now or later. */
  predicate Refuses(r: Reply) {
    r.Response? && 400 <= r.status < 500 && r.status != 408 && r.status != 429 && !Settles(r)
  }

  /** The time the server asks for, if it is only overloaded. */
  function Asked(r: Reply): real {
    if r.Response? then r.retryAfter else 0.0
  }

  /** The chain of tests decides every reply as these three say. */
  lemma ClassifyExact(r: Reply)
    ensures Classify(r) == Settle <==> Settles(r)
    ensures Classify(r) == Retain <==> Refuses(r)
    ensures !Settles(r) && !Refuses(r) ==> Classify(r) == Transient(Asked(r))
  {
  }

  function Min(a: real, b: real): real { if a < b then a else b }

  function Pow2(n: nat): real { if n == 0 then 1.0 else 2.0 * Pow2(n - 1) }

  /** At most a quarter is added. */
  function Jittered(c: real, u: real): (r: real)
    ensures 0.0 <= u <= 1.0 && c >= 0.0 ==> c <= r <= 1.25 * c
    ensures u == 0.0 ==> r == c
  {
    assert 0.0 <= u <= 1.0 && c >= 0.0 ==> 0.0 <= u * c <= c by {
      if 0.0 <= u <= 1.0 && c >= 0.0 { Scaled(u, c); }
    }
    c + 0.25 * (u * c)
  }

  /** Seconds until the next attempt; `u` in [0, 1] is the random draw. */
  function Deferral(retryAfter: real, attempts: nat, u: real): real {
    if retryAfter > 0.0 then
      Min(Jittered(Min(retryAfter, MAX_RETRY_AFTER), u), MAX_RETRY_AFTER)
    else
      u * Min(BACKOFF_BASE * Pow2(if attempts == 0 then 0 else attempts - 1), MAX_BACKOFF)
  }

  lemma PowPositive(n: nat)
    ensures Pow2(n) >= 1.0
  {
  }

  lemma Scaled(u: real, c: real)
    requires 0.0 <= u <= 1.0 && c >= 0.0
    ensures 0.0 <= u * c <= c
  {
    assert (1.0 - u) * c >= 0.0;
  }

  /** `Retry-After` is a minimum (section 10.2.3 of RFC 9110) up to the cap, and no row is
      put off for longer than the cap. */
  lemma DeferralBounds(retryAfter: real, attempts: nat, u: real)
    requires 0.0 <= u <= 1.0
    ensures 0.0 < retryAfter <= MAX_RETRY_AFTER ==> retryAfter <= Deferral(retryAfter, attempts, u) <= 1.25 * retryAfter
    ensures retryAfter > MAX_RETRY_AFTER ==> Deferral(retryAfter, attempts, u) == MAX_RETRY_AFTER
    ensures 0.0 <= Deferral(retryAfter, attempts, u) <= MAX_RETRY_AFTER
    ensures retryAfter <= 0.0 && attempts <= 1 ==> Deferral(retryAfter, attempts, u) == u * BACKOFF_BASE
  {
    if retryAfter > 0.0 {
      var c := Min(retryAfter, MAX_RETRY_AFTER);
      assert Deferral(retryAfter, attempts, u) == Min(Jittered(c, u), MAX_RETRY_AFTER);
    } else {
      PowPositive(if attempts == 0 then 0 else attempts - 1);
      Scaled(u, Min(BACKOFF_BASE * Pow2(if attempts == 0 then 0 else attempts - 1), MAX_BACKOFF));
    }
  }

  /** Without `Retry-After` the range of the draw doubles with every failed attempt, up to
      the cap. */
  lemma BackoffDoubles(attempts: nat)
    requires attempts > 0
    ensures var now, next := Deferral(0.0, attempts, 1.0), Deferral(0.0, attempts + 1, 1.0);
            next == if 2.0 * now <= MAX_BACKOFF then 2.0 * now else MAX_BACKOFF
  {
    PowPositive(attempts - 1);
    assert Pow2(attempts) == 2.0 * Pow2(attempts - 1);
  }

  // ---------------------------------------------------------------------------
  // The table and one pass over it
  // ---------------------------------------------------------------------------

  datatype Row = Row(payload: int, attempts: nat, acked: bool, dead: bool)

  predicate Pending(rows: map<int, Row>, j: int) {
    j in rows && !rows[j].acked && !rows[j].dead
  }

  /** The row of a job after one posted attempt was answered. */
  function Answered(row: Row, v: Verdict): Row {
    match v
    case Settle => row.(acked := true)
    case Transient(_) => row.(attempts := row.attempts + 1)
    case Retain => row.(attempts := row.attempts + 1, dead := row.dead || row.attempts + 1 >= MAX_ATTEMPTS)
  }

  function AnswerRow(rows: map<int, Row>, j: int, v: Verdict): map<int, Row> {
    if j in rows then rows[j := Answered(rows[j], v)] else rows
  }

  function Delay(rows: map<int, Row>, j: int, v: Verdict, u: real): real {
    if v.Transient? then Deferral(v.retryAfter, if j in rows then rows[j].attempts + 1 else 0, u) else 0.0
  }

  function Put<V>(m: map<int, V>, j: int, v: V, when: bool): map<int, V> {
    if when then m[j := v] else m
  }

  /** One visit of a pass: the clock at the check, the reply, the draw, the clock at the reply. */
  datatype Visit = Visit(checkedAt: real, reply: Reply, draw: real, repliedAt: real)

  predicate Skipped(defer: map<int, real>, j: int, at: real) {
    j in defer && defer[j] > at
  }

  /** A settled row counts as sent, except one whose job is gone. */
  predicate Counts(r: Reply) {
    Settles(r) && r.status != 404
  }

  function Sends(defer: map<int, real>, page: seq<int>, visits: seq<Visit>): nat
    requires |page| == |visits|
  {
    if page == [] then 0
    else
      var k := |page| - 1;
      Sends(defer, page[..k], visits[..k]) + if !Skipped(defer, page[k], visits[k].checkedAt) && Counts(visits[k].reply) then 1 else 0
  }

  /** What a reply does to a row. */
  predicate AnsweredBy(row: Row, r: Reply, row': Row) {
    && row'.payload == row.payload
    && (row'.acked <==> row.acked || Settles(r))
    && row'.attempts == row.attempts + (if Settles(r) then 0 else 1)
    && (row'.dead <==> row.dead || (Refuses(r) && row'.attempts >= MAX_ATTEMPTS))
  }

  lemma AnsweredExact(row: Row, r: Reply, row': Row)
    ensures AnsweredBy(row, r, row') <==> row' == Answered(row, Classify(r))
  {
    ClassifyExact(r);
  }

  /** How the row is put off: not at all by a settling or refusing reply, and otherwise for
      at least the time asked for, up to the cap, and never longer than the cap. */
  predicate DeferredBy(defer: map<int, real>, j: int, v: Visit) {
    && (Settles(v.reply) || Refuses(v.reply) ==> j !in defer)
    && (!Settles(v.reply) && !Refuses(v.reply) && 0.0 <= v.draw <= 1.0 ==>
          && (0.0 < Asked(v.reply) <= MAX_RETRY_AFTER ==> j in defer && v.repliedAt + Asked(v.reply) <= defer[j])
          && (Asked(v.reply) > MAX_RETRY_AFTER ==> j in defer && defer[j] == v.repliedAt + MAX_RETRY_AFTER)
          && (j in defer ==> v.repliedAt < defer[j] <= v.repliedAt + MAX_RETRY_AFTER))
  }

  /** One visit of a pass: the row is left alone while it is deferred, otherwise answered. */
  predicate VisitedBy(row: Row, defer: map<int, real>, j: int, v: Visit, row': Row) {
    if Skipped(defer, j, v.checkedAt) then row' == row else AnsweredBy(row, v.reply, row')
  }

  class OutboxDrainThread {
    var rows: map<int, Row>
    var deferUntil: map<int, real>

    constructor ()
      ensures rows == map[] && deferUntil == map[]
    {
      rows, deferUntil := map[], map[];
    }

    method BumpAttempt(j: int) returns (attempts: nat)
      modifies `rows
      ensures j in old(rows) ==> rows == old(rows)[j := old(rows)[j].(attempts := old(rows)[j].attempts + 1)]
                                 && attempts == old(rows)[j].attempts + 1
      ensures j !in old(rows) ==> rows == old(rows) && attempts == 0
    {
      attempts := 0;
      if j in rows {
        attempts := rows[j].attempts + 1;
        rows := rows[j := rows[j].(attempts := attempts)];
      }
    }

    method RetainOrDeadLetter(j: int) returns (deadLettered: bool)
      modifies `rows
      ensures rows == AnswerRow(old(rows), j, Retain)
      ensures deadLettered <==> j in old(rows) && old(rows[j]).attempts + 1 >= MAX_ATTEMPTS
    {
      var attempts := BumpAttempt(j);
      deadLettered := attempts >= MAX_ATTEMPTS;
      if deadLettered { rows := rows[j := rows[j].(dead := true)]; }
    }

    method Defer(j: int, retryAfter: real, u: real, now: real)
      modifies this
      ensures rows == AnswerRow(old(rows), j, Transient(retryAfter))
      ensures var d := Delay(old(rows), j, Transient(retryAfter), u);
              deferUntil == Put(old(deferUntil), j, now + d, d > 0.0)
    {
      var attempts := BumpAttempt(j);
      var d := Deferral(retryAfter, attempts, u);
      if d > 0.0 { deferUntil := deferUntil[j := now + d]; }
    }

    /** One entry of a pass: left alone while deferred, otherwise posted and answered. What
        becomes of the row and of its deferral is said in terms of the reply itself. */
    method DrainEntry(j: int, v: Visit) returns (sent: bool)
      modifies this
      ensures Skipped(old(deferUntil), j, v.checkedAt)
              ==> !sent && rows == old(rows) && deferUntil == old(deferUntil)
      ensures !Skipped(old(deferUntil), j, v.checkedAt) ==>
                var w := Classify(v.reply);
                && rows == AnswerRow(old(rows), j, w)
                && (var d := Delay(old(rows), j, w, v.draw);
                    deferUntil == Put(old(deferUntil) - {j}, j, v.repliedAt + d, d > 0.0))
      ensures rows.Keys == old(rows).Keys && forall i :: i in rows && i != j ==> rows[i] == old(rows)[i]
      ensures forall i, at :: i != j ==> Skipped(deferUntil, i, at) == Skipped(old(deferUntil), i, at)
      ensures !Skipped(old(deferUntil), j, v.checkedAt) && j in rows ==> AnsweredBy(old(rows)[j], v.reply, rows[j])
      ensures !Skipped(old(deferUntil), j, v.checkedAt) ==> DeferredBy(deferUntil, j, v)
      ensures sent <==> !Skipped(old(deferUntil), j, v.checkedAt) && Counts(v.reply)
    {
      ClassifyExact(v.reply);
      if j in rows { AnsweredExact(rows[j], v.reply, Answered(rows[j], Classify(v.reply))); }
      if 0.0 <= v.draw <= 1.0 { DeferralBounds(Asked(v.reply), if j in rows then rows[j].attempts + 1 else 0, v.draw); }
      sent := false;
      if j in deferUntil {
        if deferUntil[j] > v.checkedAt { return; }
      }
      deferUntil := deferUntil - {j};
      match v.reply
      case NoReply => Defer(j, 0.0, v.draw, v.repliedAt);
      case Response(status, conflict, current, gone, after) =>
        if status < 400 || status >= 600 {
          AckTerminal(j);
          sent := true;
        } else if status == 409 {
          if conflict || current == None {
            var _ := RetainOrDeadLetter(j);
          } else if Ackable(current.value) {
            AckTerminal(j);
            sent := true;
          } else {
            var _ := RetainOrDeadLetter(j);
          }
        } else if status == 404 {
          if gone { AckTerminal(j); } else { var _ := RetainOrDeadLetter(j); }
        } else if status == 408 || status == 429 || status >= 500 {
          Defer(j, after, v.draw, v.repliedAt);
        } else {
          var _ := RetainOrDeadLetter(j);
        }
    }

    method AckTerminal(j: int)
      modifies `rows
      ensures rows == AnswerRow(old(rows), j, Settle)
    {
      if j in rows { rows := rows[j := rows[j].(acked := true)]; }
    }

    /** Exactly the deferrals of pending rows survive, unchanged; so a pass skips the same
        rows after it as before. */
    method PruneDeferrals()
      modifies `deferUntil
      ensures forall j :: j in deferUntil <==> j in old(deferUntil) && Pending(rows, j)
      ensures forall j :: j in deferUntil ==> deferUntil[j] == old(deferUntil)[j]
      ensures forall j, at :: Pending(rows, j) ==> (Skipped(deferUntil, j, at) <==> Skipped(old(deferUntil), j, at))
    {
      deferUntil := map j | j in deferUntil && Pending(rows, j) :: deferUntil[j];
    }

    /** One pass over a page of pending rows: each row is answered once or skipped, and
        no other row is touched. */
    method DrainOnce(page: seq<int>, visits: seq<Visit>) returns (sent: nat)
      requires |page| == |visits| && Unique(page)
      requires forall i :: 0 <= i < |page| ==> Pending(rows, page[i])
      modifies this
      ensures rows.Keys == old(rows).Keys
      ensures forall j :: j in rows && j !in page ==> rows[j] == old(rows)[j]
      ensures forall i :: 0 <= i < |page| ==>
                page[i] in rows && VisitedBy(old(rows)[page[i]], old(deferUntil), page[i], visits[i], rows[page[i]])
      ensures sent == Sends(old(deferUntil), page, visits)
    {
      PruneDeferrals();
      sent := 0;
      for k := 0 to |page|
        invariant Visited(old(rows), old(deferUntil), page, visits, k, rows, deferUntil)
        invariant sent == Sends(old(deferUntil), page[..k], visits[..k])
      {
        ghost var before, defer := rows, deferUntil;
        var one := DrainEntry(page[k], visits[k]);
        VisitedNext(old(rows), old(deferUntil), page, visits, k, before, defer, rows, deferUntil);
        assert page[..k + 1][..k] == page[..k] && visits[..k + 1][..k] == visits[..k];
        if one { sent := sent + 1; }
      }
      assert page[..|page|] == page && visits[..|visits|] == visits;
    }
  }

  ghost predicate Unique(page: seq<int>) {
    forall i, k :: 0 <= i < k < |page| ==> page[i] != page[k]
  }

  /** The pass has visited the first `k` rows of its page; the others are as they were. */
  ghost predicate Visited(rows0: map<int, Row>, defer0: map<int, real>, page: seq<int>, visits: seq<Visit>, k: nat,
                          rows: map<int, Row>, defer: map<int, real>)
    requires k <= |page| == |visits|
  {
    && rows.Keys == rows0.Keys && (forall i :: 0 <= i < |page| ==> page[i] in rows)
    && (forall j :: j in rows && j !in page[..k] ==> rows[j] == rows0[j])
    && (forall i :: k <= i < |page| ==> Skipped(defer, page[i], visits[i].checkedAt) == Skipped(defer0, page[i], visits[i].checkedAt))
    && (forall i :: 0 <= i < k ==> VisitedBy(rows0[page[i]], defer0, page[i], visits[i], rows[page[i]]))
  }

  lemma VisitedNext(rows0: map<int, Row>, defer0: map<int, real>, page: seq<int>, visits: seq<Visit>, k: nat,
                    rows: map<int, Row>, defer: map<int, real>, rows': map<int, Row>, defer': map<int, real>)
    requires k < |page| == |visits| && Unique(page) && Visited(rows0, defer0, page, visits, k, rows, defer)
    requires rows'.Keys == rows.Keys && VisitedBy(rows[page[k]], defer, page[k], visits[k], rows'[page[k]])
    requires forall j :: j in rows && j != page[k] ==> rows'[j] == rows[j]
    requires forall j, at :: j != page[k] ==> Skipped(defer', j, at) == Skipped(defer, j, at)
    ensures Visited(rows0, defer0, page, visits, k + 1, rows', defer')
  {
    assert page[..k + 1] == page[..k] + [page[k]];
    assert page[k] !in page[..k];
    forall i | 0 <= i < k ensures VisitedBy(rows0[page[i]], defer0, page[i], visits[i], rows'[page[i]]) {
      assert rows'[page[i]] == rows[page[i]];
    }
  }

  // ---------------------------------------------------------------------------
  // Concurrent drains
  // ---------------------------------------------------------------------------

  /** Where a drain stands: looking a row up, removing its expired deferral, about to post,
      awaiting the reply; or pruning the table from a list of live rows it read before. */
  datatype Phase =
    | Idle
    | Popping(j: int, read: real)
    | Checked(j: int)
    | Sent(j: int)
    | Listed(live: set<int>)
    | Picked(stale: set<int>)

  /** `floor` records, for each row that was put off, the latest time it was put off to;
      `lost` the unexpired deferrals that were removed from the table or replaced by an
      earlier time; `replies` what the server answered to the drains for a row, `confirmed`
      the jobs whose own report got through. */
  datatype Sys = Sys(
    rows: map<int, Row>,
    defer: map<int, real>,
    threads: map<int, Phase>,
    now: real,
    floor: map<int, real>,
    lost: map<int, real>,
    replies: map<int, seq<Reply>>,
    confirmed: set<int>)

  datatype Event =
    | Wait(dt: real)
    | Enqueue(j: int, payload: int)
    | Confirm(j: int)
    | Check(t: int, j: int)
    | Pop(t: int)
    | Post(t: int)
    | Answer(t: int, reply: Reply, draw: real)
    | ListLive(t: int)
    | PickStale(t: int)
    | PopStale(t: int, j: int)
    | EndPrune(t: int)

  function At(s: Sys, t: int): Phase {
    if t in s.threads then s.threads[t] else Idle
  }

  function To(s: Sys, t: int, ph: Phase): Sys {
    s.(threads := s.threads[t := ph])
  }

  predicate After(m: map<int, real>, j: int, at: real) {
    j in m && m[j] > at
  }

  /** The later of a recorded time and `at`. */
  function Latest(m: map<int, real>, j: int, at: real): map<int, real> {
    if After(m, j, at) then m else m[j := at]
  }

  /** The deferral of `j` leaves the table, or gives way to the time `next`. */
  function Losing(s: Sys, j: int, next: real): map<int, real> {
    if After(s.defer, j, s.now) && After(s.defer, j, next) then Latest(s.lost, j, s.defer[j]) else s.lost
  }

  function Remove(s: Sys, j: int): Sys {
    s.(defer := s.defer - {j}, lost := Losing(s, j, s.now))
  }

  function PutOff(s: Sys, j: int, until: real): Sys {
    s.(defer := s.defer[j := until], lost := Losing(s, j, until), floor := Latest(s.floor, j, until))
  }

  function AnswerStep(s: Sys, t: int, j: int, v: Verdict, u: real): Sys {
    var s1 := To(s, t, Idle);
    if j !in s.rows then s1
    else if v == Settle then s1.(rows := AnswerRow(s.rows, j, Settle))
    else
      var d := Delay(s.rows, j, v, u);
      (if d > 0.0 then PutOff(s1, j, s.now + d) else s1).(rows := AnswerRow(s.rows, j, v))
  }

  function Heard(s: Sys, j: int, r: Reply): map<int, seq<Reply>> {
    if j in s.rows then s.replies[j := (if j in s.replies then s.replies[j] else []) + [r]] else s.replies
  }

  function Next(s: Sys, e: Event): Sys {
    match e
    case Wait(dt) => if dt >= 0.0 then s.(now := s.now + dt) else s
    case Enqueue(j, p) =>
      if j in s.rows then s else s.(rows := s.rows[j := Row(p, 0, false, false)], replies := s.replies[j := []])
    case Confirm(j) =>
      if j in s.rows then s.(rows := AnswerRow(s.rows, j, Settle), confirmed := s.confirmed + {j}) else s
    case Check(t, j) =>
      if At(s, t) != Idle || j !in s.rows then s
      else if j !in s.defer then To(s, t, Checked(j))
      else if s.defer[j] > s.now then s
      else To(s, t, Popping(j, s.defer[j]))
    case Pop(t) =>
      (match At(s, t) case Popping(j, _) => To(Remove(s, j), t, Checked(j)) case _ => s)
    case Post(t) =>
      (match At(s, t) case Checked(j) => To(s, t, Sent(j)) case _ => s)
    case Answer(t, reply, u) =>
      (match At(s, t)
       case Sent(j) => if 0.0 <= u <= 1.0 then AnswerStep(s, t, j, Classify(reply), u).(replies := Heard(s, j, reply)) else s
       case _ => s)
    case ListLive(t) =>
      if At(s, t) == Idle then To(s, t, Listed(set j | j in s.rows && Pending(s.rows, j))) else s
    case PickStale(t) =>
      (match At(s, t) case Listed(live) => To(s, t, Picked(set j | j in s.defer && j !in live)) case _ => s)
    case PopStale(t, j) =>
      (match At(s, t) case Picked(stale) => if j in stale then To(Remove(s, j), t, Picked(stale - {j})) else s case _ => s)
    case EndPrune(t) => if At(s, t) == Picked({}) then To(s, t, Idle) else s
  }

  function Exec(s: Sys, es: seq<Event>): Sys
    decreases |es|
  {
    if es == [] then s else Exec(Next(s, es[0]), es[1..])
  }

  const INIT := Sys(map[], map[], map[], 0.0, map[], map[], map[], {})

  // ---------------------------------------------------------------------------
  // Settled and dead rows, over any interleaving
  // ---------------------------------------------------------------------------

  /** The replies that did not settle the row. */
  function Failures(rs: seq<Reply>): nat {
    if rs == [] then 0 else Failures(rs[..|rs| - 1]) + if Settles(rs[|rs| - 1]) then 0 else 1
  }

  /** A refusal that came as the tenth failed attempt or later. */
  ghost predicate LateRefusal(rs: seq<Reply>) {
    exists k :: 0 <= k < |rs| && Refuses(rs[k]) && Failures(rs[..k + 1]) >= MAX_ATTEMPTS
  }

  ghost predicate Settled(rs: seq<Reply>) {
    exists k :: 0 <= k < |rs| && Settles(rs[k])
  }

  /** A row is acked exactly when a settling reply arrived or its report got through, its
      attempts are its failed ones, and it is dead exactly when a refusal came at or after
      the tenth of them. */
  ghost predicate RowsExact(s: Sys) {
    && s.confirmed <= s.rows.Keys
    && forall j :: j in s.rows ==>
         && j in s.replies
         && (s.rows[j].acked <==> j in s.confirmed || Settled(s.replies[j]))
         && s.rows[j].attempts == Failures(s.replies[j])
         && (s.rows[j].dead <==> LateRefusal(s.replies[j]))
  }

  lemma FailuresAppend(rs: seq<Reply>, r: Reply)
    ensures Failures(rs + [r]) == Failures(rs) + if Settles(r) then 0 else 1
  {
    assert (rs + [r])[..|rs|] == rs;
  }

  lemma SettledAppend(rs: seq<Reply>, r: Reply)
    ensures Settled(rs + [r]) <==> Settled(rs) || Settles(r)
  {
    var g := rs + [r];
    assert g[|rs|] == r && forall k :: 0 <= k < |rs| ==> g[k] == rs[k];
  }

  lemma PrefixSame(rs: seq<Reply>, r: Reply, k: nat)
    requires k < |rs|
    ensures (rs + [r])[k] == rs[k] && (rs + [r])[..k + 1] == rs[..k + 1]
  {
  }

  lemma LateStays(rs: seq<Reply>, r: Reply)
    requires LateRefusal(rs)
    ensures LateRefusal(rs + [r])
  {
    var k :| 0 <= k < |rs| && Refuses(rs[k]) && Failures(rs[..k + 1]) >= MAX_ATTEMPTS;
    PrefixSame(rs, r, k);
    assert Refuses((rs + [r])[k]);
  }

  lemma LateLast(rs: seq<Reply>, r: Reply)
    requires Refuses(r) && Failures(rs) + 1 >= MAX_ATTEMPTS
    ensures LateRefusal(rs + [r])
  {
    var g := rs + [r];
    FailuresAppend(rs, r);
    assert Refuses(g[|rs|]) && g[..|rs| + 1] == g;
  }

  lemma LateOnlySo(rs: seq<Reply>, r: Reply)
    requires LateRefusal(rs + [r]) && !LateRefusal(rs)
    ensures Refuses(r) && Failures(rs) + 1 >= MAX_ATTEMPTS
  {
    var g := rs + [r];
    var k :| 0 <= k < |g| && Refuses(g[k]) && Failures(g[..k + 1]) >= MAX_ATTEMPTS;
    if k < |rs| {
      PrefixSame(rs, r, k);
    } else {
      assert g[..k + 1] == g;
      FailuresAppend(rs, r);
    }
  }

  lemma LateRefusalAppend(rs: seq<Reply>, r: Reply)
    ensures LateRefusal(rs + [r]) <==> LateRefusal(rs) || (Refuses(r) && Failures(rs) + 1 >= MAX_ATTEMPTS)
  {
    if LateRefusal(rs) {
      LateStays(rs, r);
    } else if LateRefusal(rs + [r]) {
      LateOnlySo(rs, r);
    } else if Refuses(r) && Failures(rs) + 1 >= MAX_ATTEMPTS {
      LateLast(rs, r);
    }
  }

  lemma AnswerRows(s: Sys, t: int, j: int, reply: Reply, u: real)
    requires RowsExact(s)
    ensures RowsExact(AnswerStep(s, t, j, Classify(reply), u).(replies := Heard(s, j, reply)))
  {
    ClassifyExact(reply);
    if j in s.rows { FailuresAppend(s.replies[j], reply); SettledAppend(s.replies[j], reply); LateRefusalAppend(s.replies[j], reply); }
  }

  lemma NoHistory()
    ensures !Settled([]) && !LateRefusal([]) && Failures([]) == 0
  {
  }

  lemma RowsStep(s: Sys, e: Event)
    requires RowsExact(s)
    ensures RowsExact(Next(s, e))
  {
    NoHistory();
    if e.Answer? && At(s, e.t).Sent? { AnswerRows(s, e.t, At(s, e.t).j, e.reply, e.draw); }
  }

  /** Over any interleaving of drains: a row is acked exactly if a reply settled it or its
      own report got through, and dead-lettered exactly if the server refused it at or after
      its tenth failed attempt. */
  lemma {:induction false} RowsRun(s: Sys, es: seq<Event>)
    requires RowsExact(s)
    ensures RowsExact(Exec(s, es))
    decreases |es|
  {
    if es != [] {
      RowsStep(s, es[0]);
      RowsRun(Next(s, es[0]), es[1..]);
    }
  }

  /** Every answer is an error that may pass: 408, 429, 500 to 599, or no answer. */
  ghost predicate OnlyTransient(es: seq<Event>) {
    forall i :: 0 <= i < |es| && es[i].Answer? ==>
      es[i].reply.NoReply? || es[i].reply.status in {408, 429} || 500 <= es[i].reply.status <= 599
  }

  lemma OverloadStep(s: Sys, e: Event, j: int)
    requires OnlyTransient([e]) && j in s.rows
    ensures var t := Next(s, e);
            j in t.rows && t.rows[j].dead == s.rows[j].dead && (t.rows[j].acked ==> s.rows[j].acked || e == Confirm(j))
  {
    if e.Answer? {
      assert [e][0] == e;
      ClassifyExact(e.reply);
    }
  }

  /** However long the server is overloaded or unreachable, no drain dead-letters a row or
      takes it for delivered. */
  lemma {:induction false} OverloadNeverKills(s: Sys, es: seq<Event>, j: int)
    requires OnlyTransient(es) && j in s.rows
    ensures var t := Exec(s, es);
            && j in t.rows && t.rows[j].dead == s.rows[j].dead
            && (t.rows[j].acked ==> s.rows[j].acked || Confirm(j) in es)
    decreases |es|
  {
    if es != [] {
      assert es == [es[0]] + es[1..];
      assert OnlyTransient([es[0]]) by { assert es[0] == [es[0]][0]; }
      OverloadStep(s, es[0], j);
      OverloadNeverKills(Next(s, es[0]), es[1..], j);
    }
  }

  // ---------------------------------------------------------------------------
  // Deferrals
  // ---------------------------------------------------------------------------

  /** The step posts a pending row before a time it was put off to. */
  ghost predicate Early(s: Sys, e: Event) {
    e.Post? && At(s, e.t).Checked? && Pending(s.rows, At(s, e.t).j) && After(s.floor, At(s, e.t).j, s.now)
  }

  /** The table holds an unexpired deferral of the row about to be posted (it was written
      after this thread's look-up), or it has lost one: another thread removed it on the
      strength of what it had read before, or replaced it by an earlier time. */
  predicate Overtaken(s: Sys, e: Event) {
    e.Post? && At(s, e.t).Checked? && Pending(s.rows, At(s, e.t).j)
    && (After(s.defer, At(s, e.t).j, s.now) || After(s.lost, At(s, e.t).j, s.now))
  }

  /** The times rows were put off to, as far as they lie ahead, are in the table or known
      to be lost from it. */
  ghost predicate Honoured(s: Sys) {
    && s.defer.Keys <= s.rows.Keys
    && (forall j :: After(s.defer, j, s.now) ==> j in s.floor && s.defer[j] <= s.floor[j])
    && (forall j :: After(s.lost, j, s.now) ==> j in s.floor && s.lost[j] <= s.floor[j])
    && (forall j :: After(s.floor, j, s.now) ==>
          (j in s.defer && s.defer[j] == s.floor[j]) || (j in s.lost && s.lost[j] == s.floor[j]))
  }

  lemma RemoveHonoured(s: Sys, j: int)
    requires Honoured(s)
    ensures Honoured(Remove(s, j))
  {
  }

  lemma PutOffHonoured(s: Sys, j: int, until: real)
    requires Honoured(s) && j in s.rows && until > s.now
    ensures Honoured(PutOff(s, j, until))
  {
  }

  /** The times and the table are left alone, or at most grow. */
  predicate SameTimes(s: Sys, s': Sys) {
    s'.defer == s.defer && s'.floor == s.floor && s'.lost == s.lost && s'.now >= s.now && s.rows.Keys <= s'.rows.Keys
  }

  /** Only the table, the clock and the recorded times matter. */
  lemma SameTimesHonoured(s: Sys, s': Sys)
    requires Honoured(s) && SameTimes(s, s')
    ensures Honoured(s')
  {
  }

  /** What a reply does to the recorded times. */
  function Timed(s: Sys, j: int, v: Verdict, u: real): Sys {
    var d := Delay(s.rows, j, v, u);
    if j in s.rows && v != Settle && d > 0.0 then PutOff(s, j, s.now + d) else s
  }

  lemma AnswerTimes(s: Sys, t: int, j: int, v: Verdict, u: real)
    ensures SameTimes(Timed(s, j, v, u), AnswerStep(s, t, j, v, u))
  {
  }

  lemma TimedHonoured(s: Sys, j: int, v: Verdict, u: real)
    requires Honoured(s)
    ensures Honoured(Timed(s, j, v, u))
  {
    var d := Delay(s.rows, j, v, u);
    if j in s.rows && v != Settle && d > 0.0 { PutOffHonoured(s, j, s.now + d); }
  }

  lemma AnswerHonoured(s: Sys, t: int, j: int, v: Verdict, u: real)
    requires Honoured(s)
    ensures Honoured(AnswerStep(s, t, j, v, u))
  {
    TimedHonoured(s, j, v, u);
    AnswerTimes(s, t, j, v, u);
    SameTimesHonoured(Timed(s, j, v, u), AnswerStep(s, t, j, v, u));
  }

  lemma PopHonoured(s: Sys, t: int)
    requires Honoured(s)
    ensures Honoured(Next(s, Pop(t)))
  {
    if At(s, t).Popping? {
      RemoveHonoured(s, At(s, t).j);
      SameTimesHonoured(Remove(s, At(s, t).j), Next(s, Pop(t)));
    }
  }

  lemma PruneHonoured(s: Sys, t: int, j: int)
    requires Honoured(s)
    ensures Honoured(Next(s, PopStale(t, j)))
  {
    if At(s, t).Picked? && j in At(s, t).stale {
      RemoveHonoured(s, j);
      SameTimesHonoured(Remove(s, j), Next(s, PopStale(t, j)));
    }
  }

  lemma ElseHonoured(s: Sys, e: Event)
    requires Honoured(s) && !e.Answer? && !e.Pop? && !e.PopStale?
    ensures Honoured(Next(s, e))
  {
    ElseTimes(s, e);
    SameTimesHonoured(s, Next(s, e));
  }

  lemma ThreadTimes(s: Sys, e: Event)
    requires e.Check? || e.Post? || e.ListLive? || e.PickStale? || e.EndPrune?
    ensures SameTimes(s, Next(s, e))
  {
  }

  lemma TableTimes(s: Sys, e: Event)
    requires e.Wait? || e.Enqueue? || e.Confirm?
    ensures SameTimes(s, Next(s, e))
  {
  }

  lemma ElseTimes(s: Sys, e: Event)
    requires !e.Answer? && !e.Pop? && !e.PopStale?
    ensures SameTimes(s, Next(s, e))
  {
    if e.Wait? || e.Enqueue? || e.Confirm? { TableTimes(s, e); } else { ThreadTimes(s, e); }
  }

  lemma HonouredStep(s: Sys, e: Event)
    requires Honoured(s)
    ensures Honoured(Next(s, e))
  {
    match e
    case Answer(t, reply, u) =>
      if At(s, t).Sent? && 0.0 <= u <= 1.0 { AnswerHonoured(s, t, At(s, t).j, Classify(reply), u); }
    case Pop(t) => PopHonoured(s, t);
    case PopStale(t, j) => PruneHonoured(s, t, j);
    case _ => ElseHonoured(s, e);
  }

  /** A row refused with `Retry-After` is put off at least that long, up to the cap, and
      never beyond the cap; so is one refused without, though perhaps not at all. */
  lemma RefusedRowWaits(s: Sys, t: int, j: int, reply: Reply, u: real)
    requires At(s, t) == Sent(j) && j in s.rows && 0.0 <= u <= 1.0 && !Settles(reply) && !Refuses(reply)
    ensures var s' := Next(s, Answer(t, reply, u));
            && (0.0 < Asked(reply) ==>
                  && j in s'.floor && j in s'.defer && s'.defer[j] <= s'.floor[j]
                  && (Asked(reply) <= MAX_RETRY_AFTER ==> s.now + Asked(reply) <= s'.defer[j])
                  && (Asked(reply) > MAX_RETRY_AFTER ==> s'.defer[j] == s.now + MAX_RETRY_AFTER))
            && (j in s'.defer && j !in s.defer ==> s.now < s'.defer[j] <= s.now + MAX_RETRY_AFTER)
            && Pending(s'.rows, j) == Pending(s.rows, j)
  {
    ClassifyExact(reply);
    DeferralBounds(Asked(reply), s.rows[j].attempts + 1, u);
  }

  ghost predicate NeverEarly(s: Sys, es: seq<Event>)
    decreases |es|
  {
    es == [] || (!Early(s, es[0]) && NeverEarly(Next(s, es[0]), es[1..]))
  }

  ghost predicate NeverOvertaken(s: Sys, es: seq<Event>)
    decreases |es|
  {
    es == [] || (!Overtaken(s, es[0]) && NeverOvertaken(Next(s, es[0]), es[1..]))
  }

  /** Over any interleaving of look-ups, removals, posts, replies and prunes: no row is
      posted before a time it was put off to exactly when no thread posts one whose
      unexpired deferral was written after its look-up, or was lost from the table. */
  lemma {:induction false} DeferralRunExact(s: Sys, es: seq<Event>)
    requires Honoured(s)
    ensures NeverEarly(s, es) <==> NeverOvertaken(s, es)
    decreases |es|
  {
    if es != [] {
      HonouredStep(s, es[0]);
      assert Early(s, es[0]) <==> Overtaken(s, es[0]);
      DeferralRunExact(Next(s, es[0]), es[1..]);
    }
  }

  /** A drain step in the run is one of thread `t`. */
  predicate By(e: Event, t: int) {
    match e
    case Wait(_) => true
    case Enqueue(_, _) => true
    case Confirm(_) => true
    case _ => e.t == t
  }

  predicate OnlyThread(es: seq<Event>, t: int) {
    forall i :: 0 <= i < |es| ==> By(es[i], t)
  }

  /** With one drain at work: nothing is lost, the row in its hands has no deferral but an
      expired one, and its list of live rows is good for every deferral in the table. */
  ghost predicate Alone(s: Sys, t: int) {
    && s.defer.Keys <= s.rows.Keys && s.lost.Keys <= s.rows.Keys
    && (forall x :: x != t ==> At(s, x) == Idle)
    && (forall j :: After(s.lost, j, s.now) ==> !Pending(s.rows, j))
    && (match At(s, t)
        case Idle => true
        case Popping(j, read) => read <= s.now && (j in s.defer ==> s.defer[j] == read)
        case Checked(j) => j !in s.defer
        case Sent(j) => j !in s.defer
        case Listed(live) => forall j :: j in s.defer && j !in live ==> !Pending(s.rows, j)
        case Picked(stale) => forall j :: j in stale ==> j in s.rows && !Pending(s.rows, j))
  }

  lemma AloneAnswer(s: Sys, t: int, j: int, v: Verdict, u: real)
    requires Alone(s, t) && At(s, t) == Sent(j)
    ensures Alone(AnswerStep(s, t, j, v, u), t)
  {
    var s' := AnswerStep(s, t, j, v, u);
    forall x | x != t ensures At(s', x) == Idle { assert At(s, x) == Idle; }
    forall k | After(s'.lost, k, s'.now) ensures !Pending(s'.rows, k) { assert After(s.lost, k, s.now); }
  }

  lemma AloneHistory(s: Sys, rs: map<int, seq<Reply>>, t: int)
    requires Alone(s, t)
    ensures Alone(s.(replies := rs), t)
  {
    forall x | x != t ensures At(s.(replies := rs), x) == Idle { assert At(s, x) == Idle; }
  }

  lemma AlonePrune(s: Sys, e: Event, t: int)
    requires Alone(s, t) && By(e, t) && (e.ListLive? || e.PickStale? || e.PopStale? || e.EndPrune?)
    ensures Alone(Next(s, e), t)
  {
    var s' := Next(s, e);
    forall x | x != t ensures At(s', x) == Idle { assert At(s, x) == Idle; }
  }

  lemma AloneOutside(s: Sys, e: Event, t: int)
    requires Alone(s, t) && (e.Wait? || e.Enqueue? || e.Confirm?)
    ensures Alone(Next(s, e), t)
  {
    ElseTimes(s, e);
    OutsideKeeps(s, e);
    SettledStay(s, Next(s, e), t);
  }

  lemma OutsideKeeps(s: Sys, e: Event)
    requires e.Wait? || e.Enqueue? || e.Confirm?
    ensures Next(s, e).threads == s.threads
    ensures forall j :: j in s.rows && !Pending(s.rows, j) ==> !Pending(Next(s, e).rows, j)
  {
  }

  /** Rows that are not pending stay so. */
  lemma SettledStay(s: Sys, s': Sys, t: int)
    requires Alone(s, t) && s'.threads == s.threads && s'.defer == s.defer && s'.lost == s.lost && s'.now >= s.now
    requires s.rows.Keys <= s'.rows.Keys && forall j :: j in s.rows && !Pending(s.rows, j) ==> !Pending(s'.rows, j)
    ensures Alone(s', t)
  {
    forall x | x != t ensures At(s', x) == Idle { assert At(s, x) == Idle; }
    assert At(s', t) == At(s, t);
  }

  lemma AloneCheck(s: Sys, j: int, t: int)
    requires Alone(s, t)
    ensures Alone(Next(s, Check(t, j)), t)
  {
    var s' := Next(s, Check(t, j));
    forall x | x != t ensures At(s', x) == Idle { assert At(s, x) == Idle; }
  }

  lemma AlonePost(s: Sys, e: Event, t: int)
    requires Alone(s, t) && (e == Pop(t) || e == Post(t))
    ensures Alone(Next(s, e), t) && !Overtaken(s, e)
  {
    var s' := Next(s, e);
    forall x | x != t ensures At(s', x) == Idle { assert At(s, x) == Idle; }
  }

  lemma AloneStep(s: Sys, e: Event, t: int)
    requires Alone(s, t) && By(e, t)
    ensures Alone(Next(s, e), t) && !Overtaken(s, e)
  {
    match e
    case Answer(_, reply, u) => 
      if At(s, t).Sent? {
        var v := Classify(reply);
        AloneAnswer(s, t, At(s, t).j, v, u);
        AloneHistory(AnswerStep(s, t, At(s, t).j, v, u), Next(s, e).replies, t);
      }
    case Check(_, j) => AloneCheck(s, j, t);
    case Pop(_) => AlonePost(s, e, t);
    case Post(_) => AlonePost(s, e, t);
    case Wait(_) => AloneOutside(s, e, t);
    case Enqueue(_, _) => AloneOutside(s, e, t);
    case Confirm(_) => AloneOutside(s, e, t);
    case _ => AlonePrune(s, e, t);
  }

  /** A single drain never posts a row early. */
  lemma {:induction false} SingleDrainOnTime(s: Sys, es: seq<Event>, t: int)
    requires Honoured(s) && Alone(s, t) && OnlyThread(es, t)
    ensures NeverEarly(s, es)
    decreases |es|
  {
    if es != [] {
      assert By(es[0], t);
      HonouredStep(s, es[0]);
      AloneStep(s, es[0], t);
      SingleDrainOnTime(Next(s, es[0]), es[1..], t);
    }
  }

  lemma InitAlone(t: int)
    ensures Honoured(INIT) && Alone(INIT, t) && RowsExact(INIT)
  {
  }

  lemma {:induction false} ExecTrace(ss: seq<Sys>, es: seq<Event>)
    requires |ss| == |es| + 1
    requires forall i :: 0 <= i < |es| ==> ss[i + 1] == Next(ss[i], es[i])
    ensures Exec(ss[0], es) == ss[|es|]
    decreases |es|
  {
    if es != [] { ExecTrace(ss[1..], es[1..]); }
  }

  /** A refusal with `Retry-After` puts the row off and leaves other threads where they are. */
  lemma BusyDefers(s: Sys, t: int, x: int, j: int, after: real)
    requires At(s, t) == Sent(j) && t != x && Pending(s.rows, j) && after > 0.0
    ensures var s' := Next(s, Answer(t, Response(503, false, None, false, after), 0.0));
            At(s', x) == At(s, x) && Pending(s'.rows, j) && After(s'.floor, j, s'.now) && After(s'.defer, j, s'.now)
  {
    DeferralBounds(after, s.rows[j].attempts + 1, 0.0);
  }

  /** Two drains both look a row up and find nothing; the first posts and is refused with
      `Retry-After`; the second posts at once. */
  lemma TwoLookUpsPostEarly(s: Sys, t: int, x: int, j: int, after: real)
    requires At(s, t) == Idle && At(s, x) == Idle && t != x && Pending(s.rows, j) && j !in s.defer && after > 0.0
    ensures var busy := Response(503, false, None, false, after);
            var u := Exec(s, [Check(t, j), Check(x, j), Post(t), Answer(t, busy, 0.0)]);
            Early(u, Post(x)) && Overtaken(u, Post(x))
  {
    var es := [Check(t, j), Check(x, j), Post(t), Answer(t, Response(503, false, None, false, after), 0.0)];
    var s1 := Next(s, es[0]);
    var s2 := Next(s1, es[1]);
    var s3 := Next(s2, es[2]);
    assert At(s3, t) == Sent(j) && At(s3, x) == Checked(j);
    BusyDefers(s3, t, x, j, after);
    ExecTrace([s, s1, s2, s3, Next(s3, es[3])], es);
  }

  lemma BothReadExpired(s: Sys, t: int, x: int, j: int)
    requires At(s, t) == Idle && At(s, x) == Idle && t != x && Pending(s.rows, j) && j in s.defer && s.defer[j] <= s.now
    ensures var u := Exec(s, [Check(t, j), Check(x, j), Pop(t), Post(t)]);
            At(u, t) == Sent(j) && At(u, x) == Popping(j, s.defer[j]) && u.rows == s.rows
  {
    var es := [Check(t, j), Check(x, j), Pop(t), Post(t)];
    var s1 := Next(s, es[0]);
    var s2 := Next(s1, es[1]);
    var s3 := Next(s2, es[2]);
    assert At(s3, t) == Checked(j) && At(s3, x) == Popping(j, s.defer[j]);
    ExecTrace([s, s1, s2, s3, Next(s3, es[3])], es);
  }

  /** Both read the expired entry; the first removes it, posts and is refused; the second
      removes the new deferral in its stead and posts. */
  lemma StalePopPostsEarly(s: Sys, t: int, x: int, j: int, after: real)
    requires At(s, t) == Idle && At(s, x) == Idle && t != x && Pending(s.rows, j)
    requires j in s.defer && s.defer[j] <= s.now && after > 0.0
    ensures var u := Exec(s, [Check(t, j), Check(x, j), Pop(t), Post(t)]);
            var v := Exec(u, [Answer(t, Response(503, false, None, false, after), 0.0), Pop(x)]);
            Early(v, Post(x)) && j !in v.defer
  {
    BothReadExpired(s, t, x, j);
    var u := Exec(s, [Check(t, j), Check(x, j), Pop(t), Post(t)]);
    BusyDefers(u, t, x, j, after);
    var fs := [Answer(t, Response(503, false, None, false, after), 0.0), Pop(x)];
    var u1 := Next(u, fs[0]);
    ExecTrace([u, u1, Next(u1, fs[1])], fs);
  }

  lemma PruneLoses(u: Sys, t: int, x: int, j: int)
    requires At(u, t) == Idle && At(u, x).Listed? && j !in At(u, x).live && t != x
    requires Pending(u.rows, j) && After(u.defer, j, u.now) && After(u.floor, j, u.now)
    ensures Early(Exec(u, [PickStale(x), PopStale(x, j), Check(t, j)]), Post(t))
  {
    var fs := [PickStale(x), PopStale(x, j), Check(t, j)];
    var u1 := Next(u, fs[0]);
    var u2 := Next(u1, fs[1]);
    assert j !in u2.defer && At(u2, t) == Idle;
    ExecTrace([u, u1, u2, Next(u2, fs[2])], fs);
  }

  lemma QueuedAndRefused(s: Sys, t: int, x: int, j: int, payload: int, after: real)
    requires At(s, t) == Idle && At(s, x).Listed? && t != x && j !in s.rows && j !in s.defer && after > 0.0
    ensures var u := Exec(s, [Enqueue(j, payload), Check(t, j), Post(t), Answer(t, Response(503, false, None, false, after), 0.0)]);
            && At(u, t) == Idle && At(u, x) == At(s, x)
            && Pending(u.rows, j) && After(u.floor, j, u.now) && After(u.defer, j, u.now)
  {
    var es := [Enqueue(j, payload), Check(t, j), Post(t), Answer(t, Response(503, false, None, false, after), 0.0)];
    var s1 := Next(s, es[0]);
    var s2 := Next(s1, es[1]);
    var s3 := Next(s2, es[2]);
    assert At(s3, t) == Sent(j);
    BusyDefers(s3, t, x, j, after);
    var s4 := Next(s3, es[3]);
    assert At(s4, t) == Idle;
    ExecTrace([s, s1, s2, s3, s4], es);
  }

  /** A row that is queued after a prune listed the live ones, and then posted and refused,
      loses its deferral to that prune and is posted again at once. */
  lemma StalePruneLosesDeferral(s: Sys, t: int, x: int, j: int, payload: int, after: real)
    requires At(s, t) == Idle && At(s, x) == Idle && t != x && j !in s.rows && j !in s.defer && after > 0.0
    ensures var u := Exec(Next(s, ListLive(x)),
                          [Enqueue(j, payload), Check(t, j), Post(t), Answer(t, Response(503, false, None, false, after), 0.0)]);
            && After(u.defer, j, u.now)
            && Early(Exec(u, [PickStale(x), PopStale(x, j), Check(t, j)]), Post(t))
  {
    var s1 := Next(s, ListLive(x));
    assert At(s1, x).Listed? && j !in At(s1, x).live && At(s1, t) == Idle;
    QueuedAndRefused(s1, t, x, j, payload, after);
    PruneLoses(Exec(s1, [Enqueue(j, payload), Check(t, j), Post(t), Answer(t, Response(503, false, None, false, after), 0.0)]), t, x, j);
  }
}
