/** The step-trace uploader: a cursor over a table of rows, batches read in timestamp order,
    one-by-one resolution of a rejected batch, attempts and dead letters; with the upload
    thread and blocking drains working on the same table. */
module StepTrace {

  const BATCH_LIMIT := 100
  const MAX_ATTEMPTS := 10

  // The id of a row is its position plus one; a cursor `c` has passed the first `c` rows.
  datatype Row = Row(ts: int, attempts: nat, acked: bool, dead: bool)

  predicate Resolved(r: Row) { r.acked || r.dead }

  function Acked(r: Row): Row { r.(acked := true) }

  function Bumped(r: Row): Row {
    r.(attempts := r.attempts + 1, dead := r.dead || r.attempts + 1 >= MAX_ATTEMPTS)
  }

  /** No row at or below the cursor is unresolved. */
  ghost predicate Passed(rows: seq<Row>, cursor: nat) {
    cursor <= |rows| && forall i :: 0 <= i < cursor ==> Resolved(rows[i])
  }

  /** The timestamps of unresolved rows follow their ids. */
  ghost predicate InOrder(rows: seq<Row>) {
    forall i, j :: 0 <= i < j < |rows| && !Resolved(rows[i]) && !Resolved(rows[j]) ==> rows[i].ts <= rows[j].ts
  }

  predicate Before(rows: seq<Row>, i: nat, j: nat)
    requires i < |rows| && j < |rows|
  {
    rows[i].ts < rows[j].ts || (rows[i].ts == rows[j].ts && i < j)
  }

  predicate Waiting(rows: seq<Row>, cursor: nat, i: nat) {
    cursor <= i < |rows| && !Resolved(rows[i])
  }

  /** The rows one round works on: the earliest waiting rows by timestamp, up to the limit. */
  ghost predicate IsPage(rows: seq<Row>, cursor: nat, page: seq<nat>) {
    && |page| <= BATCH_LIMIT
    && (forall k :: 0 <= k < |page| ==> Waiting(rows, cursor, page[k]))
    && (forall k, l :: 0 <= k < l < |page| ==> Before(rows, page[k], page[l]))
    && (forall i, k :: Waiting(rows, cursor, i) && i !in page && 0 <= k < |page| ==> Before(rows, page[k], i))
    && (|page| < BATCH_LIMIT ==> forall i :: Waiting(rows, cursor, i) ==> i in page)
  }

  // ---------------------------------------------------------------------------
  // One round
  // ---------------------------------------------------------------------------

  datatype Reply = Accepted | Rejected | Refused

  /** What came of a request: a status, or no answer at all. */
  datatype Post = Status(code: int) | NoAnswer

  function ReplyOf(p: Post): Reply {
    match p
    case NoAnswer => Refused
    case Status(code) =>
      if code == 404 || code == 409 then Rejected else if 400 <= code < 600 then Refused else Accepted
  }

  function Replies(ps: seq<Post>): (r: seq<Reply>)
    ensures |r| == |ps|
  {
    seq(|ps|, i requires 0 <= i < |ps| => ReplyOf(ps[i]))
  }

  /** The row is taken off the table's hands: stored by the server, or known to be refused
      for good. */
  predicate Settles(p: Post) {
    p.Status? && (p.code in {404, 409} || !(400 <= p.code < 600))
  }

  /** What happened to a batch: settled as a whole, refused as a whole, or taken row by row
      up to the first refusal. */
  datatype Outcome = All | NoneTaken | FirstTaken(n: nat)

  function Taken(singles: seq<Reply>, n: nat): (k: nat)
    ensures k <= n
    ensures forall i :: 0 <= i < k && i < |singles| ==> singles[i] != Refused
    ensures k < n ==> k >= |singles| || singles[k] == Refused
  {
    if n == 0 || singles == [] || singles[0] == Refused then 0 else 1 + Taken(singles[1..], n - 1)
  }

  function OutcomeOf(page: seq<nat>, reply: Reply, singles: seq<Reply>): Outcome {
    match reply
    case Accepted => All
    case Refused => NoneTaken
    case Rejected =>
      if |page| == 1 || Taken(singles, |page|) == |page| then All else FirstTaken(Taken(singles, |page|))
  }

  function Max(a: nat, b: nat): nat { if a < b then b else a }

  function Top(page: seq<nat>): (m: nat)
    ensures forall k :: 0 <= k < |page| ==> page[k] < m
    ensures page != [] ==> m > 0 && m - 1 in page
  {
    if page == [] then 0 else Max(page[0] + 1, Top(page[1..]))
  }

  /** The cursor `c` moved on to `c'` over the first `n` rows of the page. */
  ghost predicate Reached(page: seq<nat>, n: nat, c: nat, c': nat)
    requires n <= |page|
  {
    && c <= c'
    && (forall k :: 0 <= k < n ==> page[k] < c')
    && (c' == c || exists k :: 0 <= k < n && c' == page[k] + 1)
  }

  lemma ReachedAll(page: seq<nat>, c: nat, c': nat)
    requires Reached(page, |page|, c, c')
    ensures c' == Max(c, Top(page))
  {
    if page != [] {
      var k :| 0 <= k < |page| && page[k] == Top(page) - 1;
    }
  }

  /** The table after the first `n` rows of the page were acked and the next ones up to `m`
      charged an attempt. */
  ghost predicate Worked(rows: seq<Row>, page: seq<nat>, n: nat, m: nat, rows': seq<Row>)
    requires n <= m <= |page|
  {
    && |rows'| == |rows|
    && forall i :: 0 <= i < |rows| ==>
         rows'[i] == if i in page[..n] then Acked(rows[i]) else if i in page[n..m] then Bumped(rows[i]) else rows[i]
  }

  /** The first `n` rows of the page are acked and nothing else changed. */
  ghost predicate Settled(rows: seq<Row>, page: seq<nat>, n: nat, rows': seq<Row>)
    requires n <= |page|
  {
    && |rows'| == |rows|
    && forall i :: 0 <= i < |rows| ==> rows'[i] == if i in page[..n] then Acked(rows[i]) else rows[i]
  }

  lemma SettledNext(rows: seq<Row>, page: seq<nat>, n: nat, now: seq<Row>)
    requires n < |page| && Settled(rows, page, n, now) && page[n] < |rows|
    ensures Settled(rows, page, n + 1, now[page[n] := Acked(now[page[n]])])
  {
    assert page[..n + 1] == page[..n] + [page[n]];
  }

  lemma SettledAll(rows: seq<Row>, page: seq<nat>, now: seq<Row>)
    requires Settled(rows, page, |page|, now)
    ensures Worked(rows, page, |page|, |page|, now)
  {
  }

  ghost predicate Distinct(page: seq<nat>) {
    forall k, l :: 0 <= k < l < |page| ==> page[k] != page[l]
  }

  ghost predicate Inside(rows: seq<Row>, page: seq<nat>) {
    forall k :: 0 <= k < |page| ==> page[k] < |rows|
  }

  class StepTraceUploader {
    var rows: seq<Row>
    var lastId: nat

    constructor (table: seq<Row>)
      ensures rows == table && lastId == 0
    {
      rows, lastId := table, 0;
    }

    method MarkAcked(i: nat)
      modifies `rows
      ensures rows == if i < |old(rows)| then old(rows)[i := Acked(old(rows)[i])] else old(rows)
    {
      if i < |rows| { rows := rows[i := rows[i].(acked := true)]; }
    }

    method BumpOrDeadLetterBatch(page: seq<nat>, n: nat)
      requires n <= |page| && Distinct(page) && Inside(rows, page)
      modifies `rows
      ensures |rows| == |old(rows)|
      ensures forall i :: 0 <= i < |rows| ==> rows[i] == if i in page[n..] then Bumped(old(rows)[i]) else old(rows)[i]
    {
      for k := n to |page|
        invariant |rows| == |old(rows)|
        invariant forall i :: 0 <= i < |rows| ==> rows[i] == if i in page[n..k] then Bumped(old(rows)[i]) else old(rows)[i]
      {
        assert page[n..k + 1] == page[n..k] + [page[k]];
        assert page[k] !in page[n..k];
        var r := rows[page[k]];
        var attempts := r.attempts + 1;
        rows := rows[page[k] := r.(attempts := attempts)];
        if attempts >= MAX_ATTEMPTS { rows := rows[page[k] := rows[page[k]].(dead := true)]; }
      }
      assert page[n..|page|] == page[n..];
    }

    /** Rows are taken one by one up to the first that is not settled; that one and the rest
        are charged. */
    method ResolveRejectedBatch(page: seq<nat>, singles: seq<Post>) returns (resolved: nat)
      requires page != [] && Distinct(page) && Inside(rows, page) && |singles| >= |page|
      modifies this
      ensures resolved == if |page| == 1 then 1 else Taken(Replies(singles), |page|)
      ensures |page| == 1 || (forall i :: 0 <= i < resolved ==> Settles(singles[i]))
      ensures resolved < |page| ==> !Settles(singles[resolved])
      ensures resolved <= |page| && Worked(old(rows), page, resolved, |page|, rows)
      ensures lastId == if resolved == |page| then Max(old(lastId), Top(page)) else old(lastId)
    {
      if |page| == 1 {
        MarkAcked(page[0]);
        lastId := Max(lastId, page[0] + 1);
        assert page[1..] == [] && page[..1] == page;
        return 1;
      }
      resolved := 0;
      while resolved < |page| && ReplyOf(singles[resolved]) != Refused
        invariant resolved <= |page| && |rows| == |old(rows)| && lastId == old(lastId)
        invariant Settled(old(rows), page, resolved, rows)
        invariant forall i :: 0 <= i < resolved ==> Replies(singles)[i] != Refused
      {
        SettledNext(old(rows), page, resolved, rows);
        MarkAcked(page[resolved]);
        resolved := resolved + 1;
      }
      assert resolved < |page| ==> Replies(singles)[resolved] == Refused;
      assert Taken(Replies(singles), |page|) == resolved;
      assert forall i :: 0 <= i < resolved ==> ReplyOf(singles[i]) == Replies(singles)[i];
      assert forall i :: i in page[..resolved] ==> i !in page[resolved..];
      if resolved == |page| {
        lastId := Max(lastId, Top(page));
      } else {
        BumpOrDeadLetterBatch(page, resolved);
      }
      assert page[resolved..|page|] == page[resolved..];
    }

    /** The earliest waiting rows, up to the limit. */
    method GetUnackedTraces() returns (page: seq<nat>)
      ensures IsPage(rows, lastId, page)
      ensures page == [] ==> forall i :: !Waiting(rows, lastId, i)
    {
      page := PageOf(rows, lastId);
      PageOfIsPage(rows, lastId);
      if page == [] {
        forall i ensures !Waiting(rows, lastId, i) { assert Waiting(rows, lastId, i) ==> i in page; }
      }
    }

    /** One round; `n` is the number of rows it acked, `failed` the exception raised towards
        the caller. */
    method UploadOnce(post: Post, singles: seq<Post>) returns (page: seq<nat>, n: nat, failed: bool)
      requires |singles| >= BATCH_LIMIT
      modifies this
      ensures IsPage(old(rows), old(lastId), page)
      ensures page == [] ==> n == 0 && !failed && rows == old(rows) && lastId == old(lastId)
      ensures page == [] ==> forall i :: !Waiting(rows, lastId, i)
      ensures failed <==> page != [] && !Settles(post)
      // Exactly the first `n` rows of the page are acked and the rest is charged.
      ensures n <= |page| && Worked(old(rows), page, n, |page|, rows)
      ensures lastId == if n == |page| then Max(old(lastId), Top(page)) else old(lastId)
      ensures ReplyOf(post) == Accepted ==> n == |page|
      ensures failed ==> n == 0
      ensures ReplyOf(post) == Rejected && |page| > 1 ==>
                (forall i :: 0 <= i < n ==> Settles(singles[i])) && (n < |page| ==> !Settles(singles[n]))
      ensures ReplyOf(post) == Rejected && |page| == 1 ==> n == 1
      ensures page != [] ==>
                match OutcomeOf(page, ReplyOf(post), Replies(singles))
                case All => n == |page|
                case NoneTaken => n == 0
                case FirstTaken(k) => n == k < |page|
    {
      n, failed := 0, false;
      page := GetUnackedTraces();
      if page == [] { return; }
      PageShape(rows, lastId, page);
      match ReplyOf(post)
      case Rejected => n := ResolveRejectedBatch(page, singles);
      case Refused => ChargeBatch(page); failed := true;
      case Accepted => n := AckBatch(page);
    }

    /** Rounds until one resolves nothing or fails, given the server's answers to them. It
        leaves a row waiting only after a failed round or one whose first row was refused. */
    method DrainSync(answers: seq<Served>) returns (total: nat, rounds: nat, stop: Stop)
      requires Sane(rows) && |answers| > Sum(rows) && forall k :: 0 <= k < |answers| ==> |answers[k].singles| >= BATCH_LIMIT
      modifies this
      ensures rounds < |answers| && forall k :: 0 <= k < rounds ==> Settles(answers[k].post)
      ensures stop == NothingLeft ==> forall i :: !Waiting(rows, lastId, i)
      ensures stop == RoundFailed <==> !Settles(answers[rounds].post) && stop != NothingLeft
      ensures stop == FirstRefused ==> ReplyOf(answers[rounds].post) == Rejected && !Settles(answers[rounds].singles[0])
      ensures total == Acks(rows) - Acks(old(rows)) && rounds <= total <= BATCH_LIMIT * rounds
    {
      total, rounds := 0, 0;
      while true
        invariant 0 <= rounds && rounds + Sum(rows) <= Sum(old(rows)) && Sane(rows)
        invariant forall k :: 0 <= k < rounds ==> Settles(answers[k].post)
        invariant total == Acks(rows) - Acks(old(rows)) && rounds <= total <= BATCH_LIMIT * rounds
        decreases Sum(rows)
      {
        ghost var before, c := rows, lastId;
        var page, n, failed := UploadOnce(answers[rounds].post, answers[rounds].singles);
        WorkAcks(before, c, page, n, rows);
        if failed { return total, rounds, RoundFailed; }
        if n == 0 { return total, rounds, if page == [] then NothingLeft else FirstRefused; }
        WorkDrops(before, c, page, n, rows);
        total := total + n;
        rounds := rounds + 1;
      }
    }

    method ChargeBatch(page: seq<nat>)
      requires Distinct(page) && Inside(rows, page)
      modifies `rows
      ensures Worked(old(rows), page, 0, |page|, rows)
    {
      BumpOrDeadLetterBatch(page, 0);
      assert page[0..] == page && page[0..|page|] == page;
    }

    method AckBatch(page: seq<nat>) returns (n: nat)
      requires Distinct(page) && Inside(rows, page)
      modifies this
      ensures n == |page|
      ensures Worked(old(rows), page, |page|, |page|, rows) && lastId == Max(old(lastId), Top(page))
    {
      n := 0;
      while n < |page|
        invariant n <= |page| && |rows| == |old(rows)| && Settled(old(rows), page, n, rows)
        invariant Reached(page, n, old(lastId), lastId)
      {
        SettledNext(old(rows), page, n, rows);
        MarkAcked(page[n]);
        lastId := Max(lastId, page[n] + 1);
        n := n + 1;
      }
      SettledAll(old(rows), page, rows);
      ReachedAll(page, old(lastId), lastId);
    }
  }

  // What the server says to one round, and why a drain stops.
  datatype Served = Served(post: Post, singles: seq<Post>)
  datatype Stop = NothingLeft | RoundFailed | FirstRefused

  function Acks(rows: seq<Row>): nat {
    if rows == [] then 0 else (if rows[0].acked then 1 else 0) + Acks(rows[1..])
  }

  lemma {:induction false} AcksChange(a: seq<Row>, b: seq<Row>, k: int)
    requires |a| == |b| && forall i :: 0 <= i < |a| && i != k ==> a[i].acked == b[i].acked
    requires 0 <= k < |a| ==> !a[k].acked && b[k].acked
    ensures Acks(b) == Acks(a) + if 0 <= k < |a| then 1 else 0
  {
    if a != [] { AcksChange(a[1..], b[1..], k - 1); }
  }

  lemma {:induction false} AcksOfPrefix(rows: seq<Row>, page: seq<nat>, n: nat)
    requires n <= |page| && Distinct(page) && Inside(rows, page)
    requires forall k :: 0 <= k < |page| ==> !rows[page[k]].acked
    ensures Acks(AckedRows(rows, page, n)) == Acks(rows) + n
    decreases n
  {
    if n == 0 {
      AcksChange(rows, AckedRows(rows, page, 0), -1);
    } else {
      AcksOfPrefix(rows, page, n - 1);
      assert page[..n] == page[..n - 1] + [page[n - 1]];
      AcksChange(AckedRows(rows, page, n - 1), AckedRows(rows, page, n), page[n - 1]);
    }
  }

  /** A round acks as many rows as it says. */
  lemma WorkAcks(rows: seq<Row>, cursor: nat, page: seq<nat>, n: nat, rows': seq<Row>)
    requires IsPage(rows, cursor, page) && n <= |page| && Worked(rows, page, n, |page|, rows')
    ensures Acks(rows') == Acks(rows) + n
  {
    PageShape(rows, cursor, page);
    forall k | 0 <= k < |page| ensures !rows[page[k]].acked { assert Waiting(rows, cursor, page[k]); }
    AcksOfPrefix(rows, page, n);
    AcksChange(AckedRows(rows, page, n), rows', -1);
  }

  lemma PageShape(rows: seq<Row>, cursor: nat, page: seq<nat>)
    requires IsPage(rows, cursor, page)
    ensures Distinct(page) && Inside(rows, page)
  {
    forall k | 0 <= k < |page| ensures page[k] < |rows| { assert Waiting(rows, cursor, page[k]); }
    forall k, l | 0 <= k < l < |page| ensures page[k] != page[l] { assert Before(rows, page[k], page[l]); }
  }

  // ---------------------------------------------------------------------------
  // The cursor after one round
  // ---------------------------------------------------------------------------

  /** The batch leaves no waiting row behind below its own largest id. */
  ghost predicate Closed(rows: seq<Row>, cursor: nat, page: seq<nat>) {
    forall i: nat :: Waiting(rows, cursor, i) && i < Top(page) ==> i in page
  }

  lemma InOrderClosed(rows: seq<Row>, cursor: nat, page: seq<nat>)
    requires InOrder(rows) && IsPage(rows, cursor, page)
    ensures Closed(rows, cursor, page)
  {
    if page != [] {
      var k :| 0 <= k < |page| && page[k] == Top(page) - 1;
      assert Waiting(rows, cursor, page[k]);
      forall i: nat | Waiting(rows, cursor, i) && i !in page ensures i >= Top(page) {
        assert Before(rows, page[k], i);
      }
    }
  }

  lemma SettledResolves(rows: seq<Row>, cursor: nat, page: seq<nat>, rows': seq<Row>)
    requires IsPage(rows, cursor, page) && Worked(rows, page, |page|, |page|, rows')
    ensures |rows'| == |rows| && Top(page) <= |rows|
    ensures forall i :: 0 <= i < |rows| ==> (Resolved(rows'[i]) <==> Resolved(rows[i]) || i in page)
  {
    PageShape(rows, cursor, page);
    assert page[..|page|] == page && page[|page|..|page|] == [];
  }

  lemma CursorExact(rows: seq<Row>, cursor: nat, page: seq<nat>, rows': seq<Row>)
    requires Passed(rows, cursor) && |rows'| == |rows| && Top(page) <= |rows|
    requires forall i :: 0 <= i < |rows| ==> (Resolved(rows'[i]) <==> Resolved(rows[i]) || i in page)
    ensures Passed(rows', Max(cursor, Top(page))) <==> Closed(rows, cursor, page)
  {
    if Closed(rows, cursor, page) {
      forall i: nat | i < Max(cursor, Top(page)) ensures Resolved(rows'[i]) {
        if i !in page && !Resolved(rows[i]) { assert Waiting(rows, cursor, i); }
      }
    } else {
      var i: nat :| Waiting(rows, cursor, i) && i < Top(page) && i !in page;
      assert !Resolved(rows'[i]);
    }
  }

  /** After a batch is settled the cursor has passed no unresolved row exactly when the
      batch was closed. */
  lemma SettledBatchExact(rows: seq<Row>, cursor: nat, page: seq<nat>, rows': seq<Row>)
    requires Passed(rows, cursor) && IsPage(rows, cursor, page) && Worked(rows, page, |page|, |page|, rows')
    ensures Passed(rows', Max(cursor, Top(page))) <==> Closed(rows, cursor, page)
  {
    SettledResolves(rows, cursor, page, rows');
    CursorExact(rows, cursor, page, rows');
  }

  // ---------------------------------------------------------------------------
  // The cursor at every write of a round
  // ---------------------------------------------------------------------------

  /** The table and the cursor after the first `n` rows of the page were acked. */
  function AckedRows(rows: seq<Row>, page: seq<nat>, n: nat): (r: seq<Row>)
    requires n <= |page|
    ensures Settled(rows, page, n, r)
  {
    seq(|rows|, i requires 0 <= i < |rows| => if i in page[..n] then Acked(rows[i]) else rows[i])
  }

  function CursorAt(cursor: nat, page: seq<nat>, n: nat): nat
    requires n <= |page|
  {
    Max(cursor, Top(page[..n]))
  }

  /** No waiting row has a smaller id and a later timestamp than a row of the batch. */
  ghost predicate NoInversion(rows: seq<Row>, cursor: nat, page: seq<nat>)
    requires Inside(rows, page)
  {
    forall n, i: nat :: 0 <= n < |page| && Waiting(rows, cursor, i) && i < page[n] ==> rows[i].ts <= rows[page[n]].ts
  }

  lemma WriteExact(rows: seq<Row>, cursor: nat, page: seq<nat>, n: nat)
    requires Passed(rows, cursor) && Inside(rows, page) && n <= |page|
    ensures Passed(AckedRows(rows, page, n), CursorAt(cursor, page, n)) <==> Closed(rows, cursor, page[..n])
  {
    CursorExact(rows, cursor, page[..n], AckedRows(rows, page, n));
  }

  /** Where a batch meets an inversion, its prefix up to there is not closed. */
  lemma InversionOpens(rows: seq<Row>, cursor: nat, page: seq<nat>, n: nat, i: nat)
    requires IsPage(rows, cursor, page) && Inside(rows, page) && n < |page|
    requires Waiting(rows, cursor, i) && i < page[n] && rows[i].ts > rows[page[n]].ts
    ensures !Closed(rows, cursor, page[..n + 1])
  {
    assert page[..n + 1][n] == page[n];
    forall k | 0 <= k < n + 1 ensures page[k] != i {
      if k < n { assert Before(rows, page[k], page[n]); }
    }
  }

  /** Without an inversion every prefix of a batch is closed. */
  lemma OrderedCloses(rows: seq<Row>, cursor: nat, page: seq<nat>, n: nat)
    requires IsPage(rows, cursor, page) && Inside(rows, page) && n <= |page| && NoInversion(rows, cursor, page)
    ensures Closed(rows, cursor, page[..n])
  {
    forall i: nat | Waiting(rows, cursor, i) && i < Top(page[..n]) ensures i in page[..n] {
      var m :| 0 <= m < n && page[m] == Top(page[..n]) - 1;
      if i < page[m] {
        PlaceBefore(rows, cursor, page, m, i);
      } else {
        assert page[..n][m] == i;
      }
    }
  }

  /** A waiting row with a smaller id and no later timestamp comes earlier on the page. */
  lemma PlaceBefore(rows: seq<Row>, cursor: nat, page: seq<nat>, m: nat, i: nat)
    requires IsPage(rows, cursor, page) && Inside(rows, page) && m < |page|
    requires Waiting(rows, cursor, i) && i < page[m] && rows[i].ts <= rows[page[m]].ts
    ensures i in page[..m]
  {
    assert !Before(rows, page[m], i);
    assert i in page;
    var k :| 0 <= k < |page| && page[k] == i;
    assert k < m && page[..m][k] == i;
  }

  /** The cursor passes no unresolved row at any write of a round exactly when no waiting
      row has a smaller id and a later timestamp than a row of the batch. */
  lemma EveryWriteExact(rows: seq<Row>, cursor: nat, page: seq<nat>)
    requires Passed(rows, cursor) && IsPage(rows, cursor, page) && Inside(rows, page)
    ensures (forall n :: 0 <= n <= |page| ==> Passed(AckedRows(rows, page, n), CursorAt(cursor, page, n)))
            <==> NoInversion(rows, cursor, page)
  {
    if NoInversion(rows, cursor, page) {
      forall n | 0 <= n <= |page| ensures Passed(AckedRows(rows, page, n), CursorAt(cursor, page, n)) {
        OrderedCloses(rows, cursor, page, n);
        WriteExact(rows, cursor, page, n);
      }
    } else {
      var n, i: nat :| 0 <= n < |page| && Waiting(rows, cursor, i) && i < page[n] && rows[i].ts > rows[page[n]].ts;
      InversionOpens(rows, cursor, page, n, i);
      WriteExact(rows, cursor, page, n + 1);
    }
  }

  // ---------------------------------------------------------------------------
  // How many rounds
  // ---------------------------------------------------------------------------

  datatype State = State(rows: seq<Row>, cursor: nat)

  ghost predicate Round(s: State, page: seq<nat>, s': State) {
    && page != [] && IsPage(s.rows, s.cursor, page)
    && ((Worked(s.rows, page, |page|, |page|, s'.rows) && s'.cursor == Max(s.cursor, Top(page)))
        || (s'.cursor == s.cursor && exists k :: 0 <= k < |page| && Worked(s.rows, page, k, |page|, s'.rows)))
  }

  /** An unresolved row has attempts left. */
  ghost predicate Sane(rows: seq<Row>) {
    forall i :: 0 <= i < |rows| && !Resolved(rows[i]) ==> rows[i].attempts < MAX_ATTEMPTS
  }

  function Weight(r: Row): nat {
    if Resolved(r) || r.attempts >= MAX_ATTEMPTS then 0 else MAX_ATTEMPTS - r.attempts
  }

  function Sum(rows: seq<Row>): nat {
    if rows == [] then 0 else Weight(rows[0]) + Sum(rows[1..])
  }

  function Unresolved(rows: seq<Row>): nat {
    if rows == [] then 0 else (if Resolved(rows[0]) then 0 else 1) + Unresolved(rows[1..])
  }

  lemma {:induction false} SumBound(rows: seq<Row>)
    ensures Sum(rows) <= MAX_ATTEMPTS * Unresolved(rows)
  {
    if rows != [] { SumBound(rows[1..]); }
  }

  lemma {:induction false} SumDrops(a: seq<Row>, b: seq<Row>, k: int)
    requires |a| == |b| && forall i :: 0 <= i < |a| ==> Weight(b[i]) <= Weight(a[i])
    requires 0 <= k < |a| ==> Weight(b[k]) < Weight(a[k])
    ensures Sum(b) <= Sum(a) && (0 <= k < |a| ==> Sum(b) < Sum(a))
  {
    if a != [] { SumDrops(a[1..], b[1..], k - 1); }
  }

  /** A non-empty round, whatever the server says, uses up attempts or resolves rows. */
  lemma WorkDrops(rows: seq<Row>, cursor: nat, page: seq<nat>, n: nat, rows': seq<Row>)
    requires page != [] && IsPage(rows, cursor, page) && Sane(rows)
    requires n <= |page| && Worked(rows, page, n, |page|, rows')
    ensures Sum(rows') < Sum(rows) && Sane(rows')
  {
    assert Waiting(rows, cursor, page[0]);
    assert page[0] in page[..n] || page[0] in page[n..|page|];
    SumDrops(rows, rows', page[0]);
  }

  lemma RoundMonotone(s: State, page: seq<nat>, s': State)
    requires Round(s, page, s')
    ensures |s'.rows| == |s.rows|
    ensures forall i :: 0 <= i < |s.rows| ==> s'.rows[i].ts == s.rows[i].ts && (Resolved(s.rows[i]) ==> Resolved(s'.rows[i]))
  {
  }

  lemma RoundKeepsPassed(s: State, page: seq<nat>, s': State)
    requires Round(s, page, s') && InOrder(s.rows) && Passed(s.rows, s.cursor)
    ensures InOrder(s'.rows) && Passed(s'.rows, s'.cursor)
  {
    InOrderClosed(s.rows, s.cursor, page);
    RoundMonotone(s, page, s');
    if Worked(s.rows, page, |page|, |page|, s'.rows) && s'.cursor == Max(s.cursor, Top(page)) {
      SettledBatchExact(s.rows, s.cursor, page, s'.rows);
    }
  }

  lemma RoundDrops(s: State, page: seq<nat>, s': State)
    requires Round(s, page, s') && Sane(s.rows)
    ensures Sum(s'.rows) < Sum(s.rows) && Sane(s'.rows)
  {
    if Worked(s.rows, page, |page|, |page|, s'.rows) {
      WorkDrops(s.rows, s.cursor, page, |page|, s'.rows);
    } else {
      var k :| 0 <= k < |page| && Worked(s.rows, page, k, |page|, s'.rows);
      WorkDrops(s.rows, s.cursor, page, k, s'.rows);
    }
  }

  ghost predicate Run(ss: seq<State>, pages: seq<seq<nat>>) {
    |ss| == |pages| + 1 && forall i :: 0 <= i < |pages| ==> Round(ss[i], pages[i], ss[i + 1])
  }

  /** With no new rows, at most ten rounds per unresolved row do any work; when none is
      left to do, every row is acked or dead-lettered. */
  lemma {:induction false} DrainsWithinTenRoundsPerRow(ss: seq<State>, pages: seq<seq<nat>>)
    requires Run(ss, pages) && Sane(ss[0].rows) && InOrder(ss[0].rows) && Passed(ss[0].rows, ss[0].cursor)
    ensures var t := ss[|pages|];
            && |pages| + Sum(t.rows) <= MAX_ATTEMPTS * Unresolved(ss[0].rows)
            && Passed(t.rows, t.cursor)
            && ((forall i :: !Waiting(t.rows, t.cursor, i)) ==> forall i :: 0 <= i < |t.rows| ==> Resolved(t.rows[i]))
  {
    SumBound(ss[0].rows);
    RunDrops(ss, pages);
    var t := ss[|pages|];
    if forall i :: !Waiting(t.rows, t.cursor, i) {
      forall i | 0 <= i < |t.rows| ensures Resolved(t.rows[i]) { assert !Waiting(t.rows, t.cursor, i); }
    }
  }

  lemma {:induction false} RunDrops(ss: seq<State>, pages: seq<seq<nat>>)
    requires Run(ss, pages) && Sane(ss[0].rows) && InOrder(ss[0].rows) && Passed(ss[0].rows, ss[0].cursor)
    ensures var t := ss[|pages|];
            |pages| + Sum(t.rows) <= Sum(ss[0].rows) && Passed(t.rows, t.cursor)
    decreases |pages|
  {
    if pages != [] {
      RoundDrops(ss[0], pages[0], ss[1]);
      RoundKeepsPassed(ss[0], pages[0], ss[1]);
      RunDrops(ss[1..], pages[1..]);
    }
  }

  // ---------------------------------------------------------------------------
  // There is always a batch
  // ---------------------------------------------------------------------------

  ghost predicate Sorted(rows: seq<Row>, p: seq<nat>) {
    Inside(rows, p) && forall k, l :: 0 <= k < l < |p| ==> Before(rows, p[k], p[l])
  }

  function Insert(rows: seq<Row>, i: nat, p: seq<nat>): seq<nat>
    requires i < |rows| && Inside(rows, p)
  {
    if p == [] then [i]
    else if Before(rows, i, p[0]) then [i] + p
    else [p[0]] + Insert(rows, i, p[1..])
  }

  lemma SortedFront(rows: seq<Row>, x: nat, q: seq<nat>)
    requires x < |rows| && Sorted(rows, q) && forall k :: 0 <= k < |q| ==> Before(rows, x, q[k])
    ensures Sorted(rows, [x] + q) && forall j :: j in [x] + q <==> j == x || j in q
  {
  }

  lemma {:induction false} InsertSorted(rows: seq<Row>, i: nat, p: seq<nat>)
    requires i < |rows| && Sorted(rows, p) && i !in p
    ensures Sorted(rows, Insert(rows, i, p))
    ensures forall j :: j in Insert(rows, i, p) <==> j == i || j in p
    decreases |p|
  {
    if p != [] {
      if Before(rows, i, p[0]) {
        SortedFront(rows, i, p);
      } else {
        InsertSorted(rows, i, p[1..]);
        var q := Insert(rows, i, p[1..]);
        forall k | 0 <= k < |q| ensures Before(rows, p[0], q[k]) {
          assert q[k] in q;
          if q[k] != i {
            var l :| 0 <= l < |p[1..]| && p[1..][l] == q[k];
            assert Before(rows, p[0], p[l + 1]);
          }
        }
        SortedFront(rows, p[0], q);
        assert p == [p[0]] + p[1..];
      }
    }
  }

  /** The unresolved rows from `i` on, by timestamp. */
  function ByStamp(rows: seq<Row>, i: nat): (p: seq<nat>)
    ensures Inside(rows, p)
    decreases |rows| - i
  {
    if i >= |rows| then []
    else if Resolved(rows[i]) then ByStamp(rows, i + 1)
    else
      InsertInside(rows, i, ByStamp(rows, i + 1));
      Insert(rows, i, ByStamp(rows, i + 1))
  }

  lemma {:induction false} InsertInside(rows: seq<Row>, i: nat, p: seq<nat>)
    requires i < |rows| && Inside(rows, p)
    ensures Inside(rows, Insert(rows, i, p))
    decreases |p|
  {
    if p != [] && !Before(rows, i, p[0]) { InsertInside(rows, i, p[1..]); }
  }

  lemma {:induction false} ByStampSorts(rows: seq<Row>, i: nat)
    ensures Sorted(rows, ByStamp(rows, i))
    ensures forall j :: j in ByStamp(rows, i) <==> Waiting(rows, i, j)
    decreases |rows| - i
  {
    if i < |rows| {
      ByStampSorts(rows, i + 1);
      forall j: nat ensures Waiting(rows, i, j) <==> Waiting(rows, i + 1, j) || (j == i && !Resolved(rows[i])) {}
      if !Resolved(rows[i]) { InsertSorted(rows, i, ByStamp(rows, i + 1)); }
    }
  }

  function PageOf(rows: seq<Row>, cursor: nat): seq<nat> {
    var p := ByStamp(rows, cursor);
    if |p| <= BATCH_LIMIT then p else p[..BATCH_LIMIT]
  }

  /** The first waiting rows by timestamp, as the query and the slice yield them. */
  lemma PageOfIsPage(rows: seq<Row>, cursor: nat)
    ensures IsPage(rows, cursor, PageOf(rows, cursor))
  {
    var p, q := ByStamp(rows, cursor), PageOf(rows, cursor);
    ByStampSorts(rows, cursor);
    assert forall l :: 0 <= l < |q| ==> q[l] == p[l];
    forall k | 0 <= k < |q| ensures Waiting(rows, cursor, q[k]) { assert q[k] in p; }
    forall j: nat, k | Waiting(rows, cursor, j) && j !in q && 0 <= k < |q| ensures Before(rows, q[k], j) {
      assert j in p;
      var l :| 0 <= l < |p| && p[l] == j;
      assert k < l && Before(rows, p[k], p[l]);
    }
  }

  /** While a row waits above the cursor there is a batch to work on. */
  lemma PageExists(rows: seq<Row>, cursor: nat, i: nat)
    requires Waiting(rows, cursor, i)
    ensures PageOf(rows, cursor) != [] && IsPage(rows, cursor, PageOf(rows, cursor))
  {
    PageOfIsPage(rows, cursor);
    assert |PageOf(rows, cursor)| < BATCH_LIMIT ==> i in PageOf(rows, cursor);
  }

  // ---------------------------------------------------------------------------
  // Several drains at once
  // ---------------------------------------------------------------------------

  /** Where a thread stands in its round. Writing the cursor is a read and a later write. */
  datatype Phase =
    | Idle
    | Posted(page: seq<nat>)
    | Acking(page: seq<nat>, n: nat)
    | Reading(page: seq<nat>, n: nat)
    | Writing(page: seq<nat>, n: nat, v: nat)
    | Resolving(page: seq<nat>, n: nat)
    | Closing(page: seq<nat>)
    | ClosingWrite(v: nat)
    | Charging(page: seq<nat>, n: nat)

  datatype Sys = Sys(rows: seq<Row>, cursor: nat, threads: map<int, Phase>)

  datatype Event =
    | Insert(row: Row)
    | Fetch(t: int, page: seq<nat>)
    | Answer(t: int, reply: Reply)
    | Step(t: int)
    | Restart

  function At(s: Sys, t: int): Phase {
    if t in s.threads then s.threads[t] else Idle
  }

  function Change(rows: seq<Row>, i: nat, f: Row -> Row): seq<Row> {
    if i < |rows| then rows[i := f(rows[i])] else rows
  }

  function Go(s: Sys, t: int, ph: Phase): Sys {
    s.(threads := s.threads[t := ph])
  }

  function AfterResolved(page: seq<nat>, n: nat): Phase {
    if n < |page| then Resolving(page, n) else Closing(page)
  }

  function StepOf(s: Sys, t: int): Sys {
    match At(s, t)
    case Acking(page, n) =>
      if n < |page| then Go(s, t, Reading(page, n)).(rows := Change(s.rows, page[n], Acked)) else Go(s, t, Idle)
    case Reading(page, n) =>
      if n < |page| then Go(s, t, Writing(page, n, Max(s.cursor, page[n] + 1))) else s
    case Writing(page, n, v) => Go(s, t, Acking(page, n + 1)).(cursor := v)
    case Closing(page) => Go(s, t, ClosingWrite(Max(s.cursor, Top(page))))
    case ClosingWrite(v) => Go(s, t, Idle).(cursor := v)
    case Charging(page, n) =>
      if n < |page| then Go(s, t, Charging(page, n + 1)).(rows := Change(s.rows, page[n], Bumped)) else Go(s, t, Idle)
    case _ => s
  }

  ghost function Next(s: Sys, e: Event): Sys {
    match e
    case Insert(row) => s.(rows := s.rows + [row])
    case Fetch(t, page) =>
      if At(s, t) == Idle && page != [] && IsPage(s.rows, s.cursor, page) then Go(s, t, Posted(page)) else s
    case Answer(t, reply) =>
      (match At(s, t)
       case Posted(page) =>
         if reply == Accepted || (reply == Rejected && |page| == 1) then Go(s, t, Acking(page, 0))
         else if reply == Rejected then Go(s, t, AfterResolved(page, 0))
         else Go(s, t, Charging(page, 0))
       case Resolving(page, n) =>
         if reply == Refused then Go(s, t, Charging(page, n))
         else if n < |page| then Go(s, t, AfterResolved(page, n + 1)).(rows := Change(s.rows, page[n], Acked))
         else s
       case _ => s)
    case Step(t) => StepOf(s, t)
    case Restart => s.(cursor := 0, threads := map[])
  }

  ghost function Exec(s: Sys, es: seq<Event>): Sys
    decreases |es|
  {
    if es == [] then s else Exec(Next(s, es[0]), es[1..])
  }

  /** The first `n` rows of the page are settled, and so is every row below any of its rows
      that is not itself on the page. */
  ghost predicate PageOk(rows: seq<Row>, page: seq<nat>, n: nat) {
    && n <= |page|
    && (forall k :: 0 <= k < |page| ==> page[k] < |rows|)
    && (forall k, l :: 0 <= k < l < |page| ==> page[k] < page[l])
    && (forall k :: 0 <= k < n ==> Resolved(rows[page[k]]))
    && (forall i: nat, k :: 0 <= k < |page| && i < page[k] && i !in page ==> Resolved(rows[i]))
  }

  ghost predicate PhaseOk(rows: seq<Row>, ph: Phase) {
    match ph
    case Idle => true
    case Posted(page) => PageOk(rows, page, 0)
    case Acking(page, n) => PageOk(rows, page, n)
    case Reading(page, n) => n < |page| && PageOk(rows, page, n + 1)
    case Writing(page, n, v) => n < |page| && PageOk(rows, page, n + 1) && Passed(rows, v)
    case Resolving(page, n) => PageOk(rows, page, n)
    case Closing(page) => PageOk(rows, page, |page|)
    case ClosingWrite(v) => Passed(rows, v)
    case Charging(page, n) => n <= |page|
  }

  ghost predicate Inv(s: Sys) {
    && InOrder(s.rows) && Passed(s.rows, s.cursor)
    && forall t :: t in s.threads ==> PhaseOk(s.rows, s.threads[t])
  }

  /** Rows only become more resolved, and new ones only join at the end. */
  ghost predicate Grows(rows: seq<Row>, rows': seq<Row>) {
    |rows| <= |rows'| && forall i :: 0 <= i < |rows| ==> Resolved(rows[i]) ==> Resolved(rows'[i])
  }

  lemma GrowsKeepsPassed(rows: seq<Row>, rows': seq<Row>, c: nat)
    requires Grows(rows, rows') && Passed(rows, c)
    ensures Passed(rows', c)
  {
  }

  lemma GrowsKeepsPage(rows: seq<Row>, rows': seq<Row>, page: seq<nat>, n: nat)
    requires Grows(rows, rows') && PageOk(rows, page, n)
    ensures PageOk(rows', page, n)
  {
  }

  lemma GrowsKeepsPhase(rows: seq<Row>, rows': seq<Row>, ph: Phase)
    requires Grows(rows, rows') && PhaseOk(rows, ph)
    ensures PhaseOk(rows', ph)
  {
    match ph
    case Posted(page) => GrowsKeepsPage(rows, rows', page, 0);
    case Acking(page, n) => GrowsKeepsPage(rows, rows', page, n);
    case Reading(page, n) => GrowsKeepsPage(rows, rows', page, n + 1);
    case Writing(page, n, v) => GrowsKeepsPage(rows, rows', page, n + 1); GrowsKeepsPassed(rows, rows', v);
    case Resolving(page, n) => GrowsKeepsPage(rows, rows', page, n);
    case Closing(page) => GrowsKeepsPage(rows, rows', page, |page|);
    case ClosingWrite(v) => GrowsKeepsPassed(rows, rows', v);
    case _ =>
  }

  lemma Ascends(rows: seq<Row>, i: nat, j: nat)
    requires InOrder(rows) && i < |rows| && j < |rows| && !Resolved(rows[i]) && !Resolved(rows[j]) && Before(rows, i, j)
    ensures i < j
  {
  }

  /** A fetched page starts out settled below: what lies under it and is not on it was
      passed by the cursor or is resolved. */
  lemma FetchedOk(rows: seq<Row>, cursor: nat, page: seq<nat>)
    requires InOrder(rows) && Passed(rows, cursor) && IsPage(rows, cursor, page)
    ensures PageOk(rows, page, 0)
  {
    PageShape(rows, cursor, page);
    InOrderClosed(rows, cursor, page);
    forall k, l | 0 <= k < l < |page| ensures page[k] < page[l] {
      assert Waiting(rows, cursor, page[k]) && Waiting(rows, cursor, page[l]);
      Ascends(rows, page[k], page[l]);
    }
    forall i: nat, k | 0 <= k < |page| && i < page[k] && i !in page ensures Resolved(rows[i]) {
      assert i < cursor || Resolved(rows[i]) || Waiting(rows, cursor, i);
      assert page[k] < Top(page);
    }
  }

  /** Once the first rows of a page are settled, the cursor may move past them. */
  lemma PassPage(rows: seq<Row>, page: seq<nat>, n: nat, cursor: nat)
    requires n < |page| && PageOk(rows, page, n + 1) && Passed(rows, cursor)
    ensures Passed(rows, Max(cursor, page[n] + 1))
  {
    forall i: nat | i < page[n] + 1 ensures Resolved(rows[i]) {
      if i in page {
        var k :| 0 <= k < |page| && page[k] == i;
        assert k <= n;
      }
    }
  }

  lemma PassWholePage(rows: seq<Row>, page: seq<nat>, cursor: nat)
    requires PageOk(rows, page, |page|) && Passed(rows, cursor)
    ensures Passed(rows, Max(cursor, Top(page)))
  {
    if page != [] {
      var k :| 0 <= k < |page| && page[k] == Top(page) - 1;
      assert k < |page| - 1 ==> page[k] < page[|page| - 1];
      PassPage(rows, page, |page| - 1, cursor);
    }
  }

  /** A step that changes only this thread's phase and the table. */
  lemma InvByPhase(s: Sys, s': Sys, t: int)
    requires Inv(s) && Grows(s.rows, s'.rows) && InOrder(s'.rows) && Passed(s'.rows, s'.cursor)
    requires t in s'.threads && s'.threads == s.threads[t := s'.threads[t]] && PhaseOk(s'.rows, s'.threads[t])
    ensures Inv(s')
  {
    forall x | x in s'.threads ensures PhaseOk(s'.rows, s'.threads[x]) {
      if x != t { GrowsKeepsPhase(s.rows, s'.rows, s.threads[x]); }
    }
  }

  lemma AckOk(rows: seq<Row>, page: seq<nat>, n: nat)
    requires n < |page| && PageOk(rows, page, n) && InOrder(rows)
    ensures var rows' := Change(rows, page[n], Acked);
            Grows(rows, rows') && PageOk(rows', page, n + 1) && InOrder(rows')
  {
    GrowsKeepsPage(rows, Change(rows, page[n], Acked), page, n);
  }

  lemma StepKeepsInv(s: Sys, t: int)
    requires Inv(s)
    ensures Inv(StepOf(s, t))
  {
    var s' := StepOf(s, t);
    match At(s, t)
    case Acking(page, n) =>
      if n < |page| { AckOk(s.rows, page, n); GrowsKeepsPassed(s.rows, s'.rows, s.cursor); }
      InvByPhase(s, s', t);
    case Reading(page, n) => PassPage(s.rows, page, n, s.cursor); InvByPhase(s, s', t);
    case Writing(page, n, v) => InvByPhase(s, s', t);
    case Closing(page) => PassWholePage(s.rows, page, s.cursor); InvByPhase(s, s', t);
    case ClosingWrite(v) => InvByPhase(s, s', t);
    case Charging(page, n) => GrowsKeepsPassed(s.rows, s'.rows, s.cursor); InvByPhase(s, s', t);
    case _ =>
  }

  lemma AnswerKeepsInv(s: Sys, t: int, reply: Reply)
    requires Inv(s)
    ensures Inv(Next(s, Answer(t, reply)))
  {
    var s' := Next(s, Answer(t, reply));
    match At(s, t)
    case Posted(page) => InvByPhase(s, s', t);
    case Resolving(page, n) =>
      if reply != Refused && n < |page| {
        AckOk(s.rows, page, n);
        GrowsKeepsPassed(s.rows, s'.rows, s.cursor);
        InvByPhase(s, s', t);
      } else if reply == Refused {
        InvByPhase(s, s', t);
      }
    case _ =>
  }

  /** A new row is not older than the ones that still wait. */
  ghost predicate Timely(s: Sys, e: Event) {
    e.Insert? ==> forall i :: 0 <= i < |s.rows| && !Resolved(s.rows[i]) ==> s.rows[i].ts <= e.row.ts
  }

  lemma InvStep(s: Sys, e: Event)
    requires Inv(s) && Timely(s, e)
    ensures Inv(Next(s, e))
  {
    var s' := Next(s, e);
    match e
    case Insert(row) =>
      GrowsKeepsPassed(s.rows, s'.rows, s.cursor);
      forall x | x in s'.threads ensures PhaseOk(s'.rows, s'.threads[x]) {
        GrowsKeepsPhase(s.rows, s'.rows, s.threads[x]);
      }
    case Fetch(t, page) => if s' != s { FetchedOk(s.rows, s.cursor, page); InvByPhase(s, s', t); }
    case Answer(t, reply) => AnswerKeepsInv(s, t, reply);
    case Step(t) => StepKeepsInv(s, t);
    case Restart =>
  }

  /** A new row waits above the cursor, and no other row changes. */
  lemma NewRowWaits(s: Sys, row: Row)
    requires s.cursor <= |s.rows| && !Resolved(row)
    ensures var u := Next(s, Event.Insert(row)); Waiting(u.rows, u.cursor, |s.rows|) && s.rows <= u.rows && u.rows[|s.rows|] == row
  {
  }

  ghost predicate AllTimely(s: Sys, es: seq<Event>)
    decreases |es|
  {
    es == [] || (Timely(s, es[0]) && AllTimely(Next(s, es[0]), es[1..]))
  }

  /** With timestamps that follow the ids, the cursor never passes an unresolved row: for
      any number of concurrent drains, interleaved down to the read and the write of the
      cursor, with new rows arriving and restarts. */
  lemma {:induction false} CursorNeverPasses(s: Sys, es: seq<Event>)
    requires Inv(s) && AllTimely(s, es)
    ensures var t := Exec(s, es); Passed(t.rows, t.cursor)
    decreases |es|
  {
    if es != [] {
      InvStep(s, es[0]);
      CursorNeverPasses(Next(s, es[0]), es[1..]);
    }
  }

  lemma {:induction false} ExecTrace(ss: seq<Sys>, es: seq<Event>)
    requires |ss| == |es| + 1
    requires forall i :: 0 <= i < |es| ==> ss[i + 1] == Next(ss[i], es[i])
    ensures Exec(ss[0], es) == ss[|es|]
    decreases |es|
  {
    if es != [] { ExecTrace(ss[1..], es[1..]); }
  }

  // ---------------------------------------------------------------------------
  // Exactly when the cursor is safe
  // ---------------------------------------------------------------------------

  lemma {:induction false} TopAppend(page: seq<nat>, x: nat)
    ensures Top(page + [x]) == Max(Top(page), x + 1)
  {
    if page == [] {
      assert [] + [x] == [x] && [x][1..] == [];
    } else {
      assert (page + [x])[1..] == page[1..] + [x];
      TopAppend(page[1..], x);
    }
  }

  lemma {:induction false} ExecAppend(s: Sys, es: seq<Event>, fs: seq<Event>)
    ensures Exec(s, es + fs) == Exec(Exec(s, es), fs)
    ensures AllTimely(s, es + fs) <==> AllTimely(s, es) && AllTimely(Exec(s, es), fs)
    decreases |es|
  {
    if es == [] {
      assert es + fs == fs;
    } else {
      assert (es + fs)[1..] == es[1..] + fs && (es + fs)[0] == es[0];
      ExecAppend(Next(s, es[0]), es[1..], fs);
    }
  }

  lemma Compose(s: Sys, es: seq<Event>, u: Sys, fs: seq<Event>, v: Sys)
    requires Exec(s, es) == u && AllTimely(s, es) && Exec(u, fs) == v && AllTimely(u, fs)
    ensures Exec(s, es + fs) == v && AllTimely(s, es + fs)
  {
    ExecAppend(s, es, fs);
  }

  /** Three steps per row: ack, read the cursor, write it. */
  function Steps(t: int, n: nat): seq<Event> {
    if n == 0 then [] else Steps(t, n - 1) + [Step(t), Step(t), Step(t)]
  }

  /** The state of a lone round whose first `n` rows are acked and passed. */
  function Midway(s: Sys, t: int, page: seq<nat>, n: nat): Sys
    requires n <= |page|
  {
    Sys(AckedRows(s.rows, page, n), CursorAt(s.cursor, page, n), s.threads[t := Acking(page, n)])
  }

  /** One row's three steps of a lone thread. */
  lemma ThreeSteps(s: Sys, t: int, page: seq<nat>, n: nat, v: Sys)
    requires At(s, t) == Acking(page, n) && n < |page| && page[n] < |s.rows|
    requires v == Sys(Change(s.rows, page[n], Acked), Max(s.cursor, page[n] + 1), s.threads[t := Acking(page, n + 1)])
    ensures Exec(s, [Step(t), Step(t), Step(t)]) == v && AllTimely(s, [Step(t), Step(t), Step(t)])
  {
    var es := [Step(t), Step(t), Step(t)];
    var s1 := Next(s, es[0]);
    var s2 := Next(s1, es[1]);
    var s3 := Next(s2, es[2]);
    assert s3.threads == v.threads;
    ExecTrace([s, s1, s2, s3], es);
    NoInserts(s, es);
  }

  lemma AckedNext(rows: seq<Row>, page: seq<nat>, n: nat)
    requires n < |page| && page[n] < |rows|
    ensures Change(AckedRows(rows, page, n), page[n], Acked) == AckedRows(rows, page, n + 1)
  {
    var a := AckedRows(rows, page, n);
    SettledNext(rows, page, n, a);
  }

  lemma CursorNext(cursor: nat, page: seq<nat>, n: nat)
    requires n < |page|
    ensures CursorAt(cursor, page, n + 1) == Max(CursorAt(cursor, page, n), page[n] + 1)
  {
    assert page[..n + 1] == page[..n] + [page[n]];
    TopAppend(page[..n], page[n]);
  }

  lemma MidwayNext(s: Sys, t: int, page: seq<nat>, n: nat)
    requires Inside(s.rows, page) && n < |page|
    ensures var u := Midway(s, t, page, n);
            Midway(s, t, page, n + 1)
            == Sys(Change(u.rows, page[n], Acked), Max(u.cursor, page[n] + 1), u.threads[t := Acking(page, n + 1)])
  {
    AckedNext(s.rows, page, n);
    CursorNext(s.cursor, page, n);
    assert s.threads[t := Acking(page, n)][t := Acking(page, n + 1)] == s.threads[t := Acking(page, n + 1)];
  }

  lemma OneMoreRow(s: Sys, t: int, page: seq<nat>, n: nat)
    requires Inside(s.rows, page) && n < |page|
    ensures Exec(Midway(s, t, page, n), [Step(t), Step(t), Step(t)]) == Midway(s, t, page, n + 1)
    ensures AllTimely(Midway(s, t, page, n), [Step(t), Step(t), Step(t)])
  {
    MidwayNext(s, t, page, n);
    ThreeSteps(Midway(s, t, page, n), t, page, n, Midway(s, t, page, n + 1));
  }

  lemma {:induction false} NoInserts(s: Sys, es: seq<Event>)
    requires forall i :: 0 <= i < |es| ==> !es[i].Insert?
    ensures AllTimely(s, es)
    decreases |es|
  {
    if es != [] { NoInserts(Next(s, es[0]), es[1..]); }
  }

  lemma {:induction false} Advance(s: Sys, t: int, page: seq<nat>, n: nat)
    requires Inside(s.rows, page) && n <= |page|
    ensures Exec(Midway(s, t, page, 0), Steps(t, n)) == Midway(s, t, page, n) && AllTimely(Midway(s, t, page, 0), Steps(t, n))
  {
    if n > 0 {
      Advance(s, t, page, n - 1);
      OneMoreRow(s, t, page, n - 1);
      var es := [Step(t), Step(t), Step(t)];
      Compose(Midway(s, t, page, 0), Steps(t, n - 1), Midway(s, t, page, n - 1), es, Midway(s, t, page, n));
    }
  }

  function RoundOf(t: int, page: seq<nat>, n: nat): seq<Event> {
    [Fetch(t, page), Answer(t, Accepted)] + Steps(t, n)
  }

  /** A batch is fetched and accepted, and its first `n` rows acked and passed. */
  lemma RunRound(s: Sys, t: int, page: seq<nat>, n: nat)
    requires At(s, t) == Idle && page != [] && IsPage(s.rows, s.cursor, page) && Inside(s.rows, page) && n <= |page|
    ensures Exec(s, RoundOf(t, page, n)) == Midway(s, t, page, n) && AllTimely(s, RoundOf(t, page, n))
  {
    var es := [Fetch(t, page), Answer(t, Accepted)];
    var s1 := Next(s, es[0]);
    var s2 := Next(s1, es[1]);
    ExecTrace([s, s1, s2], es);
    assert AckedRows(s.rows, page, 0) == s.rows && Top(page[..0]) == 0;
    assert s2.threads == s.threads[t := Acking(page, 0)];
    NoInserts(s, es);
    Advance(s, t, page, n);
    ExecAppend(s, es, Steps(t, n));
  }

  // ---------------------------------------------------------------------------
  // A lone round that is rejected or refused
  // ---------------------------------------------------------------------------

  /** The table after the rows of the page from `n` up to `m` were charged one by one. */
  function ChargedRows(rows: seq<Row>, page: seq<nat>, n: nat, m: nat): seq<Row>
    requires n <= m <= |page|
    decreases m
  {
    if m == n then rows else Change(ChargedRows(rows, page, n, m - 1), page[m - 1], Bumped)
  }

  lemma WorkedNext(rows: seq<Row>, page: seq<nat>, n: nat, m: nat, now: seq<Row>)
    requires Inside(rows, page) && Distinct(page) && n <= m < |page| && Worked(rows, page, n, m, now)
    ensures Worked(rows, page, n, m + 1, Change(now, page[m], Bumped))
  {
    assert page[n..m + 1] == page[n..m] + [page[m]];
    assert page[m] !in page[..n] && page[m] !in page[n..m];
  }

  lemma {:induction false} ChargedWork(rows: seq<Row>, page: seq<nat>, n: nat, m: nat, now: seq<Row>)
    requires Inside(rows, page) && Distinct(page) && n <= m <= |page| && Settled(rows, page, n, now)
    ensures Worked(rows, page, n, m, ChargedRows(now, page, n, m))
    decreases m
  {
    if m > n {
      ChargedWork(rows, page, n, m - 1, now);
      WorkedNext(rows, page, n, m - 1, ChargedRows(now, page, n, m - 1));
    }
  }

  function Singles(t: int, n: nat): seq<Event> {
    if n == 0 then [] else Singles(t, n - 1) + [Answer(t, Accepted)]
  }

  function StepsOf(t: int, n: nat): seq<Event> {
    if n == 0 then [] else StepsOf(t, n - 1) + [Step(t)]
  }

  /** The thread's state when the first `n` rows of its rejected page are taken. */
  function Taking(s: Sys, t: int, page: seq<nat>, n: nat): Sys
    requires n <= |page|
  {
    Sys(AckedRows(s.rows, page, n), s.cursor, s.threads[t := AfterResolved(page, n)])
  }

  lemma OneEvent(s: Sys, e: Event)
    ensures Exec(s, [e]) == Next(s, e)
  {
    assert [e][1..] == [];
  }

  lemma TakeStep(u: Sys, t: int, page: seq<nat>, n: nat)
    requires At(u, t) == Resolving(page, n) && n < |page|
    ensures Next(u, Answer(t, Accepted)) == Sys(Change(u.rows, page[n], Acked), u.cursor, u.threads[t := AfterResolved(page, n + 1)])
  {
  }

  lemma TakeOne(s: Sys, t: int, page: seq<nat>, n: nat)
    requires Inside(s.rows, page) && n < |page|
    ensures Exec(Taking(s, t, page, n), [Answer(t, Accepted)]) == Taking(s, t, page, n + 1)
  {
    var u := Taking(s, t, page, n);
    AckedNext(s.rows, page, n);
    TakeStep(u, t, page, n);
    OneEvent(u, Answer(t, Accepted));
    assert u.threads[t := AfterResolved(page, n + 1)] == s.threads[t := AfterResolved(page, n + 1)];
  }

  lemma {:induction false} SinglesRun(s: Sys, t: int, page: seq<nat>, n: nat)
    requires Inside(s.rows, page) && n <= |page|
    ensures Exec(Taking(s, t, page, 0), Singles(t, n)) == Taking(s, t, page, n)
  {
    if n > 0 {
      SinglesRun(s, t, page, n - 1);
      TakeOne(s, t, page, n - 1);
      Then(Taking(s, t, page, 0), Singles(t, n - 1), Taking(s, t, page, n - 1), [Answer(t, Accepted)], Taking(s, t, page, n));
    }
  }

  lemma Then(s: Sys, es: seq<Event>, u: Sys, fs: seq<Event>, v: Sys)
    requires Exec(s, es) == u && Exec(u, fs) == v
    ensures Exec(s, es + fs) == v
  {
    ExecAppend(s, es, fs);
  }

  /** The charging thread after the rows from `n` up to `m`. */
  function Charge(u: Sys, t: int, page: seq<nat>, n: nat, m: nat): Sys
    requires n <= m <= |page|
  {
    Sys(ChargedRows(u.rows, page, n, m), u.cursor, u.threads[t := Charging(page, m)])
  }

  lemma ChargeOne(u: Sys, t: int, page: seq<nat>, n: nat, m: nat)
    requires n <= m < |page|
    ensures Exec(Charge(u, t, page, n, m), [Step(t)]) == Charge(u, t, page, n, m + 1)
  {
    var v := Charge(u, t, page, n, m);
    OneEvent(v, Step(t));
    assert v.threads[t := Charging(page, m + 1)] == u.threads[t := Charging(page, m + 1)];
  }

  lemma {:induction false} ChargeRun(u: Sys, t: int, page: seq<nat>, n: nat, m: nat)
    requires n <= m <= |page|
    ensures Exec(Charge(u, t, page, n, n), StepsOf(t, m - n)) == Charge(u, t, page, n, m)
    decreases m
  {
    if m > n {
      ChargeRun(u, t, page, n, m - 1);
      ChargeOne(u, t, page, n, m - 1);
      Then(Charge(u, t, page, n, n), StepsOf(t, m - 1 - n), Charge(u, t, page, n, m - 1), [Step(t)], Charge(u, t, page, n, m));
    }
  }

  /** A lone round whose batch is rejected and whose first `n` rows are then taken one by one. */
  function RejectedRound(t: int, page: seq<nat>, n: nat): seq<Event>
    requires n <= |page|
  {
    [Fetch(t, page), Answer(t, Rejected)] + Singles(t, n)
    + if n == |page| then [Step(t), Step(t)] else [Answer(t, Refused)] + StepsOf(t, |page| - n + 1)
  }

  lemma RejectedStart(s: Sys, t: int, page: seq<nat>)
    requires At(s, t) == Idle && |page| > 1 && IsPage(s.rows, s.cursor, page)
    ensures Exec(s, [Fetch(t, page), Answer(t, Rejected)]) == Taking(s, t, page, 0)
  {
    var s1 := Next(s, Fetch(t, page));
    var s2 := Next(s1, Answer(t, Rejected));
    assert AckedRows(s.rows, page, 0) == s.rows && s2.threads == s.threads[t := Resolving(page, 0)];
    ExecTrace([s, s1, s2], [Fetch(t, page), Answer(t, Rejected)]);
  }

  lemma ChargeEnd(u: Sys, t: int, page: seq<nat>, n: nat)
    requires n <= |page|
    ensures Exec(Charge(u, t, page, n, n), StepsOf(t, |page| - n + 1))
            == Sys(ChargedRows(u.rows, page, n, |page|), u.cursor, u.threads[t := Idle])
  {
    var c := Charge(u, t, page, n, |page|);
    ChargeRun(u, t, page, n, |page|);
    OneEvent(c, Step(t));
    assert c.threads[t := Idle] == u.threads[t := Idle];
    Then(Charge(u, t, page, n, n), StepsOf(t, |page| - n), c, [Step(t)], c.(threads := c.threads[t := Idle]));
  }

  lemma CloseSteps(u: Sys, t: int, page: seq<nat>)
    requires At(u, t) == Closing(page)
    ensures Exec(u, [Step(t), Step(t)]) == Sys(u.rows, Max(u.cursor, Top(page)), u.threads[t := Idle])
  {
    var u1 := Next(u, Step(t));
    var u2 := Next(u1, Step(t));
    assert u2.threads == u.threads[t := Idle];
    ExecTrace([u, u1, u2], [Step(t), Step(t)]);
  }

  lemma RefusedThere(u: Sys, t: int, page: seq<nat>, n: nat)
    requires n < |page| && At(u, t) == Resolving(page, n)
    ensures Exec(u, [Answer(t, Refused)]) == Charge(u, t, page, n, n)
  {
    OneEvent(u, Answer(t, Refused));
  }

  /** A lone rejected round comes to what a round is said to do: its first rows acked, the
      rest charged and the cursor left, or all acked and the cursor moved past them. */
  lemma RejectedRoundRun(s: Sys, t: int, page: seq<nat>, n: nat)
    requires At(s, t) == Idle && |page| > 1 && IsPage(s.rows, s.cursor, page) && n <= |page|
    ensures var u := Exec(s, RejectedRound(t, page, n));
            && Worked(s.rows, page, n, |page|, u.rows)
            && u.cursor == if n == |page| then Max(s.cursor, Top(page)) else s.cursor
  {
    PageShape(s.rows, s.cursor, page);
    var a, b := [Fetch(t, page), Answer(t, Rejected)], Singles(t, n);
    var v := Taking(s, t, page, n);
    RejectedStart(s, t, page);
    SinglesRun(s, t, page, n);
    Then(s, a, Taking(s, t, page, 0), b, v);
    if n == |page| {
      CloseSteps(v, t, page);
      ExecAppend(s, a + b, [Step(t), Step(t)]);
      SettledAll(s.rows, page, v.rows);
    } else {
      RestCharged(v, t, page, n);
      ExecAppend(s, a + b, [Answer(t, Refused)] + StepsOf(t, |page| - n + 1));
      ChargedWork(s.rows, page, n, |page|, v.rows);
    }
  }

  lemma RestCharged(v: Sys, t: int, page: seq<nat>, n: nat)
    requires n < |page| && At(v, t) == Resolving(page, n)
    ensures var u := Exec(v, [Answer(t, Refused)] + StepsOf(t, |page| - n + 1));
            u.rows == ChargedRows(v.rows, page, n, |page|) && u.cursor == v.cursor
  {
    RefusedThere(v, t, page, n);
    ChargeEnd(v, t, page, n);
    ExecAppend(v, [Answer(t, Refused)], StepsOf(t, |page| - n + 1));
  }

  lemma RefusedStart(s: Sys, t: int, page: seq<nat>)
    requires At(s, t) == Idle && page != [] && IsPage(s.rows, s.cursor, page)
    ensures Exec(s, [Fetch(t, page), Answer(t, Refused)]) == Charge(s, t, page, 0, 0)
  {
    var s1 := Next(s, Fetch(t, page));
    var s2 := Next(s1, Answer(t, Refused));
    assert s2.threads == s.threads[t := Charging(page, 0)];
    ExecTrace([s, s1, s2], [Fetch(t, page), Answer(t, Refused)]);
  }

  /** A rejected batch of one row is acked like an accepted one. */
  lemma LoneRowRejected(s: Sys, t: int, i: nat)
    requires At(s, t) == Posted([i])
    ensures Next(s, Answer(t, Rejected)) == Next(s, Answer(t, Accepted)) && At(Next(s, Answer(t, Rejected)), t) == Acking([i], 0)
  {
  }

  function RefusedRound(t: int, page: seq<nat>): seq<Event> {
    [Fetch(t, page), Answer(t, Refused)] + StepsOf(t, |page| + 1)
  }

  lemma RefusedRoundEnd(s: Sys, t: int, page: seq<nat>, v: Sys)
    requires At(s, t) == Idle && page != [] && IsPage(s.rows, s.cursor, page)
    requires v == Sys(ChargedRows(s.rows, page, 0, |page|), s.cursor, s.threads[t := Idle])
    ensures Exec(s, RefusedRound(t, page)) == v
  {
    RefusedStart(s, t, page);
    ChargeEnd(s, t, page, 0);
    Then(s, [Fetch(t, page), Answer(t, Refused)], Charge(s, t, page, 0, 0), StepsOf(t, |page| + 1), v);
  }

  /** A lone round whose batch is refused charges every row of it, and nothing else. */
  lemma RefusedRoundRun(s: Sys, t: int, page: seq<nat>)
    requires At(s, t) == Idle && page != [] && IsPage(s.rows, s.cursor, page)
    ensures var u := Exec(s, RefusedRound(t, page));
            Worked(s.rows, page, 0, |page|, u.rows) && u.cursor == s.cursor && u.threads == s.threads[t := Idle]
  {
    PageShape(s.rows, s.cursor, page);
    ChargedWork(s.rows, page, 0, |page|, s.rows);
    RefusedRoundEnd(s, t, page, Sys(ChargedRows(s.rows, page, 0, |page|), s.cursor, s.threads[t := Idle]));
  }

  ghost predicate AllIdle(s: Sys) {
    forall t :: t in s.threads ==> s.threads[t] == Idle
  }

  lemma {:induction false} FewerUnresolved(a: seq<Row>, b: seq<Row>, k: int)
    requires |a| == |b| && forall i :: 0 <= i < |a| ==> Resolved(a[i]) ==> Resolved(b[i])
    requires 0 <= k < |a| ==> !Resolved(a[k]) && Resolved(b[k])
    ensures Unresolved(b) <= Unresolved(a) && (0 <= k < |a| ==> Unresolved(b) < Unresolved(a))
  {
    if a != [] { FewerUnresolved(a[1..], b[1..], k - 1); }
  }

  /** An inversion outlives every batch it is not met in. */
  lemma InversionOffPage(rows: seq<Row>, cursor: nat, page: seq<nat>, i: nat, k: nat)
    requires IsPage(rows, cursor, page) && Inside(rows, page) && NoInversion(rows, cursor, page)
    requires Waiting(rows, cursor, i) && Waiting(rows, cursor, k) && i < k && rows[i].ts > rows[k].ts
    ensures i !in page && k !in page
  {
    forall n | 0 <= n < |page| ensures page[n] != k {}
    assert !Before(rows, i, k);
    forall n | 0 <= n < |page| ensures page[n] != i {}
  }

  /** From rest, a lone drain carries the cursor past a row that is unresolved, if some
      unresolved row has a smaller id and a later timestamp than another. */
  lemma {:induction false} InversionIsPassed(s: Sys, t: int, i: nat, k: nat) returns (es: seq<Event>)
    requires AllIdle(s) && Passed(s.rows, s.cursor)
    requires i < k < |s.rows| && !Resolved(s.rows[i]) && !Resolved(s.rows[k]) && s.rows[i].ts > s.rows[k].ts
    ensures AllTimely(s, es) && !Passed(Exec(s, es).rows, Exec(s, es).cursor)
    decreases Unresolved(s.rows)
  {
    assert Waiting(s.rows, s.cursor, i) && Waiting(s.rows, s.cursor, k);
    PageExists(s.rows, s.cursor, i);
    var page := PageOf(s.rows, s.cursor);
    PageShape(s.rows, s.cursor, page);
    EveryWriteExact(s.rows, s.cursor, page);
    if !NoInversion(s.rows, s.cursor, page) {
      var n :| 0 <= n <= |page| && !Passed(AckedRows(s.rows, page, n), CursorAt(s.cursor, page, n));
      es := RoundOf(t, page, n);
      RunRound(s, t, page, n);
    } else {
      InversionOffPage(s.rows, s.cursor, page, i, k);
      BatchResolves(s.rows, s.cursor, page);
      es := WholeRound(s, t, page);
      var s2 := Exec(s, es);
      var rest := InversionIsPassed(s2, t, i, k);
      ExecAppend(s, es, rest);
      es := es + rest;
    }
  }

  /** After its last row a lone thread is at rest. */
  lemma RestStep(s: Sys, t: int, page: seq<nat>)
    requires AllIdle(s)
    ensures var u := Midway(s, t, page, |page|);
            var s' := Exec(u, [Step(t)]);
            AllTimely(u, [Step(t)]) && AllIdle(s') && s'.rows == u.rows && s'.cursor == u.cursor
  {
    var u := Midway(s, t, page, |page|);
    ExecTrace([u, Next(u, Step(t))], [Step(t)]);
    NoInserts(u, [Step(t)]);
  }

  lemma BatchResolves(rows: seq<Row>, cursor: nat, page: seq<nat>)
    requires page != [] && IsPage(rows, cursor, page)
    ensures var rows' := AckedRows(rows, page, |page|);
            Unresolved(rows') < Unresolved(rows) && forall i :: 0 <= i < |rows| && i !in page ==> rows'[i] == rows[i]
  {
    assert page[..|page|] == page;
    assert Waiting(rows, cursor, page[0]);
    FewerUnresolved(rows, AckedRows(rows, page, |page|), page[0]);
  }

  /** A whole round comes back to rest with its batch acked. */
  lemma WholeRound(s: Sys, t: int, page: seq<nat>) returns (es: seq<Event>)
    requires AllIdle(s) && page != [] && IsPage(s.rows, s.cursor, page) && Inside(s.rows, page)
    ensures AllTimely(s, es)
    ensures var s' := Exec(s, es);
            AllIdle(s') && s'.rows == AckedRows(s.rows, page, |page|) && s'.cursor == CursorAt(s.cursor, page, |page|)
  {
    es := RoundOf(t, page, |page|) + [Step(t)];
    RunRound(s, t, page, |page|);
    RestStep(s, t, page);
    ExecAppend(s, RoundOf(t, page, |page|), [Step(t)]);
  }

  /** At rest, the cursor is safe in every run whose new rows are not older than those that
      wait exactly when the timestamps of the unresolved rows follow their ids. */
  lemma CursorSafeAtRestExact(s: Sys)
    requires AllIdle(s) && Passed(s.rows, s.cursor)
    ensures (forall es :: AllTimely(s, es) ==> Passed(Exec(s, es).rows, Exec(s, es).cursor)) <==> InOrder(s.rows)
  {
    if InOrder(s.rows) {
      forall es | AllTimely(s, es) ensures Passed(Exec(s, es).rows, Exec(s, es).cursor) {
        CursorNeverPasses(s, es);
      }
    } else {
      var i, k :| 0 <= i < k < |s.rows| && !Resolved(s.rows[i]) && !Resolved(s.rows[k]) && s.rows[i].ts > s.rows[k].ts;
      var es := InversionIsPassed(s, 0, i, k);
    }
  }

  lemma LateStampPage(rows: seq<Row>)
    requires |rows| == 2 && !Resolved(rows[0]) && !Resolved(rows[1]) && rows[1].ts < rows[0].ts
    ensures IsPage(rows, 0, [1, 0])
  {
  }

  lemma AckFirst(s: Sys, t: int, page: seq<nat>)
    requires At(s, t) == Posted(page) && page != [] && page[0] < |s.rows|
    ensures var u := Exec(s, [Answer(t, Accepted), Step(t), Step(t), Step(t)]);
            u.rows == s.rows[page[0] := Acked(s.rows[page[0]])] && u.cursor == Max(s.cursor, page[0] + 1)
  {
    var es := [Answer(t, Accepted), Step(t), Step(t), Step(t)];
    var s1 := Next(s, es[0]);
    var s2 := Next(s1, es[1]);
    var s3 := Next(s2, es[2]);
    ExecTrace([s, s1, s2, s3, Next(s3, es[3])], es);
  }

  /** Two rows whose timestamps run against their ids: the later one is acked first and the
      cursor passes the other while it is still pending. */
  lemma LateStampIsPassed(a: Row, b: Row, t: int)
    requires !Resolved(a) && !Resolved(b) && b.ts < a.ts
    ensures var s := Next(Sys([a, b], 0, map[]), Fetch(t, [1, 0]));
            var u := Exec(s, [Answer(t, Accepted), Step(t), Step(t), Step(t)]);
            At(s, t) == Posted([1, 0]) && u.rows == [a, Acked(b)] && u.cursor == 2 && !Passed(u.rows, u.cursor)
  {
    var s0 := Sys([a, b], 0, map[]);
    LateStampPage(s0.rows);
    var s := Next(s0, Fetch(t, [1, 0]));
    AckFirst(s, t, [1, 0]);
    var u := Exec(s, [Answer(t, Accepted), Step(t), Step(t), Step(t)]);
    assert [a, b][1 := Acked(b)] == [a, Acked(b)];
    assert u.rows[0] == a;
  }
}
