/** The SocketIO client's bounded buffer with its replay after a reconnect, and the windowed
    rate limit on log lines. */
module SocketBuffer {

  import opened Options

  // Messages are named by the order in which they were handed to the client.
  type Msg = nat

  function Over(n: nat, max: nat): nat { if n > max then n - max else 0 }

  /** The newest `max` of a sequence: what a bounded deque keeps on appending. */
  function Newest<T>(s: seq<T>, max: nat): seq<T> { s[Over(|s|, max)..] }

  /** The first `max` of a sequence: what it keeps on prepending. */
  function Oldest<T>(s: seq<T>, max: nat): seq<T> { s[..|s| - Over(|s|, max)] }

  // ---------------------------------------------------------------------------
  // The deque operations
  // ---------------------------------------------------------------------------

  class SocketClient {
    const max: nat
    var buffer: seq<Msg>
    var dropped: nat
    var connected: bool
    var sent: seq<Msg>

    ghost predicate Valid() reads this { |buffer| <= max }

    constructor (limit: nat)
      ensures Valid() && buffer == [] && sent == [] && dropped == 0 && !connected && max == limit
    {
      max, buffer, dropped, connected, sent := limit, [], 0, false, [];
    }

    method AppendLocked(m: Msg)
      requires Valid()
      modifies `buffer, `dropped
      ensures Valid()
      ensures buffer == Newest(old(buffer) + [m], max)
      ensures |buffer| + dropped == |old(buffer)| + old(dropped) + 1
    {
      if |buffer| >= max { dropped := dropped + 1; }
      var grown := buffer + [m];
      buffer := if |grown| > max then grown[1..] else grown;
    }

    method PrependLocked(items: seq<Msg>)
      requires Valid()
      modifies `buffer, `dropped
      ensures Valid()
      ensures buffer == Oldest(items + old(buffer), max)
      ensures |buffer| + dropped == |items| + |old(buffer)| + old(dropped)
    {
      var k := |items|;
      while k > 0
        invariant 0 <= k <= |items| && Valid()
        invariant buffer == Oldest(items[k..] + old(buffer), max)
        invariant |buffer| + dropped == |items| - k + |old(buffer)| + old(dropped)
      {
        k := k - 1;
        assert items[k..] + old(buffer) == [items[k]] + (items[k + 1..] + old(buffer));
        if |buffer| >= max { dropped := dropped + 1; }
        var grown := [items[k]] + buffer;
        buffer := if |grown| > max then grown[..|grown| - 1] else grown;
      }
      assert items[0..] == items;
    }

    /** `delivers` is whether the transport takes the message. */
    method Emit(m: Msg, delivers: bool) returns (ok: bool)
      requires Valid()
      modifies this
      ensures Valid() && ok == (old(connected) && delivers)
      ensures sent == if ok then old(sent) + [m] else old(sent)
      ensures buffer == if ok then old(buffer) else Newest(old(buffer) + [m], max)
      ensures connected == ok
      ensures |sent| + |buffer| + dropped == |old(sent)| + |old(buffer)| + old(dropped) + 1
    {
      ok := connected && delivers;
      connected := ok;
      if ok { sent := sent + [m]; } else { AppendLocked(m); }
    }

    /** A replay nobody interferes with: the messages that get through leave in order, the
        rest is back in the buffer in order. */
    method ReplayBuffer(delivers: seq<bool>) returns (replayed: nat)
      requires Valid() && |delivers| >= |buffer|
      modifies this
      ensures Valid() && replayed <= |old(buffer)|
      ensures forall i :: 0 <= i < replayed ==> delivers[i]
      ensures replayed < |old(buffer)| ==> !delivers[replayed] && !connected
      ensures replayed == |old(buffer)| ==> connected == old(connected)
      ensures sent == old(sent) + old(buffer)[..replayed] && buffer == old(buffer)[replayed..]
      ensures dropped == old(dropped)
    {
      replayed := 0;
      if buffer == [] { return; }
      var drained := buffer;
      buffer := [];
      while replayed < |drained|
        invariant replayed <= |drained| && Valid() && buffer == [] && dropped == old(dropped) && connected == old(connected)
        invariant forall i :: 0 <= i < replayed ==> delivers[i]
        invariant sent == old(sent) + drained[..replayed]
      {
        if !delivers[replayed] {
          PrependLocked(drained[replayed..]);
          assert drained[replayed..] + [] == drained[replayed..];
          connected := false;
          return;
        }
        sent := sent + [drained[replayed]];
        assert drained[..replayed + 1] == drained[..replayed] + [drained[replayed]];
        replayed := replayed + 1;
      }
    }
  }

  // ---------------------------------------------------------------------------
  // Concurrent senders and replays
  // ---------------------------------------------------------------------------

  datatype Sys = Sys(
    max: nat,
    next: Msg,
    connected: bool,
    buffer: seq<Msg>,
    sent: seq<Msg>,
    dropped: seq<Msg>,
    replays: seq<seq<Msg>>)

  datatype Event =
    | Emit(delivers: bool)
    | Connect
    | Drain
    | Replay(t: nat, delivers: bool)

  function Append(s: Sys, m: Msg): Sys {
    var all := s.buffer + [m];
    s.(buffer := Newest(all, s.max), dropped := s.dropped + all[..Over(|all|, s.max)])
  }

  function Prepend(s: Sys, items: seq<Msg>): Sys {
    var all := items + s.buffer;
    s.(buffer := Oldest(all, s.max), dropped := s.dropped + all[|all| - Over(|all|, s.max)..])
  }

  function Next(s: Sys, e: Event): Sys {
    match e
    case Emit(delivers) =>
      var s1 := s.(next := s.next + 1);
      if s.connected && delivers then s1.(sent := s.sent + [s.next])
      else Append(s1.(connected := false), s.next)
    case Connect => s.(connected := true)
    case Drain => if s.buffer == [] then s else s.(buffer := [], replays := s.replays + [s.buffer])
    case Replay(t, delivers) =>
      if t >= |s.replays| || s.replays[t] == [] then s
      else if delivers then s.(sent := s.sent + [s.replays[t][0]], replays := s.replays[t := s.replays[t][1..]])
      else Prepend(s.(connected := false, replays := s.replays[t := []]), s.replays[t])
  }

  function Exec(s: Sys, es: seq<Event>): Sys
    decreases |es|
  {
    if es == [] then s else Exec(Next(s, es[0]), es[1..])
  }

  function Init(max: nat): Sys {
    Sys(max, 0, false, [], [], [], [])
  }

  // ---------------------------------------------------------------------------
  // Conservation
  // ---------------------------------------------------------------------------

  function Count(s: seq<Msg>, m: Msg): nat { multiset(s)[m] }

  function InReplay(rs: seq<seq<Msg>>, m: Msg): nat {
    if rs == [] then 0 else Count(rs[0], m) + InReplay(rs[1..], m)
  }

  function ReplaySize(rs: seq<seq<Msg>>): nat {
    if rs == [] then 0 else |rs[0]| + ReplaySize(rs[1..])
  }

  function Places(s: Sys, m: Msg): nat {
    Count(s.sent, m) + Count(s.buffer, m) + Count(s.dropped, m) + InReplay(s.replays, m)
  }

  /** Each message handed over so far is in exactly one place, and the buffer within its bound. */
  ghost predicate Conserved(s: Sys) {
    && (forall m: Msg :: Places(s, m) == if m < s.next then 1 else 0)
    && s.next == |s.sent| + |s.buffer| + |s.dropped| + ReplaySize(s.replays)
    && |s.buffer| <= s.max
  }

  lemma CountSplit(a: seq<Msg>, b: seq<Msg>, m: Msg)
    ensures Count(a + b, m) == Count(a, m) + Count(b, m)
  {
  }

  lemma CountCut(s: seq<Msg>, k: nat, m: Msg)
    requires k <= |s|
    ensures Count(s, m) == Count(s[..k], m) + Count(s[k..], m)
  {
    assert s == s[..k] + s[k..];
  }

  lemma {:induction false} InReplaySet(rs: seq<seq<Msg>>, t: nat, r: seq<Msg>, m: Msg)
    requires t < |rs|
    ensures InReplay(rs[t := r], m) + Count(rs[t], m) == InReplay(rs, m) + Count(r, m)
    ensures ReplaySize(rs[t := r]) + |rs[t]| == ReplaySize(rs) + |r|
  {
    if t == 0 {
      assert rs[0 := r][1..] == rs[1..];
    } else {
      assert rs[t := r][1..] == rs[1..][t - 1 := r];
      InReplaySet(rs[1..], t - 1, r, m);
    }
  }

  lemma {:induction false} InReplayAdd(rs: seq<seq<Msg>>, r: seq<Msg>, m: Msg)
    ensures InReplay(rs + [r], m) == InReplay(rs, m) + Count(r, m)
    ensures ReplaySize(rs + [r]) == ReplaySize(rs) + |r|
  {
    if rs == [] {
      assert [r][1..] == [] && [] + [r] == [r];
    } else {
      assert (rs + [r])[1..] == rs[1..] + [r];
      InReplayAdd(rs[1..], r, m);
    }
  }

  lemma AppendPlaces(s: Sys, x: Msg, m: Msg)
    ensures Places(Append(s, x), m) == Places(s, m) + if m == x then 1 else 0
  {
    var all := s.buffer + [x];
    var k := Over(|all|, s.max);
    CountSplit(s.buffer, [x], m);
    CountCut(all, k, m);
    CountSplit(s.dropped, all[..k], m);
  }

  /** Messages that move between the buffer and the dropped ones. */
  lemma MovedPlaces(s: Sys, s': Sys, kept: seq<Msg>, gone: seq<Msg>, n: nat, m: Msg)
    requires s' == s.(buffer := kept, dropped := s.dropped + gone)
    requires Count(kept, m) + Count(gone, m) == n + Count(s.buffer, m)
    ensures Places(s', m) == Places(s, m) + n
  {
    CountSplit(s.dropped, gone, m);
  }

  lemma PrependPlaces(s: Sys, items: seq<Msg>, m: Msg)
    ensures Places(Prepend(s, items), m) == Places(s, m) + Count(items, m)
  {
    var all := items + s.buffer;
    var k := |all| - Over(|all|, s.max);
    CutCounts(items, s.buffer, all, k, m);
    MovedPlaces(s, Prepend(s, items), all[..k], all[k..], Count(items, m), m);
  }

  lemma CutCounts(a: seq<Msg>, b: seq<Msg>, all: seq<Msg>, k: nat, m: Msg)
    requires all == a + b && k <= |all|
    ensures Count(all[..k], m) + Count(all[k..], m) == Count(a, m) + Count(b, m)
  {
    CountSplit(a, b, m);
    CountCut(all, k, m);
  }

  lemma EmitConserves(s: Sys, delivers: bool)
    requires Conserved(s)
    ensures Conserved(Next(s, Emit(delivers)))
  {
    var s' := Next(s, Emit(delivers));
    forall m: Msg ensures Places(s', m) == if m < s'.next then 1 else 0 {
      assert Places(s, m) == if m < s.next then 1 else 0;
      if s.connected && delivers {
        CountSplit(s.sent, [s.next], m);
      } else {
        AppendPlaces(s.(next := s.next + 1, connected := false), s.next, m);
      }
    }
  }

  lemma ReplayConserves(s: Sys, t: nat, delivers: bool)
    requires Conserved(s) && t < |s.replays| && s.replays[t] != []
    ensures Conserved(Next(s, Replay(t, delivers)))
  {
    var r, s' := s.replays[t], Next(s, Replay(t, delivers));
    var rest := if delivers then r[1..] else [];
    forall m: Msg ensures Places(s', m) == if m < s'.next then 1 else 0 {
      assert Places(s, m) == if m < s.next then 1 else 0;
      InReplaySet(s.replays, t, rest, m);
      if delivers {
        CountCut(r, 1, m);
        assert r[..1] == [r[0]];
        CountSplit(s.sent, [r[0]], m);
      } else {
        PrependPlaces(s.(connected := false, replays := s.replays[t := []]), r, m);
      }
    }
    InReplaySet(s.replays, t, rest, 0);
  }

  lemma DrainConserves(s: Sys)
    requires Conserved(s)
    ensures Conserved(Next(s, Drain))
  {
    var s' := Next(s, Drain);
    forall m: Msg ensures Places(s', m) == if m < s'.next then 1 else 0 {
      assert Places(s, m) == if m < s.next then 1 else 0;
      InReplayAdd(s.replays, s.buffer, m);
    }
    InReplayAdd(s.replays, s.buffer, 0);
  }

  lemma ConservedStep(s: Sys, e: Event)
    requires Conserved(s)
    ensures Conserved(Next(s, e))
  {
    match e
    case Emit(delivers) => EmitConserves(s, delivers);
    case Drain => DrainConserves(s);
    case Replay(t, delivers) => if t < |s.replays| && s.replays[t] != [] { ReplayConserves(s, t, delivers); }
    case Connect => assert forall m: Msg :: Places(Next(s, e), m) == Places(s, m);
  }

  /** Every message handed to the client is, once and only once, sent, buffered, in a replay
      or counted as dropped, for any interleaving of senders and replays. */
  lemma {:induction false} NothingUnaccounted(s: Sys, es: seq<Event>)
    requires Conserved(s)
    ensures Conserved(Exec(s, es))
    decreases |es|
  {
    if es != [] {
      ConservedStep(s, es[0]);
      NothingUnaccounted(Next(s, es[0]), es[1..]);
    }
  }

  lemma InitConserved(max: nat)
    ensures Conserved(Init(max)) && InOrder(Init(max))
  {
    forall m: Msg ensures Places(Init(max), m) == 0 {
      assert Count([], m) == 0;
    }
  }

  // ---------------------------------------------------------------------------
  // Order
  // ---------------------------------------------------------------------------

  ghost predicate Ascending(s: seq<Msg>) {
    forall i, j :: 0 <= i < j < |s| ==> s[i] < s[j]
  }

  /** What is being replayed is older than what is buffered. */
  ghost predicate InOrder(s: Sys) {
    && Ascending(s.buffer) && (forall i :: 0 <= i < |s.buffer| ==> s.buffer[i] < s.next)
    && (forall t :: 0 <= t < |s.replays| ==> Ascending(s.replays[t] + s.buffer))
    && (forall t, i :: 0 <= t < |s.replays| && 0 <= i < |s.replays[t]| ==> s.replays[t][i] < s.next)
    && (forall t, u :: 0 <= t < u < |s.replays| ==> s.replays[t] == [] || s.replays[u] == [])
  }

  /** A second replay takes the buffer while a first one is still under way. */
  ghost predicate SecondReplay(s: Sys, e: Event) {
    e == Drain && s.buffer != [] && exists t :: 0 <= t < |s.replays| && s.replays[t] != []
  }

  /** Appending a newer message and losing the oldest keeps a sequence ascending, also
      behind a prefix that is not touched. */
  lemma AscendingAppend(r: seq<Msg>, b: seq<Msg>, x: Msg, k: nat)
    requires Ascending(r + b) && k <= |b| + 1
    requires (forall i :: 0 <= i < |r| ==> r[i] < x) && (forall i :: 0 <= i < |b| ==> b[i] < x)
    ensures Ascending(r + (b + [x])[k..])
  {
    var a, c, n := r + b, r + (b + [x])[k..], |r|;
    forall i, j | 0 <= i < j < |c| ensures c[i] < c[j] {
      var i', j' := if i < n then i else i + k, if j < n then j else j + k;
      assert i' < |a| && c[i] == a[i'];
      assert i' < n ==> a[i'] == r[i'];
      assert i' >= n ==> a[i'] == b[i' - n];
      if j' < |a| { assert c[j] == a[j']; } else { assert c[j] == x; }
    }
  }

  lemma AppendBuffer(s: Sys, r: seq<Msg>)
    requires Ascending(r + s.buffer)
    requires (forall i :: 0 <= i < |r| ==> r[i] < s.next) && (forall i :: 0 <= i < |s.buffer| ==> s.buffer[i] < s.next)
    ensures var b := Append(s, s.next).buffer;
            Ascending(r + b) && forall i :: 0 <= i < |b| ==> b[i] < s.next + 1
  {
    AscendingAppend(r, s.buffer, s.next, Over(|s.buffer + [s.next]|, s.max));
  }

  lemma AppendInOrder(s: Sys)
    requires InOrder(s)
    ensures InOrder(Append(s.(next := s.next + 1, connected := false), s.next))
  {
    var b := Append(s, s.next).buffer;
    assert [] + s.buffer == s.buffer && [] + b == b;
    AppendBuffer(s, []);
    forall t | 0 <= t < |s.replays| ensures Ascending(s.replays[t] + b) {
      AppendBuffer(s, s.replays[t]);
    }
  }

  lemma FailInOrder(s: Sys, t: nat)
    requires InOrder(s) && t < |s.replays| && s.replays[t] != []
    ensures InOrder(Prepend(s.(connected := false, replays := s.replays[t := []]), s.replays[t]))
  {
    var s' := Prepend(s.(connected := false, replays := s.replays[t := []]), s.replays[t]);
    var all := s.replays[t] + s.buffer;
    assert Ascending(all);
    assert forall i :: 0 <= i < |s'.buffer| ==> s'.buffer[i] == all[i];
    forall u | 0 <= u < |s'.replays| ensures s'.replays[u] == [] && Ascending(s'.replays[u] + s'.buffer) {
      assert u < t || t < u || u == t;
      assert [] + s'.buffer == s'.buffer;
    }
  }

  lemma SentInOrder(s: Sys, t: nat)
    requires InOrder(s) && t < |s.replays| && s.replays[t] != []
    ensures InOrder(s.(sent := s.sent + [s.replays[t][0]], replays := s.replays[t := s.replays[t][1..]]))
  {
    var rs := s.replays[t := s.replays[t][1..]];
    assert Ascending(s.replays[t] + s.buffer);
    assert rs[t] + s.buffer == (s.replays[t] + s.buffer)[1..];
  }

  lemma DrainInOrder(s: Sys)
    requires InOrder(s) && !SecondReplay(s, Drain)
    ensures InOrder(Next(s, Drain))
  {
    if s.buffer != [] {
      var rs := s.replays + [s.buffer];
      assert s.buffer + [] == s.buffer;
      forall t | 0 <= t < |rs| ensures Ascending(rs[t] + []) {
        assert t < |s.replays| ==> s.replays[t] == [];
      }
    }
  }

  lemma InOrderStep(s: Sys, e: Event)
    requires InOrder(s) && !SecondReplay(s, e)
    ensures InOrder(Next(s, e))
  {
    match e
    case Emit(delivers) => if !(s.connected && delivers) { AppendInOrder(s); }
    case Drain => DrainInOrder(s);
    case Replay(t, delivers) =>
      if t < |s.replays| && s.replays[t] != [] {
        if delivers { SentInOrder(s, t); } else { FailInOrder(s, t); }
      }
    case Connect =>
  }

  ghost predicate OneReplay(s: Sys, es: seq<Event>)
    decreases |es|
  {
    es == [] || (!SecondReplay(s, es[0]) && OneReplay(Next(s, es[0]), es[1..]))
  }

  /** With one replay at a time, the buffer keeps acceptance order through failed replays
      and overflow at either end. */
  lemma {:induction false} BufferStaysInOrder(s: Sys, es: seq<Event>)
    requires InOrder(s) && OneReplay(s, es)
    ensures InOrder(Exec(s, es))
    decreases |es|
  {
    if es != [] {
      InOrderStep(s, es[0]);
      BufferStaysInOrder(Next(s, es[0]), es[1..]);
    }
  }

  lemma {:induction false} ExecTrace(ss: seq<Sys>, es: seq<Event>)
    requires |ss| == |es| + 1
    requires forall i :: 0 <= i < |es| ==> ss[i + 1] == Next(ss[i], es[i])
    ensures Exec(ss[0], es) == ss[|es|]
    decreases |es|
  {
    if es != [] { ExecTrace(ss[1..], es[1..]); }
  }

  lemma SecondDrain(s: Sys, a: Msg, b: Msg)
    requires s.max >= 2 && s.next == b && s.buffer == [a] && s.replays == [] && s.connected
    ensures var t := Exec(s, [Drain, Emit(false), Drain]);
            t.buffer == [] && t.replays == [[a], [b]] && t.max == s.max
  {
    var es := [Drain, Emit(false), Drain];
    var s1 := Next(s, es[0]);
    assert s1.replays == [[a]] && s1.buffer == [];
    var s2 := Next(s1, es[1]);
    assert s2.buffer == [b] && s2.replays == [[a]];
    ExecTrace([s, s1, s2, Next(s2, es[2])], es);
  }

  /** Two replays that fail: the older messages are put back first, the newer ones in front
      of them. */
  lemma TwoReplaysReorder(s: Sys, a: Msg, b: Msg)
    requires s.max >= 2 && s.next == b && s.buffer == [a] && s.replays == [] && s.connected
    ensures var t := Exec(s, [Drain, Emit(false), Drain]);
            Exec(t, [Replay(0, false), Replay(1, false)]).buffer == [b, a]
  {
    SecondDrain(s, a, b);
    var t := Exec(s, [Drain, Emit(false), Drain]);
    var s4 := Next(t, Replay(0, false));
    assert s4.buffer == [a] && s4.replays == [[], [b]];
    assert [b] + [a] == [b, a];
    ExecTrace([t, s4, Next(s4, Replay(1, false))], [Replay(0, false), Replay(1, false)]);
  }

  // ---------------------------------------------------------------------------
  // An outage and its replay
  // ---------------------------------------------------------------------------

  /** The messages handed over from number `a` on. */
  function Numbers(a: Msg, n: nat): (r: seq<Msg>)
    ensures |r| == n
  {
    if n == 0 then [] else Numbers(a, n - 1) + [a + n - 1]
  }

  function Emits(n: nat): seq<Event> {
    if n == 0 then [] else Emits(n - 1) + [Emit(true)]
  }

  function Replays(t: nat, n: nat): seq<Event> {
    if n == 0 then [] else [Replay(t, true)] + Replays(t, n - 1)
  }

  lemma {:induction false} ExecAppend(s: Sys, es: seq<Event>, fs: seq<Event>)
    ensures Exec(s, es + fs) == Exec(Exec(s, es), fs)
    decreases |es|
  {
    if es == [] {
      assert es + fs == fs;
    } else {
      assert (es + fs)[1..] == es[1..] + fs;
      ExecAppend(Next(s, es[0]), es[1..], fs);
    }
  }

  lemma OneStep(s: Sys, e: Event)
    ensures Exec(s, [e]) == Next(s, e)
  {
    assert [e][1..] == [];
  }

  /** While the client is disconnected nothing is sent, and nothing dropped while there is room. */
  lemma {:induction false} OfflineRun(s: Sys, n: nat)
    requires !s.connected && |s.buffer| + n <= s.max
    ensures Exec(s, Emits(n)) == s.(next := s.next + n, buffer := s.buffer + Numbers(s.next, n))
  {
    if n == 0 {
      assert s.buffer + [] == s.buffer;
    } else {
      OfflineRun(s, n - 1);
      var t := Exec(s, Emits(n - 1));
      ExecAppend(s, Emits(n - 1), [Emit(true)]);
      OneStep(t, Emit(true));
      assert t.buffer + [t.next] == s.buffer + Numbers(s.next, n);
      assert t.dropped + (t.buffer + [t.next])[..0] == t.dropped;
    }
  }

  lemma {:induction false} ReplayRun(s: Sys, t: nat, n: nat)
    requires t < |s.replays| && |s.replays[t]| == n
    ensures Exec(s, Replays(t, n)) == s.(sent := s.sent + s.replays[t], replays := s.replays[t := []])
    decreases n
  {
    var r := s.replays[t];
    if n == 0 {
      assert s.sent + r == s.sent && s.replays[t := []] == s.replays;
    } else {
      var u := Next(s, Replay(t, true));
      assert r == [r[0]] + r[1..];
      assert u.replays[t := []] == s.replays[t := []] && u.sent + u.replays[t] == s.sent + r;
      ReplayRun(u, t, n - 1);
      OneStep(s, Replay(t, true));
      ExecAppend(s, [Replay(t, true)], Replays(t, n - 1));
    }
  }

  function Outage(t: nat, n: nat): seq<Event> {
    [Emit(false)] + Emits(n) + [Connect, Drain] + Replays(t, n + 1)
  }

  lemma NumbersFront(a: Msg, n: nat)
    ensures [a] + Numbers(a + 1, n) == Numbers(a, n + 1)
  {
    if n > 0 {
      NumbersFront(a, n - 1);
      assert [a] + Numbers(a + 1, n) == ([a] + Numbers(a + 1, n - 1)) + [a + n];
    }
  }

  lemma OutageBuffers(s: Sys, n: nat)
    requires s.connected && s.buffer == [] && n < s.max
    ensures Exec(s, [Emit(false)] + Emits(n)) == s.(next := s.next + n + 1, connected := false, buffer := Numbers(s.next, n + 1))
  {
    var u := Next(s, Emit(false));
    assert u.buffer == [s.next] && u.dropped == s.dropped;
    OneStep(s, Emit(false));
    OfflineRun(u, n);
    NumbersFront(s.next, n);
    ExecAppend(s, [Emit(false)], Emits(n));
  }

  lemma Reconnect(s: Sys)
    requires s.buffer != []
    ensures Exec(s, [Connect, Drain]) == s.(connected := true, buffer := [], replays := s.replays + [s.buffer])
  {
    ExecTrace([s, Next(s, Connect), Next(Next(s, Connect), Drain)], [Connect, Drain]);
  }

  /** An outage in which no more messages come than the buffer holds loses none of them:
      after the reconnect they are sent, each once and in order. */
  lemma OutageLosesNothing(s: Sys, n: nat)
    requires s.connected && s.buffer == [] && n < s.max
    ensures var u := Exec(s, Outage(|s.replays|, n));
            && u.sent == s.sent + Numbers(s.next, n + 1) && u.buffer == [] && u.dropped == s.dropped && u.connected
            && u.next == s.next + n + 1 && u.replays == s.replays + [[]]
  {
    var t := |s.replays|;
    var a, b, c := [Emit(false)] + Emits(n), [Connect, Drain], Replays(t, n + 1);
    OutageBuffers(s, n);
    var s1 := Exec(s, a);
    Reconnect(s1);
    var s2 := Exec(s1, b);
    assert s2.replays[t] == Numbers(s.next, n + 1);
    ReplayRun(s2, t, n + 1);
    assert s2.replays[t := []] == s.replays + [[]];
    ExecAppend(s, a, b);
    ExecAppend(s, a + b, c);
  }

  // ---------------------------------------------------------------------------
  // The rate limit
  // ---------------------------------------------------------------------------

  datatype Window = Window(start: real, count: nat)

  /** One call at time `now` under the limit `limit`: whether the line is let through. */
  function Allow(limit: Option<int>, w: Window, now: real): (bool, Window) {
    if limit == None then (true, w)
    else if limit.value <= 0 then (false, w)
    else
      var w1 := if now - w.start >= 1.0 then Window(now, 0) else w;
      if w1.count >= limit.value then (false, w1) else (true, w1.(count := w1.count + 1))
  }

  class LogLimiter {
    var limit: Option<int>
    var window: Window

    constructor (now: real)
      ensures limit == None && window == Window(now, 0)
    {
      limit, window := None, Window(now, 0);
    }

    method SetLimit(l: Option<int>, now: real)
      modifies this
      ensures limit == l && window == Window(now, 0)
    {
      limit, window := l, Window(now, 0);
    }

    /** Under a positive limit a line is refused only while its window is open and full, and
        one that is let through is counted in a window less than a second old and not over
        the limit. */
    method AllowLocked(now: real) returns (ok: bool)
      modifies `window
      ensures (ok, window) == Allow(limit, old(window), now)
      ensures limit == None ==> ok
      ensures limit.Some? && limit.value <= 0 ==> !ok
      ensures limit.Some? && limit.value > 0 ==> (ok <==> now >= old(window).start + 1.0 || old(window).count < limit.value)
      ensures limit.Some? && ok ==> now < window.start + 1.0 && 0 < window.count <= limit.value
      ensures !ok ==> window == old(window)
      ensures window.start == old(window).start ==> window.count >= old(window).count
      ensures window.start != old(window).start ==> window.start == now && now >= old(window).start + 1.0 && window.count == 1
    {
      if limit == None { return true; }
      if limit.value <= 0 { return false; }
      if now - window.start >= 1.0 { window := Window(now, 0); }
      if window.count >= limit.value { return false; }
      window := window.(count := window.count + 1);
      ok := true;
    }
  }

  /** The times of the lines let through, and the window each fell in. */
  datatype Passed = Passed(w: Window, times: seq<real>, starts: seq<real>)

  function Calls(limit: int, w: Window, times: seq<real>): Passed {
    if times == [] then Passed(w, [], [])
    else
      var p := Calls(limit, w, times[..|times| - 1]);
      var (ok, w') := Allow(Some(limit), p.w, times[|times| - 1]);
      if ok then Passed(w', p.times + [times[|times| - 1]], p.starts + [w'.start]) else p.(w := w')
  }

  ghost predicate Monotone(start: real, times: seq<real>) {
    && (forall i, j :: 0 <= i < j < |times| ==> times[i] <= times[j])
    && (forall i :: 0 <= i < |times| ==> start <= times[i])
  }

  /** Lines fall inside their window of less than a second, windows are a second apart, and
      none holds more lines than the limit. */
  ghost predicate Windowed(limit: int, p: Passed, last: real)
    requires limit > 0
  {
    && |p.times| == |p.starts|
    && (forall i :: 0 <= i < |p.times| ==> p.starts[i] <= p.times[i] < p.starts[i] + 1.0)
    && (forall i :: 0 <= i < |p.starts| ==> p.starts[i] <= p.w.start)
    && (forall i :: 0 <= i < |p.starts| && i + p.w.count < |p.starts| ==> p.starts[i] + 1.0 <= p.w.start)
    && (forall i :: 0 <= i && i + limit < |p.starts| ==> p.starts[i] + 1.0 <= p.starts[i + limit])
    && p.w.start <= last
  }

  lemma {:induction false} CallsWindowed(limit: int, w: Window, times: seq<real>)
    requires limit > 0 && Monotone(w.start, times)
    ensures Windowed(limit, Calls(limit, w, times), if times == [] then w.start else times[|times| - 1])
    decreases |times|
  {
    if times != [] {
      var before := times[..|times| - 1];
      CallsWindowed(limit, w, before);
      WindowedNext(limit, Calls(limit, w, before), if before == [] then w.start else before[|before| - 1], times[|times| - 1]);
    }
  }

  lemma WindowedNext(limit: int, p: Passed, last: real, now: real)
    requires limit > 0 && Windowed(limit, p, last) && last <= now
    ensures var (ok, w') := Allow(Some(limit), p.w, now);
            Windowed(limit, if ok then Passed(w', p.times + [now], p.starts + [w'.start]) else p.(w := w'), now)
  {
    var (ok, w') := Allow(Some(limit), p.w, now);
    if ok {
      var q := Passed(w', p.times + [now], p.starts + [w'.start]);
      forall i | 0 <= i && i + limit < |q.starts| ensures q.starts[i] + 1.0 <= q.starts[i + limit] {
        if i + limit == |p.starts| { assert i < |p.starts|; }
      }
    }
  }

  /** Under a constant limit, no second, wherever it begins, lets through more than twice
      the limit. */
  lemma AtMostTwicePerSecond(limit: int, w: Window, times: seq<real>, i: nat)
    requires limit > 0 && Monotone(w.start, times)
    requires i + 2 * limit < |Calls(limit, w, times).times|
    ensures Calls(limit, w, times).times[i + 2 * limit] - Calls(limit, w, times).times[i] > 1.0
  {
    CallsWindowed(limit, w, times);
    var p := Calls(limit, w, times);
    assert p.starts[i] + 1.0 <= p.starts[i + limit];
    assert p.starts[i + limit] + 1.0 <= p.starts[i + limit + limit];
  }

  /** As many lines as the limit allows pass in a fresh window, whenever they come. */
  lemma {:induction false} LimitIsUsed(limit: int, start: real, times: seq<real>)
    requires limit > 0 && |times| <= limit && Monotone(start, times)
    ensures Calls(limit, Window(start, 0), times).times == times
    ensures Calls(limit, Window(start, 0), times).w.count <= |times|
    decreases |times|
  {
    if times != [] {
      var before := times[..|times| - 1];
      LimitIsUsed(limit, start, before);
      assert times == before + [times[|times| - 1]];
    }
  }
}
