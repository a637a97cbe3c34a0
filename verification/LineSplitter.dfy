/** The non-blocking reader of a step's output: newline normalisation chunk by chunk, line
    splitting, the forced break of an over-long line, and the capture budget per stream. */
module LineSplitter {

  // Characters of one stream kept in memory, and the longest line handed over.
  const MAX := 8 * 1024 * 1024

  // ---------------------------------------------------------------------------
  // Newlines
  // ---------------------------------------------------------------------------

  /** Both replacements at once: a pair and a lone carriage return become a line feed. */
  function Norm(s: string): (r: string)
    ensures |r| <= |s|
  {
    if s == [] then []
    else if s[0] == '\r' then ['\n'] + Norm(if |s| > 1 && s[1] == '\n' then s[2..] else s[1..])
    else [s[0]] + Norm(s[1..])
  }

  function ReplacePairs(s: string): string {
    if s == [] then []
    else if s[0] == '\r' && |s| > 1 && s[1] == '\n' then ['\n'] + ReplacePairs(s[2..])
    else [s[0]] + ReplacePairs(s[1..])
  }

  function ReplaceReturns(s: string): string {
    if s == [] then [] else [if s[0] == '\r' then '\n' else s[0]] + ReplaceReturns(s[1..])
  }

  lemma {:induction false} NormIsBothReplacements(s: string)
    ensures Norm(s) == ReplaceReturns(ReplacePairs(s))
  {
    if s != [] {
      var pair := s[0] == '\r' && |s| > 1 && s[1] == '\n';
      var rest := if pair then s[2..] else s[1..];
      NormIsBothReplacements(rest);
      var first := if pair then '\n' else s[0];
      assert ReplacePairs(s) == [first] + ReplacePairs(rest);
      assert ([first] + ReplacePairs(rest))[1..] == ReplacePairs(rest);
    }
  }

  lemma {:induction false} NormPlain(s: string)
    requires '\r' !in s
    ensures Norm(s) == s
  {
    if s != [] {
      NormPlain(s[1..]);
      assert s == [s[0]] + s[1..];
    }
  }

  predicate Straddles(a: string, b: string) {
    a != [] && b != [] && a[|a| - 1] == '\r' && b[0] == '\n'
  }

  lemma Assoc<T>(a: seq<T>, b: seq<T>, c: seq<T>)
    ensures (a + b) + c == a + (b + c)
  {
  }

  predicate Pair(s: string) { |s| > 1 && s[0] == '\r' && s[1] == '\n' }

  lemma NormHead(s: string, k: nat)
    requires s != [] && k == (if Pair(s) then 2 else 1)
    ensures Norm(s) == [if s[0] == '\r' then '\n' else s[0]] + Norm(s[k..])
  {
  }

  lemma {:induction false} NormSplit(a: string, b: string)
    ensures !Straddles(a, b) ==> Norm(a + b) == Norm(a) + Norm(b)
    ensures Straddles(a, b) ==> |Norm(a + b)| + 1 == |Norm(a)| + |Norm(b)|
    decreases |a|
  {
    if a == [] {
      assert a + b == b && [] + Norm(b) == Norm(b);
    } else if a == ['\r'] && Straddles(a, b) {
      assert (a + b)[2..] == b[1..] && a[1..] == [];
      NormHead(a + b, 2);
      NormHead(a, 1);
      NormHead(b, 1);
    } else {
      var k := if Pair(a) then 2 else 1;
      assert (a + b)[k..] == a[k..] + b && (a + b)[0] == a[0];
      assert |a| > 1 ==> (a + b)[1] == a[1];
      NormHead(a + b, k);
      NormHead(a, k);
      NormSplit(a[k..], b);
      StraddlesTail(a, b, k);
      Assoc([if a[0] == '\r' then '\n' else a[0]], Norm(a[k..]), Norm(b));
    }
  }

  lemma StraddlesTail(a: string, b: string, k: nat)
    requires 0 < k <= |a| && !(a == ['\r'] && Straddles(a, b)) && (k == 2 ==> a[1] == '\n') && k <= 2
    requires k == 1 ==> !Pair(a)
    ensures Straddles(a[k..], b) <==> Straddles(a, b)
  {
    if a[k..] != [] { assert a[k..][|a| - k - 1] == a[|a| - 1]; }
  }

  function Concat(ss: seq<string>): string {
    if ss == [] then [] else ss[0] + Concat(ss[1..])
  }

  function Normed(chunks: seq<string>): string {
    if chunks == [] then [] else Norm(chunks[0]) + Normed(chunks[1..])
  }

  /** How many pairs are cut in two by the chunk boundaries. */
  function Cuts(chunks: seq<string>): nat {
    if chunks == [] then 0
    else (if Straddles(chunks[0], Concat(chunks[1..])) then 1 else 0) + Cuts(chunks[1..])
  }

  /** Each cut pair yields one line feed too many, and nothing else depends on the chunks. */
  lemma {:induction false} CutsCount(chunks: seq<string>)
    ensures |Normed(chunks)| == |Norm(Concat(chunks))| + Cuts(chunks)
    ensures Cuts(chunks) == 0 ==> Normed(chunks) == Norm(Concat(chunks))
  {
    if chunks != [] {
      NormSplit(chunks[0], Concat(chunks[1..]));
      CutsCount(chunks[1..]);
    }
  }

  /** Normalising chunk by chunk agrees with normalising the stream exactly when no pair
      straddles two chunks. */
  lemma ChunkingMattersExact(chunks: seq<string>)
    ensures Normed(chunks) == Norm(Concat(chunks)) <==> Cuts(chunks) == 0
  {
    CutsCount(chunks);
  }

  // ---------------------------------------------------------------------------
  // Lines
  // ---------------------------------------------------------------------------

  datatype Piece = Piece(text: string, forced: bool)

  /** A piece without the line feed the reader itself added. */
  function Text(p: Piece): string {
    if p.forced && p.text != [] then p.text[..|p.text| - 1] else p.text
  }

  function Joined(ps: seq<Piece>): string {
    if ps == [] then [] else Joined(ps[..|ps| - 1]) + Text(ps[|ps| - 1])
  }

  function IndexOf(s: string, c: char): (i: nat)
    ensures i <= |s| && (i < |s| ==> s[i] == c) && c !in s[..i]
    ensures i == |s| <==> c !in s
  {
    if s == [] then 0 else if s[0] == c then 0 else 1 + IndexOf(s[1..], c)
  }

  /** The complete lines of a text. */
  function Lines(s: string): seq<Piece>
    decreases |s|
  {
    var i := IndexOf(s, '\n');
    if i == |s| then [] else [Piece(s[..i] + "\n", false)] + Lines(s[i + 1..])
  }

  lemma LinesFirst(s: string)
    requires '\n' in s
    ensures var i := IndexOf(s, '\n');
            i < |s| && Lines(s) == [Piece(s[..i] + "\n", false)] + Lines(s[i + 1..]) && Rest(s) == Rest(s[i + 1..])
  {
  }

  /** What follows the last line feed. */
  function Rest(s: string): (r: string)
    ensures '\n' !in r && |r| <= |s|
    decreases |s|
  {
    var i := IndexOf(s, '\n');
    if i == |s| then s else Rest(s[i + 1..])
  }

  lemma IndexIs(s: string, i: nat)
    requires i < |s| && s[i] == '\n' && '\n' !in s[..i]
    ensures IndexOf(s, '\n') == i
  {
    assert forall k :: 0 <= k < i ==> s[k] in s[..i];
    assert forall k :: 0 <= k < IndexOf(s, '\n') ==> s[k] in s[..IndexOf(s, '\n')];
  }

  lemma LinesAt(s: string, i: nat)
    requires i < |s| && s[i] == '\n' && '\n' !in s[..i]
    ensures Lines(s) == [Piece(s[..i] + "\n", false)] + Lines(s[i + 1..]) && Rest(s) == Rest(s[i + 1..])
  {
    IndexIs(s, i);
    assert s[i] in s;
    LinesFirst(s);
  }

  lemma CutInside(p: string, n: string, k: nat)
    requires k <= |p|
    ensures (p + n)[..k] == p[..k] && (p + n)[k..] == p[k..] + n
  {
  }

  /** Cutting a text anywhere changes neither its lines nor its rest. */
  lemma {:induction false} LinesAppend(p: string, n: string)
    ensures Lines(p + n) == Lines(p) + Lines(Rest(p) + n) && Rest(p + n) == Rest(Rest(p) + n)
    decreases |p|
  {
    var i := IndexOf(p, '\n');
    if i == |p| {
      NoLine(p);
    } else {
      var s, tail, head := p + n, p[i + 1..], [Piece(p[..i] + "\n", false)];
      LinesAppend(tail, n);
      CutInside(p, n, i);
      CutInside(p, n, i + 1);
      LinesAt(s, i);
      LinesAt(p, i);
      Assoc(head, Lines(tail), Lines(Rest(tail) + n));
    }
  }

  lemma NoLine(p: string)
    requires '\n' !in p
    ensures Lines(p) == [] && Rest(p) == p
  {
  }

  lemma JoinedLast(ps: seq<Piece>, p: Piece)
    ensures Joined(ps + [p]) == Joined(ps) + Text(p)
  {
    var all := ps + [p];
    assert all[..|all| - 1] == ps && all[|all| - 1] == p;
  }

  lemma {:induction false} JoinedAppend(a: seq<Piece>, b: seq<Piece>)
    ensures Joined(a + b) == Joined(a) + Joined(b)
    decreases |b|
  {
    if b == [] {
      assert a + b == a;
    } else {
      var front, last := b[..|b| - 1], b[|b| - 1];
      JoinedAppend(a, front);
      assert b == front + [last];
      Assoc(a, front, [last]);
      JoinedLast(a + front, last);
      JoinedLast(front, last);
      Assoc(Joined(a), Joined(front), Text(last));
    }
  }

  lemma JoinedOne(p: Piece)
    ensures Joined([p]) == Text(p)
  {
    JoinedLast([], p);
    assert [] + [p] == [p];
  }

  lemma {:induction false} LinesJoin(s: string)
    ensures Joined(Lines(s)) + Rest(s) == s
    decreases |s|
  {
    var i := IndexOf(s, '\n');
    if i == |s| {
      assert Joined(Lines(s)) == [] && [] + s == s;
    } else {
      var line, tail := Piece(s[..i] + "\n", false), s[i + 1..];
      LinesJoin(tail);
      JoinedAppend([line], Lines(tail));
      JoinedOne(line);
      Assoc(line.text, Joined(Lines(tail)), Rest(tail));
      LineAndTail(s, i);
    }
  }

  lemma LineAndTail(s: string, i: nat)
    requires i < |s| && s[i] == '\n'
    ensures (s[..i] + "\n") + s[i + 1..] == s
  {
  }

  // ---------------------------------------------------------------------------
  // One chunk
  // ---------------------------------------------------------------------------

  predicate Overlong(s: string) { |s| > MAX }

  /** The prefix handed over when no line feed came in time. */
  function Forced(s: string): seq<Piece> {
    if Overlong(s) then [Piece(s[..MAX - 1] + "\n", true)] else []
  }

  function Kept(s: string): string {
    if Overlong(s) then s[MAX - 1..] else s
  }

  function Emit(pending: string, chunk: string): seq<Piece> {
    var s := pending + Norm(chunk);
    Forced(s) + Lines(Kept(s))
  }

  function Carry(pending: string, chunk: string): string {
    Rest(Kept(pending + Norm(chunk)))
  }

  lemma ForcedJoin(s: string)
    ensures Joined(Forced(s)) + Kept(s) == s
  {
    if Overlong(s) {
      var p := Piece(s[..MAX - 1] + "\n", true);
      JoinedOne(p);
      assert Text(p) == s[..MAX - 1];
      assert s[..MAX - 1] + s[MAX - 1..] == s;
    } else {
      assert [] + s == s;
    }
  }

  lemma EmitJoin(pending: string, chunk: string)
    ensures Joined(Emit(pending, chunk)) + Carry(pending, chunk) == pending + Norm(chunk)
  {
    EmitJoinOf(pending + Norm(chunk));
  }

  lemma EmitJoinOf(s: string)
    ensures Joined(Forced(s) + Lines(Kept(s))) + Rest(Kept(s)) == s
  {
    ForcedJoin(s);
    LinesJoin(Kept(s));
    JoinedAppend(Forced(s), Lines(Kept(s)));
    Assoc(Joined(Forced(s)), Joined(Lines(Kept(s))), Rest(Kept(s)));
  }

  ghost predicate Short(ps: seq<Piece>) {
    forall i :: 0 <= i < |ps| ==> 0 < |ps[i].text| <= MAX
  }

  lemma {:induction false} LinesShort(s: string)
    requires |s| <= MAX
    ensures Short(Lines(s))
    decreases |s|
  {
    var i := IndexOf(s, '\n');
    if i < |s| { LinesShort(s[i + 1..]); }
  }

  /** With chunks of less than the budget, what is carried over and every piece stay within it. */
  lemma EmitShort(pending: string, chunk: string)
    requires |pending| <= MAX && |chunk| < MAX
    ensures Short(Emit(pending, chunk)) && |Carry(pending, chunk)| <= MAX
  {
    LinesShort(Kept(pending + Norm(chunk)));
  }

  // ---------------------------------------------------------------------------
  // The reader
  // ---------------------------------------------------------------------------

  function Emitted(chunks: seq<string>): seq<Piece> {
    if chunks == [] then []
    else Emitted(chunks[..|chunks| - 1]) + Emit(Pending(chunks[..|chunks| - 1]), chunks[|chunks| - 1])
  }

  function Pending(chunks: seq<string>): string {
    if chunks == [] then [] else Carry(Pending(chunks[..|chunks| - 1]), chunks[|chunks| - 1])
  }

  ghost predicate SmallChunks(chunks: seq<string>) {
    forall i :: 0 <= i < |chunks| ==> |chunks[i]| < MAX
  }

  class Reader {
    var pieces: seq<Piece>

    constructor ()
      ensures pieces == []
    {
      pieces := [];
    }

    method SplitLines(s: string) returns (rest: string)
      modifies this
      ensures pieces == old(pieces) + Lines(s) && rest == Rest(s)
    {
      rest := s;
      while '\n' in rest
        invariant pieces + Lines(rest) == old(pieces) + Lines(s) && Rest(rest) == Rest(s)
        decreases |rest|
      {
        var i := IndexOf(rest, '\n');
        var line := Piece(rest[..i] + "\n", false);
        LinesFirst(rest);
        Assoc(pieces, [line], Lines(rest[i + 1..]));
        pieces := pieces + [line];
        rest := rest[i + 1..];
      }
    }

    /** Reads until the end of the stream; the unfinished last line is handed over as it is. */
    method DrainPolling(chunks: seq<string>)
      modifies this
      ensures pieces == old(pieces) + Emitted(chunks) + if Pending(chunks) == [] then [] else [Piece(Pending(chunks), false)]
    {
      var pending := [];
      for k := 0 to |chunks|
        invariant pieces == old(pieces) + Emitted(chunks[..k]) && pending == Pending(chunks[..k])
      {
        EmittedNext(chunks, k);
        pending := DrainChunk(pending, chunks[k]);
        Assoc(old(pieces), Emitted(chunks[..k]), Emit(Pending(chunks[..k]), chunks[k]));
      }
      assert chunks[..|chunks|] == chunks;
      if pending == [] {
        assert old(pieces) + Emitted(chunks) + [] == old(pieces) + Emitted(chunks);
      } else {
        pieces := pieces + [Piece(pending, false)];
      }
    }

    /** One successful read: normalise, break an over-long line, hand over the complete ones. */
    method DrainChunk(held: string, chunk: string) returns (pending: string)
      modifies this
      ensures pieces == old(pieces) + Emit(held, chunk) && pending == Carry(held, chunk)
    {
      NormIsBothReplacements(chunk);
      pending := held + ReplaceReturns(ReplacePairs(chunk));
      ghost var s := pending;
      if |pending| > MAX {
        pieces := pieces + [Piece(pending[..MAX - 1] + "\n", true)];
        pending := pending[MAX - 1..];
      }
      assert pieces == old(pieces) + Forced(s) && pending == Kept(s);
      pending := SplitLines(pending);
      Assoc(old(pieces), Forced(s), Lines(Kept(s)));
    }
  }

  lemma EmittedNext(chunks: seq<string>, k: nat)
    requires k < |chunks|
    ensures Emitted(chunks[..k + 1]) == Emitted(chunks[..k]) + Emit(Pending(chunks[..k]), chunks[k])
    ensures Pending(chunks[..k + 1]) == Carry(Pending(chunks[..k]), chunks[k])
  {
    assert chunks[..k + 1][..k] == chunks[..k];
  }

  /** The whole output of a stream. */
  function Output(chunks: seq<string>): seq<Piece> {
    Emitted(chunks) + if Pending(chunks) == [] then [] else [Piece(Pending(chunks), false)]
  }

  lemma {:induction false} NormedAppend(chunks: seq<string>, c: string)
    ensures Normed(chunks + [c]) == Normed(chunks) + Norm(c)
  {
    if chunks == [] {
      assert [c][1..] == [] && [] + [c] == [c];
      assert Norm(c) + [] == Norm(c) && [] + Norm(c) == Norm(c);
    } else {
      assert (chunks + [c])[1..] == chunks[1..] + [c];
      NormedAppend(chunks[1..], c);
      Assoc(Norm(chunks[0]), Normed(chunks[1..]), Norm(c));
    }
  }

  lemma NormedLast(chunks: seq<string>)
    requires chunks != []
    ensures Normed(chunks) == Normed(chunks[..|chunks| - 1]) + Norm(chunks[|chunks| - 1])
  {
    NormedAppend(chunks[..|chunks| - 1], chunks[|chunks| - 1]);
    assert chunks == chunks[..|chunks| - 1] + [chunks[|chunks| - 1]];
  }

  lemma {:induction false} EmittedJoin(chunks: seq<string>)
    ensures Joined(Emitted(chunks)) + Pending(chunks) == Normed(chunks)
    decreases |chunks|
  {
    if chunks == [] {
      assert Joined([]) == [];
    } else {
      var front, c := chunks[..|chunks| - 1], chunks[|chunks| - 1];
      var e, p := Emit(Pending(front), c), Carry(Pending(front), c);
      EmittedJoin(front);
      EmitJoin(Pending(front), c);
      NormedLast(chunks);
      JoinedAppend(Emitted(front), e);
      Assoc(Joined(Emitted(front)), Joined(e), p);
      Assoc(Joined(Emitted(front)), Pending(front), Norm(c));
    }
  }

  lemma {:induction false} NormedPlain(chunks: seq<string>)
    requires '\r' !in Concat(chunks)
    ensures Normed(chunks) == Concat(chunks)
  {
    if chunks != [] {
      assert forall c :: c in chunks[0] ==> c in Concat(chunks);
      NormPlain(chunks[0]);
      NormedPlain(chunks[1..]);
    }
  }

  /** Whatever the chunking, no character is lost, added or moved, apart from the line feeds
      of forced breaks; for text without carriage returns this is the stream itself. */
  lemma OutputIsStream(chunks: seq<string>)
    ensures Joined(Output(chunks)) == Normed(chunks)
    ensures '\r' !in Concat(chunks) ==> Joined(Output(chunks)) == Concat(chunks)
  {
    EmittedJoin(chunks);
    var last := if Pending(chunks) == [] then [] else [Piece(Pending(chunks), false)];
    JoinedAppend(Emitted(chunks), last);
    if last != [] { JoinedOne(last[0]); } else { assert Joined([]) == []; }
    if '\r' !in Concat(chunks) { NormedPlain(chunks); }
  }

  /** After every read at most the budget is held back, without a line feed in it, and no
      piece is longer than the budget. */
  lemma {:induction false} PendingBounded(chunks: seq<string>)
    requires SmallChunks(chunks)
    ensures |Pending(chunks)| <= MAX && '\n' !in Pending(chunks) && Short(Emitted(chunks))
    decreases |chunks|
  {
    if chunks != [] {
      PendingBounded(chunks[..|chunks| - 1]);
      EmitShort(Pending(chunks[..|chunks| - 1]), chunks[|chunks| - 1]);
    }
  }

  /** No read fills the buffer beyond the budget. */
  ghost predicate NeverOverlong(chunks: seq<string>)
    decreases |chunks|
  {
    chunks == [] ||
    (NeverOverlong(chunks[..|chunks| - 1]) && |Pending(chunks[..|chunks| - 1]) + Norm(chunks[|chunks| - 1])| <= MAX)
  }

  /** Without forced breaks the lines are those of the whole text, so they do not depend on
      where the chunks were cut. */
  lemma {:induction false} LinesOfStream(chunks: seq<string>)
    requires NeverOverlong(chunks)
    ensures Emitted(chunks) == Lines(Normed(chunks)) && Pending(chunks) == Rest(Normed(chunks))
    decreases |chunks|
  {
    if chunks != [] {
      var front, c := chunks[..|chunks| - 1], chunks[|chunks| - 1];
      LinesOfStream(front);
      NormedLast(chunks);
      EmitWithin(Pending(front), c);
      LinesAppend(Normed(front), Norm(c));
    }
  }

  lemma EmitWithin(pending: string, chunk: string)
    requires |pending + Norm(chunk)| <= MAX
    ensures Emit(pending, chunk) == Lines(pending + Norm(chunk)) && Carry(pending, chunk) == Rest(pending + Norm(chunk))
  {
    var s := pending + Norm(chunk);
    assert Forced(s) == [] && [] + Lines(s) == Lines(s);
  }

  lemma ChunkIndependence(a: seq<string>, b: seq<string>)
    requires Concat(a) == Concat(b) && Cuts(a) == 0 && Cuts(b) == 0 && NeverOverlong(a) && NeverOverlong(b)
    ensures Output(a) == Output(b)
  {
    CutsCount(a);
    CutsCount(b);
    LinesOfStream(a);
    LinesOfStream(b);
  }

  /** More than one line in one piece. */
  ghost predicate HidesLine(p: Piece) {
    exists i :: 0 <= i < |p.text| - 1 && p.text[i] == '\n'
  }

  lemma {:induction false} LinesHideNothing(s: string)
    ensures forall k :: 0 <= k < |Lines(s)| ==> !HidesLine(Lines(s)[k])
    decreases |s|
  {
    var i := IndexOf(s, '\n');
    if i < |s| {
      LinesHideNothing(s[i + 1..]);
      assert forall j :: 0 <= j < i ==> s[j] in s[..i];
    }
  }

  /** One read hands over two lines as one exactly when the buffer overflows and a line feed
      lies before the cut. */
  lemma ForcedPieceHidesLine(pending: string, chunk: string)
    ensures var s := pending + Norm(chunk);
            (exists k :: 0 <= k < |Emit(pending, chunk)| && HidesLine(Emit(pending, chunk)[k]))
            <==> |s| > MAX && IndexOf(s, '\n') < MAX - 1
  {
    var s, e := pending + Norm(chunk), Emit(pending, chunk);
    var i := IndexOf(s, '\n');
    LinesHideNothing(Kept(s));
    assert forall k :: |Forced(s)| <= k < |e| ==> e[k] == Lines(Kept(s))[k - |Forced(s)|];
    if Overlong(s) {
      var p := s[..MAX - 1] + "\n";
      assert e[0].text == p;
      if i < MAX - 1 {
        assert p[i] == '\n' && HidesLine(e[0]);
      } else {
        forall j | 0 <= j < |p| - 1 ensures p[j] != '\n' { assert p[j] == s[j] && s[j] in s[..i]; }
      }
    }
  }

  // ---------------------------------------------------------------------------
  // The capture budget
  // ---------------------------------------------------------------------------

  class CaptureSink {
    var sink: seq<string>
    var size: nat
    var truncated: bool

    constructor ()
      ensures sink == [] && size == 0 && !truncated
    {
      sink, size, truncated := [], 0, false;
    }

    /** `progress` marks the liveness lines of a progress stream, which are never captured. */
    method HandleLine(line: string, progress: bool)
      modifies this
      ensures progress ==> sink == old(sink) && size == old(size) && truncated == old(truncated)
      ensures !progress && old(size) >= MAX ==> sink == old(sink) && size == old(size) && truncated
      ensures !progress && old(size) < MAX ==> sink == old(sink) + [line] && size == old(size) + |line| && truncated == old(truncated)
    {
      if progress { return; }
      if size >= MAX {
        truncated := true;
        return;
      }
      sink := sink + [line];
      size := size + |line|;
    }

    /** The lines of one stream, in order. */
    method CaptureAll(lines: seq<Piece>, progress: seq<bool>)
      requires |lines| == |progress| && Short(lines) && sink == [] && size == 0
      modifies this
      ensures sink == Captured(lines, progress)
      ensures size == |Concat(sink)| < 2 * MAX
    {
      for k := 0 to |lines|
        invariant sink == Captured(lines[..k], progress[..k])
        invariant size == |Concat(sink)| < 2 * MAX
      {
        assert lines[..k + 1][..k] == lines[..k] && progress[..k + 1][..k] == progress[..k];
        ConcatAppend(sink, lines[k].text);
        HandleLine(lines[k].text, progress[k]);
      }
      assert lines[..|lines|] == lines && progress[..|progress|] == progress;
    }
  }

  function Captured(lines: seq<Piece>, progress: seq<bool>): seq<string>
    requires |lines| == |progress|
  {
    if lines == [] then []
    else
      var k := |lines| - 1;
      var before := Captured(lines[..k], progress[..k]);
      if progress[k] || |Concat(before)| >= MAX then before else before + [lines[k].text]
  }

  lemma {:induction false} ConcatAppend(ss: seq<string>, s: string)
    ensures Concat(ss + [s]) == Concat(ss) + s
  {
    if ss == [] {
      assert [s][1..] == [] && Concat([]) == [];
    } else {
      assert (ss + [s])[1..] == ss[1..] + [s];
      ConcatAppend(ss[1..], s);
    }
  }

  /** Captured text is the output's own text as long as the budget is not reached, and it
      never reaches twice the budget. */
  lemma {:induction false} CaptureBounded(lines: seq<Piece>, progress: seq<bool>)
    requires |lines| == |progress| && Short(lines)
    ensures |Concat(Captured(lines, progress))| < 2 * MAX
    ensures (forall i :: 0 <= i < |lines| ==> !progress[i] && !lines[i].forced) && |Joined(lines)| <= MAX
            ==> Concat(Captured(lines, progress)) == Joined(lines)
    decreases |lines|
  {
    if lines == [] {
      assert Concat([]) == [];
    } else {
      var k := |lines| - 1;
      CaptureBounded(lines[..k], progress[..k]);
      ConcatAppend(Captured(lines[..k], progress[..k]), lines[k].text);
    }
  }

  lemma OutputShort(chunks: seq<string>)
    requires SmallChunks(chunks)
    ensures Short(Output(chunks))
  {
    PendingBounded(chunks);
  }

  /** For a whole stream read in chunks of less than the budget: what is captured stays below
      twice the budget, and is the normalised stream itself when that is within the budget
      and no line was of progress or broken by force. */
  lemma StreamCaptureBounded(chunks: seq<string>, progress: seq<bool>)
    requires SmallChunks(chunks) && |progress| == |Output(chunks)|
    ensures |Concat(Captured(Output(chunks), progress))| < 2 * MAX
    ensures (forall i :: 0 <= i < |progress| ==> !progress[i] && !Output(chunks)[i].forced) && |Normed(chunks)| <= MAX
            ==> Concat(Captured(Output(chunks), progress)) == Normed(chunks)
  {
    OutputShort(chunks);
    OutputIsStream(chunks);
    CaptureBounded(Output(chunks), progress);
  }
}
