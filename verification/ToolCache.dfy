/** The archive acceptance check of the tool cache, and what it is for: whatever it
    accepts is written, member by member, at its own literal path below the extraction
    root, in whatever order the members come, on a file system whose path lookup follows
    symbolic links. */
module ToolCache {

  import opened Options

  type Path = seq<string>

  datatype Kind = Regular(content: string) | Directory | Symlink(target: string) | Special

  datatype Member = Member(name: string, kind: Kind)

  // ---------------------------------------------------------------------------
  // Names
  // ---------------------------------------------------------------------------

  /** The segments of a name between its slashes. */
  function Split(s: string): (r: seq<string>)
    ensures |r| >= 1
  {
    if s == "" then [""]
    else
      var rest := Split(s[1..]);
      if s[0] == '/' then [""] + rest else [[s[0]] + rest[0]] + rest[1..]
  }

  predicate Silent(seg: string) { seg == "" || seg == "." }

  function Loud(segs: seq<string>): (r: seq<string>)
    ensures |r| <= |segs|
  {
    if segs == [] then []
    else if Silent(segs[0]) then Loud(segs[1..])
    else [segs[0]] + Loud(segs[1..])
  }

  /** The path components of a relative name. */
  function Parts(name: string): Path { Loud(Split(name)) }

  predicate Absolute(name: string) { name != "" && name[0] == '/' }

  // ---------------------------------------------------------------------------
  // The check
  // ---------------------------------------------------------------------------

  predicate MemberOk(m: Member) {
    && !Absolute(m.name) && ".." !in Parts(m.name)
    && match m.kind
       case Symlink(t) => Absolute(t) || ".." !in Parts(t)
       case Special => false
       case _ => true
  }

  ghost predicate NoLinkOnTheWay(ms: seq<Member>, m: Member) {
    forall l :: l in ms && l.kind.Symlink? && Parts(l.name) <= Parts(m.name) ==>
                  Parts(l.name) == Parts(m.name) && m.kind.Symlink?
  }

  ghost predicate UniquePaths(ms: seq<Member>) {
    forall i, j :: 0 <= i < j < |ms| ==> Parts(ms[i].name) != Parts(ms[j].name)
  }

  /** What an accepted archive satisfies. */
  ghost predicate Accepts(ms: seq<Member>) {
    && (forall m :: m in ms ==> Passable(m))
    && UniquePaths(ms)
    && forall m :: m in ms ==> NoLinkOnTheWay(ms, m)
  }

  datatype Rejection = BadMember(name: string) | EmptyName(name: string) | Duplicate(name: string) | ThroughLink(name: string)

  function PathsOf(ms: seq<Member>): set<Path> {
    set m | m in ms :: Parts(m.name)
  }

  function LinksOf(ms: seq<Member>): set<Path> {
    set m | m in ms && m.kind.Symlink? :: Parts(m.name)
  }

  lemma OneMore(ms: seq<Member>, k: nat)
    requires k < |ms|
    ensures PathsOf(ms[..k + 1]) == PathsOf(ms[..k]) + {Parts(ms[k].name)}
    ensures LinksOf(ms[..k + 1]) == LinksOf(ms[..k]) + if ms[k].kind.Symlink? then {Parts(ms[k].name)} else {}
  {
    assert ms[..k + 1] == ms[..k] + [ms[k]];
  }

  lemma UniqueOneMore(ms: seq<Member>, k: nat)
    requires k < |ms| && UniquePaths(ms[..k])
    ensures UniquePaths(ms[..k + 1]) <==> Parts(ms[k].name) !in PathsOf(ms[..k])
  {
    var a := ms[..k + 1];
    if Parts(ms[k].name) in PathsOf(ms[..k]) {
      var m :| m in ms[..k] && Parts(m.name) == Parts(ms[k].name);
      var i :| 0 <= i < k && ms[i] == m;
      assert a[i] == m && a[k] == ms[k];
    } else {
      forall i, j | 0 <= i < j < |a| ensures Parts(a[i].name) != Parts(a[j].name) {
        if j == k { assert ms[i] in ms[..k]; } else { assert ms[..k][i] == a[i] && ms[..k][j] == a[j]; }
      }
    }
  }

  ghost predicate Passable(m: Member) {
    MemberOk(m) && (Parts(m.name) == [] ==> m.kind.Directory?)
  }

  /** Whether some prefix of the member's path, other than a link member's own, is a link. */
  method PassesLink(m: Member, links: set<Path>) returns (through: bool)
    requires [] !in links
    ensures through <==> exists l :: l in links && l <= Parts(m.name) && !(l == Parts(m.name) && m.kind.Symlink?)
  {
    var parts := Parts(m.name);
    for i := 1 to |parts| + 1
      invariant forall l :: l in links && |l| < i && l <= parts ==> l == parts && m.kind.Symlink?
    {
      if parts[..i] in links && !(i == |parts| && m.kind.Symlink?) {
        assert parts[..i] <= parts;
        return true;
      }
      forall l | l in links && |l| == i && l <= parts ensures l == parts[..i] {}
    }
    return false;
  }

  lemma LinkWitness(ms: seq<Member>, m: Member)
    ensures NoLinkOnTheWay(ms, m) <==>
            forall l :: l in LinksOf(ms) && l <= Parts(m.name) ==> l == Parts(m.name) && m.kind.Symlink?
  {
    if NoLinkOnTheWay(ms, m) {
      forall l | l in LinksOf(ms) && l <= Parts(m.name) ensures l == Parts(m.name) && m.kind.Symlink? {
        var n :| n in ms && n.kind.Symlink? && Parts(n.name) == l;
      }
    } else {
      var n :| n in ms && n.kind.Symlink? && Parts(n.name) <= Parts(m.name) &&
               !(Parts(n.name) == Parts(m.name) && m.kind.Symlink?);
      assert Parts(n.name) in LinksOf(ms);
    }
  }

  ghost predicate Reason(ms: seq<Member>, k: nat, r: Rejection)
    requires k < |ms|
  {
    var m := ms[k];
    match r
    case BadMember(n) => n == m.name && !MemberOk(m)
    case EmptyName(n) => n == m.name && Parts(n) == [] && !m.kind.Directory?
    case Duplicate(n) => n == m.name && exists j :: 0 <= j < k && Parts(ms[j].name) == Parts(n)
    case ThroughLink(n) =>
      n == m.name && exists j :: 0 <= j < |ms| && ms[j].kind.Symlink? && Parts(ms[j].name) <= Parts(n) && (j != k || !m.kind.Symlink?)
  }

  /** The whole-archive check: two passes over the members, the first collecting the
      paths and the link paths. */
  method ArchiveRejection(ms: seq<Member>) returns (bad: Option<Rejection>)
    ensures bad == None <==> Accepts(ms)
    // The reason given is a true one, of a member of that name.
    ensures bad.Some? ==> exists k :: 0 <= k < |ms| && Reason(ms, k, bad.value)
  {
    var links: set<Path>, seen: set<Path> := {}, {};
    for k := 0 to |ms|
      invariant seen == PathsOf(ms[..k]) && links == LinksOf(ms[..k])
      invariant forall m :: m in ms[..k] ==> Passable(m)
      invariant UniquePaths(ms[..k])
    {
      var m := ms[k];
      assert m in ms && ms[..k + 1] == ms[..k] + [m];
      OneMore(ms, k);
      UniqueOneMore(ms, k);
      if !MemberOk(m) {
        assert Reason(ms, k, BadMember(m.name));
        return Some(BadMember(m.name));
      }
      var parts := Parts(m.name);
      if parts == [] && !m.kind.Directory? {
        assert Reason(ms, k, EmptyName(m.name));
        return Some(EmptyName(m.name));
      }
      if parts in seen {
        NotUnique(ms, k);
        return Some(Duplicate(m.name));
      }
      seen := seen + {parts};
      if m.kind.Symlink? { links := links + {parts}; }
    }
    assert ms[..|ms|] == ms;
    for k := 0 to |ms|
      invariant forall m :: m in ms[..k] ==> NoLinkOnTheWay(ms, m)
    {
      LinkWitness(ms, ms[k]);
      assert ms[..k + 1] == ms[..k] + [ms[k]];
      var through := PassesLink(ms[k], links);
      if through {
        MeetsLink(ms, k);
        return Some(ThroughLink(ms[k].name));
      }
    }
    return None;
  }

  lemma NotUnique(ms: seq<Member>, k: nat)
    requires k < |ms| && UniquePaths(ms[..k]) && Parts(ms[k].name) in PathsOf(ms[..k])
    ensures !Accepts(ms) && Reason(ms, k, Duplicate(ms[k].name))
  {
    UniqueOneMore(ms, k);
    var i, j :| 0 <= i < j < k + 1 && Parts(ms[..k + 1][i].name) == Parts(ms[..k + 1][j].name);
    assert ms[..k + 1][i] == ms[i] && ms[..k + 1][j] == ms[j];
    var n :| n in ms[..k] && Parts(n.name) == Parts(ms[k].name);
  }

  lemma MeetsLink(ms: seq<Member>, k: nat)
    requires k < |ms| && !NoLinkOnTheWay(ms, ms[k])
    ensures !Accepts(ms) && Reason(ms, k, ThroughLink(ms[k].name))
  {
    var m := ms[k];
    assert m in ms;
    var n :| n in ms && n.kind.Symlink? && Parts(n.name) <= Parts(m.name) && !(Parts(n.name) == Parts(m.name) && m.kind.Symlink?);
    var j :| 0 <= j < |ms| && ms[j] == n;
  }

  // ---------------------------------------------------------------------------
  // A file system with symbolic links
  // ---------------------------------------------------------------------------

  datatype Node = DirNode | FileNode(content: string) | LinkNode(target: string)

  /** Absolute paths to nodes; the path [] is the root directory. */
  type FS = map<Path, Node>

  const MAX_LINKS := 40

  function Lookup(fs: FS, p: Path): Option<Node> {
    if p == [] then Some(DirNode) else if p in fs then Some(fs[p]) else None
  }

  predicate IsDir(fs: FS, p: Path) { Lookup(fs, p) == Some(DirNode) }

  function Base(cur: Path, target: string): Path {
    if Absolute(target) then [] else cur
  }

  function Up(cur: Path): Path {
    if cur == [] then [] else cur[..|cur| - 1]
  }

  /** Resolves every segment from directory `cur`, following each link on the way. */
  function Walk(fs: FS, cur: Path, segs: seq<string>, fuel: nat): Option<Path>
    decreases fuel, |segs|
  {
    if segs == [] then Some(cur)
    else if !IsDir(fs, cur) then None
    else if Silent(segs[0]) then Walk(fs, cur, segs[1..], fuel)
    else if segs[0] == ".." then Walk(fs, Up(cur), segs[1..], fuel)
    else match Lookup(fs, cur + [segs[0]])
      case None => None
      case Some(LinkNode(t)) =>
        if fuel == 0 then None else Walk(fs, Base(cur, t), Split(t) + segs[1..], fuel - 1)
      case Some(_) => Walk(fs, cur + [segs[0]], segs[1..], fuel)
  }

  /** Creates the missing directories along `segs`; an existing link is followed to the
      directory it names.  Yields the directory reached. */
  function MakeDirs(fs: FS, cur: Path, segs: seq<string>, fuel: nat): Option<(FS, Path)>
    decreases |segs|
  {
    if !IsDir(fs, cur) then None
    else if segs == [] then Some((fs, cur))
    else if Silent(segs[0]) then MakeDirs(fs, cur, segs[1..], fuel)
    else if segs[0] == ".." then MakeDirs(fs, Up(cur), segs[1..], fuel)
    else
      var p := cur + [segs[0]];
      match Lookup(fs, p)
      case None => MakeDirs(fs[p := DirNode], p, segs[1..], fuel)
      case Some(LinkNode(t)) =>
        (match Walk(fs, Base(cur, t), Split(t), fuel)
         case None => None
         case Some(q) => MakeDirs(fs, q, segs[1..], fuel))
      case Some(_) => MakeDirs(fs, p, segs[1..], fuel)
  }

  /** Opens the entry `seg` of directory `cur` for writing, through a link if it is one. */
  function WriteFile(fs: FS, cur: Path, seg: string, content: string, fuel: nat): Option<FS>
    decreases fuel
  {
    if Silent(seg) || seg == ".." then None
    else
      var p := cur + [seg];
      match Lookup(fs, p)
      case Some(DirNode) => None
      case Some(LinkNode(t)) =>
        var segs := Split(t);
        if fuel == 0 then None
        else (match Walk(fs, Base(cur, t), segs[..|segs| - 1], fuel - 1)
              case None => None
              case Some(q) =>
                if IsDir(fs, q) then WriteFile(fs, q, segs[|segs| - 1], content, fuel - 1) else None)
      case _ => Some(fs[p := FileNode(content)])
  }

  function MakeDir(fs: FS, cur: Path, seg: string, fuel: nat): Option<FS> {
    if Silent(seg) || seg == ".." then Some(fs)
    else match Lookup(fs, cur + [seg])
      case None => Some(fs[cur + [seg] := DirNode])
      case Some(_) =>
        match Walk(fs, cur, [seg], fuel)
        case None => None
        case Some(q) => if IsDir(fs, q) then Some(fs) else None
  }

  /** Any existing entry other than a directory is unlinked first. */
  function MakeLink(fs: FS, cur: Path, seg: string, target: string): Option<FS> {
    if Silent(seg) || seg == ".." then None
    else if IsDir(fs, cur + [seg]) then None
    else Some(fs[cur + [seg] := LinkNode(target)])
  }

  /** The segments of the target path once its trailing slashes are gone. */
  function Stripped(segs: seq<string>): (r: seq<string>)
    ensures Loud(r) == Loud(segs)
    ensures forall s :: s in r ==> s in segs
    ensures r != [] ==> r[|r| - 1] != ""
  {
    if segs != [] && segs[|segs| - 1] == "" then
      LoudAppend(segs[..|segs| - 1], [""]);
      assert segs == segs[..|segs| - 1] + [""];
      Stripped(segs[..|segs| - 1])
    else segs
  }

  lemma {:induction false} LoudAppend(a: seq<string>, b: seq<string>)
    ensures Loud(a + b) == Loud(a) + Loud(b)
  {
    if a == [] {
      assert a + b == b;
    } else {
      assert (a + b)[1..] == a[1..] + b;
      LoudAppend(a[1..], b);
    }
  }

  /** Creates the entry `seg` of directory `cur` that the member asks for. */
  function Create(fs: FS, cur: Path, seg: string, k: Kind): Option<FS> {
    match k
    case Regular(c) => WriteFile(fs, cur, seg, c, MAX_LINKS)
    case Directory => MakeDir(fs, cur, seg, MAX_LINKS)
    case Symlink(t) => MakeLink(fs, cur, seg, t)
    case Special => None
  }

  /** Extraction of one member below `root`; an absolute name would leave it at once. */
  function Extract(fs: FS, root: Path, m: Member): Option<FS> {
    var segs := Stripped(Split(m.name));
    if segs == [] then (if m.kind.Directory? then Some(fs) else None)
    else
      var last := segs[|segs| - 1];
      match MakeDirs(fs, Base(root, m.name), segs[..|segs| - 1], MAX_LINKS)
      case None => None
      case Some((fs1, dir)) => Create(fs1, dir, last, m.kind)
  }

  /** Members in sequence; a failing member ends the extraction. */
  function ExtractAll(fs: FS, root: Path, ms: seq<Member>): Option<FS> {
    if ms == [] then Some(fs)
    else match ExtractAll(fs, root, ms[..|ms| - 1])
      case None => None
      case Some(fs1) => Extract(fs1, root, ms[|ms| - 1])
  }

  // ---------------------------------------------------------------------------
  // The literal tree
  // ---------------------------------------------------------------------------

  function NodeOf(m: Member): Node {
    match m.kind
    case Regular(c) => FileNode(c)
    case Symlink(t) => LinkNode(t)
    case _ => DirNode
  }

  ghost predicate At(S: set<Member>, q: Path, m: Member) {
    m in S && Parts(m.name) == q
  }

  ghost predicate Above(S: set<Member>, q: Path, m: Member) {
    m in S && q < Parts(m.name)
  }

  /** What the member names alone say stands at the relative path `q`: the member of that
      name, or a directory on the way to one. */
  ghost function Literal(S: set<Member>, q: Path): Option<Node> {
    if exists m :: At(S, q, m) then (var m :| At(S, q, m); Some(NodeOf(m)))
    else if exists m :: Above(S, q, m) then Some(DirNode)
    else None
  }

  ghost predicate Distinct(S: set<Member>) {
    forall m, n :: m in S && n in S && m != n ==> Parts(m.name) != Parts(n.name)
  }

  /** `fs` is `fs0` with the literal tree of `S` hung below `root`, and nothing else. */
  ghost predicate Holds(fs0: FS, root: Path, S: set<Member>, fs: FS) {
    && [] !in fs
    && forall p: Path :: Lookup(fs, p) == if root < p then Literal(S, p[|root|..]) else Lookup(fs0, p)
  }

  /** A fresh directory: nothing stands below it. */
  ghost predicate EmptyDir(fs: FS, root: Path) {
    && [] !in fs
    && IsDir(fs, root)
    && forall p :: root < p ==> p !in fs
  }

  lemma LiteralAt(S: set<Member>, m: Member)
    requires m in S && Distinct(S)
    ensures Literal(S, Parts(m.name)) == Some(NodeOf(m))
  {
    assert At(S, Parts(m.name), m);
  }

  /** Adding a member whose path is new changes the tree at that path and fills the
      directories above it. */
  lemma LiteralAdd(S: set<Member>, m: Member, q: Path)
    requires Distinct(S + {m}) && m !in S
    ensures Literal(S + {m}, q) ==
            if q == Parts(m.name) then Some(NodeOf(m))
            else if q < Parts(m.name) && Literal(S, q) == None then Some(DirNode)
            else Literal(S, q)
  {
    var S' := S + {m};
    if q == Parts(m.name) {
      LiteralAt(S', m);
    } else if exists n :: At(S, q, n) {
      var n :| At(S, q, n);
      LiteralAt(S, n);
      LiteralAt(S', n);
    } else {
      forall n ensures !At(S', q, n) { assert !At(S, q, n); }
      if q < Parts(m.name) { assert Above(S', q, m); }
      if exists n :: Above(S, q, n) {
        var n :| Above(S, q, n);
        assert Above(S', q, n);
      } else {
        forall n | Above(S', q, n) ensures n == m { assert !Above(S, q, n); }
      }
    }
  }

  lemma LiteralKinds(S: set<Member>, q: Path)
    ensures Literal(S, q) != None && Literal(S, q) != Some(DirNode) ==>
              exists n :: At(S, q, n) && Literal(S, q) == Some(NodeOf(n))
    ensures Literal(S, q) == None || Literal(S, q) == Some(DirNode) || (exists n :: At(S, q, n))
    ensures (forall n :: !At(S, q, n)) ==>
              Literal(S, q) == if exists n :: Above(S, q, n) then Some(DirNode) else None
  {
  }

  // ---------------------------------------------------------------------------
  // Walking a tree without links
  // ---------------------------------------------------------------------------

  /** `fs` with directories at every step from `cur` along `q`. */
  function WithDirs(fs: FS, cur: Path, q: Path): FS
    decreases |q|
  {
    if q == [] then fs else WithDirs(fs[cur + [q[0]] := DirNode], cur + [q[0]], q[1..])
  }

  lemma Below(cur: Path, seg: string, x: Path)
    requires cur + [seg] <= x
    ensures cur < x && x[|cur|] == seg
  {
    assert x[..|cur|] == (cur + [seg])[..|cur|];
    assert x[|cur|] == (cur + [seg])[|cur|];
  }

  lemma {:induction false} WithDirsLookup(fs: FS, cur: Path, q: Path, p: Path)
    ensures Lookup(WithDirs(fs, cur, q), p) == if cur < p <= cur + q then Some(DirNode) else Lookup(fs, p)
    decreases |q|
  {
    if q != [] {
      var next := cur + [q[0]];
      var fs1 := fs[next := DirNode];
      WithDirsLookup(fs1, next, q[1..], p);
      assert next + q[1..] == cur + q;
      if next <= p { Below(cur, q[0], p); }
      if cur < p && p <= cur + q { assert p[|cur|] == q[0] && p[..|cur| + 1] == next; }
      assert cur < p <= cur + q <==> p == next || next < p <= cur + q;
      assert p != next ==> Lookup(fs1, p) == Lookup(fs, p);
      assert Lookup(fs1, next) == Some(DirNode);
    }
  }

  lemma {:induction false} WithDirsKeys(fs: FS, cur: Path, q: Path)
    requires [] !in fs
    ensures [] !in WithDirs(fs, cur, q)
    decreases |q|
  {
    if q != [] {
      WithDirsKeys(fs[cur + [q[0]] := DirNode], cur + [q[0]], q[1..]);
    }
  }

  ghost predicate OpenOrDir(fs: FS, cur: Path, q: Path) {
    forall p :: cur < p <= cur + q ==> Lookup(fs, p) == None || Lookup(fs, p) == Some(DirNode)
  }

  /** Along missing entries and directories, creation goes exactly where the name says. */
  lemma {:induction false} MakeDirsPlain(fs: FS, cur: Path, segs: seq<string>, fuel: nat)
    requires IsDir(fs, cur) && ".." !in segs && [] !in fs
    requires OpenOrDir(fs, cur, Loud(segs))
    ensures MakeDirs(fs, cur, segs, fuel) == Some((WithDirs(fs, cur, Loud(segs)), cur + Loud(segs)))
    decreases |segs|
  {
    if segs == [] {
      assert cur + Loud(segs) == cur;
    } else if Silent(segs[0]) {
      MakeDirsPlain(fs, cur, segs[1..], fuel);
    } else {
      var p, rest := cur + [segs[0]], Loud(segs[1..]);
      assert Loud(segs) == [segs[0]] + rest && Loud(segs)[1..] == rest;
      assert p + rest == cur + Loud(segs);
      var fs1 := fs[p := DirNode];
      forall x | p < x && x <= p + rest ensures Lookup(fs1, x) == None || Lookup(fs1, x) == Some(DirNode) {
        Below(cur, segs[0], x);
        assert Lookup(fs1, x) == Lookup(fs, x);
      }
      assert cur < p <= cur + Loud(segs);
      if Lookup(fs, p) == Some(DirNode) { assert fs1 == fs; }
      MakeDirsPlain(fs1, p, segs[1..], fuel);
    }
  }

  /** A regular file on the way stops the creation. */
  lemma {:induction false} MakeDirsBlocked(fs: FS, cur: Path, segs: seq<string>, fuel: nat, b: Path)
    requires ".." !in segs && cur < b <= cur + Loud(segs)
    requires Lookup(fs, b).Some? && Lookup(fs, b).value.FileNode?
    requires forall p :: cur < p <= cur + Loud(segs) && Lookup(fs, p).Some? ==> !Lookup(fs, p).value.LinkNode?
    ensures MakeDirs(fs, cur, segs, fuel) == None
    decreases |segs|
  {
    if segs != [] && IsDir(fs, cur) {
      if Silent(segs[0]) {
        MakeDirsBlocked(fs, cur, segs[1..], fuel, b);
      } else {
        var p, rest := cur + [segs[0]], Loud(segs[1..]);
        assert Loud(segs) == [segs[0]] + rest && p + rest == cur + Loud(segs);
        assert b[|cur|] == segs[0] && p <= b;
        assert cur < p <= cur + Loud(segs);
        if p != b {
          var fs1 := if Lookup(fs, p) == None then fs[p := DirNode] else fs;
          forall x | p < x && x <= p + rest && Lookup(fs1, x).Some? ensures !Lookup(fs1, x).value.LinkNode? {
            Below(cur, segs[0], x);
            assert Lookup(fs1, x) == Lookup(fs, x);
          }
          MakeDirsBlocked(fs1, p, segs[1..], fuel, b);
        }
      }
    }
  }

  // ---------------------------------------------------------------------------
  // One member
  // ---------------------------------------------------------------------------

  /** A member other than a directory has a proper final segment. */
  predicate Clean(m: Member) {
    var segs := Stripped(Split(m.name));
    m.kind.Directory? || (segs != [] && !Silent(segs[|segs| - 1]))
  }

  /** No file stands above `m`. */
  ghost predicate WayFree(S: set<Member>, m: Member) {
    forall n :: n in S && n.kind.Regular? ==> !(Parts(n.name) < Parts(m.name))
  }

  /** Something stands below `m`. */
  ghost predicate Parent(S: set<Member>, m: Member) {
    exists n :: n in S && Parts(m.name) < Parts(n.name)
  }

  ghost predicate Fits(S: set<Member>, m: Member) {
    Clean(m) && WayFree(S, m) && (m.kind.Regular? ==> !Parent(S, m))
  }

  /** Nothing already extracted puts a link on the way of `m`, nor does `m` put one on theirs. */
  ghost predicate Meets(S: set<Member>, m: Member) {
    && Distinct(S + {m}) && m !in S
    && Passable(m) && (forall n :: n in S ==> Passable(n))
    && (forall n :: n in S && n.kind.Symlink? ==> !(Parts(n.name) <= Parts(m.name)))
    && (m.kind.Symlink? ==> forall n :: n in S ==> !(Parts(m.name) < Parts(n.name)))
  }

  lemma BelowRoot(root: Path, q: Path, p: Path)
    ensures root < p <= root + q <==> root < p && p[|root|..] <= q
  {
    if root < p {
      assert p == root + p[|root|..];
      if p[|root|..] <= q { assert p == root + q[..|p| - |root|]; }
      if p <= root + q { assert p[|root|..] == q[..|p| - |root|]; }
    }
  }

  /** Before `m` is extracted, its way holds no link, and a file only where `Fits` says so. */
  lemma WayOf(fs0: FS, root: Path, S: set<Member>, fs: FS, m: Member, q: Path, p: Path)
    requires Holds(fs0, root, S, fs) && Meets(S, m) && q <= Parts(m.name)
    requires root < p <= root + q
    ensures Lookup(fs, p).Some? ==> !Lookup(fs, p).value.LinkNode?
    ensures Lookup(fs, p).Some? && Lookup(fs, p).value.FileNode? ==>
              exists n :: n in S && n.kind.Regular? && Parts(n.name) == p[|root|..] && Parts(n.name) < Parts(m.name)
  {
    BelowRoot(root, q, p);
    var r := p[|root|..];
    LiteralKinds(S, r);
    if exists n :: At(S, r, n) && Literal(S, r) == Some(NodeOf(n)) {
      var n :| At(S, r, n) && Literal(S, r) == Some(NodeOf(n));
      assert Parts(n.name) <= Parts(m.name) && n != m;
      assert Parts(n.name) != Parts(m.name);
    }
  }

  /** Creating the directories of `m`'s way succeeds unless a file stands on it. */
  lemma WayMade(fs0: FS, root: Path, S: set<Member>, fs: FS, m: Member, segs: seq<string>)
    requires EmptyDir(fs0, root) && Holds(fs0, root, S, fs) && Meets(S, m)
    requires ".." !in segs && Loud(segs) <= Parts(m.name)
    requires Loud(segs) == Parts(m.name) || |Loud(segs)| + 1 == |Parts(m.name)|
    ensures MakeDirs(fs, root, segs, MAX_LINKS) ==
            if WayFree(S, m) then Some((WithDirs(fs, root, Loud(segs)), root + Loud(segs))) else None
  {
    var q := Loud(segs);
    assert Lookup(fs, root) == Lookup(fs0, root);
    if WayFree(S, m) {
      forall p | root < p && p <= root + q
        ensures Lookup(fs, p) == None || Lookup(fs, p) == Some(DirNode)
      {
        WayOf(fs0, root, S, fs, m, q, p);
      }
      MakeDirsPlain(fs, root, segs, MAX_LINKS);
    } else {
      var n :| n in S && n.kind.Regular? && Parts(n.name) < Parts(m.name);
      var b := root + Parts(n.name);
      assert b[|root|..] == Parts(n.name);
      assert Passable(n) && Distinct(S);
      LiteralAt(S, n);
      assert Parts(n.name) <= q;
      BelowRoot(root, q, b);
      forall p | root < p && p <= root + q && Lookup(fs, p).Some? ensures !Lookup(fs, p).value.LinkNode? {
        WayOf(fs0, root, S, fs, m, q, p);
      }
      MakeDirsBlocked(fs, root, segs, MAX_LINKS, b);
    }
  }

  lemma {:induction false} LoudKeeps(segs: seq<string>, x: string)
    requires x in segs && !Silent(x)
    ensures x in Loud(segs)
  {
    if segs[0] != x {
      assert x in segs[1..];
      LoudKeeps(segs[1..], x);
    }
  }

  lemma LoudSnoc(front: seq<string>, last: string)
    ensures Loud(front + [last]) == Loud(front) + if Silent(last) then [] else [last]
  {
    LoudAppend(front, [last]);
    assert [last][1..] == [];
  }

  lemma NoDots(m: Member)
    requires MemberOk(m)
    ensures ".." !in Stripped(Split(m.name))
  {
    if ".." in Stripped(Split(m.name)) { LoudKeeps(Stripped(Split(m.name)), ".."); }
  }

  /** How the last segment of a name relates to its components. */
  lemma LastSegment(m: Member)
    requires MemberOk(m)
    ensures var segs := Stripped(Split(m.name));
            && ".." !in segs
            && (segs == [] ==> Parts(m.name) == [])
            && (segs != [] ==>
                  var front, last := segs[..|segs| - 1], segs[|segs| - 1];
                  && ".." !in front
                  && Parts(m.name) == Loud(front) + if Silent(last) then [] else [last])
  {
    NoDots(m);
    LastOf(Stripped(Split(m.name)));
  }

  lemma LastOf(segs: seq<string>)
    ensures segs != [] ==>
              var front, last := segs[..|segs| - 1], segs[|segs| - 1];
              && (".." !in segs ==> ".." !in front)
              && Loud(segs) == Loud(front) + if Silent(last) then [] else [last]
  {
    if segs != [] {
      LoudSnoc(segs[..|segs| - 1], segs[|segs| - 1]);
      assert segs == segs[..|segs| - 1] + [segs[|segs| - 1]];
    }
  }

  /** `fs'` is `fs` with `node` at the literal path of `m` and directories above it. */
  ghost predicate Placed(root: Path, m: Member, fs: FS, fs': FS) {
    var P := Parts(m.name);
    && [] !in fs'
    && forall p :: Lookup(fs', p) ==
                   if P != [] && p == root + P then Some(NodeOf(m))
                   else if root < p <= root + P then Some(DirNode)
                   else Lookup(fs, p)
  }

  lemma PlacedHolds(fs0: FS, root: Path, S: set<Member>, fs: FS, m: Member, fs': FS)
    requires Holds(fs0, root, S, fs) && Meets(S, m) && Placed(root, m, fs, fs')
    requires WayFree(S, m)
    ensures Holds(fs0, root, S + {m}, fs')
  {
    var P := Parts(m.name);
    forall p: Path
      ensures Lookup(fs', p) == if root < p then Literal(S + {m}, p[|root|..]) else Lookup(fs0, p)
    {
      if root < p {
        var q := p[|root|..];
        LiteralAdd(S, m, q);
        BelowRoot(root, P, p);
        assert p == root + q;
        assert p == root + P <==> q == P;
        if q < P { WayOf(fs0, root, S, fs, m, P, p); assert Lookup(fs, p) == Literal(S, q); }
      } else if P != [] {
        assert root < root + P && p != root + P;
      }
    }
  }

  /** A member whose name has no component is the root directory itself. */
  lemma ExtractRoot(fs0: FS, root: Path, S: set<Member>, fs: FS, m: Member)
    requires EmptyDir(fs0, root) && Holds(fs0, root, S, fs) && Meets(S, m)
    requires Stripped(Split(m.name)) == []
    ensures Extract(fs, root, m) == Some(fs) && Placed(root, m, fs, fs)
  {
    LastSegment(m);
    assert root + Parts(m.name) == root;
  }

  lemma DirsPlaced(root: Path, m: Member, fs: FS)
    requires [] !in fs && NodeOf(m) == DirNode
    ensures Placed(root, m, fs, WithDirs(fs, root, Parts(m.name)))
  {
    var P := Parts(m.name);
    WithDirsKeys(fs, root, P);
    forall p: Path
      ensures Lookup(WithDirs(fs, root, P), p) == if root < p <= root + P then Some(DirNode) else Lookup(fs, p)
    {
      WithDirsLookup(fs, root, P, p);
    }
    if P != [] { assert root < root + P; }
  }

  /** The directories above the last segment of the name of `m`. */
  lemma WayReady(fs0: FS, root: Path, S: set<Member>, fs: FS, m: Member)
    requires EmptyDir(fs0, root) && Holds(fs0, root, S, fs) && Meets(S, m)
    requires Stripped(Split(m.name)) != []
    ensures var segs := Stripped(Split(m.name));
            var front, last := segs[..|segs| - 1], segs[|segs| - 1];
            && MemberOk(m) && [] !in fs && IsDir(fs, root)
            && Parts(m.name) == Loud(front) + (if Silent(last) then [] else [last])
            && MakeDirs(fs, root, front, MAX_LINKS) ==
               if WayFree(S, m) then Some((WithDirs(fs, root, Loud(front)), root + Loud(front))) else None
  {
    var segs := Stripped(Split(m.name));
    LastSegment(m);
    WayMade(fs0, root, S, fs, m, segs[..|segs| - 1]);
    assert Lookup(fs, root) == Lookup(fs0, root);
  }

  lemma DottedFits(S: set<Member>, m: Member)
    requires var segs := Stripped(Split(m.name)); segs != [] && Silent(segs[|segs| - 1])
    ensures Fits(S, m) <==> WayFree(S, m) && m.kind.Directory?
  {
    assert Clean(m) <==> m.kind.Directory?;
  }

  /** A directory named with a final "." is created with the directories above it; any
      other kind cannot be created under such a name. */
  lemma ExtractDotted(fs0: FS, root: Path, S: set<Member>, fs: FS, m: Member)
    requires EmptyDir(fs0, root) && Holds(fs0, root, S, fs) && Meets(S, m)
    requires var segs := Stripped(Split(m.name)); segs != [] && Silent(segs[|segs| - 1])
    ensures Extract(fs, root, m) ==
            if Fits(S, m) then Some(WithDirs(fs, root, Parts(m.name))) else None
    ensures Fits(S, m) ==> m.kind.Directory?
  {
    DottedWay(fs0, root, S, fs, m);
    CreateDotted(fs, root, m, WayFree(S, m));
    DottedFits(S, m);
  }

  lemma DottedWay(fs0: FS, root: Path, S: set<Member>, fs: FS, m: Member)
    requires EmptyDir(fs0, root) && Holds(fs0, root, S, fs) && Meets(S, m)
    requires var segs := Stripped(Split(m.name)); segs != [] && Silent(segs[|segs| - 1])
    ensures var segs := Stripped(Split(m.name));
            && MemberOk(m)
            && MakeDirs(fs, root, segs[..|segs| - 1], MAX_LINKS) ==
               (if WayFree(S, m) then Some((WithDirs(fs, root, Parts(m.name)), root + Parts(m.name))) else None)
  {
    WayReady(fs0, root, S, fs, m);
    var segs := Stripped(Split(m.name));
    var q := Loud(segs[..|segs| - 1]);
    assert q + [] == q;
    assert Parts(m.name) == q;
  }

  lemma CreateDotted(fs: FS, root: Path, m: Member, free: bool)
    requires MemberOk(m)
    requires var segs := Stripped(Split(m.name));
             && segs != [] && Silent(segs[|segs| - 1])
             && MakeDirs(fs, root, segs[..|segs| - 1], MAX_LINKS) ==
                (if free then Some((WithDirs(fs, root, Parts(m.name)), root + Parts(m.name))) else None)
    ensures Extract(fs, root, m) ==
            if free && m.kind.Directory? then Some(WithDirs(fs, root, Parts(m.name))) else None
  {
  }

  /** What stands at the path of `m` before it is extracted. */
  lemma Vacant(fs0: FS, root: Path, S: set<Member>, fs: FS, m: Member)
    requires Holds(fs0, root, S, fs) && Meets(S, m) && Parts(m.name) != []
    ensures Lookup(fs, root + Parts(m.name)) ==
            if Parent(S, m) then Some(DirNode) else None
  {
    var P := Parts(m.name);
    assert root < root + P && (root + P)[|root|..] == P;
    forall n ensures !At(S, P, n) { assert m in S + {m}; }
    LiteralKinds(S, P);
    if n :| n in S && P < Parts(n.name) { assert Above(S, P, n); }
  }

  lemma LastStep(root: Path, q: Path, last: string, p: Path)
    ensures root < p <= root + (q + [last]) <==> p == root + (q + [last]) || root < p <= root + q
  {
    var P := q + [last];
    BelowRoot(root, P, p);
    BelowRoot(root, q, p);
    if root < p {
      var r := p[|root|..];
      assert p == root + r;
      if r <= P && r != P { assert r == q[..|r|]; }
      if r <= q { assert r == P[..|r|]; }
    } else {
      assert root < root + P;
    }
  }

  lemma NamedPlaced(root: Path, m: Member, fs: FS, q: Path, last: string, fs': FS)
    requires [] !in fs && Parts(m.name) == q + [last]
    requires fs' == WithDirs(fs, root, q)[root + Parts(m.name) := NodeOf(m)]
    ensures Placed(root, m, fs, fs')
  {
    WithDirsKeys(fs, root, q);
    forall p: Path
      ensures Lookup(fs', p) ==
              if p == root + Parts(m.name) then Some(NodeOf(m))
              else if root < p <= root + Parts(m.name) then Some(DirNode)
              else Lookup(fs, p)
    {
      WithDirsLookup(fs, root, q, p);
      LastStep(root, q, last, p);
    }
  }

  /** Extraction under a proper final segment, given how the way and the entry stand. */
  lemma CreateNamed(fs: FS, root: Path, m: Member, q: Path, last: string, free: bool, above: bool)
    requires MemberOk(m) && [] !in fs && IsDir(fs, root)
    requires var segs := Stripped(Split(m.name));
             && segs != [] && segs[|segs| - 1] == last && !Silent(last)
             && MakeDirs(fs, root, segs[..|segs| - 1], MAX_LINKS) ==
                (if free then Some((WithDirs(fs, root, q), root + q)) else None)
    requires Parts(m.name) == q + [last]
    requires Lookup(fs, root + Parts(m.name)) == if above then Some(DirNode) else None
    ensures Extract(fs, root, m) ==
            if free && (!above || m.kind.Directory?)
            then Some(WithDirs(fs, root, q)[root + Parts(m.name) := NodeOf(m)]) else None
  {
    var fs1, t := WithDirs(fs, root, q), root + Parts(m.name);
    assert (root + q) + [last] == t;
    WithDirsLookup(fs, root, q, t);
    WithDirsLookup(fs, root, q, root + q);
    if q == [] { assert root + q == root; } else { assert root < root + q; }
    LastSegment(m);
    assert last in Stripped(Split(m.name));
    CreateVacant(fs1, root + q, last, m);
  }

  lemma MeetsKinds(S: set<Member>, m: Member)
    requires Meets(S, m)
    ensures Parent(S, m) ==> !m.kind.Symlink?
    ensures MemberOk(m) ==> !m.kind.Special?
  {
  }

  lemma ExtractNamed(fs0: FS, root: Path, S: set<Member>, fs: FS, m: Member, q: Path, last: string)
    requires EmptyDir(fs0, root) && Holds(fs0, root, S, fs) && Meets(S, m)
    requires var segs := Stripped(Split(m.name));
             segs != [] && segs[|segs| - 1] == last && q == Loud(segs[..|segs| - 1]) && !Silent(last)
    ensures Extract(fs, root, m) ==
            if Fits(S, m) then Some(WithDirs(fs, root, q)[root + Parts(m.name) := NodeOf(m)]) else None
    ensures Parts(m.name) == q + [last]
  {
    WayReady(fs0, root, S, fs, m);
    Vacant(fs0, root, S, fs, m);
    CreateNamed(fs, root, m, q, last, WayFree(S, m), Parent(S, m));
    MeetsKinds(S, m);
    assert Clean(m);
  }

  lemma CreateVacant(fs: FS, cur: Path, seg: string, m: Member)
    requires !Silent(seg) && seg != ".." && IsDir(fs, cur) && MemberOk(m)
    requires Lookup(fs, cur + [seg]) == None || Lookup(fs, cur + [seg]) == Some(DirNode)
    ensures Create(fs, cur, seg, m.kind) ==
            if Lookup(fs, cur + [seg]) == None || m.kind.Directory? then Some(fs[cur + [seg] := NodeOf(m)]) else None
  {
    var p := cur + [seg];
    if Lookup(fs, p) == Some(DirNode) {
      assert fs == fs[p := DirNode];
      assert Walk(fs, cur, [seg], MAX_LINKS) == Walk(fs, p, [seg][1..], MAX_LINKS);
    }
  }

  lemma ExtractStep(fs0: FS, root: Path, S: set<Member>, fs: FS, m: Member)
    requires EmptyDir(fs0, root) && Holds(fs0, root, S, fs) && Meets(S, m)
    ensures Fits(S, m) ==> Extract(fs, root, m).Some? && Holds(fs0, root, S + {m}, Extract(fs, root, m).value)
    ensures !Fits(S, m) ==> Extract(fs, root, m) == None
  {
    var segs := Stripped(Split(m.name));
    if segs == [] {
      LastSegment(m);
      ExtractRoot(fs0, root, S, fs, m);
    } else if Silent(segs[|segs| - 1]) {
      ExtractDotted(fs0, root, S, fs, m);
      if Fits(S, m) { DirsPlaced(root, m, fs); }
    } else {
      var q, last := Loud(segs[..|segs| - 1]), segs[|segs| - 1];
      ExtractNamed(fs0, root, S, fs, m, q, last);
      if Fits(S, m) { NamedPlaced(root, m, fs, q, last, Extract(fs, root, m).value); }
    }
    if Fits(S, m) {
      PlacedHolds(fs0, root, S, fs, m, Extract(fs, root, m).value);
    }
  }

  // ---------------------------------------------------------------------------
  // Whole archives
  // ---------------------------------------------------------------------------

  ghost function Members(ms: seq<Member>): set<Member> {
    set m | m in ms
  }

  /** No regular file stands where another member needs a directory. */
  ghost predicate Extractable(ms: seq<Member>) {
    && (forall m :: m in ms ==> Clean(m))
    && forall m, n :: m in ms && n in ms && m.kind.Regular? ==> !(Parts(m.name) < Parts(n.name))
  }

  lemma PrefixAccepts(pre: seq<Member>, m: Member)
    requires Accepts(pre + [m])
    ensures Accepts(pre)
  {
    var ms := pre + [m];
    forall i, j | 0 <= i < j < |pre| ensures Parts(pre[i].name) != Parts(pre[j].name) { assert pre[i] == ms[i] && pre[j] == ms[j]; }
    forall a | a in pre ensures Passable(a) && NoLinkOnTheWay(pre, a) { assert a in ms && NoLinkOnTheWay(ms, a); }
  }

  lemma PrefixMeets(pre: seq<Member>, m: Member)
    requires Accepts(pre + [m])
    ensures Meets(Members(pre), m)
  {
    var ms, k := pre + [m], |pre|;
    forall n | n in pre ensures Parts(n.name) != Parts(m.name) && Passable(n) {
      var i :| 0 <= i < k && pre[i] == n;
      assert ms[i] == n && ms[k] == m;
    }
    PrefixAccepts(pre, m);
    DistinctMembers(pre);
    assert ms[k] in ms && NoLinkOnTheWay(ms, m);
    forall n | n in pre ensures NoLinkOnTheWay(ms, n) { assert n in ms; }
  }

  lemma PrefixExtractable(pre: seq<Member>, m: Member)
    ensures Extractable(pre + [m]) <==> Extractable(pre) && Fits(Members(pre), m)
    ensures Members(pre + [m]) == Members(pre) + {m}
  {
    var ms := pre + [m];
    assert m in ms;
    forall n | n in pre ensures n in ms {}
    if Extractable(pre) && Fits(Members(pre), m) {
      forall a, b | a in ms && b in ms && a.kind.Regular? ensures !(Parts(a.name) < Parts(b.name)) {
        assert a in Members(pre) || a == m;
        assert b in Members(pre) || b == m;
      }
    }
  }

  lemma DistinctMembers(ms: seq<Member>)
    requires UniquePaths(ms)
    ensures Distinct(Members(ms))
  {
  }

  /** Archive soundness.  An accepted archive either extracts to its literal tree, with
      everything outside the root untouched, or fails; it fails exactly when a regular
      file stands in another member's way or a name cannot be created. */
  lemma {:induction false} ArchiveSoundness(fs0: FS, root: Path, ms: seq<Member>)
    requires EmptyDir(fs0, root) && Accepts(ms)
    ensures Extractable(ms) ==> ExtractAll(fs0, root, ms).Some? && Holds(fs0, root, Members(ms), ExtractAll(fs0, root, ms).value)
    ensures !Extractable(ms) ==> ExtractAll(fs0, root, ms) == None
  {
    if ms == [] {
      forall p: Path | root < p ensures Literal({}, p[|root|..]) == None { LiteralKinds({}, p[|root|..]); }
      assert Members(ms) == {};
    } else {
      var pre, m := ms[..|ms| - 1], ms[|ms| - 1];
      assert ms == pre + [m];
      PrefixAccepts(pre, m);
      PrefixMeets(pre, m);
      PrefixExtractable(pre, m);
      ArchiveSoundness(fs0, root, pre);
      if Extractable(pre) {
        ExtractStep(fs0, root, Members(pre), ExtractAll(fs0, root, pre).value, m);
      }
    }
  }

  /** Every member of an accepted archive stands at its own path, strictly below the root
      unless it is a directory. */
  lemma MembersStand(fs0: FS, root: Path, ms: seq<Member>, m: Member, fs: FS)
    requires EmptyDir(fs0, root) && Accepts(ms) && ExtractAll(fs0, root, ms) == Some(fs) && m in ms && !m.kind.Directory?
    ensures root < root + Parts(m.name) && Lookup(fs, root + Parts(m.name)) == Some(NodeOf(m))
  {
    ArchiveSoundness(fs0, root, ms);
    DistinctMembers(ms);
    LiteralAt(Members(ms), m);
    assert Passable(m);
    assert (root + Parts(m.name))[|root|..] == Parts(m.name);
  }

  // ---------------------------------------------------------------------------
  // Where the links of an accepted archive lead
  // ---------------------------------------------------------------------------

  /** Whether a walk follows an absolute link on its way. */
  predicate FollowsAbsolute(fs: FS, cur: Path, segs: seq<string>, fuel: nat)
    decreases fuel, |segs|
  {
    if segs == [] || !IsDir(fs, cur) then false
    else if Silent(segs[0]) then FollowsAbsolute(fs, cur, segs[1..], fuel)
    else if segs[0] == ".." then FollowsAbsolute(fs, Up(cur), segs[1..], fuel)
    else match Lookup(fs, cur + [segs[0]])
      case None => false
      case Some(LinkNode(t)) => fuel > 0 && (Absolute(t) || FollowsAbsolute(fs, cur, Split(t) + segs[1..], fuel - 1))
      case Some(_) => FollowsAbsolute(fs, cur + [segs[0]], segs[1..], fuel)
  }

  /** No relative link below `root` has a step upwards in it. */
  ghost predicate TameLinks(fs: FS, root: Path) {
    forall p, t :: root < p && Lookup(fs, p) == Some(LinkNode(t)) && !Absolute(t) ==> ".." !in Split(t)
  }

  /** Without a step upwards a walk never comes out above where it starts, through any
      number of relative links. */
  lemma {:induction false} WalkStays(fs: FS, root: Path, cur: Path, segs: seq<string>, fuel: nat)
    requires TameLinks(fs, root) && root <= cur && ".." !in segs && !FollowsAbsolute(fs, cur, segs, fuel)
    ensures Walk(fs, cur, segs, fuel).Some? ==> cur <= Walk(fs, cur, segs, fuel).value
    decreases fuel, |segs|
  {
    if segs != [] && IsDir(fs, cur) {
      if Silent(segs[0]) {
        WalkStays(fs, root, cur, segs[1..], fuel);
      } else {
        var p := cur + [segs[0]];
        match Lookup(fs, p)
        case None =>
        case Some(LinkNode(t)) => if fuel > 0 { WalkStays(fs, root, cur, Split(t) + segs[1..], fuel - 1); }
        case Some(_) => WalkStays(fs, root, p, segs[1..], fuel);
      }
    }
  }

  lemma AcceptedTargets(ms: seq<Member>, m: Member)
    requires Accepts(ms) && m in ms && m.kind.Symlink? && !Absolute(m.kind.target)
    ensures ".." !in Split(m.kind.target)
  {
    assert Passable(m);
    if ".." in Split(m.kind.target) { LoudKeeps(Split(m.kind.target), ".."); }
  }

  lemma AcceptedTame(fs0: FS, root: Path, ms: seq<Member>, fs: FS)
    requires Accepts(ms) && EmptyDir(fs0, root) && Holds(fs0, root, Members(ms), fs)
    ensures TameLinks(fs, root)
  {
    forall p, t | root < p && Lookup(fs, p) == Some(LinkNode(t)) && !Absolute(t) ensures ".." !in Split(t) {
      LiteralKinds(Members(ms), p[|root|..]);
      var m :| At(Members(ms), p[|root|..], m) && Some(LinkNode(t)) == Some(NodeOf(m));
      AcceptedTargets(ms, m);
    }
  }

  /** After an accepted archive is extracted, following a relative link of it from its own
      directory leads to that directory or below, through whatever other links, as long as
      none of them is absolute. */
  lemma LinksStayBelow(fs0: FS, root: Path, ms: seq<Member>, fs: FS, m: Member, fuel: nat)
    requires EmptyDir(fs0, root) && Accepts(ms) && ExtractAll(fs0, root, ms) == Some(fs)
    requires m in ms && m.kind.Symlink? && !Absolute(m.kind.target)
    ensures Parts(m.name) != []
    ensures var dir := root + Parts(m.name)[..|Parts(m.name)| - 1];
            !FollowsAbsolute(fs, dir, Split(m.kind.target), fuel) && Walk(fs, dir, Split(m.kind.target), fuel).Some?
            ==> root <= dir <= Walk(fs, dir, Split(m.kind.target), fuel).value
  {
    ArchiveSoundness(fs0, root, ms);
    assert Passable(m);
    var dir := root + Parts(m.name)[..|Parts(m.name)| - 1];
    AcceptedTame(fs0, root, ms, fs);
    AcceptedTargets(ms, m);
    if !FollowsAbsolute(fs, dir, Split(m.kind.target), fuel) {
      WalkStays(fs, root, dir, Split(m.kind.target), fuel);
    }
  }

  /** Where no link below the root is absolute, a walk without a step upwards meets none. */
  lemma {:induction false} WalkMeetsNone(fs: FS, root: Path, cur: Path, segs: seq<string>, fuel: nat)
    requires TameLinks(fs, root) && root <= cur && ".." !in segs
    requires forall p, t :: root < p && Lookup(fs, p) == Some(LinkNode(t)) ==> !Absolute(t)
    ensures !FollowsAbsolute(fs, cur, segs, fuel)
    decreases fuel, |segs|
  {
    if segs != [] && IsDir(fs, cur) {
      if Silent(segs[0]) {
        WalkMeetsNone(fs, root, cur, segs[1..], fuel);
      } else {
        var p := cur + [segs[0]];
        match Lookup(fs, p)
        case None =>
        case Some(LinkNode(t)) => if fuel > 0 { WalkMeetsNone(fs, root, cur, Split(t) + segs[1..], fuel - 1); }
        case Some(_) => WalkMeetsNone(fs, root, p, segs[1..], fuel);
      }
    }
  }

  /** An accepted archive whose links are all relative is closed: no link of it leads out of
      its own directory. */
  lemma RelativeArchiveIsClosed(fs0: FS, root: Path, ms: seq<Member>, fs: FS, m: Member, fuel: nat)
    requires EmptyDir(fs0, root) && Accepts(ms) && ExtractAll(fs0, root, ms) == Some(fs)
    requires forall n :: n in ms && n.kind.Symlink? ==> !Absolute(n.kind.target)
    requires m in ms && m.kind.Symlink?
    ensures Parts(m.name) != []
    ensures var dir := root + Parts(m.name)[..|Parts(m.name)| - 1];
            Walk(fs, dir, Split(m.kind.target), fuel).Some? ==> root <= dir <= Walk(fs, dir, Split(m.kind.target), fuel).value
  {
    ArchiveSoundness(fs0, root, ms);
    AcceptedTame(fs0, root, ms, fs);
    AcceptedTargets(ms, m);
    forall p, t | root < p && Lookup(fs, p) == Some(LinkNode(t)) ensures !Absolute(t) {
      LiteralKinds(Members(ms), p[|root|..]);
      var n :| At(Members(ms), p[|root|..], n) && Some(LinkNode(t)) == Some(NodeOf(n));
    }
    LinksStayBelow(fs0, root, ms, fs, m, fuel);
    WalkMeetsNone(fs, root, root + Parts(m.name)[..|Parts(m.name)| - 1], Split(m.kind.target), fuel);
  }

  lemma SplitUp(y: string)
    ensures Split("../" + y) == [".."] + Split(y)
  {
    var a, b, c := "/" + y, "./" + y, "../" + y;
    assert a[1..] == y && b[1..] == a && c[1..] == b;
    assert Split(a) == [""] + Split(y);
    assert ['.'] + "" == "." && Split(b) == ["."] + Split(y);
    assert ['.'] + "." == "..";
  }

  /** A link with a target that starts upwards is rejected in any archive; a link at the
      root of the extraction with such a target leads out of it. */
  lemma UpwardLinkRejected(ms: seq<Member>, x: string, y: string)
    requires Member(x, Symlink("../" + y)) in ms
    ensures !Accepts(ms)
  {
    SplitUp(y);
    LoudKeeps(Split("../" + y), "..");
    assert !Passable(Member(x, Symlink("../" + y)));
  }

  lemma UpwardLinkLeaves(fs: FS, root: Path, y: char, fuel: nat)
    requires root != [] && IsDir(fs, root) && y !in {'/', '.'} && root[|root| - 1] != [y]
    requires IsDir(fs, Up(root)) && Lookup(fs, Up(root) + [[y]]).Some? && !Lookup(fs, Up(root) + [[y]]).value.LinkNode?
    ensures var q := Walk(fs, root, Split("../" + [y]), fuel); q == Some(Up(root) + [[y]]) && !(root <= q.value)
  {
    SplitUp([y]);
    SplitShort(y, y);
    var q := Up(root) + [[y]];
    assert ([".."] + [[y]])[1..] == [[y]] && [[y]][1..] == [];
    assert Walk(fs, q, [], fuel) == Some(q);
    assert Walk(fs, Up(root), [[y]], fuel) == Some(q);
    assert q[|root| - 1] == [y];
  }

  lemma NameOf(x: char)
    requires x !in {'/', '.'}
    ensures Parts([x]) == [[x]] && !Absolute([x])
  {
    SplitShort(x, x);
  }

  /** A link to a place outside, named absolutely, is accepted whatever its target. */
  lemma AbsoluteLinkAccepted(x: char, t: string)
    requires x !in {'/', '.'} && Absolute(t)
    ensures Accepts([Member([x], Symlink(t))])
  {
    NameOf(x);
    var m := Member([x], Symlink(t));
    forall a | a in [m] ensures Passable(a) && NoLinkOnTheWay([m], a) { assert a == m; }
  }

  lemma HoldsUnique(fs0: FS, root: Path, S: set<Member>, a: FS, b: FS)
    requires Holds(fs0, root, S, a) && Holds(fs0, root, S, b)
    ensures a == b
  {
    forall p: Path ensures Lookup(a, p) == Lookup(b, p) {}
    forall p: Path ensures p in a <==> p in b { assert Lookup(a, p) == Lookup(b, p); }
    forall p: Path | p in a ensures a[p] == b[p] { assert Lookup(a, p) == Lookup(b, p); }
  }

  lemma Occurrences(ms: seq<Member>, i: nat)
    requires i < |ms|
    ensures multiset(ms)[ms[i]] == 1 + multiset(ms[..i])[ms[i]] + multiset(ms[i + 1..])[ms[i]]
  {
    assert ms == ms[..i] + [ms[i]] + ms[i + 1..];
  }

  ghost predicate OnceEach(ms: seq<Member>) {
    forall m :: m in ms ==> multiset(ms)[m] == 1
  }

  lemma UniqueMeansOnce(ms: seq<Member>)
    ensures UniquePaths(ms) <==> OnceEach(ms) && Distinct(Members(ms))
  {
    if UniquePaths(ms) {
      forall m | m in ms ensures multiset(ms)[m] == 1 {
        var i :| 0 <= i < |ms| && ms[i] == m;
        Occurrences(ms, i);
        var before, after := ms[..i], ms[i + 1..];
        forall j | 0 <= j < |after| ensures after[j] != m { assert after[j] == ms[i + 1 + j]; }
        forall j | 0 <= j < |before| ensures before[j] != m { assert before[j] == ms[j]; }
      }
    }
    if OnceEach(ms) && Distinct(Members(ms)) {
      forall i, j | 0 <= i < j < |ms| ensures Parts(ms[i].name) != Parts(ms[j].name) {
        Occurrences(ms, i);
        assert ms[j] == ms[i + 1..][j - i - 1] && ms[j] in multiset(ms[i + 1..]);
        assert ms[i] in Members(ms) && ms[j] in Members(ms);
      }
    }
  }

  lemma AcceptsReordered(a: seq<Member>, b: seq<Member>)
    requires Accepts(a) && multiset(a) == multiset(b)
    ensures Accepts(b) && Members(a) == Members(b)
  {
    forall m | m in a ensures m in b { assert m in multiset(a); }
    forall m | m in b ensures m in a { assert m in multiset(b); }
    DistinctMembers(a);
    assert Members(a) == Members(b);
    forall m | m in b ensures NoLinkOnTheWay(b, m) { assert NoLinkOnTheWay(a, m); }
    UniqueMeansOnce(a);
    UniqueMeansOnce(b);
  }

  /** Any two orders of the members of an accepted archive give the same result: the same
      tree, or failure in both. */
  lemma OrderIrrelevant(fs0: FS, root: Path, a: seq<Member>, b: seq<Member>)
    requires EmptyDir(fs0, root) && Accepts(a) && multiset(a) == multiset(b)
    ensures ExtractAll(fs0, root, a) == ExtractAll(fs0, root, b)
  {
    AcceptsReordered(a, b);
    forall m | m in a ensures m in b { assert m in Members(b); }
    forall m | m in b ensures m in a { assert m in Members(a); }
    assert Extractable(a) <==> Extractable(b);
    ArchiveSoundness(fs0, root, a);
    ArchiveSoundness(fs0, root, b);
    if Extractable(a) {
      HoldsUnique(fs0, root, Members(a), ExtractAll(fs0, root, a).value, ExtractAll(fs0, root, b).value);
    }
  }

  lemma SplitShort(c: char, d: char)
    requires c != '/' && d != '/'
    ensures Split([c]) == [[c]] && Split(['/', c]) == ["", [c]] && Split([c, '/', d]) == [[c], [d]]
  {
    assert Split([]) == [""] && [c] + "" == [c] && [d] + "" == [d];
    assert [c][1..] == [] && [d][1..] == [] && ['/', c][1..] == [c];
    assert Split([d]) == [[d]];
    assert ['/', d][1..] == [d] && Split(['/', d]) == ["", [d]];
    assert [c, '/', d][1..] == ['/', d];
  }

  lemma WalkTo(fs: FS, e: string, fuel: nat)
    requires !Silent(e) && e != ".." && IsDir(fs, [e])
    ensures Walk(fs, [], ["", e], fuel) == Some([e])
  {
    assert ["", e][1..] == [e] && [] + [e] == [e] && [e][1..] == [];
    assert Walk(fs, [e], [], fuel) == Some([e]);
    assert Walk(fs, [], [e], fuel) == Some([e]);
  }

  lemma MakeDirsThroughLink(fs: FS, root: Path, d: string, e: char, fuel: nat)
    requires !Silent(d) && d != ".." && e != '/' && e != '.'
    requires IsDir(fs, root) && IsDir(fs, [[e]]) && Lookup(fs, root + [d]) == Some(LinkNode(['/', e]))
    ensures MakeDirs(fs, root, [d], fuel) == Some((fs, [[e]]))
  {
    SplitShort(e, e);
    WalkTo(fs, [e], fuel);
    assert [d][1..] == [];
    assert MakeDirs(fs, [[e]], [], fuel) == Some((fs, [[e]]));
  }

  lemma PairNames(d: char, x: char)
    requires d != '/' && d != '.' && x != '/' && x != '.'
    ensures Split([d, '/', x]) == [[d], [x]] && Parts([d, '/', x]) == [[d], [x]] && Parts([d]) == [[d]]
    ensures Stripped([[d], [x]]) == [[d], [x]]
  {
    SplitShort(d, x);
    LoudAppend([[d]], [[x]]);
    assert [[d], [x]] == [[d]] + [[x]];
  }

  lemma PairRejected(d: char, e: char, x: char, c: string)
    requires {d, e, x} !! {'/', '.'}
    ensures var link, file := Member([d], Symlink(['/', e])), Member([d, '/', x], Regular(c));
            MemberOk(link) && MemberOk(file) && !Accepts([link, file])
  {
    var link, file := Member([d], Symlink(['/', e])), Member([d, '/', x], Regular(c));
    PairNames(d, x);
    assert !NoLinkOnTheWay([link, file], file) by { assert link in [link, file]; }
    assert file in [link, file];
  }

  /** Member-by-member checks alone do not suffice: a link `d` and a file `d/x` pass each
      of them, and the file is then written at the link's target, outside the root. */
  lemma LinkThenFileEscapes(fs: FS, root: Path, d: char, e: char, x: char, c: string)
    requires {d, e, x} !! {'/', '.'}
    requires IsDir(fs, root) && IsDir(fs, [[e]]) && Lookup(fs, root + [[d]]) == Some(LinkNode(['/', e]))
    requires Lookup(fs, [[e], [x]]) == None
    ensures var link, file := Member([d], Symlink(['/', e])), Member([d, '/', x], Regular(c));
            && MemberOk(link) && MemberOk(file) && !Accepts([link, file])
            && Extract(fs, root, file) == Some(fs[[[e], [x]] := FileNode(c)])
  {
    PairRejected(d, e, x, c);
    PairNames(d, x);
    assert [[d], [x]][..1] == [[d]] && [[e]] + [[x]] == [[e], [x]];
    MakeDirsThroughLink(fs, root, [d], e, MAX_LINKS);
  }

  lemma WriteThroughLink(fs: FS, root: Path, d: string, e: char, c: string)
    requires !Silent(d) && d != ".." && e !in {'/', '.'}
    requires Lookup(fs, root + [d]) == Some(LinkNode(['/', e]))
    requires Lookup(fs, [[e]]).Some? ==> Lookup(fs, [[e]]).value.FileNode?
    ensures WriteFile(fs, root, d, c, MAX_LINKS) == Some(fs[[[e]] := FileNode(c)])
  {
    SplitShort(e, e);
    assert ["", [e]][..1] == [""] && [""][1..] == [];
    assert Walk(fs, [], [""], MAX_LINKS - 1) == Walk(fs, [], [], MAX_LINKS - 1) == Some([]);
    assert [] + [[e]] == [[e]];
    assert WriteFile(fs, [], [e], c, MAX_LINKS - 1) == Some(fs[[[e]] := FileNode(c)]);
  }

  /** Nor does it suffice without the test on paths that occur twice: a link and a file of
      one name pass each check of their own, and the file overwrites what the link names. */
  lemma SameNameOverwrites(fs: FS, root: Path, d: char, e: char, c: string)
    requires {d, e} !! {'/', '.'} && IsDir(fs, root)
    requires Lookup(fs, root + [[d]]) == Some(LinkNode(['/', e]))
    requires Lookup(fs, [[e]]).Some? ==> Lookup(fs, [[e]]).value.FileNode?
    ensures var link, file := Member([d], Symlink(['/', e])), Member([d], Regular(c));
            && MemberOk(link) && MemberOk(file) && !Accepts([link, file])
            && Extract(fs, root, file) == Some(fs[[[e]] := FileNode(c)])
  {
    var link, file := Member([d], Symlink(['/', e])), Member([d], Regular(c));
    NameOf(d);
    SplitShort(d, d);
    assert [link, file][0] == link && [link, file][1] == file;
    assert Stripped([[d]]) == [[d]] && [[d]][..0] == [];
    WriteThroughLink(fs, root, [d], e, c);
  }
}
