/**
 * Path-subtree mutual exclusion. A locked path excludes every path above and below it; the program
 * decides that with string prefixes on resolved, lower-cased paths.
 */
module WorkspaceLocks {
  import opened Domain

  const SEP: char := '/'

  /** A resolved path: a volume (empty on POSIX, a drive on Windows) and its directory names. */
  datatype Path = Path(volume: string, names: seq<string>) {
    predicate IsRoot() { names == [] }
  }

  predicate Resolved(p: Path) {
    SEP !in p.volume && forall i :: 0 <= i < |p.names| ==> p.names[i] != "" && SEP !in p.names[i]
  }

  type ResolvedPath = p: Path | Resolved(p) witness Path("", [])

  /** `path.resolve` with lower-casing, and `path.join`. */
  datatype Platform = Platform(resolve: string -> ResolvedPath, join: (string, string) -> string)

  // ---------------------------------------------------------------- the string test

  /** Every token followed by a separator. */
  function Slashed(tokens: seq<string>): string {
    if tokens == [] then "" else tokens[0] + [SEP] + Slashed(tokens[1..])
  }

  function Tokens(p: Path): seq<string> {
    [p.volume] + p.names
  }

  /** A root is the one path that is written with a trailing separator. */
  function Render(p: Path): string {
    var slashed := Slashed(Tokens(p));
    if p.IsRoot() then slashed else slashed[..|slashed| - 1]
  }

  predicate StringOverlap(l: string, r: string) {
    l == r || r + [SEP] <= l || l + [SEP] <= r
  }

  predicate Overlaps(platform: Platform, a: seq<string>, b: seq<string>) {
    exists i, j :: 0 <= i < |a| && 0 <= j < |b| &&
      StringOverlap(Render(platform.resolve(a[i])), Render(platform.resolve(b[j])))
  }

  // ---------------------------------------------------------------- what it should mean

  /** `x` is `p` or lies below it. */
  ghost predicate Inside(x: Path, p: Path) {
    x.volume == p.volume && p.names <= x.names
  }

  ghost predicate SubtreesMeet(p: Path, q: Path) {
    exists x: Path :: Inside(x, p) && Inside(x, q)
  }

  lemma SubtreesMeetIff(p: Path, q: Path)
    ensures SubtreesMeet(p, q) <==> Tokens(p) <= Tokens(q) || Tokens(q) <= Tokens(p)
  {
    if SubtreesMeet(p, q) {
      var x: Path :| Inside(x, p) && Inside(x, q);
      if |p.names| <= |q.names| {
        assert forall i :: 0 <= i < |p.names| ==> p.names[i] == x.names[i] && q.names[i] == x.names[i];
      } else {
        assert forall i :: 0 <= i < |q.names| ==> p.names[i] == x.names[i] && q.names[i] == x.names[i];
      }
    }
    if Tokens(p) <= Tokens(q) {
      assert p.volume == Tokens(q)[0] && p.names == Tokens(p)[1..] && q.names == Tokens(q)[1..];
      assert Inside(q, p) && Inside(q, q);
    }
    if Tokens(q) <= Tokens(p) {
      assert q.volume == Tokens(p)[0] && q.names == Tokens(q)[1..] && p.names == Tokens(p)[1..];
      assert Inside(p, p) && Inside(p, q);
    }
  }

  lemma FirstToken(a: string, s: string, b: string, t: string)
    requires SEP !in a && SEP !in b && a + [SEP] + s <= b + [SEP] + t
    ensures a == b && s <= t
  {
    var left, right := a + [SEP] + s, b + [SEP] + t;
    assert left[|a|] == SEP && right[|b|] == SEP;
    forall k | 0 <= k < |a| ensures left[k] != SEP { assert left[k] == a[k]; }
    forall k | 0 <= k < |b| ensures right[k] != SEP { assert right[k] == b[k]; }
    assert |a| == |b|;
    assert a == left[..|a|] && b == right[..|b|];
    assert s == left[|a| + 1..] && t == right[|b| + 1..];
  }

  lemma {:induction false} SlashedPrefixIff(a: seq<string>, b: seq<string>)
    requires (forall i :: 0 <= i < |a| ==> SEP !in a[i]) && (forall i :: 0 <= i < |b| ==> SEP !in b[i])
    ensures Slashed(a) <= Slashed(b) <==> a <= b
  {
    if a != [] && b != [] {
      SlashedPrefixIff(a[1..], b[1..]);
      assert a == [a[0]] + a[1..] && b == [b[0]] + b[1..];
      if Slashed(a) <= Slashed(b) {
        FirstToken(a[0], Slashed(a[1..]), b[0], Slashed(b[1..]));
      }
      if a <= b {
        assert a[0] == b[0] && a[1..] <= b[1..];
      }
    }
  }

  lemma TrailingSeparator(l: string, r: string)
    ensures StringOverlap(l, r) <==> l + [SEP] <= r + [SEP] || r + [SEP] <= l + [SEP]
  {
    var ls, rs := l + [SEP], r + [SEP];
    if ls <= rs {
      if |l| == |r| {
        assert l == ls[..|l|] && r == rs[..|r|];
      } else {
        assert rs[..|ls|] == r[..|ls|];
      }
    }
    if rs <= ls {
      if |l| == |r| {
        assert l == ls[..|l|] && r == rs[..|r|];
      } else {
        assert ls[..|rs|] == l[..|rs|];
      }
    }
    if ls <= r { assert r[..|ls|] == rs[..|ls|]; }
    if rs <= l { assert l[..|rs|] == ls[..|rs|]; }
  }

  lemma SlashedEndsWithSeparator(tokens: seq<string>)
    requires tokens != []
    ensures Slashed(tokens) != "" && Slashed(tokens)[|Slashed(tokens)| - 1] == SEP
  {
    if |tokens| > 1 {
      SlashedEndsWithSeparator(tokens[1..]);
    }
  }

  lemma TokensClean(p: ResolvedPath)
    ensures forall i :: 0 <= i < |Tokens(p)| ==> SEP !in Tokens(p)[i]
  {
  }

  /**
   * The string test is exact for two roots and for two non-roots, and it never sees a root lie above
   * anything else: over all resolved paths it is subtree intersection restricted to equal rootness.
   */
  lemma StringOverlapIff(p: ResolvedPath, q: ResolvedPath)
    ensures StringOverlap(Render(p), Render(q)) <==> SubtreesMeet(p, q) && (p.IsRoot() <==> q.IsRoot())
  {
    SubtreesMeetIff(p, q);
    TokensClean(p);
    TokensClean(q);
    SlashedPrefixIff(Tokens(p), Tokens(q));
    SlashedPrefixIff(Tokens(q), Tokens(p));
    if !p.IsRoot() && !q.IsRoot() {
      NonRoots(p, q);
    } else if p.IsRoot() && q.IsRoot() {
      Roots(p, q);
    } else if p.IsRoot() {
      RootAndOther(p, q);
    } else {
      RootAndOther(q, p);
    }
  }

  lemma NonRoots(p: ResolvedPath, q: ResolvedPath)
    requires !p.IsRoot() && !q.IsRoot()
    ensures StringOverlap(Render(p), Render(q))
       <==> Slashed(Tokens(p)) <= Slashed(Tokens(q)) || Slashed(Tokens(q)) <= Slashed(Tokens(p))
  {
    SlashedEndsWithSeparator(Tokens(p));
    SlashedEndsWithSeparator(Tokens(q));
    assert Render(p) + [SEP] == Slashed(Tokens(p)) && Render(q) + [SEP] == Slashed(Tokens(q));
    TrailingSeparator(Render(p), Render(q));
  }

  lemma Roots(p: ResolvedPath, q: ResolvedPath)
    requires p.IsRoot() && q.IsRoot()
    ensures StringOverlap(Render(p), Render(q)) <==> Tokens(p) == Tokens(q)
  {
    var l, r := Render(p), Render(q);
    RenderRoot(p);
    RenderRoot(q);
    if l == r { FirstToken(p.volume, "", q.volume, ""); }
    if r + [SEP] <= l { DoubledSeparator(q.volume, p.volume, ""); }
    if l + [SEP] <= r { DoubledSeparator(p.volume, q.volume, ""); }
  }

  lemma RenderRoot(p: Path)
    requires p.IsRoot()
    ensures Tokens(p) == [p.volume] && Render(p) == p.volume + [SEP]
  {
    assert Slashed([p.volume]) == p.volume + [SEP] + Slashed([]);
  }

  /** No rendered path has two adjacent separators, which is what a root prefix would need. */
  lemma DoubledSeparator(a: string, b: string, t: string)
    requires SEP !in a && SEP !in b && a + [SEP] + [SEP] <= b + [SEP] + t
    ensures t != "" && t[0] == SEP
  {
    assert a + [SEP] + [SEP] == a + [SEP] + ([SEP] + "");
    FirstToken(a, [SEP], b, t);
  }

  lemma RootAndOther(root: ResolvedPath, other: ResolvedPath)
    requires root.IsRoot() && !other.IsRoot()
    ensures !StringOverlap(Render(root), Render(other))
  {
    var l, r := Render(root), Render(other);
    RenderRoot(root);
    var name, rest := other.names[0], Slashed(other.names[1..]);
    assert Tokens(other)[1..] == other.names;
    assert Slashed(Tokens(other)) == other.volume + [SEP] + (name + [SEP] + rest);
    SlashedEndsWithSeparator(Tokens(other));
    var tail := (name + [SEP] + rest)[..|name| + |rest|];
    assert r == other.volume + [SEP] + tail;
    assert |tail| >= 1 && tail[0] == name[0];
    assert name[0] in name;
    if l == r { FirstToken(other.volume, tail, root.volume, ""); }
    if l + [SEP] <= r { DoubledSeparator(root.volume, other.volume, tail); }
    if r + [SEP] <= l {
      assert r + [SEP] == other.volume + [SEP] + (tail + [SEP]);
      FirstToken(other.volume, tail + [SEP], root.volume, "");
    }
  }

  // ---------------------------------------------------------------- the lock table

  type Token = string

  /** A row keeps the requested paths as they were asked for; they are resolved when compared. */
  datatype Lock = Lock(task: TaskId, token: Token, scope: seq<string>)

  function Requested(platform: Platform, workspace: string, fileScope: seq<string>): seq<string> {
    if fileScope == [] then [workspace]
    else seq(|fileScope|, i requires 0 <= i < |fileScope| => platform.join(workspace, fileScope[i]))
  }

  datatype Verdict = Own(token: Token) | Refused | Free

  /** Rows are read in insertion order; the first that is the task's own or that overlaps decides. */
  function Scan(platform: Platform, locks: seq<Lock>, task: TaskId, requested: seq<string>): Verdict {
    if locks == [] then Free
    else if locks[0].task == task then Own(locks[0].token)
    else if Overlaps(platform, requested, locks[0].scope) then Refused
    else Scan(platform, locks[1..], task, requested)
  }

  function Acquired(platform: Platform, locks: seq<Lock>, task: TaskId, requested: seq<string>, token: Token)
    : (seq<Lock>, Option<Token>)
  {
    match Scan(platform, locks, task, requested)
    case Own(held) => (locks, Some(held))
    case Refused => (locks, None)
    case Free => (locks + [Lock(task, token, requested)], Some(token))
  }

  predicate CanAcquire(platform: Platform, locks: seq<Lock>, task: TaskId, requested: seq<string>) {
    forall i :: 0 <= i < |locks| ==> locks[i].task == task || !Overlaps(platform, requested, locks[i].scope)
  }

  function WithoutToken(locks: seq<Lock>, token: Token): seq<Lock> {
    if locks == [] then []
    else (if locks[0].token == token then [] else [locks[0]]) + WithoutToken(locks[1..], token)
  }

  function WithoutTask(locks: seq<Lock>, task: TaskId): seq<Lock> {
    if locks == [] then []
    else (if locks[0].task == task then [] else [locks[0]]) + WithoutTask(locks[1..], task)
  }

  class LockTable {
    const platform: Platform
    var locks: seq<Lock>

    constructor (platform: Platform)
      ensures this.platform == platform && locks == []
    {
      this.platform := platform;
      locks := [];
    }

    /** `token` is the fresh identifier a new row would get. */
    method Acquire(task: TaskId, workspace: string, fileScope: seq<string>, token: Token) returns (r: Option<Token>)
      modifies this
      ensures (locks, r) == Acquired(platform, old(locks), task, Requested(platform, workspace, fileScope), token)
    {
      var requested := Requested(platform, workspace, fileScope);
      var i := 0;
      while i < |locks|
        invariant 0 <= i <= |locks| && locks == old(locks)
        invariant Scan(platform, locks, task, requested) == Scan(platform, locks[i..], task, requested)
      {
        if locks[i].task == task {
          return Some(locks[i].token);
        }
        if Overlaps(platform, requested, locks[i].scope) {
          return None;
        }
        i := i + 1;
      }
      locks := locks + [Lock(task, token, requested)];
      return Some(token);
    }

    method Release(token: Token)
      modifies this
      ensures locks == WithoutToken(old(locks), token)
    {
      var kept: seq<Lock> := [];
      for i := 0 to |locks|
        invariant locks == old(locks)
        invariant kept + WithoutToken(locks[i..], token) == WithoutToken(locks, token)
      {
        if locks[i].token != token {
          kept := kept + [locks[i]];
        }
      }
      locks := kept;
    }
  }

  // ---------------------------------------------------------------- exclusion in every reachable state

  /** Every lock operation; `Expire` is the run budget deleting a task's locks. */
  datatype Operation =
    | Acquire(task: TaskId, workspace: string, fileScope: seq<string>, token: Token)
    | Release(held: Token)
    | Expire(expired: TaskId)

  function Applied(platform: Platform, locks: seq<Lock>, op: Operation): seq<Lock> {
    match op
    case Acquire(task, workspace, fileScope, token) =>
      Acquired(platform, locks, task, Requested(platform, workspace, fileScope), token).0
    case Release(token) => WithoutToken(locks, token)
    case Expire(task) => WithoutTask(locks, task)
  }

  function Reached(platform: Platform, ops: seq<Operation>): seq<Lock> {
    if ops == [] then [] else Applied(platform, Reached(platform, ops[..|ops| - 1]), ops[|ops| - 1])
  }

  /** At most one row a task, and rows that do not overlap. */
  ghost predicate Exclusive(platform: Platform, locks: seq<Lock>) {
    forall i, j :: 0 <= i < j < |locks| ==>
      locks[i].task != locks[j].task && !Overlaps(platform, locks[j].scope, locks[i].scope)
  }

  lemma {:induction false} ScanIff(platform: Platform, locks: seq<Lock>, task: TaskId, requested: seq<string>)
    ensures Scan(platform, locks, task, requested) == Free <==>
      forall i :: 0 <= i < |locks| ==> locks[i].task != task && !Overlaps(platform, requested, locks[i].scope)
    ensures Scan(platform, locks, task, requested).Own? ==>
      exists i :: 0 <= i < |locks| && locks[i].task == task
    ensures Scan(platform, locks, task, requested).Refused? ==>
      exists i :: 0 <= i < |locks| && locks[i].task != task && Overlaps(platform, requested, locks[i].scope)
  {
    if locks != [] {
      ScanIff(platform, locks[1..], task, requested);
      assert forall i :: 0 <= i < |locks| - 1 ==> locks[1..][i] == locks[i + 1];
      assert locks[0] == locks[0];
    }
  }

  lemma {:induction false} WithoutTokenStaysExclusive(platform: Platform, locks: seq<Lock>, token: Token)
    requires Exclusive(platform, locks)
    ensures Exclusive(platform, WithoutToken(locks, token))
    ensures forall l :: l in WithoutToken(locks, token) <==> l in locks && l.token != token
  {
    if locks != [] {
      Tail(platform, locks);
      WithoutTokenStaysExclusive(platform, locks[1..], token);
      Prepended(platform, locks[0], WithoutToken(locks[1..], token), locks);
    }
  }

  lemma {:induction false} WithoutTaskStaysExclusive(platform: Platform, locks: seq<Lock>, task: TaskId)
    requires Exclusive(platform, locks)
    ensures Exclusive(platform, WithoutTask(locks, task))
    ensures forall l :: l in WithoutTask(locks, task) <==> l in locks && l.task != task
  {
    if locks != [] {
      Tail(platform, locks);
      WithoutTaskStaysExclusive(platform, locks[1..], task);
      Prepended(platform, locks[0], WithoutTask(locks[1..], task), locks);
    }
  }

  lemma Tail(platform: Platform, locks: seq<Lock>)
    requires locks != [] && Exclusive(platform, locks)
    ensures Exclusive(platform, locks[1..]) && locks == [locks[0]] + locks[1..]
  {
    assert forall i :: 0 <= i < |locks| - 1 ==> locks[1..][i] == locks[i + 1];
  }

  lemma Prepended(platform: Platform, first: Lock, rest: seq<Lock>, locks: seq<Lock>)
    requires locks != [] && Exclusive(platform, locks) && first == locks[0] && Exclusive(platform, rest)
    requires forall l :: l in rest ==> l in locks[1..]
    ensures Exclusive(platform, [first] + rest)
  {
    forall j | 0 <= j < |rest| ensures first.task != rest[j].task && !Overlaps(platform, rest[j].scope, first.scope) {
      assert rest[j] in locks[1..];
      var k :| 0 <= k < |locks| - 1 && locks[1..][k] == rest[j];
      assert locks[k + 1] == rest[j];
    }
  }

  /** Whatever is acquired, released and expired, in any order: one row a task and no overlap. */
  lemma {:induction false} AlwaysExclusive(platform: Platform, ops: seq<Operation>)
    ensures Exclusive(platform, Reached(platform, ops))
  {
    if ops != [] {
      AlwaysExclusive(platform, ops[..|ops| - 1]);
      var before := Reached(platform, ops[..|ops| - 1]);
      match ops[|ops| - 1]
      case Acquire(task, workspace, fileScope, token) =>
        ScanIff(platform, before, task, Requested(platform, workspace, fileScope));
      case Release(token) => WithoutTokenStaysExclusive(platform, before, token);
      case Expire(task) => WithoutTaskStaysExclusive(platform, before, task);
    }
  }

  /** `x` is under one of the paths of the scope. */
  ghost predicate Covers(platform: Platform, scope: seq<string>, x: Path) {
    exists i :: 0 <= i < |scope| && Inside(x, platform.resolve(scope[i]))
  }

  ghost predicate NoRoots(platform: Platform, scope: seq<string>) {
    forall i :: 0 <= i < |scope| ==> !platform.resolve(scope[i]).IsRoot()
  }

  /** A filesystem root and something below it on the same volume. */
  predicate RootAbove(p: Path, q: Path) {
    p.volume == q.volume && (p.IsRoot() <==> !q.IsRoot())
  }

  ghost predicate RootMeets(platform: Platform, a: seq<string>, b: seq<string>) {
    exists m, n :: 0 <= m < |a| && 0 <= n < |b| && RootAbove(platform.resolve(a[m]), platform.resolve(b[n]))
  }

  ghost predicate CoverCommon(platform: Platform, a: seq<string>, b: seq<string>) {
    exists x: Path :: Covers(platform, a, x) && Covers(platform, b, x)
  }

  /** Scopes that do not test as overlapping cover a common path exactly through a root. */
  lemma CommonOnlyThroughRoot(platform: Platform, a: seq<string>, b: seq<string>)
    requires !Overlaps(platform, a, b)
    ensures CoverCommon(platform, a, b) <==> RootMeets(platform, a, b)
  {
    if CoverCommon(platform, a, b) {
      var x: Path :| Covers(platform, a, x) && Covers(platform, b, x);
      var m :| 0 <= m < |a| && Inside(x, platform.resolve(a[m]));
      var n :| 0 <= n < |b| && Inside(x, platform.resolve(b[n]));
      StringOverlapIff(platform.resolve(a[m]), platform.resolve(b[n]));
      assert RootAbove(platform.resolve(a[m]), platform.resolve(b[n]));
    }
    if RootMeets(platform, a, b) {
      var m, n :| 0 <= m < |a| && 0 <= n < |b| && RootAbove(platform.resolve(a[m]), platform.resolve(b[n]));
      var p, q := platform.resolve(a[m]), platform.resolve(b[n]);
      var x: Path := if p.IsRoot() then q else p;
      assert Inside(x, p) && Inside(x, q);
      assert Covers(platform, a, x) && Covers(platform, b, x);
    }
  }

  /**
   * In every reachable state the locks of two tasks cover a common path if and only if one names a
   * filesystem root and the other a path below that root.
   */
  lemma LocksMeetIff(platform: Platform, ops: seq<Operation>, i: nat, j: nat)
    requires i < j < |Reached(platform, ops)|
    ensures var a, b := Reached(platform, ops)[j].scope, Reached(platform, ops)[i].scope;
            CoverCommon(platform, a, b) <==> RootMeets(platform, a, b)
  {
    AlwaysExclusive(platform, ops);
    CommonOnlyThroughRoot(platform, Reached(platform, ops)[j].scope, Reached(platform, ops)[i].scope);
  }

  /** So they never do as long as no filesystem root is locked. */
  lemma LockedSubtreesDisjoint(platform: Platform, ops: seq<Operation>, i: nat, j: nat, x: Path)
    requires i < j < |Reached(platform, ops)|
    requires NoRoots(platform, Reached(platform, ops)[i].scope) && NoRoots(platform, Reached(platform, ops)[j].scope)
    ensures !(Covers(platform, Reached(platform, ops)[i].scope, x) && Covers(platform, Reached(platform, ops)[j].scope, x))
  {
    LocksMeetIff(platform, ops, i, j);
  }

  /** Two tasks asking one after the other, from an empty table, for paths that do not test as overlapping. */
  lemma TwoGranted(platform: Platform, mine: string, theirs: string)
    requires !Overlaps(platform, [theirs], [mine])
    ensures Reached(platform, [Acquire("a", mine, [], "t1"), Acquire("b", theirs, [], "t2")])
         == [Lock("a", "t1", [mine]), Lock("b", "t2", [theirs])]
  {
    var first, second := Acquire("a", mine, [], "t1"), Acquire("b", theirs, [], "t2");
    assert [first, second][..1] == [first] && [first][..0] == [];
    assert Reached(platform, [first]) == [Lock("a", "t1", [mine])];
    assert "a"[0] != "b"[0];
    assert Scan(platform, [Lock("a", "t1", [mine])], "b", [theirs]) == Free;
  }

  /**
   * With a root the exclusion fails: a lock on a root and a lock on any path below it are both granted.
   */
  lemma RootLockExcludesNothing(platform: Platform, root: string, below: string)
    requires platform.resolve(root).IsRoot() && !platform.resolve(below).IsRoot()
    requires platform.resolve(root).volume == platform.resolve(below).volume
    ensures var locks := Reached(platform, [Acquire("a", root, [], "t1"), Acquire("b", below, [], "t2")]);
            && |locks| == 2 && locks[0].task != locks[1].task
            && Covers(platform, locks[0].scope, platform.resolve(below))
            && Covers(platform, locks[1].scope, platform.resolve(below))
  {
    StringOverlapIff(platform.resolve(below), platform.resolve(root));
    TwoGranted(platform, root, below);
    assert "a"[0] != "b"[0];
    assert Inside(platform.resolve(below), platform.resolve([root][0]));
    assert Inside(platform.resolve(below), platform.resolve([below][0]));
  }

  /** A positive `canAcquire` is never refused; for a task without a lock the two agree exactly. */
  lemma CanAcquireIff(platform: Platform, locks: seq<Lock>, task: TaskId, requested: seq<string>, token: Token)
    ensures CanAcquire(platform, locks, task, requested) ==> Acquired(platform, locks, task, requested, token).1.Some?
    ensures (forall i :: 0 <= i < |locks| ==> locks[i].task != task) ==>
      (CanAcquire(platform, locks, task, requested) <==>
       Acquired(platform, locks, task, requested, token) == (locks + [Lock(task, token, requested)], Some(token)))
  {
    ScanIff(platform, locks, task, requested);
  }

  /** A lock covers exactly the subtrees asked for: of the files named in the workspace, or of all of it if none is. */
  lemma GrantCovers(platform: Platform, locks: seq<Lock>, task: TaskId, workspace: string, fileScope: seq<string>, token: Token, x: Path)
    requires forall i :: 0 <= i < |locks| ==>
               locks[i].task != task && !Overlaps(platform, Requested(platform, workspace, fileScope), locks[i].scope)
    ensures var (after, r) := Acquired(platform, locks, task, Requested(platform, workspace, fileScope), token);
            && r == Some(token) && |after| == |locks| + 1 && after[..|locks|] == locks
            && after[|locks|].task == task && after[|locks|].token == token
            && (Covers(platform, after[|locks|].scope, x) <==>
                  if fileScope == [] then Inside(x, platform.resolve(workspace))
                  else exists i :: 0 <= i < |fileScope| && Inside(x, platform.resolve(platform.join(workspace, fileScope[i]))))
  {
    var requested := Requested(platform, workspace, fileScope);
    ScanIff(platform, locks, task, requested);
    if fileScope == [] {
      assert requested == [workspace];
      if Inside(x, platform.resolve(workspace)) {
        assert Inside(x, platform.resolve(requested[0]));
      }
    } else {
      if i :| 0 <= i < |fileScope| && Inside(x, platform.resolve(platform.join(workspace, fileScope[i]))) {
        assert Inside(x, platform.resolve(requested[i]));
      }
      if i :| 0 <= i < |requested| && Inside(x, platform.resolve(requested[i])) {
        assert Inside(x, platform.resolve(platform.join(workspace, fileScope[i])));
      }
    }
  }

  // ---------------------------------------------------------------- asking again

  /** `k` is the first row of the task. */
  ghost predicate FirstRow(locks: seq<Lock>, task: TaskId, k: nat) {
    k < |locks| && locks[k].task == task && forall i :: 0 <= i < k ==> locks[i].task != task
  }

  ghost predicate OverlapsBefore(platform: Platform, locks: seq<Lock>, requested: seq<string>, k: nat)
    requires k <= |locks|
  {
    exists i :: 0 <= i < k && Overlaps(platform, requested, locks[i].scope)
  }

  ghost predicate OverlapsAfter(platform: Platform, locks: seq<Lock>, requested: seq<string>, k: nat)
    requires k < |locks|
  {
    exists i :: k < i < |locks| && locks[i].task != locks[k].task && Overlaps(platform, requested, locks[i].scope)
  }

  lemma {:induction false} ScanOfHolder(platform: Platform, locks: seq<Lock>, task: TaskId, requested: seq<string>, k: nat)
    requires FirstRow(locks, task, k)
    ensures Scan(platform, locks, task, requested) ==
            if OverlapsBefore(platform, locks, requested, k) then Refused else Own(locks[k].token)
  {
    if k > 0 {
      assert forall i :: 0 <= i < |locks| - 1 ==> locks[1..][i] == locks[i + 1];
      ScanOfHolder(platform, locks[1..], task, requested, k - 1);
      if OverlapsBefore(platform, locks, requested, k) && !Overlaps(platform, requested, locks[0].scope) {
        var i :| 0 <= i < k && Overlaps(platform, requested, locks[i].scope);
        assert Overlaps(platform, requested, locks[1..][i - 1].scope);
      }
    }
  }

  /**
   * A holder that asks again is handed its old token exactly when no row before its own overlaps what it
   * asks for, and refused otherwise; the table stays. `canAcquire` denies what a holder is granted exactly
   * when only rows of others behind its own overlap the request.
   */
  lemma ReacquireIff(platform: Platform, locks: seq<Lock>, task: TaskId, requested: seq<string>, token: Token, k: nat)
    requires FirstRow(locks, task, k)
    ensures var (after, r) := Acquired(platform, locks, task, requested, token);
            && after == locks
            && r == (if OverlapsBefore(platform, locks, requested, k) then None else Some(locks[k].token))
            && (r.Some? && !CanAcquire(platform, locks, task, requested) <==>
                  !OverlapsBefore(platform, locks, requested, k) && OverlapsAfter(platform, locks, requested, k))
  {
    ScanOfHolder(platform, locks, task, requested, k);
    if !CanAcquire(platform, locks, task, requested) && !OverlapsBefore(platform, locks, requested, k) {
      var i :| 0 <= i < |locks| && locks[i].task != task && Overlaps(platform, requested, locks[i].scope);
      assert i > k;
    }
  }

  lemma OverlapsSymmetric(platform: Platform, a: seq<string>, b: seq<string>)
    ensures Overlaps(platform, a, b) ==> Overlaps(platform, b, a)
  {
    if Overlaps(platform, a, b) {
      var i, j :| 0 <= i < |a| && 0 <= j < |b| &&
        StringOverlap(Render(platform.resolve(a[i])), Render(platform.resolve(b[j])));
      assert StringOverlap(Render(platform.resolve(b[j])), Render(platform.resolve(a[i])));
    }
  }

  /** In every reachable state a holder that asks for the very paths it holds is granted them, and both answers agree. */
  lemma OwnScopeAgain(platform: Platform, ops: seq<Operation>, k: nat, token: Token)
    requires k < |Reached(platform, ops)|
    ensures var locks := Reached(platform, ops);
            && Acquired(platform, locks, locks[k].task, locks[k].scope, token) == (locks, Some(locks[k].token))
            && CanAcquire(platform, locks, locks[k].task, locks[k].scope)
  {
    var locks := Reached(platform, ops);
    AlwaysExclusive(platform, ops);
    forall i | 0 <= i < |locks| && i != k
      ensures locks[i].task != locks[k].task && !Overlaps(platform, locks[k].scope, locks[i].scope)
    {
      OverlapsSymmetric(platform, locks[k].scope, locks[i].scope);
    }
    ReacquireIff(platform, locks, locks[k].task, locks[k].scope, token, k);
  }

  /**
   * So a holder's success does not mean that the requested paths are covered: here it is handed its old
   * token for paths that another task, whose row lies behind its own, has locked.
   */
  lemma ReacquireMayCoverNothing(platform: Platform, mine: string, theirs: string)
    requires !Overlaps(platform, [theirs], [mine])
    ensures var before := Reached(platform, [Acquire("a", mine, [], "t1"), Acquire("b", theirs, [], "t2")]);
            && Acquired(platform, before, "a", [theirs], "t3") == (before, Some("t1"))
            && !CanAcquire(platform, before, "a", [theirs])
    ensures var before := Reached(platform, [Acquire("a", mine, [], "t1"), Acquire("b", theirs, [], "t2")]);
            Acquired(platform, before, "b", [mine], "t3") == (before, None)
  {
    TwoGranted(platform, mine, theirs);
    var before := [Lock("a", "t1", [mine]), Lock("b", "t2", [theirs])];
    assert "a"[0] != "b"[0];
    assert StringOverlap(Render(platform.resolve([theirs][0])), Render(platform.resolve([theirs][0])));
    assert before[1].task != "a" && Overlaps(platform, [theirs], before[1].scope);
    assert StringOverlap(Render(platform.resolve([mine][0])), Render(platform.resolve([mine][0])));
    assert before[0].task != "b" && Overlaps(platform, [mine], before[0].scope);
    ReacquireIff(platform, before, "a", [theirs], "t3", 0);
    ReacquireIff(platform, before, "b", [mine], "t3", 1);
  }
}
