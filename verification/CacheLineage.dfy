/**
 Cache entries and the resolution of a lineage: revisions that link to their parents by hash
 have a head exactly when they form one chain.
 */
module CacheLineage {
  import opened Prelude

  datatype Namespace = ProviderRequest | VerifiedArtifact | NegativeOutcome

  datatype State = Pending | Unverified | Verified | Negative | Quarantined

  datatype Producer = Runtime | ProviderProducer | VerificationAuthority

  datatype Payload = Payload(sealed: bool, resultKind: string, content: string, resultHash: string)

  datatype Reason = Reason(code: string, transient: bool)

  datatype Stage = Stage(stageId: string, commandId: string, exitCode: nat, evidenceHash: string)

  datatype Evidence = Evidence(
    requiredStages: seq<string>, completedStages: seq<string>, stages: seq<Stage>,
    authorityId: string, authorityVersion: string, profileHash: string)

  /** The compatibility metadata of an entry: everything its cache key is derived from but the namespace. */
  datatype Metadata = Metadata(
    taskId: string, sensitive: bool, hmacProtected: bool, configHash: string, profileHash: string, otherFields: string)

  /** Key derivation hashes namespace and metadata; an injective hash is modelled by the pair itself. */
  datatype CacheKey = CacheKey(namespace: Namespace, metadata: Metadata)

  datatype Provenance = Provenance(
    lineageId: string, producer: Producer, sourceKey: Option<CacheKey>, sourceHash: Option<string>,
    writeEventId: string)

  /** An entry without its own hash. */
  datatype Body = Body(
    parentHash: Option<string>, key: CacheKey, namespace: Namespace, state: State, metadata: Metadata,
    provenance: Provenance, createdAt: int, expiresAt: int, persistenceApproved: bool,
    payload: Option<Payload>, evidence: Option<Evidence>, reason: Option<Reason>)

  datatype Entry = Entry(hash: string, body: Body)

  // ---- Transitions and links ----

  predicate AllowedTransition(from: Option<State>, to: State) {
    match from
    case None => to == Pending
    case Some(Pending) => to == Unverified || to == Negative || to == Quarantined
    case Some(Unverified) => to == Verified || to == Negative || to == Quarantined
    case Some(Verified) => to == Quarantined
    case Some(Negative) => to == Quarantined
    case Some(Quarantined) => false
  }

  predicate ChildOf(parent: Entry, child: Entry) {
    && child.body.parentHash == Some(parent.hash)
    && child.body.key == parent.body.key
    && child.body.namespace == parent.body.namespace
    && child.body.provenance.lineageId == parent.body.provenance.lineageId
    && child.body.provenance.sourceKey == Some(parent.body.key)
    && child.body.provenance.sourceHash == Some(parent.hash)
  }

  predicate ValidChild(parent: Entry, child: Entry) {
    ChildOf(parent, child) && AllowedTransition(Some(parent.body.state), child.body.state)
  }

  function RootState(namespace: Namespace): State {
    match namespace
    case ProviderRequest => Pending
    case VerifiedArtifact => Verified
    case NegativeOutcome => Negative
  }

  // ---- Chains ----

  function Hashes(revisions: seq<Entry>): set<string> {
    set i | 0 <= i < |revisions| :: revisions[i].hash
  }

  predicate DistinctHashes(revisions: seq<Entry>) {
    forall i, j | 0 <= i < j < |revisions| :: revisions[i].hash != revisions[j].hash
  }

  /** Whether an entry's parent lies outside the revisions. */
  predicate IsRoot(entry: Entry, hashes: set<string>) {
    entry.body.parentHash.None? || entry.body.parentHash.value !in hashes
  }

  predicate IsChain(chain: seq<Entry>, namespace: Namespace) {
    && chain != []
    && DistinctHashes(chain)
    && IsRoot(chain[0], Hashes(chain))
    && chain[0].body.state == RootState(namespace)
    && forall i | 0 < i < |chain| :: ValidChild(chain[i - 1], chain[i])
  }

  ghost predicate Arranges(chain: seq<Entry>, revisions: seq<Entry>, namespace: Namespace) {
    multiset(chain) == multiset(revisions) && IsChain(chain, namespace)
  }

  /** The head of revisions that can be arranged as one chain. */
  ghost function HeadOf(revisions: seq<Entry>, namespace: Namespace): Option<Entry> {
    if chain :| Arranges(chain, revisions, namespace) then Some(chain[|chain| - 1]) else None
  }

  lemma SameElements(a: seq<Entry>, b: seq<Entry>)
    requires multiset(a) == multiset(b)
    ensures |a| == |b| && Hashes(a) == Hashes(b)
    ensures forall e :: e in a <==> e in b
    ensures DistinctHashes(a) <==> DistinctHashes(b)
  {
    assert |multiset(a)| == |a| && |multiset(b)| == |b|;
    forall e
      ensures e in a <==> e in b
    {
      assert e in a <==> e in multiset(a);
      assert e in b <==> e in multiset(b);
    }
    forall h
      ensures h in Hashes(a) <==> h in Hashes(b)
    {
      if h in Hashes(a) {
        var i :| 0 <= i < |a| && a[i].hash == h;
        assert a[i] in b;
      }
      if h in Hashes(b) {
        var i :| 0 <= i < |b| && b[i].hash == h;
        assert b[i] in a;
      }
    }
    if DistinctHashes(a) { DistinctTransfers(a, b); }
    if DistinctHashes(b) { DistinctTransfers(b, a); }
  }

  lemma TwiceIn(es: seq<Entry>, i: nat, j: nat)
    requires i < j < |es| && es[i] == es[j]
    ensures multiset(es)[es[i]] >= 2
  {
    assert es == es[..i] + [es[i]] + es[i + 1..j] + [es[j]] + es[j + 1..];
  }

  lemma OnceIn(es: seq<Entry>, k: nat)
    requires k < |es| && DistinctHashes(es)
    ensures multiset(es)[es[k]] == 1
  {
    assert es == es[..k] + [es[k]] + es[k + 1..];
    assert es[k] !in es[..k] && es[k] !in es[k + 1..];
  }

  lemma DistinctTransfers(a: seq<Entry>, b: seq<Entry>)
    requires multiset(a) == multiset(b) && DistinctHashes(a)
    ensures DistinctHashes(b)
  {
    forall i, j | 0 <= i < j < |b|
      ensures b[i].hash != b[j].hash
    {
      assert b[i] in multiset(b) && b[j] in multiset(b);
      var k :| 0 <= k < |a| && a[k] == b[i];
      var l :| 0 <= l < |a| && a[l] == b[j];
      OnceIn(a, k);
      if b[i] == b[j] {
        TwiceIn(b, i, j);
      }
    }
  }

  /** Revisions can be arranged as a chain in only one way. */
  lemma ChainUnique(a: seq<Entry>, b: seq<Entry>, revisions: seq<Entry>, namespace: Namespace)
    requires Arranges(a, revisions, namespace) && Arranges(b, revisions, namespace)
    ensures a == b
  {
    SameElements(a, b);
    var i := 0;
    while i < |a|
      invariant 0 <= i <= |a| && a[..i] == b[..i]
    {
      assert b[i] in a;
      var k :| 0 <= k < |a| && a[k] == b[i];
      if i > 0 {
        assert b[i - 1] == b[..i][i - 1] == a[..i][i - 1] == a[i - 1];
        assert ValidChild(b[i - 1], b[i]);
        assert a[i - 1].hash in Hashes(a);
      }
      if k > 0 {
        assert ValidChild(a[k - 1], a[k]);
        assert a[k - 1].hash in Hashes(a);
      }
      i := i + 1;
    }
    assert a[..i] == a && b[..i] == b;
  }

  /** The order in which the storage lists the revisions does not matter. */
  lemma HeadIgnoresOrder(a: seq<Entry>, b: seq<Entry>, namespace: Namespace)
    requires multiset(a) == multiset(b)
    ensures HeadOf(a, namespace) == HeadOf(b, namespace)
  {
    forall c, d | Arranges(c, a, namespace) && Arranges(d, b, namespace)
      ensures c == d
    {
      ChainUnique(c, d, a, namespace);
    }
    assert forall c :: Arranges(c, a, namespace) <==> Arranges(c, b, namespace);
  }

  lemma HeadIsLast(chain: seq<Entry>, revisions: seq<Entry>, namespace: Namespace)
    requires Arranges(chain, revisions, namespace)
    ensures HeadOf(revisions, namespace) == Some(chain[|chain| - 1])
  {
    forall other | Arranges(other, revisions, namespace)
      ensures other == chain
    {
      ChainUnique(other, chain, revisions, namespace);
    }
  }

  // ---- Selections ----

  function Select(es: seq<Entry>, p: Entry -> bool): seq<Entry> {
    if es == [] then []
    else Select(es[..|es| - 1], p) + if p(es[|es| - 1]) then [es[|es| - 1]] else []
  }

  lemma SelectAppend(es: seq<Entry>, e: Entry, p: Entry -> bool)
    ensures Select(es + [e], p) == Select(es, p) + if p(e) then [e] else []
  {
    assert (es + [e])[..|es|] == es;
  }

  lemma {:induction false} SelectIsFilter(es: seq<Entry>, p: Entry -> bool)
    ensures forall e :: e in Select(es, p) <==> e in es && p(e)
    ensures DistinctHashes(es) ==> DistinctHashes(Select(es, p))
  {
    if es != [] {
      var front, last := es[..|es| - 1], es[|es| - 1];
      assert es == front + [last];
      SelectIsFilter(front, p);
      forall i | 0 <= i < |Select(front, p)|
        ensures Select(front, p)[i] in front
      {
      }
    }
  }

  lemma SelectOne(es: seq<Entry>, p: Entry -> bool, only: Entry)
    requires DistinctHashes(es) && only in es && p(only) && forall e | e in es && p(e) :: e == only
    ensures Select(es, p) == [only]
  {
    SelectIsFilter(es, p);
    var s := Select(es, p);
    assert only in s;
    assert |s| >= 2 ==> s[0].hash != s[1].hash;
    forall i | 0 <= i < |s|
      ensures s[i] == only
    {
      assert s[i] in s;
    }
  }

  function Roots(revisions: seq<Entry>): seq<Entry> {
    var hashes := Hashes(revisions);
    Select(revisions, (e: Entry) => IsRoot(e, hashes))
  }

  function ChildrenOf(revisions: seq<Entry>, hash: string): seq<Entry> {
    Select(revisions, (e: Entry) => e.body.parentHash == Some(hash))
  }

  lemma {:induction false} HashCount(es: seq<Entry>)
    ensures |Hashes(es)| <= |es| && (|Hashes(es)| == |es| <==> DistinctHashes(es))
  {
    if es != [] {
      var front, last := es[..|es| - 1], es[|es| - 1];
      HashCount(front);
      assert forall i | 0 <= i < |front| :: es[i] == front[i];
      assert Hashes(es) == Hashes(front) + {last.hash};
      if last.hash in Hashes(front) {
        assert Hashes(es) == Hashes(front);
        var i :| 0 <= i < |front| && front[i].hash == last.hash;
        assert es[i].hash == es[|front|].hash;
      }
    }
  }

  lemma SubsetSize(a: set<string>, b: set<string>)
    requires a <= b
    ensures |a| <= |b|
    ensures |a| == |b| ==> a == b
  {
    assert b == a + (b - a);
    assert |b| == |a| + |b - a|;
  }

  lemma DistinctFit(a: seq<Entry>, b: seq<Entry>)
    requires DistinctHashes(a) && forall e | e in a :: e in b
    ensures |a| <= |b|
  {
    forall h | h in Hashes(a)
      ensures h in Hashes(b)
    {
      var i :| 0 <= i < |a| && a[i].hash == h;
      assert a[i] in b;
    }
    HashCount(a);
    HashCount(b);
    SubsetSize(Hashes(a), Hashes(b));
  }

  lemma FullPathArranges(path: seq<Entry>, revisions: seq<Entry>)
    requires DistinctHashes(path) && DistinctHashes(revisions)
    requires |path| == |revisions| && forall e | e in path :: e in revisions
    ensures multiset(path) == multiset(revisions)
  {
    forall e
      ensures multiset(path)[e] <= multiset(revisions)[e]
    {
      if e in path {
        var i :| 0 <= i < |path| && path[i] == e;
        OnceIn(path, i);
        var k :| 0 <= k < |revisions| && revisions[k] == e;
        OnceIn(revisions, k);
      }
    }
    var rest := multiset(revisions) - multiset(path);
    assert multiset(revisions) == multiset(path) + rest;
    assert |rest| == 0;
  }

  // ---- What a chain looks like from outside ----

  lemma ChainHasOneRoot(chain: seq<Entry>, revisions: seq<Entry>, namespace: Namespace)
    requires Arranges(chain, revisions, namespace)
    ensures Roots(revisions) == [chain[0]]
  {
    SameElements(chain, revisions);
    var hashes := Hashes(revisions);
    forall k | 0 < k < |chain|
      ensures !IsRoot(chain[k], hashes)
    {
      assert ValidChild(chain[k - 1], chain[k]);
      assert chain[k - 1].hash in Hashes(chain);
    }
    forall e | e in revisions && IsRoot(e, hashes)
      ensures e == chain[0]
    {
      assert e in chain;
    }
    assert chain[0] in chain;
    SelectOne(revisions, (e: Entry) => IsRoot(e, hashes), chain[0]);
  }

  lemma ChainLinksAreValid(chain: seq<Entry>, revisions: seq<Entry>, namespace: Namespace, parent: Entry, child: Entry)
    requires Arranges(chain, revisions, namespace)
    requires parent in revisions && child in revisions && child.body.parentHash == Some(parent.hash)
    ensures ValidChild(parent, child)
  {
    SameElements(chain, revisions);
    var k :| 0 <= k < |chain| && chain[k] == child;
    var l :| 0 <= l < |chain| && chain[l] == parent;
    assert parent.hash in Hashes(chain);
    assert k > 0 && ValidChild(chain[k - 1], chain[k]);
  }

  lemma ChainHasOneChildEach(chain: seq<Entry>, revisions: seq<Entry>, namespace: Namespace, i: nat)
    requires Arranges(chain, revisions, namespace) && i < |chain|
    ensures ChildrenOf(revisions, chain[i].hash) == if i + 1 < |chain| then [chain[i + 1]] else []
  {
    SameElements(chain, revisions);
    var isChild := (e: Entry) => e.body.parentHash == Some(chain[i].hash);
    var s := Select(revisions, isChild);
    assert |s| > 0 ==> s[0] in s;
    forall e | e in revisions && isChild(e)
      ensures i + 1 < |chain| && e == chain[i + 1]
    {
      var k :| 0 <= k < |chain| && chain[k] == e;
      assert chain[i].hash in Hashes(chain);
      assert k > 0 && ValidChild(chain[k - 1], chain[k]);
    }
    SelectIsFilter(revisions, isChild);
    if i + 1 < |chain| {
      assert ValidChild(chain[i], chain[i + 1]) && chain[i + 1] in chain;
      SelectOne(revisions, isChild, chain[i + 1]);
    } else {
    }
  }

  // ---- The walk ----

  /** A walk from the root that took the only child each time. */
  ghost predicate IsWalk(path: seq<Entry>, revisions: seq<Entry>, namespace: Namespace) {
    && path != [] && DistinctHashes(path)
    && (forall e | e in path :: e in revisions)
    && Roots(revisions) == [path[0]] && path[0].body.state == RootState(namespace)
    && (forall i | 0 < i < |path| :: ValidChild(path[i - 1], path[i])
                                     && ChildrenOf(revisions, path[i - 1].hash) == [path[i]])
  }

  /** Such a walk follows the chain, when there is one. */
  lemma WalkFollowsChain(
      path: seq<Entry>, chain: seq<Entry>, revisions: seq<Entry>, namespace: Namespace)
    requires IsWalk(path, revisions, namespace) && Arranges(chain, revisions, namespace)
    ensures path <= chain
  {
    ChainHasOneRoot(chain, revisions, namespace);
    var i := 1;
    while i < |path|
      invariant 1 <= i <= |path| && i <= |chain| && path[..i] == chain[..i]
    {
      assert path[i - 1] == path[..i][i - 1] == chain[i - 1];
      ChainHasOneChildEach(chain, revisions, namespace, i - 1);
      assert ChildrenOf(revisions, path[i - 1].hash) == [path[i]];
      assert path[..i + 1] == path[..i] + [path[i]] && chain[..i + 1] == chain[..i] + [chain[i]];
      i := i + 1;
    }
    assert path[..i] == path;
  }

  /** A further child is new: a chain of single parents cannot return to an entry it has passed. */
  lemma WalkNeverReturns(path: seq<Entry>, child: Entry, revisions: seq<Entry>, namespace: Namespace)
    requires IsWalk(path, revisions, namespace)
    requires child in revisions && child.body.parentHash == Some(path[|path| - 1].hash)
    ensures DistinctHashes(path + [child]) || !DistinctHashes(revisions)
  {
    if DistinctHashes(revisions) {
      var hashes := Hashes(revisions);
      SelectIsFilter(revisions, (e: Entry) => IsRoot(e, hashes));
      assert path[0] in Roots(revisions) && path[|path| - 1] in path;
      assert path[|path| - 1].hash in hashes;
      forall k | 0 <= k < |path|
        ensures path[k].hash != child.hash
      {
        assert path[k] in path;
        if k == 0 {
          assert IsRoot(path[0], hashes) && !IsRoot(child, hashes);
        } else {
          assert ValidChild(path[k - 1], path[k]);
          assert path[k - 1].hash != path[|path| - 1].hash;
        }
      }
    }
  }

  lemma WalkEnd(path: seq<Entry>, revisions: seq<Entry>, namespace: Namespace)
    requires IsWalk(path, revisions, namespace) && DistinctHashes(revisions)
    requires ChildrenOf(revisions, path[|path| - 1].hash) == []
    ensures HeadOf(revisions, namespace)
            == if |path| == |revisions| then Some(path[|path| - 1]) else None
  {
    if |path| == |revisions| {
      FullPathArranges(path, revisions);
      SameElements(path, revisions);
      var hashes := Hashes(revisions);
      SelectIsFilter(revisions, (e: Entry) => IsRoot(e, hashes));
      assert path[0] in Roots(revisions);
      assert Arranges(path, revisions, namespace);
      HeadIsLast(path, revisions, namespace);
    } else {
      forall chain | Arranges(chain, revisions, namespace)
        ensures false
      {
        WalkFollowsChain(path, chain, revisions, namespace);
        SameElements(chain, revisions);
        ChainHasOneChildEach(chain, revisions, namespace, |path| - 1);
        DistinctFit(path, revisions);
      }
    }
  }

  lemma WalkForks(path: seq<Entry>, revisions: seq<Entry>, namespace: Namespace)
    requires IsWalk(path, revisions, namespace) && |ChildrenOf(revisions, path[|path| - 1].hash)| > 1
    ensures HeadOf(revisions, namespace).None?
  {
    forall chain | Arranges(chain, revisions, namespace)
      ensures false
    {
      WalkFollowsChain(path, chain, revisions, namespace);
      ChainHasOneChildEach(chain, revisions, namespace, |path| - 1);
    }
  }

  // ---- Resolution ----

  method IndexByHash(revisions: seq<Entry>) returns (byHash: map<string, Entry>)
    ensures IndexedByHash(revisions, byHash)
  {
    byHash := map[];
    var n := 0;
    while n < |revisions|
      invariant 0 <= n <= |revisions|
      invariant byHash.Keys == Hashes(revisions[..n])
      invariant forall h | h in byHash :: byHash[h] in revisions && byHash[h].hash == h
    {
      assert Hashes(revisions[..n + 1]) == Hashes(revisions[..n]) + {revisions[n].hash} by {
        assert forall i | 0 <= i < n :: revisions[..n + 1][i] == revisions[..n][i];
        assert revisions[..n + 1][n] == revisions[n];
      }
      byHash := byHash[revisions[n].hash := revisions[n]];
      n := n + 1;
    }
    assert revisions[..n] == revisions;
  }

  function Listed(children: map<string, seq<Entry>>, hash: string): seq<Entry> {
    if hash in children then children[hash] else []
  }

  lemma ChildrenStep(revisions: seq<Entry>, n: nat, h: string)
    requires n < |revisions|
    ensures ChildrenOf(revisions[..n + 1], h)
            == ChildrenOf(revisions[..n], h) + if revisions[n].body.parentHash == Some(h) then [revisions[n]] else []
  {
    assert revisions[..n + 1] == revisions[..n] + [revisions[n]];
    SelectAppend(revisions[..n], revisions[n], (e: Entry) => e.body.parentHash == Some(h));
  }

  predicate IndexedByHash(revisions: seq<Entry>, byHash: map<string, Entry>) {
    byHash.Keys == Hashes(revisions) && forall h | h in byHash :: byHash[h] in revisions && byHash[h].hash == h
  }

  predicate LinkIsValid(byHash: map<string, Entry>, entry: Entry) {
    !IsRoot(entry, byHash.Keys) ==> ValidChild(byHash[entry.body.parentHash.value], entry)
  }

  /** The children map with one more revision filed under its parent. */
  function Filed(children: map<string, seq<Entry>>, entry: Entry, hashes: set<string>): map<string, seq<Entry>> {
    if IsRoot(entry, hashes) then children
    else var parent := entry.body.parentHash.value; children[parent := Listed(children, parent) + [entry]]
  }

  ghost predicate FiledUpTo(
      children: map<string, seq<Entry>>, byHash: map<string, Entry>, revisions: seq<Entry>, n: nat)
    requires n <= |revisions|
  {
    && (forall i | 0 <= i < n :: LinkIsValid(byHash, revisions[i]))
    && (forall h | h in byHash :: Listed(children, h) == ChildrenOf(revisions[..n], h))
  }

  lemma FiledStep(children: map<string, seq<Entry>>, byHash: map<string, Entry>, revisions: seq<Entry>, n: nat)
    requires n < |revisions| && FiledUpTo(children, byHash, revisions, n) && LinkIsValid(byHash, revisions[n])
    ensures FiledUpTo(Filed(children, revisions[n], byHash.Keys), byHash, revisions, n + 1)
  {
    forall h | h in byHash
      ensures Listed(Filed(children, revisions[n], byHash.Keys), h) == ChildrenOf(revisions[..n + 1], h)
    {
      ChildrenStep(revisions, n, h);
    }
  }

  /** The children of every revision; `None` when some link is not valid. */
  method IndexChildren(revisions: seq<Entry>, byHash: map<string, Entry>) returns (r: Option<map<string, seq<Entry>>>)
    requires IndexedByHash(revisions, byHash)
    ensures r.Some? <==> forall e | e in revisions :: LinkIsValid(byHash, e)
    ensures r.Some? ==> forall h | h in byHash :: Listed(r.value, h) == ChildrenOf(revisions, h)
  {
    var children: map<string, seq<Entry>> := map[];
    var n := 0;
    while n < |revisions|
      invariant 0 <= n <= |revisions| && FiledUpTo(children, byHash, revisions, n)
    {
      if !LinkIsValid(byHash, revisions[n]) {
        return None;
      }
      FiledStep(children, byHash, revisions, n);
      children := Filed(children, revisions[n], byHash.Keys);
      n := n + 1;
    }
    assert revisions[..n] == revisions;
    r := Some(children);
  }

  /** The head of the single chain that the revisions form, or nothing. */
  method ResolveUniqueHead(revisions: seq<Entry>, namespace: Namespace) returns (head: Option<Entry>)
    ensures head == HeadOf(revisions, namespace)
  {
    var byHash := IndexByHash(revisions);
    HashCount(revisions);
    if |byHash.Keys| != |revisions| {
      forall chain | Arranges(chain, revisions, namespace)
        ensures false
      {
        SameElements(chain, revisions);
      }
      return None;
    }
    var roots := Roots(revisions);
    if |roots| != 1 {
      forall chain | Arranges(chain, revisions, namespace)
        ensures false
      {
        ChainHasOneRoot(chain, revisions, namespace);
      }
      return None;
    }
    var indexed := IndexChildren(revisions, byHash);
    if indexed.None? {
      forall chain | Arranges(chain, revisions, namespace)
        ensures false
      {
        var e :| e in revisions && !LinkIsValid(byHash, e);
        ChainLinksAreValid(chain, revisions, namespace, byHash[e.body.parentHash.value], e);
      }
      return None;
    }
    var children := indexed.value;
    if roots[0].body.state != RootState(namespace) {
      forall chain | Arranges(chain, revisions, namespace)
        ensures false
      {
        ChainHasOneRoot(chain, revisions, namespace);
      }
      return None;
    }
    var hashes := Hashes(revisions);
    SelectIsFilter(revisions, (e: Entry) => IsRoot(e, hashes));
    assert roots[0] in roots;
    head := Walk(revisions, namespace, byHash, children, roots[0]);
  }

  lemma WalkGoesOn(path: seq<Entry>, revisions: seq<Entry>, namespace: Namespace, byHash: map<string, Entry>)
    requires IsWalk(path, revisions, namespace) && DistinctHashes(revisions)
    requires IndexedByHash(revisions, byHash) && forall e | e in revisions :: LinkIsValid(byHash, e)
    requires |ChildrenOf(revisions, path[|path| - 1].hash)| == 1
    ensures IsWalk(path + ChildrenOf(revisions, path[|path| - 1].hash), revisions, namespace)
  {
    var current := path[|path| - 1];
    var child := ChildrenOf(revisions, current.hash)[0];
    SelectIsFilter(revisions, (e: Entry) => e.body.parentHash == Some(current.hash));
    assert child in ChildrenOf(revisions, current.hash);
    WalkNeverReturns(path, child, revisions, namespace);
    assert current in path && current.hash in byHash;
    assert byHash[current.hash] == current;
    assert LinkIsValid(byHash, child);
    var path' := path + [child];
    assert ChildrenOf(revisions, current.hash) == [child];
    forall i | 0 < i < |path'|
      ensures ValidChild(path'[i - 1], path'[i]) && ChildrenOf(revisions, path'[i - 1].hash) == [path'[i]]
    {
      if i < |path| {
        assert path'[i - 1] == path[i - 1] && path'[i] == path[i];
      }
    }
  }

  lemma WalkCurrent(path: seq<Entry>, revisions: seq<Entry>, namespace: Namespace)
    requires IsWalk(path, revisions, namespace)
    ensures path[|path| - 1].hash in Hashes(revisions) && |path| <= |revisions|
  {
    assert path[|path| - 1] in path;
    DistinctFit(path, revisions);
  }

  method Walk(revisions: seq<Entry>, namespace: Namespace, ghost byHash: map<string, Entry>,
              children: map<string, seq<Entry>>, root: Entry)
    returns (head: Option<Entry>)
    requires DistinctHashes(revisions)
    requires IndexedByHash(revisions, byHash) && forall e | e in revisions :: LinkIsValid(byHash, e)
    requires forall h | h in byHash :: Listed(children, h) == ChildrenOf(revisions, h)
    requires Roots(revisions) == [root] && root.body.state == RootState(namespace) && root in revisions
    ensures head == HeadOf(revisions, namespace)
  {
    var current, visited := root, 1;
    ghost var path := [root];
    while true
      invariant visited == |path| && IsWalk(path, revisions, namespace) && current == path[|path| - 1]
      decreases |revisions| - |path|
    {
      WalkCurrent(path, revisions, namespace);
      var next := Listed(children, current.hash);
      if |next| == 0 {
        WalkEnd(path, revisions, namespace);
        return if visited == |revisions| then Some(current) else None;
      }
      if |next| != 1 {
        WalkForks(path, revisions, namespace);
        return None;
      }
      WalkGoesOn(path, revisions, namespace, byHash);
      path := path + next;
      WalkCurrent(path, revisions, namespace);
      current := next[0];
      visited := visited + 1;
    }
  }
}
