/**
 Contacts that share an identity, gathered by union-find with path halving. Contacts are
 numbered from the oldest; a link always points to an older contact.
 */
module UnionFind {
  // ----- Chains of shared identities -----

  ghost predicate Share<T(!new)>(ids: seq<seq<T>>, i: nat, j: nat) {
    i < |ids| && j < |ids| && exists s :: s in ids[i] && s in ids[j]
  }

  /** Consecutive contacts of the path share an identity. */
  ghost predicate IsPath<T(!new)>(ids: seq<seq<T>>, p: seq<nat>) {
    && p != [] && (forall k | 0 <= k < |p| :: p[k] < |ids|)
    && forall k | 0 <= k < |p| - 1 :: Share(ids, p[k], p[k + 1])
  }

  ghost predicate PathBetween<T(!new)>(ids: seq<seq<T>>, i: nat, j: nat, p: seq<nat>) {
    IsPath(ids, p) && p[0] == i && p[|p| - 1] == j
  }

  /** i and j are one subscriber: a chain of shared identities connects them. */
  ghost predicate Linked<T(!new)>(ids: seq<seq<T>>, i: nat, j: nat) {
    exists p :: PathBetween(ids, i, j, p)
  }

  lemma LinkedSelf<T(!new)>(ids: seq<seq<T>>, i: nat)
    requires i < |ids|
    ensures Linked(ids, i, i)
  {
    assert PathBetween(ids, i, i, [i]);
  }

  lemma LinkedByShare<T(!new)>(ids: seq<seq<T>>, i: nat, j: nat)
    requires Share(ids, i, j)
    ensures Linked(ids, i, j)
  {
    assert PathBetween(ids, i, j, [i, j]);
  }

  lemma LinkedTransitive<T(!new)>(ids: seq<seq<T>>, i: nat, j: nat, k: nat)
    requires Linked(ids, i, j) && Linked(ids, j, k)
    ensures Linked(ids, i, k)
  {
    var p :| PathBetween(ids, i, j, p);
    var q :| PathBetween(ids, j, k, q);
    var r := p + q[1..];
    forall m | 0 <= m < |r| - 1 ensures Share(ids, r[m], r[m + 1]) {
      if m < |p| - 1 {
        assert Share(ids, p[m], p[m + 1]);
      } else {
        assert Share(ids, q[m - |p| + 1], q[m - |p| + 2]);
      }
    }
    assert PathBetween(ids, i, k, r);
  }

  lemma {:induction false} PathReversed<T(!new)>(ids: seq<seq<T>>, p: seq<nat>)
    requires IsPath(ids, p)
    ensures Linked(ids, p[|p| - 1], p[0])
  {
    if |p| == 1 {
      LinkedSelf(ids, p[0]);
    } else {
      assert IsPath(ids, p[1..]) by {
        forall k | 0 <= k < |p| - 2 ensures Share(ids, p[1..][k], p[1..][k + 1]) {
          assert Share(ids, p[k + 1], p[k + 2]);
        }
      }
      PathReversed(ids, p[1..]);
      assert Share(ids, p[0], p[0 + 1]);
      assert Share(ids, p[1], p[0]);
      LinkedByShare(ids, p[1], p[0]);
      LinkedTransitive(ids, p[|p| - 1], p[1], p[0]);
    }
  }

  lemma LinkedSymmetric<T(!new)>(ids: seq<seq<T>>, i: nat, j: nat)
    requires Linked(ids, i, j)
    ensures Linked(ids, j, i)
  {
    var p :| PathBetween(ids, i, j, p);
    PathReversed(ids, p);
  }

  // ----- Forests -----

  ghost predicate Forest(parent: seq<nat>) {
    forall i | 0 <= i < |parent| :: parent[i] <= i
  }

  ghost function Root(parent: seq<nat>, i: nat): (r: nat)
    requires Forest(parent) && i < |parent|
    ensures r <= i && parent[r] == r
  {
    if parent[i] == i then i else Root(parent, parent[i])
  }

  ghost predicate SameRoots(p: seq<nat>, q: seq<nat>) {
    && Forest(p) && Forest(q) && |p| == |q|
    && forall i | 0 <= i < |p| :: Root(p, i) == Root(q, i)
  }

  lemma {:induction false} HalvingKeepsRoot(p: seq<nat>, i: nat, k: nat)
    requires Forest(p) && i < |p| && k < |p|
    ensures Forest(p[i := p[p[i]]]) && Root(p[i := p[p[i]]], k) == Root(p, k)
    decreases k
  {
    var q := p[i := p[p[i]]];
    assert p[p[i]] <= p[i] <= i;
    if q[k] != k {
      HalvingKeepsRoot(p, i, q[k]);
    }
  }

  /** Hanging one root under an older one moves its whole tree, and nothing else. */
  lemma {:induction false} UnionMovesTree(p: seq<nat>, older: nat, younger: nat, k: nat)
    requires Forest(p) && older < younger < |p| && k < |p|
    requires p[older] == older && p[younger] == younger
    ensures Forest(p[younger := older])
    ensures Root(p[younger := older], k) == if Root(p, k) == younger then older else Root(p, k)
    decreases k
  {
    if k != younger && p[k] != k {
      UnionMovesTree(p, older, younger, p[k]);
    }
  }

  method Find(parent: array<nat>, start: nat) returns (r: nat)
    requires Forest(parent[..]) && start < parent.Length
    modifies parent
    ensures SameRoots(parent[..], old(parent[..]))
    ensures r == Root(parent[..], start)
  {
    var i: nat := start;
    while parent[i] != i
      invariant i < parent.Length
      invariant SameRoots(parent[..], old(parent[..]))
      invariant Root(parent[..], i) == Root(old(parent[..]), start)
      decreases i
    {
      ghost var before := parent[..];
      parent[i] := parent[parent[i]];
      assert parent[..] == before[i := before[before[i]]];
      forall k | 0 <= k < |before| ensures Root(parent[..], k) == Root(before, k) {
        HalvingKeepsRoot(before, i, k);
      }
      i := parent[i];
    }
    r := i;
  }

  // ----- The owner loop -----

  /** Everything the forest joins is linked. */
  ghost predicate Sound<T(!new)>(ids: seq<seq<T>>, parent: seq<nat>) {
    && Forest(parent) && |parent| == |ids|
    && forall i | 0 <= i < |ids| :: Linked(ids, i, Root(parent, i))
  }

  ghost predicate OwnersHold<T(!new)>(ids: seq<seq<T>>, owner: map<T, nat>) {
    forall s | s in owner :: owner[s] < |ids| && s in ids[owner[s]]
  }

  /** The first k identities of contact i have been joined to their owners. */
  ghost predicate JoinedTo<T(!new)>(ids: seq<seq<T>>, parent: seq<nat>, owner: map<T, nat>, i: nat, k: nat)
    requires Forest(parent) && |parent| == |ids| && OwnersHold(ids, owner)
  {
    i < |ids| && k <= |ids[i]|
    && forall m | 0 <= m < k :: ids[i][m] in owner && Root(parent, i) == Root(parent, owner[ids[i][m]])
  }

  lemma JoinedStays<T(!new)>(ids: seq<seq<T>>, p: seq<nat>, q: seq<nat>, owner: map<T, nat>, owner': map<T, nat>, i: nat, k: nat)
    requires Forest(p) && Forest(q) && |p| == |q| == |ids|
    requires OwnersHold(ids, owner) && OwnersHold(ids, owner')
    requires forall s | s in owner :: s in owner' && owner'[s] == owner[s]
    requires forall a, b | 0 <= a < |p| && 0 <= b < |p| && Root(p, a) == Root(p, b) :: Root(q, a) == Root(q, b)
    requires JoinedTo(ids, p, owner, i, k)
    ensures JoinedTo(ids, q, owner', i, k)
  {}

  lemma RootsAreLinked<T(!new)>(ids: seq<seq<T>>, p: seq<nat>, i: nat, j: nat)
    requires Sound(ids, p) && Linked(ids, i, j) && i < |ids| && j < |ids|
    ensures Linked(ids, Root(p, i), Root(p, j)) && Linked(ids, Root(p, j), Root(p, i))
  {
    hide Linked, Root;
    var ri, rj := Root(p, i), Root(p, j);
    LinkedSymmetric(ids, i, ri);
    LinkedTransitive(ids, ri, i, j);
    LinkedTransitive(ids, ri, j, rj);
    LinkedSymmetric(ids, ri, rj);
  }

  method Join<T(!new)>(ghost ids: seq<seq<T>>, parent: array<nat>, i: nat, j: nat)
    requires Sound(ids, parent[..]) && Linked(ids, i, j) && i < |ids| && j < |ids|
    modifies parent
    ensures Sound(ids, parent[..])
    ensures Root(parent[..], i) == Root(parent[..], j)
    ensures forall a, b | 0 <= a < |ids| && 0 <= b < |ids| && Root(old(parent[..]), a) == Root(old(parent[..]), b) ::
      Root(parent[..], a) == Root(parent[..], b)
  {
    hide Linked, Root;
    var ri := Find(parent, i);
    var rj := Find(parent, j);
    ghost var p := parent[..];
    if ri != rj {
      RootsAreLinked(ids, p, i, j);
      if ri < rj {
        parent[rj] := ri;
        Rehang(ids, p, ri, rj);
      } else {
        parent[ri] := rj;
        Rehang(ids, p, rj, ri);
      }
    }
  }

  lemma Rehang<T(!new)>(ids: seq<seq<T>>, p: seq<nat>, older: nat, younger: nat)
    requires Sound(ids, p) && older < younger < |p| && p[older] == older && p[younger] == younger
    requires Linked(ids, younger, older)
    ensures
      var q := p[younger := older];
      && Sound(ids, q) && Root(q, older) == Root(q, younger)
      && forall k | 0 <= k < |p| :: Root(q, k) == if Root(p, k) == younger then older else Root(p, k)
  {
    var q := p[younger := older];
    forall k | 0 <= k < |p|
      ensures Root(q, k) == (if Root(p, k) == younger then older else Root(p, k)) && Linked(ids, k, Root(q, k))
    {
      UnionMovesTree(p, older, younger, k);
      if Root(p, k) == younger {
        LinkedTransitive(ids, k, younger, older);
      }
    }
  }

  ghost predicate JoinedUpTo<T(!new)>(ids: seq<seq<T>>, parent: seq<nat>, owner: map<T, nat>, i: nat, k: nat)
    requires Forest(parent) && |parent| == |ids| && OwnersHold(ids, owner)
  {
    && i <= |ids| && (forall x | 0 <= x < i :: JoinedTo(ids, parent, owner, x, |ids[x]|))
    && (i < |ids| ==> JoinedTo(ids, parent, owner, i, k))
  }

  /** One identity of contact i: joined to the contact that has it already, or recorded. */
  method AddIdentity<T(!new,==)>(ids: seq<seq<T>>, parent: array<nat>, owner: map<T, nat>, i: nat, k: nat)
    returns (owner': map<T, nat>)
    requires i < |ids| && k < |ids[i]|
    requires Sound(ids, parent[..]) && OwnersHold(ids, owner) && JoinedUpTo(ids, parent[..], owner, i, k)
    modifies parent
    ensures Sound(ids, parent[..]) && OwnersHold(ids, owner') && JoinedUpTo(ids, parent[..], owner', i, k + 1)
  {
    hide Linked, Root;
    var id := ids[i][k];
    ghost var p := parent[..];
    owner' := owner;
    if id in owner {
      assert Share(ids, i, owner[id]);
      LinkedByShare(ids, i, owner[id]);
      Join(ids, parent, i, owner[id]);
    } else {
      owner' := owner[id := i];
    }
    forall x | 0 <= x < i ensures JoinedTo(ids, parent[..], owner', x, |ids[x]|) {
      JoinedStays(ids, p, parent[..], owner, owner', x, |ids[x]|);
    }
    JoinedStays(ids, p, parent[..], owner, owner', i, k);
  }

  method Unite<T(!new,==)>(ids: seq<seq<T>>) returns (parent: array<nat>)
    ensures fresh(parent) && Forest(parent[..]) && parent.Length == |ids|
    ensures forall i, j | 0 <= i < |ids| && 0 <= j < |ids| ::
      Root(parent[..], i) == Root(parent[..], j) <==> Linked(ids, i, j)
  {
    parent := new nat[|ids|](i => i);
    var owner: map<T, nat> := map[];
    forall i | 0 <= i < |ids| ensures Linked(ids, i, i) {
      LinkedSelf(ids, i);
    }
    for i := 0 to |ids|
      invariant fresh(parent) && Sound(ids, parent[..]) && OwnersHold(ids, owner)
      invariant JoinedUpTo(ids, parent[..], owner, i, 0)
    {
      for k := 0 to |ids[i]|
        invariant fresh(parent) && Sound(ids, parent[..]) && OwnersHold(ids, owner)
        invariant JoinedUpTo(ids, parent[..], owner, i, k)
      {
        owner := AddIdentity(ids, parent, owner, i, k);
      }
    }
    RootsAreClasses(ids, parent[..], owner);
  }

  lemma RootsAreClasses<T(!new)>(ids: seq<seq<T>>, parent: seq<nat>, owner: map<T, nat>)
    requires Sound(ids, parent) && OwnersHold(ids, owner)
    requires forall x | 0 <= x < |ids| :: JoinedTo(ids, parent, owner, x, |ids[x]|)
    ensures forall i, j | 0 <= i < |ids| && 0 <= j < |ids| :: Root(parent, i) == Root(parent, j) <==> Linked(ids, i, j)
  {
    forall i, j | 0 <= i < |ids| && 0 <= j < |ids|
      ensures Root(parent, i) == Root(parent, j) <==> Linked(ids, i, j)
    {
      if Root(parent, i) == Root(parent, j) {
        LinkedSymmetric(ids, j, Root(parent, j));
        LinkedTransitive(ids, i, Root(parent, i), j);
      }
      if Linked(ids, i, j) {
        var p :| PathBetween(ids, i, j, p);
        PathKeepsRoot(ids, parent, owner, p);
      }
    }
  }

  lemma {:induction false} PathKeepsRoot<T(!new)>(ids: seq<seq<T>>, parent: seq<nat>, owner: map<T, nat>, p: seq<nat>)
    requires Forest(parent) && |parent| == |ids| && OwnersHold(ids, owner)
    requires forall x | 0 <= x < |ids| :: JoinedTo(ids, parent, owner, x, |ids[x]|)
    requires IsPath(ids, p)
    ensures p[0] < |ids| && p[|p| - 1] < |ids| && Root(parent, p[0]) == Root(parent, p[|p| - 1])
  {
    if |p| > 1 {
      var q := p[..|p| - 1];
      assert IsPath(ids, q) by {
        forall k | 0 <= k < |q| - 1 ensures Share(ids, q[k], q[k + 1]) {
          assert Share(ids, p[k], p[k + 1]);
        }
      }
      PathKeepsRoot(ids, parent, owner, q);
      var k := |p| - 2;
      assert Share(ids, p[k], p[k + 1]);
      var s :| s in ids[p[k]] && s in ids[p[k + 1]];
      JoinedThrough(ids, parent, owner, p[k], s);
      JoinedThrough(ids, parent, owner, p[k + 1], s);
    }
  }

  lemma JoinedThrough<T(!new)>(ids: seq<seq<T>>, parent: seq<nat>, owner: map<T, nat>, x: nat, s: T)
    requires Forest(parent) && |parent| == |ids| && OwnersHold(ids, owner)
    requires x < |ids| && JoinedTo(ids, parent, owner, x, |ids[x]|) && s in ids[x]
    ensures s in owner && Root(parent, x) == Root(parent, owner[s])
  {
    var m :| 0 <= m < |ids[x]| && ids[x][m] == s;
  }
}
