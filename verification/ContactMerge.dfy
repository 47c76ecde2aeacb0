/**
 Folding duplicate contacts into the oldest one of each class. Contacts are numbered in
 order of creation; a child row refers to a contact.
 */
module ContactMerge {
  import opened Basics
  import opened PhoneIdentity
  import opened UnionFind

  datatype Report = Report(groups: nat, duplicates: nat, moved: nat, skipped: seq<nat>)

  /** tag is the beginning of the contact's id; an unknown profile name is empty. */
  datatype Contact = Contact(tag: string, phone: string, profile: string, assignee: Option<nat>, deleted: bool)

  function Phones(contacts: seq<Contact>): (phones: seq<string>)
    ensures |phones| == |contacts| && forall i | 0 <= i < |phones| :: phones[i] == contacts[i].phone
  {
    seq(|contacts|, i requires 0 <= i < |contacts| => contacts[i].phone)
  }

  function AllIdentities(phones: seq<string>): (ids: seq<seq<string>>)
    ensures |ids| == |phones|
    ensures forall i | 0 <= i < |phones| :: ids[i] == PhoneIdentities(phones[i])
  {
    seq(|phones|, i requires 0 <= i < |phones| => PhoneIdentities(phones[i]))
  }

  /** The classes of a forest are those of shared phone identities. */
  ghost predicate IsClassForest(phones: seq<string>, parent: seq<nat>) {
    && Forest(parent) && |parent| == |phones|
    && forall i, j | 0 <= i < |phones| && 0 <= j < |phones| ::
         Root(parent, i) == Root(parent, j) <==> Linked(AllIdentities(phones), i, j)
  }

  // ----- Groups -----

  /** The contacts below n with root r, oldest first. */
  ghost function Members(parent: seq<nat>, r: nat, n: nat): seq<nat>
    requires Forest(parent) && n <= |parent|
  {
    if n == 0 then [] else Members(parent, r, n - 1) + if Root(parent, n - 1) == r then [n - 1] else []
  }

  ghost predicate Ascending(s: seq<nat>) {
    forall i, j | 0 <= i < j < |s| :: s[i] < s[j]
  }

  predicate AllBelow(s: seq<nat>, n: nat) {
    forall k | 0 <= k < |s| :: s[k] < n
  }

  lemma {:induction false} MembersAscend(parent: seq<nat>, r: nat, n: nat)
    requires Forest(parent) && n <= |parent|
    ensures Ascending(Members(parent, r, n)) && AllBelow(Members(parent, r, n), n)
  {
    hide Forest, Root, Ascending, AllBelow;
    if n == 0 {
      NothingAscends();
    } else {
      MembersAscend(parent, r, n - 1);
      var before := Members(parent, r, n - 1);
      NextAscends(before, n - 1);
      assert before + [] == before;
    }
  }

  lemma {:induction false} MembersExactly(parent: seq<nat>, r: nat, n: nat, x: nat)
    requires Forest(parent) && n <= |parent|
    ensures x in Members(parent, r, n) <==> x < n && Root(parent, x) == r
  {
    hide Forest, Root;
    if n > 0 {
      MembersExactly(parent, r, n - 1, x);
    }
  }

  lemma MembersAre(parent: seq<nat>, r: nat, n: nat)
    requires Forest(parent) && n <= |parent|
    ensures Ascending(Members(parent, r, n))
    ensures forall x | 0 <= x < |parent| :: x in Members(parent, r, n) <==> x < n && Root(parent, x) == r
    ensures forall x | x in Members(parent, r, n) :: x < n
    ensures AllBelow(Members(parent, r, n), n)
  {
    hide Forest, Root, Members, Ascending, AllBelow;
    MembersAscend(parent, r, n);
    forall x: nat ensures x in Members(parent, r, n) <==> x < n && Root(parent, x) == r {
      MembersExactly(parent, r, n, x);
    }
  }

  lemma NothingAscends()
    ensures Ascending([]) && AllBelow([], 0)
  {}

  lemma NextAscends(s: seq<nat>, e: nat)
    requires Ascending(s) && AllBelow(s, e)
    ensures Ascending(s + [e]) && AllBelow(s + [e], e + 1) && AllBelow(s, e + 1)
  {}

  /** A class begins with its root, which is its oldest contact. */
  lemma RootIsFirst(parent: seq<nat>, r: nat)
    requires Forest(parent) && r < |parent| && parent[r] == r
    ensures Members(parent, r, |parent|) != [] && Members(parent, r, |parent|)[0] == r
  {
    var m := Members(parent, r, |parent|);
    MembersAre(parent, r, |parent|);
    assert r in m;
    var k :| 0 <= k < |m| && m[k] == r;
    assert m[0] in m;
    assert Root(parent, m[0]) == r;
  }

  lemma {:induction false} MembersDependOnRoots(p: seq<nat>, q: seq<nat>, r: nat, n: nat)
    requires SameRoots(p, q) && n <= |p|
    ensures Members(p, r, n) == Members(q, r, n)
  {
    if n > 0 {
      MembersDependOnRoots(p, q, r, n - 1);
    }
  }

  ghost predicate AreGroups(groups: map<nat, seq<nat>>, parent: seq<nat>, n: nat)
    requires Forest(parent) && n <= |parent|
  {
    && (forall r | r in groups :: r < n && groups[r] == Members(parent, r, n) && groups[r] != [])
    && (forall r: nat | r !in groups :: Members(parent, r, n) == [])
  }

  /** The next contact joins the group of its root, whatever Find has done to the paths. */
  lemma OneMoreMember(groups: map<nat, seq<nat>>, p: seq<nat>, q: seq<nat>, i: nat, r: nat)
    requires Forest(p) && Forest(q) && SameRoots(q, p) && i < |p| && AreGroups(groups, p, i) && r == Root(q, i)
    ensures AreGroups(groups[r := (if r in groups then groups[r] else []) + [i]], q, i + 1)
  {
    assert |q| == |p|;
    hide SameRoots, Root, Members;
    forall x: nat ensures Members(q, x, i + 1) == Members(p, x, i) + if Root(q, i) == x then [i] else [] {
      MembersDependOnRoots(q, p, x, i);
      NextMember(q, x, i);
    }
  }

  lemma NextMember(parent: seq<nat>, r: nat, i: nat)
    requires Forest(parent) && i < |parent|
    ensures Members(parent, r, i + 1) == Members(parent, r, i) + if Root(parent, i) == r then [i] else []
  {
    hide Root;
  }

  method Gather(parent: array<nat>) returns (groups: map<nat, seq<nat>>)
    requires Forest(parent[..])
    modifies parent
    ensures SameRoots(parent[..], old(parent[..])) && AreGroups(groups, parent[..], parent.Length)
  {
    groups := map[];
    for i := 0 to parent.Length
      invariant SameRoots(parent[..], old(parent[..])) && AreGroups(groups, parent[..], i)
    {
      ghost var p := parent[..];
      var r := Find(parent, i);
      OneMoreMember(groups, p, parent[..], i, r);
      hide AreGroups;
      groups := groups[r := (if r in groups then groups[r] else []) + [i]];
    }
  }

  /** The groups with something to fold, in ascending order of their roots. */
  method MergeRoots(groups: map<nat, seq<nat>>, n: nat) returns (roots: seq<nat>)
    requires forall r | r in groups :: r < n
    ensures Ascending(roots)
    ensures forall r: nat :: r in roots <==> r in groups && |groups[r]| > 1
  {
    roots := [];
    for r := 0 to n
      invariant Ascending(roots)
      invariant forall x: nat :: x in roots <==> x < r && x in groups && |groups[x]| > 1
    {
      if r in groups && |groups[r]| > 1 {
        assert forall k | 0 <= k < |roots| :: roots[k] in roots;
        roots := roots + [r];
      }
    }
  }

  function ToSet(s: seq<nat>): set<nat> {
    set x | x in s
  }

  lemma ToSetSnoc(s: seq<nat>, e: nat)
    ensures ToSet(s + [e]) == ToSet(s) + {e}
  {
    forall x: nat ensures x in s + [e] <==> x in s || x == e {}
  }

  lemma PrefixIsBelow(s: seq<nat>, i: nat)
    requires Ascending(s) && i < |s|
    ensures forall x | x in ToSet(s[..i]) :: x < s[i]
    ensures ToSet(s[..i + 1]) == ToSet(s[..i]) + {s[i]}
  {
    assert forall k | 0 <= k < i :: s[..i][k] < s[i];
    assert s[..i + 1] == s[..i] + [s[i]];
    ToSetSnoc(s[..i], s[i]);
  }

  lemma AscendingSnoc(s: seq<nat>, e: nat)
    requires Ascending(s) && forall x | x in ToSet(s) :: x < e
    ensures Ascending(s + [e]) && ToSet(s + [e]) == ToSet(s) + {e}
  {
    assert forall k | 0 <= k < |s| :: s[k] in ToSet(s);
    ToSetSnoc(s, e);
  }

  // ----- Folding -----

  ghost function Differences(a: seq<nat>, b: seq<nat>): nat
    requires |a| == |b|
  {
    if a == [] then 0 else (if a[0] == b[0] then 0 else 1) + Differences(a[1..], b[1..])
  }

  lemma {:induction false} DifferencesAdd(a: seq<nat>, b: seq<nat>, c: seq<nat>)
    requires |a| == |b| == |c|
    requires forall k | 0 <= k < |a| :: a[k] == b[k] || b[k] == c[k]
    ensures Differences(a, c) == Differences(a, b) + Differences(b, c)
  {
    if a != [] {
      forall k | 0 <= k < |a| - 1 ensures a[1..][k] == b[1..][k] || b[1..][k] == c[1..][k] {
        assert a[k + 1] == b[k + 1] || b[k + 1] == c[k + 1];
      }
      DifferencesAdd(a[1..], b[1..], c[1..]);
    }
  }

  lemma {:induction false} DifferencesSnoc(a: seq<nat>, b: seq<nat>, n: nat)
    requires |a| == |b| && n < |a|
    ensures Differences(a[..n + 1], b[..n + 1]) == Differences(a[..n], b[..n]) + if a[n] == b[n] then 0 else 1
  {
    if n > 0 {
      DifferencesSnoc(a[1..], b[1..], n - 1);
      assert a[..n + 1][1..] == a[1..][..n] && b[..n + 1][1..] == b[1..][..n];
      assert a[..n][1..] == a[1..][..n - 1] && b[..n][1..] == b[1..][..n - 1];
    }
  }

  /** One transaction: every reference to a duplicate becomes one to the survivor. */
  method Repoint(children: array<nat>, keep: nat, dups: seq<nat>) returns (moved: nat)
    requires keep !in dups
    modifies children
    ensures forall k | 0 <= k < children.Length ::
      children[k] == if old(children[k]) in dups then keep else old(children[k])
    ensures moved == Differences(old(children[..]), children[..])
  {
    ghost var before := children[..];
    moved := 0;
    for k := 0 to children.Length
      invariant forall m | 0 <= m < k :: children[m] == if before[m] in dups then keep else before[m]
      invariant forall m | k <= m < children.Length :: children[m] == before[m]
      invariant moved == Differences(before[..k], children[..][..k])
    {
      ghost var row := children[..];
      if children[k] in dups {
        children[k] := keep;
        moved := moved + 1;
      }
      DifferencesSnoc(before, children[..], k);
      assert children[..][..k] == row[..k];
    }
    assert children[..][..children.Length] == children[..] && before[..children.Length] == before;
  }

  // ----- What becomes of the contacts -----

  /** The first of s that is not none, if there is one. */
  function First<T(==)>(s: seq<T>, none: T): T {
    if s == [] then none
    else
      var f := First(s[..|s| - 1], none);
      if f != none then f else s[|s| - 1]
  }

  lemma FirstOfMore<T>(s: seq<T>, none: T, k: nat)
    requires k < |s|
    ensures First(s[..k + 1], none) == if First(s[..k], none) != none then First(s[..k], none) else s[k]
  {
    assert s[..k + 1][..k] == s[..k];
  }

  lemma {:induction false} FirstIs<T>(s: seq<T>, none: T)
    ensures First(s, none) == none <==> forall k | 0 <= k < |s| :: s[k] == none
    ensures First(s, none) != none ==>
      exists k | 0 <= k < |s| :: s[k] == First(s, none) && forall j | 0 <= j < k :: s[j] == none
  {
    if s != [] {
      var n := |s| - 1;
      FirstIs(s[..n], none);
      assert s == s[..n] + [s[n]];
      assert forall j | 0 <= j < n :: s[..n][j] == s[j];
      if First(s[..n], none) != none {
        var k :| 0 <= k < n && s[..n][k] == First(s, none) && forall j | 0 <= j < k :: s[..n][j] == none;
        assert s[k] == First(s, none) && forall j | 0 <= j < k :: s[j] == s[..n][j];
      }
    }
  }

  function Profiles(all: seq<Contact>, members: seq<nat>): (names: seq<string>)
    requires AllBelow(members, |all|)
    ensures |names| == |members| && forall k | 0 <= k < |members| :: names[k] == all[members[k]].profile
  {
    seq(|members|, k requires 0 <= k < |members| => all[members[k]].profile)
  }

  function Assignees(all: seq<Contact>, members: seq<nat>): (users: seq<Option<nat>>)
    requires AllBelow(members, |all|)
    ensures |users| == |members| && forall k | 0 <= k < |members| :: users[k] == all[members[k]].assignee
  {
    seq(|members|, k requires 0 <= k < |members| => all[members[k]].assignee)
  }

  function Retired(c: Contact): Contact {
    c.(phone := c.phone + "#merged-" + c.tag, deleted := true)
  }

  /** The oldest of the members: its number in canonical form, and the first profile name and agent that are known. */
  function Survivor(all: seq<Contact>, members: seq<nat>): Contact
    requires members != [] && AllBelow(members, |all|)
  {
    var c := all[members[0]];
    c.(phone := CanonicalPhone(c.phone), profile := First(Profiles(all, members), ""), assignee := First(Assignees(all, members), None))
  }

  /** What a contact has become after the groups with these roots were folded. */
  ghost function Merged(all: seq<Contact>, parent: seq<nat>, folded: set<nat>, c: nat): Contact
    requires Forest(parent) && |parent| == |all| && c < |all|
  {
    if Root(parent, c) !in folded then all[c]
    else if Root(parent, c) != c then Retired(all[c])
    else SurvivorOf(all, parent, c)
  }

  ghost function SurvivorOf(all: seq<Contact>, parent: seq<nat>, r: nat): Contact
    requires Forest(parent) && |parent| == |all| && r < |all| && Root(parent, r) == r
  {
    RootIsFirst(parent, r);
    MembersAre(parent, r, |parent|);
    Survivor(all, Members(parent, r, |parent|))
  }

  /** The loop over the duplicates: what the survivor lacks is taken from the oldest that has it. */
  method UpdateSurvivor(all: seq<Contact>, members: seq<nat>) returns (keep: Contact)
    requires members != [] && AllBelow(members, |all|)
    ensures keep == Survivor(all, members)
  {
    FirstOfMore(Profiles(all, members), "", 0);
    FirstOfMore(Assignees(all, members), None, 0);
    hide First, CanonicalPhone;
    keep := all[members[0]];
    keep := keep.(phone := CanonicalPhone(keep.phone));
    for k := 1 to |members|
      invariant keep.tag == all[members[0]].tag && keep.phone == CanonicalPhone(all[members[0]].phone)
      invariant keep.deleted == all[members[0]].deleted
      invariant keep.profile == First(Profiles(all, members)[..k], "")
      invariant keep.assignee == First(Assignees(all, members)[..k], None)
    {
      var d := all[members[k]];
      FirstOfMore(Profiles(all, members), "", k);
      FirstOfMore(Assignees(all, members), None, k);
      if keep.profile == "" && d.profile != "" {
        keep := keep.(profile := d.profile);
      }
      if keep.assignee.None? && d.assignee.Some? {
        keep := keep.(assignee := d.assignee);
      }
    }
    assert Profiles(all, members)[..|members|] == Profiles(all, members);
    assert Assignees(all, members)[..|members|] == Assignees(all, members);
  }

  /** The duplicates are retired before the survivor may take its canonical number. */
  method RetireAll(contacts: array<Contact>, dups: seq<nat>)
    requires Ascending(dups) && AllBelow(dups, contacts.Length)
    modifies contacts
    ensures forall k | 0 <= k < contacts.Length :: contacts[k] == if k in dups then Retired(old(contacts[k])) else old(contacts[k])
  {
    for j := 0 to |dups|
      invariant forall k | 0 <= k < contacts.Length ::
        contacts[k] == if k in dups[..j] then Retired(old(contacts[k])) else old(contacts[k])
    {
      assert dups[j] in dups && dups[j] !in dups[..j] && dups[..j + 1] == dups[..j] + [dups[j]];
      contacts[dups[j]] := Retired(contacts[dups[j]]);
    }
    assert dups[..|dups|] == dups;
  }

  /** Where a reference to contact c leads after the groups with these roots were folded. */
  ghost function Target(parent: seq<nat>, folded: set<nat>, c: nat): nat
    requires Forest(parent)
  {
    if c < |parent| && Root(parent, c) in folded then Root(parent, c) else c
  }

  /** The contacts that were folded into another. */
  ghost function FoldedContacts(parent: seq<nat>, folded: set<nat>): set<nat>
    requires Forest(parent)
  {
    set x | 0 <= x < |parent| && Root(parent, x) in folded && Root(parent, x) != x
  }

  lemma {:induction false} AscendingIsSet(s: seq<nat>)
    requires Ascending(s)
    ensures |ToSet(s)| == |s|
  {
    if s != [] {
      var n := |s| - 1;
      AscendingIsSet(s[..n]);
      assert s == s[..n] + [s[n]];
      ToSetSnoc(s[..n], s[n]);
      assert forall k | 0 <= k < n :: s[..n][k] < s[n];
    }
  }

  lemma TailOfAscending(m: seq<nat>)
    requires Ascending(m) && m != []
    ensures Ascending(m[1..]) && m[0] !in m[1..] && |ToSet(m[1..])| == |m| - 1
    ensures forall x: nat :: x in m <==> x == m[0] || x in m[1..]
  {
    assert m == [m[0]] + m[1..];
    assert forall k | 0 <= k < |m| - 1 :: m[0] < m[1..][k];
    AscendingIsSet(m[1..]);
  }

  /** Who else is in the class of r. */
  lemma OthersOf(parent: seq<nat>, r: nat)
    requires Forest(parent) && r < |parent| && parent[r] == r
    ensures
      var m := Members(parent, r, |parent|);
      && m != [] && m[0] == r && r !in m[1..]
      && ToSet(m[1..]) == OthersInClass(parent, r)
      && |OthersInClass(parent, r)| == |m| - 1
  {
    hide Root, Ascending;
    var m := Members(parent, r, |parent|);
    MembersAre(parent, r, |parent|);
    RootIsFirst(parent, r);
    hide Members;
    TailOfAscending(m);
    assert forall x: nat :: x in ToSet(m[1..]) <==> x in OthersInClass(parent, r);
  }

  ghost function OthersInClass(parent: seq<nat>, r: nat): set<nat>
    requires Forest(parent)
  {
    set x | 0 <= x < |parent| && Root(parent, x) == r && x != r
  }

  lemma FoldCounts(parent: seq<nat>, folded: set<nat>, r: nat)
    requires Forest(parent) && r < |parent| && parent[r] == r && r !in folded
    ensures |FoldedContacts(parent, folded + {r})|
         == |FoldedContacts(parent, folded)| + |Members(parent, r, |parent|)| - 1
  {
    hide Root, Members;
    OthersOf(parent, r);
    assert FoldedContacts(parent, folded + {r}) == FoldedContacts(parent, folded) + OthersInClass(parent, r);
    assert FoldedContacts(parent, folded) !! OthersInClass(parent, r);
  }

  lemma FoldTargets(parent: seq<nat>, folded: set<nat>, r: nat, c: nat)
    requires Forest(parent) && r < |parent| && parent[r] == r && r !in folded
    ensures
      var t := Target(parent, folded, c);
      && Target(parent, folded + {r}, c) == (if t in Members(parent, r, |parent|) then r else t)
      && (t == c || t !in Members(parent, r, |parent|))
  {
    MembersAre(parent, r, |parent|);
  }

  /** Everything is where the groups folded so far leave it. */
  ghost predicate FoldedSoFar(all: seq<Contact>, before: seq<nat>, parent: seq<nat>, folded: set<nat>,
                              contacts: seq<Contact>, children: seq<nat>)
    requires Forest(parent) && |parent| == |all|
  {
    && |contacts| == |all| && |children| == |before|
    && (forall k | 0 <= k < |contacts| :: contacts[k] == Merged(all, parent, folded, k))
    && forall k | 0 <= k < |children| :: children[k] == Target(parent, folded, before[k])
  }

  /**
   refused are the roots of the groups whose transaction hits a constraint and is rolled back
   whole. Without apply nothing is written and the report says what would be folded.
   */
  method MergeDuplicateContacts(contacts: array<Contact>, children: array<nat>, apply: bool, refused: set<nat>)
    returns (report: Report, ghost parent: seq<nat>, ghost folded: set<nat>)
    modifies contacts, children
    ensures IsClassForest(Phones(old(contacts[..])), parent)
    ensures forall r: nat :: r in folded <==>
      r < |parent| && parent[r] == r && |Members(parent, r, |parent|)| > 1 && !(apply && r in refused)
    ensures report.duplicates == |FoldedContacts(parent, folded)|
    ensures report.groups == |folded| + |report.skipped|
    ensures forall r: nat :: r in report.skipped <==>
      apply && r in refused && r < |parent| && parent[r] == r && |Members(parent, r, |parent|)| > 1
    ensures Ascending(report.skipped)
    ensures apply ==> forall c | 0 <= c < contacts.Length :: contacts[c] == Merged(old(contacts[..]), parent, folded, c)
    ensures apply ==> forall k | 0 <= k < children.Length :: children[k] == Target(parent, folded, old(children[k]))
    ensures !apply ==> children[..] == old(children[..]) && contacts[..] == old(contacts[..])
    ensures report.moved == Differences(old(children[..]), children[..])
  {
    hide Root, Members, FoldedContacts, Target, PhoneIdentities, Ascending, Differences, Merged;
    var all := contacts[..];
    var forest := Unite(AllIdentities(Phones(all)));
    var groups := Gather(forest);
    parent := forest[..];
    var roots := MergeRoots(groups, |all|);
    RootsToFold(parent, groups, roots);
    report, folded := FoldAll(contacts, children, all, parent, groups, roots, apply, refused);
    InToSet(roots);
    InToSet(report.skipped);
  }

  lemma RootsToFold(parent: seq<nat>, groups: map<nat, seq<nat>>, roots: seq<nat>)
    requires Forest(parent) && AreGroups(groups, parent, |parent|)
    requires forall r: nat :: r in roots <==> r in groups && |groups[r]| > 1
    ensures forall r: nat :: r in roots <==> r < |parent| && parent[r] == r && |Members(parent, r, |parent|)| > 1
  {
    hide Root, Members;
    forall r: nat
      ensures r in roots <==> r < |parent| && parent[r] == r && |Members(parent, r, |parent|)| > 1
    {
      if r in groups {
        GroupRoot(parent, groups, r);
      }
    }
  }

  /** The loop over the groups, oldest root first. */
  method FoldAll(contacts: array<Contact>, children: array<nat>, all: seq<Contact>, ghost parent: seq<nat>,
                 groups: map<nat, seq<nat>>, roots: seq<nat>, apply: bool, refused: set<nat>)
    returns (report: Report, ghost folded: set<nat>)
    requires Forest(parent) && AreGroups(groups, parent, |parent|) && |parent| == |all| && contacts[..] == all
    requires Ascending(roots) && forall r | r in roots :: r in groups && parent[r] == r
    modifies contacts, children
    ensures folded == (if apply then ToSet(roots) - refused else ToSet(roots))
    ensures ToSet(report.skipped) == (if apply then ToSet(roots) * refused else {})
    ensures Ascending(report.skipped)
    ensures report.groups == |folded| + |report.skipped|
    ensures report.duplicates == |FoldedContacts(parent, folded)|
    ensures apply ==> FoldedSoFar(all, old(children[..]), parent, folded, contacts[..], children[..])
    ensures !apply ==> children[..] == old(children[..]) && contacts[..] == all
    ensures report.moved == Differences(old(children[..]), children[..])
  {
    hide Root, Members, Differences, FoldedContacts, Target, Ascending, ToSet, FoldedSoFar, Forest, Tallied;
    NoDifferences(children[..]);
    NothingFolded(parent, all, children[..]);
    NothingTallied(parent, apply, refused);
    report, folded := Report(0, 0, 0, []), {};
    ghost var before, done := children[..], {};
    for i := 0 to |roots|
      invariant done == ToSet(roots[..i]) && Tallied(parent, done, folded, apply, refused, report)
      invariant apply ==> FoldedSoFar(all, before, parent, folded, contacts[..], children[..])
      invariant !apply ==> children[..] == before && contacts[..] == all
      invariant report.moved == Differences(before, children[..])
    {
      var r := roots[i];
      PrefixIsBelow(roots, i);
      var members := groups[r];
      NotYetFolded(parent, done, folded, apply, refused, report, r);
      OneGroup(parent, groups, folded, r);
      TallyGrows(parent, done, folded, apply, refused, report, r, members);
      report := report.(groups := report.groups + 1, duplicates := report.duplicates + |members| - 1);
      if !apply {
        folded := folded + {r};
      } else if r in refused {
        report := report.(duplicates := report.duplicates - (|members| - 1), skipped := report.skipped + [r]);
      } else {
        var moved := FoldGroup(contacts, children, all, parent, before, folded, members);
        folded := folded + {r};
        report := report.(moved := report.moved + moved);
        TallyIgnoresMoves(parent, done + {r}, folded, apply, refused, report, report.moved - moved);
      }
      done := done + {r};
    }
    assert roots[..|roots|] == roots;
    TallyIs(parent, done, folded, apply, refused, report);
  }

  /** The counts of the report for the groups done. */
  ghost predicate Tallied(parent: seq<nat>, done: set<nat>, folded: set<nat>, apply: bool, refused: set<nat>, report: Report)
    requires Forest(parent)
  {
    && folded == (if apply then done - refused else done)
    && ToSet(report.skipped) == (if apply then done * refused else {}) && Ascending(report.skipped)
    && report.groups == |folded| + |report.skipped| && report.duplicates == |FoldedContacts(parent, folded)|
  }

  lemma TallyIs(parent: seq<nat>, done: set<nat>, folded: set<nat>, apply: bool, refused: set<nat>, report: Report)
    requires Forest(parent) && Tallied(parent, done, folded, apply, refused, report)
    ensures folded == (if apply then done - refused else done)
    ensures ToSet(report.skipped) == (if apply then done * refused else {}) && Ascending(report.skipped)
    ensures report.groups == |folded| + |report.skipped| && report.duplicates == |FoldedContacts(parent, folded)|
  {}

  lemma NotYetFolded(parent: seq<nat>, done: set<nat>, folded: set<nat>, apply: bool, refused: set<nat>, report: Report, r: nat)
    requires Forest(parent) && Tallied(parent, done, folded, apply, refused, report) && forall x | x in done :: x < r
    ensures r !in folded
  {}

  lemma NothingTallied(parent: seq<nat>, apply: bool, refused: set<nat>)
    requires Forest(parent)
    ensures Tallied(parent, {}, {}, apply, refused, Report(0, 0, 0, []))
  {}

  lemma TallyIgnoresMoves(parent: seq<nat>, done: set<nat>, folded: set<nat>, apply: bool, refused: set<nat>, report: Report, moved: nat)
    requires Forest(parent) && Tallied(parent, done, folded, apply, refused, report.(moved := moved))
    ensures Tallied(parent, done, folded, apply, refused, report)
  {}

  /** One more group is folded, or skipped. */
  lemma TallyGrows(parent: seq<nat>, done: set<nat>, folded: set<nat>, apply: bool, refused: set<nat>, report: Report, r: nat, members: seq<nat>)
    requires Forest(parent) && Tallied(parent, done, folded, apply, refused, report) && forall x | x in done :: x < r
    requires |FoldedContacts(parent, folded + {r})| == |FoldedContacts(parent, folded)| + |members| - 1 && members != []
    ensures !(apply && r in refused) ==>
      Tallied(parent, done + {r}, folded + {r}, apply, refused,
              report.(groups := report.groups + 1, duplicates := report.duplicates + |members| - 1))
    ensures apply && r in refused ==>
      Tallied(parent, done + {r}, folded, apply, refused,
              report.(groups := report.groups + 1, skipped := report.skipped + [r]))
  {
    hide Ascending, ToSet, FoldedContacts, Forest;
    SetSteps(done, refused, r);
    if apply && r in refused {
      AscendingSnoc(report.skipped, r);
    }
  }

  lemma OneGroup(parent: seq<nat>, groups: map<nat, seq<nat>>, folded: set<nat>, r: nat)
    requires Forest(parent) && AreGroups(groups, parent, |parent|) && r in groups && parent[r] == r && r !in folded
    ensures r < |parent| && groups[r] == Members(parent, r, |parent|) && groups[r] != [] && groups[r][0] == r
    ensures |FoldedContacts(parent, folded + {r})| == |FoldedContacts(parent, folded)| + |groups[r]| - 1
  {
    hide Root, Members, FoldedContacts;
    OthersOf(parent, r);
    FoldCounts(parent, folded, r);
  }

  lemma SetSteps(done: set<nat>, refused: set<nat>, r: nat)
    requires r !in done
    ensures (done + {r}) - refused == (if r in refused then done - refused else (done - refused) + {r})
    ensures (done + {r}) * refused == (if r in refused then (done * refused) + {r} else done * refused)
  {}

  /** The group of one root, in a transaction that goes through. */
  method FoldGroup(contacts: array<Contact>, children: array<nat>, all: seq<Contact>, ghost parent: seq<nat>,
                   ghost before: seq<nat>, ghost folded: set<nat>, members: seq<nat>)
    returns (moved: nat)
    requires Forest(parent) && members != [] && members[0] < |parent| == |all| && parent[members[0]] == members[0]
    requires members == Members(parent, members[0], |parent|) && members[0] !in folded
    requires FoldedSoFar(all, before, parent, folded, contacts[..], children[..])
    modifies contacts, children
    ensures FoldedSoFar(all, before, parent, folded + {members[0]}, contacts[..], children[..])
    ensures Differences(before, children[..]) == Differences(before, old(children[..])) + moved
  {
    hide Target, Members, Differences, Root, Merged, Survivor;
    ghost var row, r := children[..], members[0];
    OthersOf(parent, r);
    MembersAre(parent, r, |parent|);
    moved := Repoint(children, members[0], members[1..]);
    FoldMoves(parent, folded, r, members, before, row, children[..]);
    ghost var was := contacts[..];
    TailOfAscending(members);
    RetireAll(contacts, members[1..]);
    contacts[members[0]] := UpdateSurvivor(all, members);
    FoldMerges(all, parent, folded, r, members, was, contacts[..]);
  }

  lemma HeadOrRest(s: seq<nat>, x: nat)
    requires s != []
    ensures x in s <==> x == s[0] || x in s[1..]
  {
    assert s == [s[0]] + s[1..];
  }

  lemma FoldMoves(parent: seq<nat>, folded: set<nat>, r: nat, members: seq<nat>, before: seq<nat>, row: seq<nat>, row': seq<nat>)
    requires Forest(parent) && r < |parent| && parent[r] == r && r !in folded
    requires members == Members(parent, r, |parent|) && members != [] && members[0] == r
    requires |before| == |row| == |row'| && forall k | 0 <= k < |row| :: row[k] == Target(parent, folded, before[k])
    requires forall k | 0 <= k < |row| :: row'[k] == if row[k] in members[1..] then r else row[k]
    ensures forall k | 0 <= k < |row| :: row'[k] == Target(parent, folded + {r}, before[k])
    ensures Differences(before, row') == Differences(before, row) + Differences(row, row')
  {
    hide Target, Members, Differences, Root;
    forall k | 0 <= k < |row|
      ensures row'[k] == Target(parent, folded + {r}, before[k]) && (before[k] == row[k] || row[k] == row'[k])
    {
      FoldTargets(parent, folded, r, before[k]);
      HeadOrRest(members, row[k]);
    }
    DifferencesAdd(before, row, row');
  }

  lemma FoldMerges(all: seq<Contact>, parent: seq<nat>, folded: set<nat>, r: nat, members: seq<nat>, was: seq<Contact>, now: seq<Contact>)
    requires Forest(parent) && |parent| == |all| == |was| == |now| && r < |parent| && parent[r] == r && r !in folded
    requires members == Members(parent, r, |parent|) && members != [] && members[0] == r
    requires AllBelow(members, |all|)
    requires forall k | 0 <= k < |was| :: was[k] == Merged(all, parent, folded, k)
    requires now[r] == Survivor(all, members)
    requires forall k | 0 <= k < |was| && k != r :: now[k] == if k in members[1..] then Retired(was[k]) else was[k]
    ensures forall k | 0 <= k < |now| :: now[k] == Merged(all, parent, folded + {r}, k)
  {
    MembersAre(parent, r, |parent|);
    assert members == [r] + members[1..];
    hide Members, Survivor, Retired, Root;
    forall k | 0 <= k < |now| ensures now[k] == Merged(all, parent, folded + {r}, k) {
      assert k in members <==> Root(parent, k) == r;
      assert k != r ==> (k in members <==> k in members[1..]);
    }
  }

  lemma InToSet(s: seq<nat>)
    ensures forall r: nat :: r in s <==> r in ToSet(s)
  {}

  lemma {:induction false} NoDifferences(a: seq<nat>)
    ensures Differences(a, a) == 0
  {
    if a != [] {
      NoDifferences(a[1..]);
    }
  }

  lemma NothingFolded(parent: seq<nat>, all: seq<Contact>, children: seq<nat>)
    requires Forest(parent) && |parent| == |all|
    ensures FoldedContacts(parent, {}) == {} && FoldedSoFar(all, children, parent, {}, all, children)
  {}

  lemma GroupRoot(parent: seq<nat>, groups: map<nat, seq<nat>>, r: nat)
    requires Forest(parent) && AreGroups(groups, parent, |parent|) && r in groups
    ensures parent[r] == r
  {
    MembersAre(parent, r, |parent|);
    assert groups[r][0] in groups[r];
  }

  // ----- What a merge comes to -----

  /** The survivor of a class is the oldest contact that any chain of identities leads to. */
  lemma SurvivorIsOldest(phones: seq<string>, parent: seq<nat>, x: nat)
    requires IsClassForest(phones, parent) && x < |phones|
    ensures Linked(AllIdentities(phones), x, Root(parent, x))
    ensures forall y | 0 <= y < |phones| && Linked(AllIdentities(phones), x, y) :: Root(parent, x) <= y
  {
    assert Root(parent, Root(parent, x)) == Root(parent, x);
    forall y | 0 <= y < |phones| && Linked(AllIdentities(phones), x, y) ensures Root(parent, x) <= y {
      assert Root(parent, x) == Root(parent, y);
    }
  }

  lemma {:induction false} ChainKeepsSubscriber(phones: seq<string>, p: seq<nat>, k: nat)
    requires IsPath(AllIdentities(phones), p) && k < |p|
    ensures Subscriber(Digits(phones[p[k]])) == Subscriber(Digits(phones[p[0]]))
  {
    hide Subscriber, Digits, PhoneIdentities;
    if k > 0 {
      ChainKeepsSubscriber(phones, p, k - 1);
      var ids := AllIdentities(phones);
      assert Share(ids, p[k - 1], p[k - 1 + 1]);
      var id :| id in ids[p[k - 1]] && id in ids[p[k]];
      IdentityKeepsSubscriber(phones[p[k - 1]], id);
      IdentityKeepsSubscriber(phones[p[k]], id);
    }
  }

  /** However long the chain that folds two contacts, they have one area code and one number of eight digits. */
  lemma MergedAreOneSubscriber(phones: seq<string>, parent: seq<nat>, x: nat, y: nat)
    requires IsClassForest(phones, parent) && x < |phones| && y < |phones| && Root(parent, x) == Root(parent, y)
    ensures Subscriber(Digits(phones[x])) == Subscriber(Digits(phones[y]))
  {
    hide Subscriber, Digits, PhoneIdentities;
    var p :| PathBetween(AllIdentities(phones), x, y, p);
    ChainKeepsSubscriber(phones, p, |p| - 1);
  }

  /** The x-th contact is of the class of r, and the oldest of it that is known in this respect. */
  ghost predicate IsOldestKnown(parent: seq<nat>, r: nat, known: seq<bool>, x: nat)
    requires Forest(parent) && |known| == |parent|
  {
    && x < |parent| && Root(parent, x) == r && known[x]
    && forall y: nat | y < x && Root(parent, y) == r :: !known[y]
  }

  function HasProfile(all: seq<Contact>): (known: seq<bool>)
    ensures |known| == |all| && forall i | 0 <= i < |all| :: known[i] <==> all[i].profile != ""
  {
    seq(|all|, i requires 0 <= i < |all| => all[i].profile != "")
  }

  function HasAssignee(all: seq<Contact>): (known: seq<bool>)
    ensures |known| == |all| && forall i | 0 <= i < |all| :: known[i] <==> all[i].assignee != None
  {
    seq(|all|, i requires 0 <= i < |all| => all[i].assignee != None)
  }

  /** The survivor has the profile name of the oldest of its class that has one, and so its agent; and its own number. */
  lemma SurvivorHasTheOldestKnown(all: seq<Contact>, parent: seq<nat>, folded: set<nat>, r: nat)
    requires Forest(parent) && |parent| == |all| && r < |all| && Root(parent, r) == r && r in folded
    ensures
      var m := Merged(all, parent, folded, r);
      && (forall x: nat | IsOldestKnown(parent, r, HasProfile(all), x) :: m.profile == all[x].profile)
      && (m.profile == "" <==> forall x: nat | x < |all| && Root(parent, x) == r :: all[x].profile == "")
      && (forall x: nat | IsOldestKnown(parent, r, HasAssignee(all), x) :: m.assignee == all[x].assignee)
      && (m.assignee == None <==> forall x: nat | x < |all| && Root(parent, x) == r :: all[x].assignee == None)
      && m.phone == CanonicalPhone(all[r].phone) && m.tag == all[r].tag && m.deleted == all[r].deleted
  {
    RootIsFirst(parent, r);
    MembersAre(parent, r, |parent|);
    var members := Members(parent, r, |parent|);
    var m := Merged(all, parent, folded, r);
    assert m == Survivor(all, members);
    hide Members, Merged, Root, First, IsOldestKnown, Ascending, Forest;
    OldestKnownIsFirst(parent, r, members, Profiles(all, members), "", HasProfile(all));
    OldestKnownIsFirst(parent, r, members, Assignees(all, members), None, HasAssignee(all));
    forall x: nat | IsOldestKnown(parent, r, HasProfile(all), x) ensures m.profile == all[x].profile {
      var k :| 0 <= k < |members| && members[k] == x && First(Profiles(all, members), "") == Profiles(all, members)[k];
    }
    forall x: nat | IsOldestKnown(parent, r, HasAssignee(all), x) ensures m.assignee == all[x].assignee {
      var k :| 0 <= k < |members| && members[k] == x && First(Assignees(all, members), None) == Assignees(all, members)[k];
    }
  }

  lemma OldestKnownIsFirst<T>(parent: seq<nat>, r: nat, members: seq<nat>, values: seq<T>, none: T, known: seq<bool>)
    requires Forest(parent) && |known| == |parent| && |values| == |members| && Ascending(members) && AllBelow(members, |parent|)
    requires forall x: nat :: x in members <==> x < |parent| && Root(parent, x) == r
    requires forall k | 0 <= k < |members| :: values[k] != none <==> known[members[k]]
    ensures forall x: nat | IsOldestKnown(parent, r, known, x) ::
      exists k | 0 <= k < |members| :: members[k] == x && First(values, none) == values[k]
    ensures First(values, none) == none <==> forall x: nat | x < |parent| && Root(parent, x) == r :: !known[x]
  {
    hide Root, Forest, First;
    FirstIs(values, none);
    forall x: nat | IsOldestKnown(parent, r, known, x)
      ensures exists k | 0 <= k < |members| :: members[k] == x && First(values, none) == values[k]
    {
      assert x in members;
      var i :| 0 <= i < |members| && members[i] == x;
      assert values[i] != none;
      var k :| 0 <= k < |values| && values[k] == First(values, none) && forall j | 0 <= j < k :: values[j] == none;
      assert members[k] in members && k <= i;
    }
    assert forall k | 0 <= k < |members| :: members[k] in members;
  }

  /** No child row is left on a folded contact, and none leaves its class. */
  lemma NoRowIsLost(parent: seq<nat>, folded: set<nat>, c: nat)
    requires Forest(parent) && c < |parent|
    ensures Target(parent, folded, c) < |parent| && Target(parent, folded, c) !in FoldedContacts(parent, folded)
    ensures Root(parent, Target(parent, folded, c)) == Root(parent, c)
  {}

  /** The survivor may take its canonical number: no contact of another class is stored under it. */
  lemma CanonicalNumberIsFree(phones: seq<string>, parent: seq<nat>, r: nat, y: nat)
    requires IsClassForest(phones, parent) && r < |phones| && y < |phones|
    requires phones[y] == CanonicalPhone(phones[r])
    ensures Root(parent, y) == Root(parent, r)
  {
    var ids := AllIdentities(phones);
    CanonicalIdempotent(phones[r]);
    CanonicalIsAnIdentity(phones[r]);
    CanonicalIsAnIdentity(phones[y]);
    assert Share(ids, y, r);
    LinkedByShare(ids, y, r);
  }

  /** Nor can a retired number, tagged as merged, be anyone's canonical number. */
  lemma RetiredNumbersStayOut(phone: string, tag: string, other: string)
    ensures phone + "#merged-" + tag != CanonicalPhone(other)
  {
    var n := CanonicalPhone(other);
    assert forall k | 0 <= k < |n| :: n[k] in n;
    assert (phone + "#merged-" + tag)[|phone|] == '#';
  }

  /** Two contacts with one canonical number are of one class. */
  lemma SameCanonicalSameClass(phones: seq<string>, parent: seq<nat>, x: nat, y: nat)
    requires IsClassForest(phones, parent) && x < |phones| && y < |phones|
    requires CanonicalPhone(phones[x]) == CanonicalPhone(phones[y])
    ensures Root(parent, x) == Root(parent, y)
  {
    var ids := AllIdentities(phones);
    CanonicalIsAnIdentity(phones[x]);
    CanonicalIsAnIdentity(phones[y]);
    assert Share(ids, y, x);
    LinkedByShare(ids, y, x);
  }

  /** No two contacts that are not deleted have one number. */
  predicate NumbersDiffer(contacts: seq<Contact>) {
    forall x, y | 0 <= x < y < |contacts| && !contacts[x].deleted && !contacts[y].deleted :: contacts[x].phone != contacts[y].phone
  }

  /** Whichever groups are folded, the numbers in use stay different, though every survivor's is rewritten. */
  lemma NumbersStayDifferent(all: seq<Contact>, parent: seq<nat>, folded: set<nat>, after: seq<Contact>)
    requires IsClassForest(Phones(all), parent) && NumbersDiffer(all)
    requires |after| == |all| && forall c | 0 <= c < |all| :: after[c] == Merged(all, parent, folded, c)
    ensures NumbersDiffer(after)
  {
    hide IsClassForest;
    forall x, y | 0 <= x < y < |all| && !after[x].deleted && !after[y].deleted ensures after[x].phone != after[y].phone {
      LiveNumbersDiffer(all, parent, folded, x, y);
    }
  }

  lemma LiveNumbersDiffer(all: seq<Contact>, parent: seq<nat>, folded: set<nat>, x: nat, y: nat)
    requires IsClassForest(Phones(all), parent) && NumbersDiffer(all) && x < y < |all|
    requires !Merged(all, parent, folded, x).deleted && !Merged(all, parent, folded, y).deleted
    ensures Merged(all, parent, folded, x).phone != Merged(all, parent, folded, y).phone
  {
    LiveIs(all, parent, folded, x);
    LiveIs(all, parent, folded, y);
    hide Merged, Root, IsClassForest, CanonicalPhone;
    var phones := Phones(all);
    if Merged(all, parent, folded, x).phone == Merged(all, parent, folded, y).phone {
      if Root(parent, x) in folded && Root(parent, y) in folded {
        SameCanonicalSameClass(phones, parent, x, y);
      } else if Root(parent, x) in folded {
        CanonicalNumberIsFree(phones, parent, x, y);
      } else if Root(parent, y) in folded {
        CanonicalNumberIsFree(phones, parent, y, x);
      }
    }
  }

  lemma LiveIs(all: seq<Contact>, parent: seq<nat>, folded: set<nat>, c: nat)
    requires Forest(parent) && |parent| == |all| && c < |all| && !Merged(all, parent, folded, c).deleted
    ensures
      var m := Merged(all, parent, folded, c);
      if Root(parent, c) in folded then Root(parent, c) == c && m.phone == CanonicalPhone(all[c].phone) && !all[c].deleted
      else m == all[c]
  {
    if Root(parent, c) in folded && Root(parent, c) == c {
      RootIsFirst(parent, c);
    }
  }
}
