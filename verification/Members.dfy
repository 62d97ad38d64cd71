/** Choosing which key packages to add and which leaves to remove, before the library commits. */
module Members {
  import opened Basics
  import opened OpenMls
  import opened ErrorKinds

  // ---- Adding ----

  /** One entry of the input slice: unreadable bytes, a package that fails validation, or a good one. */
  datatype Package = Undeserializable | Invalid | Valid(credential: Credential)

  datatype Verdict = Added | Skipped | AlreadyThere

  predicate HasIdentity(c: Credential) {
    !c.Foreign?
  }

  predicate InTree(roster: seq<Leaf>, c: Credential) {
    exists k :: 0 <= k < |roster| && roster[k].credential == c
  }

  predicate SeenBefore(packages: seq<Package>, i: nat)
    requires i < |packages|
  {
    exists j :: 0 <= j < i && packages[j] == packages[i]
  }

  /** What becomes of position `i`, stated without the accumulators of the loop. */
  function VerdictAt(roster: seq<Leaf>, packages: seq<Package>, i: nat): Verdict
    requires i < |packages|
  {
    if !packages[i].Valid? then Skipped
    else if HasIdentity(packages[i].credential)
         && (InTree(roster, packages[i].credential) || SeenBefore(packages, i)) then AlreadyThere
    else Added
  }

  /** The positions below `n` with verdict `v`, ascending. */
  function Positions(roster: seq<Leaf>, packages: seq<Package>, v: Verdict, n: nat): seq<nat>
    requires n <= |packages|
  {
    if n == 0 then []
    else Positions(roster, packages, v, n - 1)
         + (if VerdictAt(roster, packages, n - 1) == v then [n - 1] else [])
  }

  lemma {:induction false} PositionsExact(roster: seq<Leaf>, packages: seq<Package>, v: Verdict, n: nat)
    requires n <= |packages|
    ensures var p := Positions(roster, packages, v, n);
            && (forall x :: x in p <==> 0 <= x < n && VerdictAt(roster, packages, x) == v)
            && (forall a, b :: 0 <= a < b < |p| ==> p[a] < p[b])
  {
    if n > 0 {
      PositionsExact(roster, packages, v, n - 1);
      var before := Positions(roster, packages, v, n - 1);
      assert forall k :: 0 <= k < |before| ==> before[k] in before;
    }
  }

  /** Every input position is in exactly one of the three lists. */
  lemma {:induction false} PositionsPartition(roster: seq<Leaf>, packages: seq<Package>, n: nat)
    requires n <= |packages|
    ensures |Positions(roster, packages, Added, n)| + |Positions(roster, packages, Skipped, n)|
            + |Positions(roster, packages, AlreadyThere, n)| == n
  {
    if n > 0 {
      PositionsPartition(roster, packages, n - 1);
    }
  }

  function CredentialsAt(packages: seq<Package>, positions: seq<nat>): seq<Credential>
    requires forall k :: 0 <= k < |positions| ==>
               positions[k] < |packages| && packages[positions[k]].Valid?
  {
    seq(|positions|, k requires 0 <= k < |positions| => packages[positions[k]].credential)
  }

  datatype Triage = Triage(
    added: seq<nat>, skipped: seq<nat>, kept: seq<Credential>, anyAlreadyMember: bool)

  function TriageOf(roster: seq<Leaf>, packages: seq<Package>): Triage {
    var added := Positions(roster, packages, Added, |packages|);
    PositionsExact(roster, packages, Added, |packages|);
    assert forall k :: 0 <= k < |added| ==> added[k] in added;
    Triage(
      added,
      Positions(roster, packages, Skipped, |packages|),
      CredentialsAt(packages, added),
      Positions(roster, packages, AlreadyThere, |packages|) != [])
  }

  method KnownIdentities(roster: seq<Leaf>) returns (known: set<Credential>)
    ensures forall c :: c in known <==> HasIdentity(c) && InTree(roster, c)
  {
    known := {};
    for r := 0 to |roster|
      invariant forall c :: c in known <==> HasIdentity(c) && InTree(roster[..r], c)
    {
      assert roster[..r + 1] == roster[..r] + [roster[r]];
      forall c
        ensures InTree(roster[..r + 1], c) <==> InTree(roster[..r], c) || roster[r].credential == c
      {
        TreeGrows(roster[..r], roster[r], c);
      }
      if HasIdentity(roster[r].credential) {
        known := known + {roster[r].credential};
      }
    }
    assert roster[..|roster|] == roster;
  }

  lemma TreeGrows(roster: seq<Leaf>, leaf: Leaf, c: Credential)
    ensures InTree(roster + [leaf], c) <==> InTree(roster, c) || leaf.credential == c
  {
    var after := roster + [leaf];
    assert after[|roster|] == leaf;
    if k :| 0 <= k < |roster| && roster[k].credential == c {
      assert after[k] == roster[k];
    }
  }

  /** The loop's set of known identities, seen from position `i`. */
  ghost predicate Knows(known: set<Credential>, roster: seq<Leaf>, packages: seq<Package>, i: nat)
    requires i <= |packages|
  {
    forall c :: c in known <==>
      HasIdentity(c) && (InTree(roster, c) || exists j :: 0 <= j < i && packages[j] == Valid(c))
  }

  lemma KnowsDecides(known: set<Credential>, roster: seq<Leaf>, packages: seq<Package>, i: nat)
    requires i < |packages| && Knows(known, roster, packages, i) && packages[i].Valid?
    ensures var c := packages[i].credential;
            && (VerdictAt(roster, packages, i) == AlreadyThere <==> HasIdentity(c) && c in known)
            && Knows(if HasIdentity(c) then known + {c} else known, roster, packages, i + 1)
  {
  }

  lemma KnowsSkips(known: set<Credential>, roster: seq<Leaf>, packages: seq<Package>, i: nat)
    requires i < |packages| && Knows(known, roster, packages, i) && !packages[i].Valid?
    ensures Knows(known, roster, packages, i + 1)
  {
  }

  /** The selection loop of `add_members_bulk`, with its set of known identities. */
  method SelectPackages(roster: seq<Leaf>, packages: seq<Package>) returns (t: Triage)
    ensures t == TriageOf(roster, packages)
  {
    var known := KnownIdentities(roster);
    var added: seq<nat>, skipped: seq<nat>, kept: seq<Credential> := [], [], [];
    var anyAlreadyMember := false;
    for i := 0 to |packages|
      invariant Knows(known, roster, packages, i)
      invariant added == Positions(roster, packages, Added, i)
      invariant skipped == Positions(roster, packages, Skipped, i)
      invariant |kept| == |added|
      invariant forall k :: 0 <= k < |added| ==> added[k] < i && packages[added[k]] == Valid(kept[k])
      invariant anyAlreadyMember == (Positions(roster, packages, AlreadyThere, i) != [])
    {
      if !packages[i].Valid? {
        KnowsSkips(known, roster, packages, i);
        skipped := skipped + [i];
      } else {
        KnowsDecides(known, roster, packages, i);
        var c := packages[i].credential;
        if HasIdentity(c) && c in known {
          assert known + {c} == known;
          anyAlreadyMember := true;
        } else {
          if HasIdentity(c) {
            known := known + {c};
          }
          added := added + [i];
          kept := kept + [c];
        }
      }
    }
    t := Triage(added, skipped, kept, anyAlreadyMember);
    assert kept == TriageOf(roster, packages).kept;
  }

  predicate DistinctIdentities(roster: seq<Leaf>) {
    forall a, b :: 0 <= a < b < |roster| && HasIdentity(roster[a].credential) ==>
      roster[a].credential != roster[b].credential
  }

  predicate DistinctIndices(roster: seq<Leaf>) {
    forall a, b :: 0 <= a < b < |roster| ==> roster[a].index != roster[b].index
  }

  /** Kept identities are pairwise distinct and new to the tree. */
  lemma KeptAreNew(roster: seq<Leaf>, packages: seq<Package>)
    ensures var t := TriageOf(roster, packages);
            forall a :: 0 <= a < |t.kept| && HasIdentity(t.kept[a]) ==>
              !InTree(roster, t.kept[a]) && forall b :: 0 <= b < a ==> t.kept[b] != t.kept[a]
  {
    var t := TriageOf(roster, packages);
    PositionsExact(roster, packages, Added, |packages|);
    forall a | 0 <= a < |t.kept| && HasIdentity(t.kept[a])
      ensures !InTree(roster, t.kept[a]) && forall b :: 0 <= b < a ==> t.kept[b] != t.kept[a]
    {
      assert t.added[a] in t.added;
      assert !SeenBefore(packages, t.added[a]);
      forall b | 0 <= b < a
        ensures t.kept[b] != t.kept[a]
      {
        assert t.added[b] in t.added;
        assert packages[t.added[b]].Valid? && t.added[b] < t.added[a];
        assert packages[t.added[b]] != packages[t.added[a]];
      }
    }
  }

  lemma {:induction false} WithAddedShape(roster: seq<Leaf>, credentials: seq<Credential>)
    requires DistinctIndices(roster)
    ensures var after := WithAdded(roster, credentials);
            && |after| == |roster| + |credentials|
            && after[..|roster|] == roster
            && (forall k :: 0 <= k < |credentials| ==> after[|roster| + k].credential == credentials[k])
            && DistinctIndices(after)
    decreases |credentials|
  {
    if credentials != [] {
      var next := roster + [Leaf(FreshIndex(roster), credentials[0])];
      WithAddedShape(next, credentials[1..]);
      var after := WithAdded(roster, credentials);
      assert after[..|roster|] == after[..|next|][..|roster|] == roster;
      forall k | 0 <= k < |credentials|
        ensures after[|roster| + k].credential == credentials[k]
      {
        if k == 0 {
          assert after[|roster|] == after[..|next|][|roster|];
        } else {
          assert after[|next| + (k - 1)].credential == credentials[1..][k - 1];
        }
      }
    }
  }

  /**
   * The tree a bulk add commits to: the old leaves, then one leaf per added position, in input
   * order; no identity appears twice if none did before.
   */
  lemma BulkAddIsExact(roster: seq<Leaf>, packages: seq<Package>)
    requires DistinctIndices(roster) && DistinctIdentities(roster)
    ensures var t := TriageOf(roster, packages);
            var after := WithAdded(roster, t.kept);
            && |after| == |roster| + |t.added|
            && after[..|roster|] == roster
            && (forall k :: 0 <= k < |t.added| ==>
                  t.added[k] < |packages| && packages[t.added[k]] == Valid(after[|roster| + k].credential))
            && DistinctIdentities(after) && DistinctIndices(after)
  {
    var t := TriageOf(roster, packages);
    PositionsExact(roster, packages, Added, |packages|);
    WithAddedShape(roster, t.kept);
    KeptAreNew(roster, packages);
    var after := WithAdded(roster, t.kept);
    forall k | 0 <= k < |t.added|
      ensures t.added[k] < |packages| && packages[t.added[k]] == Valid(after[|roster| + k].credential)
    {
      assert t.added[k] in t.added;
      assert after[|roster| + k].credential == t.kept[k];
    }
    forall a, b | 0 <= a < b < |after| && HasIdentity(after[a].credential)
      ensures after[a].credential != after[b].credential
    {
      assert a < |roster| ==> after[a] == after[..|roster|][a];
      if b < |roster| {
        assert after[b] == after[..|roster|][b];
      } else {
        assert after[b].credential == t.kept[b - |roster|];
        if a >= |roster| {
          assert after[a].credential == t.kept[a - |roster|];
        } else if HasIdentity(t.kept[b - |roster|]) {
          assert !InTree(roster, t.kept[b - |roster|]);
        }
      }
    }
  }

  // ---- Removing ----

  /** `leaf_identity`: only a textual basic credential has one. */
  function LeafIdentity(leaf: Leaf): Result<string, MlsError> {
    match leaf.credential
    case Basic(identity) => Ok(identity)
    case NonText(_) => Err(MlsError.OpenMls(Library(LeafCredential, Decimal(leaf.index))))
    case Foreign => Err(MlsError.OpenMls(Library(LeafCredential, Decimal(leaf.index))))
  }

  predicate AllNamed(roster: seq<Leaf>) {
    forall k :: 0 <= k < |roster| ==> roster[k].credential.Basic?
  }

  function FirstUnnamed(roster: seq<Leaf>): (k: nat)
    ensures k <= |roster| && AllNamed(roster[..k])
    ensures k < |roster| ==> !roster[k].credential.Basic?
    ensures k == |roster| <==> AllNamed(roster)
  {
    if roster == [] || !roster[0].credential.Basic? then 0
    else
      var k := 1 + FirstUnnamed(roster[1..]);
      assert forall i :: 0 < i < |roster| ==> roster[i] == roster[1..][i - 1];
      assert forall i :: 0 < i < k ==> roster[i] == roster[1..][..k - 1][i - 1];
      k
  }

  lemma FirstUnnamedIs(roster: seq<Leaf>, k: nat)
    requires k < |roster| && AllNamed(roster[..k]) && !roster[k].credential.Basic?
    ensures FirstUnnamed(roster) == k
  {
  }

  predicate Selected(leaf: Leaf, matches: string -> bool) {
    leaf.credential.Basic? && matches(leaf.credential.identity)
  }

  /** `leaf_indices_where`: one unreadable leaf fails the whole walk, whatever it would have matched. */
  method LeafIndicesWhere(roster: seq<Leaf>, matches: string -> bool)
    returns (r: Result<seq<nat>, MlsError>)
    ensures r.Ok? <==> AllNamed(roster)
    ensures r.Ok? ==> r.value == SelectedIndices(roster, matches)
    ensures r.Err? ==> LeafIdentity(roster[FirstUnnamed(roster)]) == Err(r.error)
  {
    var indices: seq<nat> := [];
    for k := 0 to |roster|
      invariant AllNamed(roster[..k])
      invariant indices == SelectedIndices(roster[..k], matches)
    {
      assert roster[..k + 1][..k] == roster[..k];
      var identity := LeafIdentity(roster[k]);
      if identity.Err? {
        FirstUnnamedIs(roster, k);
        return Err(identity.error);
      }
      if matches(identity.value) {
        indices := indices + [roster[k].index];
      }
    }
    assert roster[..|roster|] == roster;
    r := Ok(indices);
  }

  function SelectedIndices(roster: seq<Leaf>, matches: string -> bool): seq<nat> {
    if roster == [] then []
    else
      var last := roster[|roster| - 1];
      SelectedIndices(roster[..|roster| - 1], matches) + (if Selected(last, matches) then [last.index] else [])
  }

  lemma {:induction false} SelectedIndicesMember(roster: seq<Leaf>, matches: string -> bool, x: nat)
    ensures x in SelectedIndices(roster, matches) <==>
            exists k :: 0 <= k < |roster| && Selected(roster[k], matches) && roster[k].index == x
  {
    if roster != [] {
      var n := |roster| - 1;
      SelectedIndicesMember(roster[..n], matches, x);
      if Selected(roster[n], matches) && roster[n].index == x {
        assert x in SelectedIndices(roster, matches);
      }
    }
  }

  function IndexSet(indices: seq<nat>): set<nat> {
    set x | x in indices
  }

  function Kept(roster: seq<Leaf>, matches: string -> bool): seq<Leaf> {
    if roster == [] then []
    else (if Selected(roster[0], matches) then [] else [roster[0]]) + Kept(roster[1..], matches)
  }

  predicate MatchesUsers(users: seq<string>, identity: string) {
    exists k :: 0 <= k < |users| && (identity == users[k] || StartsWith(identity, users[k] + ":"))
  }

  predicate MatchesDevices(devices: seq<string>, identity: string) {
    identity in devices
  }

  function NamesUser(users: seq<string>): string -> bool {
    identity => MatchesUsers(users, identity)
  }

  function NamesDevice(devices: seq<string>): string -> bool {
    identity => MatchesDevices(devices, identity)
  }

  /** Removing the selected indices leaves exactly the leaves that were not selected, in order. */
  lemma {:induction false} RemovalIsExact(roster: seq<Leaf>, matches: string -> bool, gone: set<nat>)
    requires DistinctIndices(roster)
    requires forall k :: 0 <= k < |roster| ==> (roster[k].index in gone <==> Selected(roster[k], matches))
    ensures Without(roster, gone) == Kept(roster, matches)
  {
    if roster != [] {
      forall a, b | 0 <= a < b < |roster[1..]|
        ensures roster[1..][a].index != roster[1..][b].index
      {
        assert roster[1..][a] == roster[a + 1] && roster[1..][b] == roster[b + 1];
      }
      RemovalIsExact(roster[1..], matches, gone);
    }
  }

  lemma RemovalOfSelected(roster: seq<Leaf>, matches: string -> bool)
    requires DistinctIndices(roster)
    ensures Without(roster, IndexSet(SelectedIndices(roster, matches))) == Kept(roster, matches)
  {
    var gone := IndexSet(SelectedIndices(roster, matches));
    forall k | 0 <= k < |roster|
      ensures roster[k].index in gone <==> Selected(roster[k], matches)
    {
      SelectedIndicesMember(roster, matches, roster[k].index);
    }
    RemovalIsExact(roster, matches, gone);
  }

  /** The user part of an identity: everything before the first colon. */
  function UserOf(identity: string): (u: string)
    ensures ':' !in u && |u| <= |identity| && identity[..|u|] == u
    ensures |u| < |identity| ==> identity[|u|] == ':'
  {
    if identity == "" || identity[0] == ':' then ""
    else
      var rest := UserOf(identity[1..]);
      [identity[0]] + rest
  }

  /** For user ids without a colon, naming a user selects that user's leaves and nobody else's. */
  lemma UserMatchIsExact(users: seq<string>, identity: string)
    requires forall k :: 0 <= k < |users| ==> ':' !in users[k]
    ensures MatchesUsers(users, identity) <==> UserOf(identity) in users
  {
    var u := UserOf(identity);
    forall k | 0 <= k < |users|
      ensures (identity == users[k] || StartsWith(identity, users[k] + ":")) <==> users[k] == u
    {
      OneUserMatch(users[k], identity);
    }
  }

  lemma OneUserMatch(user: string, identity: string)
    requires ':' !in user
    ensures (identity == user || StartsWith(identity, user + ":")) <==> user == UserOf(identity)
  {
    var u := UserOf(identity);
    var w := user + ":";
    if |w| <= |identity| {
      // Both texts run alongside the identity, and only `u` is known to stop at its first colon.
      assert identity[..|w|] == w ==> identity[..|w|][..|user|] == user && identity[|user|] == ':';
    }
    FirstColon(identity, u, user);
    if user == u && |u| < |identity| {
      assert identity[..|u| + 1] == u + ":";
    }
  }

  /** Two colon-free prefixes of one text, each ending at a colon or at the end, are equal. */
  lemma FirstColon(identity: string, u: string, v: string)
    requires |u| <= |identity| && identity[..|u|] == u && ':' !in u
    requires |u| < |identity| ==> identity[|u|] == ':'
    ensures (&& |v| <= |identity| && identity[..|v|] == v && ':' !in v
             && (|v| < |identity| ==> identity[|v|] == ':')) ==> u == v
  {
  }

  /**
   * A user id that contains a colon never selects leaves of that user: it selects a single device of
   * another one. So naming one user is exact if and only if the id has no colon.
   */
  lemma ColonUserIdRemovesADevice(user: string)
    ensures (forall identity :: MatchesUsers([user], identity) <==> UserOf(identity) == user) <==> ':' !in user
    ensures ':' in user ==> MatchesUsers([user], user) && forall identity :: MatchesUsers([user], identity) ==> UserOf(identity) != user
  {
    assert [user][0] == user;
    if ':' !in user {
      forall identity ensures MatchesUsers([user], identity) <==> UserOf(identity) == user {
        UserMatchIsExact([user], identity);
      }
    } else {
      assert MatchesUsers([user], user) && UserOf(user) != user;
    }
  }
}
