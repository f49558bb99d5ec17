/** Principal collections: the identity claims of one actor, grouped by the
    name of the realm that asserted them.  A collection is an immutable value
    produced once by a builder that accumulates (principal, realm name) pairs. */
module Principals {
  import opened Wrappers

  type Principal = string
  type RealmName = string

  /** `realms` lists the realm names in the order in which they first
      contributed a principal; `byRealm` gives, per realm, its principals in
      insertion order and without repeats (an insertion-ordered set). */
  datatype PrincipalCollection = PrincipalCollection(realms: seq<RealmName>, byRealm: map<RealmName, seq<Principal>>)

  datatype UsageError = AlreadyBuilt

  const Empty: PrincipalCollection := PrincipalCollection([], map[])

  predicate NoDuplicates<T(==)>(s: seq<T>) {
    forall i, j :: 0 <= i < j < |s| ==> s[i] != s[j]
  }

  /** `s` extended by `x` as an insertion-ordered set extends: unchanged when
      `x` is already present. */
  function AppendNew<T(==)>(s: seq<T>, x: T): seq<T> {
    if x in s then s else s + [x]
  }

  // ---------------------------------------------------------------------
  // Queries on a built collection

  /** The principals a realm contributed, or the empty sequence for a realm
      that contributed none (never an error). */
  function ForRealm(c: PrincipalCollection, realm: RealmName): (r: seq<Principal>)
    ensures realm !in c.byRealm ==> r == []
  {
    if realm in c.byRealm then c.byRealm[realm] else []
  }

  /** The primary principal: the first principal of the first realm that
      contributed one. */
  function Primary(c: PrincipalCollection): (r: Option<Principal>)
    ensures IsEmpty(c) ==> r == None
    ensures r.Some? ==> c.realms != [] && r.value in ForRealm(c, c.realms[0])
  {
    if c.realms != [] && ForRealm(c, c.realms[0]) != [] then Some(ForRealm(c, c.realms[0])[0]) else None
  }

  predicate IsEmpty(c: PrincipalCollection) {
    c.realms == [] && c.byRealm == map[]
  }

  /** Structural equality of collections: the same principals, in the same
      order, under every realm name. */
  ghost predicate Equivalent(a: PrincipalCollection, b: PrincipalCollection) {
    forall realm :: ForRealm(a, realm) == ForRealm(b, realm)
  }

  // ---------------------------------------------------------------------
  // Building

  /** One `addPrincipal(p, realm)` step applied to the collection built so far. */
  function Add(c: PrincipalCollection, p: Principal, realm: RealmName): (r: PrincipalCollection)
    // the realm keeps everything it had, in order, and now holds p
    ensures ForRealm(c, realm) <= ForRealm(r, realm) && p in ForRealm(r, realm)
    ensures |ForRealm(r, realm)| <= |ForRealm(c, realm)| + 1
    // adding a principal the realm already holds changes nothing there
    ensures p in ForRealm(c, realm) ==> ForRealm(r, realm) == ForRealm(c, realm)
    ensures forall other :: other != realm ==> ForRealm(r, other) == ForRealm(c, other)
    // an existing primary principal stays primary; the first add sets it
    ensures Primary(c).Some? ==> Primary(r) == Primary(c)
    ensures IsEmpty(c) ==> Primary(r) == Some(p)
    ensures !IsEmpty(r)
  {
    PrincipalCollection(AppendNew(c.realms, realm), c.byRealm[realm := AppendNew(ForRealm(c, realm), p)])
  }

  /** The collection that `build()` returns after adding `pairs` in order:
      empty exactly when nothing was added, and with the first principal
      added as its primary principal. */
  function FromPairs(pairs: seq<(Principal, RealmName)>): (r: PrincipalCollection)
    ensures IsEmpty(r) <==> pairs == []
    ensures Primary(r) == if pairs == [] then None else Some(pairs[0].0)
    decreases |pairs|
  {
    if pairs == [] then Empty
    else Add(FromPairs(pairs[..|pairs| - 1]), pairs[|pairs| - 1].0, pairs[|pairs| - 1].1)
  }

  /** `ImmutablePrincipalCollection.ofSinglePrincipal(p, realm)`. */
  function OfSinglePrincipal(p: Principal, realm: RealmName): (r: PrincipalCollection)
    ensures Primary(r) == Some(p) && ForRealm(r, realm) == [p]
    ensures forall other :: other != realm ==> ForRealm(r, other) == []
    ensures !IsEmpty(r)
  {
    PrincipalCollection([realm], map[realm := [p]])
  }

  /** The single-principal collection is the one a builder makes from that
      one pair. */
  lemma SinglePrincipalIsBuilt(p: Principal, realm: RealmName)
    ensures OfSinglePrincipal(p, realm) == FromPairs([(p, realm)])
  {
    assert [(p, realm)][..0] == [];
    assert FromPairs([(p, realm)]) == Add(Empty, p, realm);
    assert AppendNew([], realm) == [realm] && AppendNew(ForRealm(Empty, realm), p) == [p];
    assert Empty.byRealm[realm := [p]] == map[realm := [p]];
  }

  // ---------------------------------------------------------------------
  // Reference definitions: what the built collection should hold

  /** The sequence with every repeat after the first occurrence removed. */
  function Dedup(s: seq<string>): (r: seq<string>)
    ensures forall x :: x in r <==> x in s
    ensures NoDuplicates(r)
    ensures s != [] ==> r != [] && r[0] == s[0]
    ensures |r| <= |s|
    decreases |s|
  {
    if s == [] then []
    else
      var d := Dedup(s[..|s| - 1]);
      assert s == s[..|s| - 1] + [s[|s| - 1]];
      AppendNew(d, s[|s| - 1])
  }

  /** The realm names of `pairs`, in order. */
  function RealmsOf(pairs: seq<(Principal, RealmName)>): (r: seq<RealmName>)
    ensures |r| == |pairs|
    ensures forall i :: 0 <= i < |pairs| ==> r[i] == pairs[i].1
    decreases |pairs|
  {
    if pairs == [] then [] else RealmsOf(pairs[..|pairs| - 1]) + [pairs[|pairs| - 1].1]
  }

  /** The principals added under `realm`, in order, repeats included. */
  function Project(pairs: seq<(Principal, RealmName)>, realm: RealmName): (r: seq<Principal>)
    ensures forall p :: p in r <==> (p, realm) in pairs
    ensures pairs != [] && pairs[0].1 == realm ==> r != [] && r[0] == pairs[0].0
    decreases |pairs|
  {
    if pairs == [] then []
    else
      var init, last := pairs[..|pairs| - 1], pairs[|pairs| - 1];
      assert pairs == init + [last];
      Project(init, realm) + (if last.1 == realm then [last.0] else [])
  }

  lemma DedupSnoc(s: seq<string>, x: string)
    ensures Dedup(s + [x]) == AppendNew(Dedup(s), x)
  {
    assert (s + [x])[..|s|] == s;
  }

  lemma ProjectSnoc(pairs: seq<(Principal, RealmName)>, x: (Principal, RealmName), realm: RealmName)
    ensures Project(pairs + [x], realm) == Project(pairs, realm) + (if x.1 == realm then [x.0] else [])
  {
    assert (pairs + [x])[..|pairs|] == pairs;
  }

  lemma RealmsOfSnoc(pairs: seq<(Principal, RealmName)>, x: (Principal, RealmName))
    ensures RealmsOf(pairs + [x]) == RealmsOf(pairs) + [x.1]
  {
    assert (pairs + [x])[..|pairs|] == pairs;
  }

  /** One more `Add` keeps a collection in step with the reference definitions. */
  lemma AddMatchesReference(init: seq<(Principal, RealmName)>, last: (Principal, RealmName), c: PrincipalCollection)
    requires c.realms == Dedup(RealmsOf(init))
    requires forall realm :: ForRealm(c, realm) == Dedup(Project(init, realm))
    ensures Add(c, last.0, last.1).realms == Dedup(RealmsOf(init + [last]))
    ensures forall realm :: ForRealm(Add(c, last.0, last.1), realm) == Dedup(Project(init + [last], realm))
  {
    RealmsOfSnoc(init, last);
    DedupSnoc(RealmsOf(init), last.1);
    forall realm
      ensures ForRealm(Add(c, last.0, last.1), realm) == Dedup(Project(init + [last], realm))
    {
      ProjectSnoc(init, last, realm);
      if realm == last.1 {
        DedupSnoc(Project(init, realm), last.0);
      } else {
        assert Project(init + [last], realm) == Project(init, realm);
      }
    }
  }

  /** The built collection agrees with the reference definitions: its realms
      are the distinct realm names in first-use order, and each realm holds
      the distinct principals added under it in first-add order. */
  lemma {:induction false} FromPairsMatchesReference(pairs: seq<(Principal, RealmName)>)
    ensures FromPairs(pairs).realms == Dedup(RealmsOf(pairs))
    ensures forall realm :: ForRealm(FromPairs(pairs), realm) == Dedup(Project(pairs, realm))
    decreases |pairs|
  {
    if pairs != [] {
      var init, last := pairs[..|pairs| - 1], pairs[|pairs| - 1];
      assert pairs == init + [last];
      FromPairsMatchesReference(init);
      AddMatchesReference(init, last, FromPairs(init));
    }
  }

  // ---------------------------------------------------------------------
  // Properties of built collections

  /** Building one more pair is one more `Add` on what was built before. */
  lemma BuildStep(pairs: seq<(Principal, RealmName)>, x: (Principal, RealmName))
    ensures FromPairs(pairs + [x]) == Add(FromPairs(pairs), x.0, x.1)
  {
    assert (pairs + [x])[..|pairs|] == pairs;
  }

  /** A built collection holds exactly the added pairs: nothing lost, nothing
      invented, and no principal twice under one realm. */
  lemma BuiltHoldsExactlyAdded(pairs: seq<(Principal, RealmName)>, p: Principal, realm: RealmName)
    ensures p in ForRealm(FromPairs(pairs), realm) <==> (p, realm) in pairs
    ensures NoDuplicates(ForRealm(FromPairs(pairs), realm))
  {
    FromPairsMatchesReference(pairs);
  }

  /** Interleaving pairs of different realms does not change the built
      collection: only the order within each realm matters. */
  lemma InterleavingIrrelevant(p1: seq<(Principal, RealmName)>, p2: seq<(Principal, RealmName)>)
    requires forall realm :: Project(p1, realm) == Project(p2, realm)
    ensures Equivalent(FromPairs(p1), FromPairs(p2))
  {
    FromPairsMatchesReference(p1);
    FromPairsMatchesReference(p2);
  }

  /** Adding a principal never removes or replaces one added before it. */
  lemma {:induction false} AddsAccumulate(pairs: seq<(Principal, RealmName)>, more: seq<(Principal, RealmName)>, realm: RealmName)
    ensures ForRealm(FromPairs(pairs), realm) <= ForRealm(FromPairs(pairs + more), realm)
    decreases |more|
  {
    if more != [] {
      var init := more[..|more| - 1];
      assert pairs + more == (pairs + init) + [more[|more| - 1]];
      assert (pairs + more)[..|pairs + more| - 1] == pairs + init;
      AddsAccumulate(pairs, init, realm);
    } else {
      assert pairs + more == pairs;
    }
  }

  // ---------------------------------------------------------------------
  // The builder

  /** `ImmutablePrincipalCollection.Builder`: accumulates pairs until
      `build()` freezes it; afterwards it can still be inspected but no
      longer extended. */
  class Builder {
    var added: seq<(Principal, RealmName)>
    var built: bool

    constructor ()
      ensures added == [] && !built
    {
      added := [];
      built := false;
    }

    /** Records one pair; refused with a usage error once built. */
    method AddPrincipal(p: Principal, realm: RealmName) returns (r: Outcome<UsageError>)
      modifies this
      ensures r == if old(built) then Fail(AlreadyBuilt) else Pass
      ensures added == if old(built) then old(added) else old(added) + [(p, realm)]
      ensures built == old(built)
    {
      if built {
        r := Fail(AlreadyBuilt);
      } else {
        added := added + [(p, realm)];
        r := Pass;
      }
    }

    /** Freezes the builder and returns the collection of everything added;
        the recorded pairs stay available for rendering. */
    method Build() returns (c: PrincipalCollection)
      modifies this
      ensures built && added == old(added)
      ensures c == FromPairs(added)
    {
      built := true;
      c := FromPairs(added);
    }
  }
}
