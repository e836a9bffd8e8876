/**
 * What `getServerWorlds` computes: the server's worlds, in enumeration
 * order, whose world type has the same registry name as the requested type.
 * Names are compared, not values: both sides are looked up in the reverse
 * direction of the dimension-type table.
 */
module WorldFilter {
  import opened Wrappers
  import opened Registries
  import opened Host

  /** Every world's type has a name in the table (otherwise the name comparison dereferences null). */
  ghost predicate AllTypesNamed(worlds: seq<ServerWorld>, names: map<DimensionType, ResourceLocation>)
  {
    forall w :: w in worlds ==> w.dimensionType in names
  }

  /** The world's type is registered under the same name as `dimensionType`. */
  predicate SameTypeName(names: map<DimensionType, ResourceLocation>, w: ServerWorld, dimensionType: DimensionType)
    requires w.dimensionType in names
  {
    Some(names[w.dimensionType]) == GetKey(names, dimensionType)
  }

  /** The matching worlds of `worlds`, in their order. */
  function WorldsOfType(worlds: seq<ServerWorld>, names: map<DimensionType, ResourceLocation>, dimensionType: DimensionType): seq<ServerWorld>
    requires AllTypesNamed(worlds, names)
  {
    if worlds == [] then []
    else if SameTypeName(names, worlds[0], dimensionType) then [worlds[0]] + WorldsOfType(worlds[1..], names, dimensionType)
    else WorldsOfType(worlds[1..], names, dimensionType)
  }

  /** `sub` can be obtained from `s` by deleting elements, keeping the order of the rest. */
  ghost predicate IsSubsequence<T>(sub: seq<T>, s: seq<T>)
    decreases |s|
  {
    if s == [] then sub == []
    else (sub != [] && sub[0] == s[0] && IsSubsequence(sub[1..], s[1..])) || IsSubsequence(sub, s[1..])
  }

  /** Every world of `sub` matches. */
  ghost predicate AllMatch(sub: seq<ServerWorld>, names: map<DimensionType, ResourceLocation>, dimensionType: DimensionType)
  {
    forall w :: w in sub ==> w.dimensionType in names && SameTypeName(names, w, dimensionType)
  }

  /** The filter keeps order, keeps only matching worlds, and keeps every occurrence of each. */
  lemma {:induction false} WorldsOfTypeIsMatchingSubsequence(worlds: seq<ServerWorld>, names: map<DimensionType, ResourceLocation>, dimensionType: DimensionType)
    requires AllTypesNamed(worlds, names)
    ensures IsSubsequence(WorldsOfType(worlds, names, dimensionType), worlds)
    ensures AllMatch(WorldsOfType(worlds, names, dimensionType), names, dimensionType)
    ensures forall w :: w in worlds ==>
      multiset(WorldsOfType(worlds, names, dimensionType))[w]
        == if SameTypeName(names, w, dimensionType) then multiset(worlds)[w] else 0
  {
    if worlds != [] {
      var rest := worlds[1..];
      WorldsOfTypeIsMatchingSubsequence(rest, names, dimensionType);
      assert worlds == [worlds[0]] + rest;
      var r := WorldsOfType(worlds, names, dimensionType);
      var rr := WorldsOfType(rest, names, dimensionType);
      if SameTypeName(names, worlds[0], dimensionType) {
        assert r == [worlds[0]] + rr;
        assert r[1..] == rr;
      } else {
        assert r == rr;
      }
      forall w | w in worlds
        ensures multiset(r)[w] == if SameTypeName(names, w, dimensionType) then multiset(worlds)[w] else 0
      {
        assert multiset(worlds)[w] == multiset([worlds[0]])[w] + multiset(rest)[w];
        if SameTypeName(names, worlds[0], dimensionType) {
          assert multiset(r)[w] == multiset([worlds[0]])[w] + multiset(rr)[w];
        }
        if w !in rest {
          if w in rr {
            SubsequenceMembers(rr, rest, w);
          }
          assert multiset(rr)[w] == 0 && multiset(rest)[w] == 0;
        }
      }
    }
  }

  /** A matching subsequence is never longer than the filter. */
  lemma {:induction false} MatchingSubsequenceBounded(sub: seq<ServerWorld>, worlds: seq<ServerWorld>, names: map<DimensionType, ResourceLocation>, dimensionType: DimensionType)
    requires AllTypesNamed(worlds, names)
    requires IsSubsequence(sub, worlds) && AllMatch(sub, names, dimensionType)
    ensures |sub| <= |WorldsOfType(worlds, names, dimensionType)|
    decreases |worlds|
  {
    if worlds != [] {
      var rest := worlds[1..];
      assert AllTypesNamed(rest, names) by {
        forall w | w in rest ensures w.dimensionType in names { assert w in worlds; }
      }
      if sub != [] && sub[0] == worlds[0] && IsSubsequence(sub[1..], rest) {
        assert sub[0] in sub;
        assert AllMatch(sub[1..], names, dimensionType) by {
          forall w | w in sub[1..] ensures w in sub { }
        }
        MatchingSubsequenceBounded(sub[1..], rest, names, dimensionType);
      } else {
        MatchingSubsequenceBounded(sub, rest, names, dimensionType);
      }
    }
  }

  /**
   * The filter is the only matching subsequence of its length: any
   * order-preserving selection of matching worlds that is as long as the
   * filter's result is that result.
   */
  lemma {:induction false} MatchingSubsequenceIsFilter(sub: seq<ServerWorld>, worlds: seq<ServerWorld>, names: map<DimensionType, ResourceLocation>, dimensionType: DimensionType)
    requires AllTypesNamed(worlds, names)
    requires IsSubsequence(sub, worlds) && AllMatch(sub, names, dimensionType)
    requires |sub| >= |WorldsOfType(worlds, names, dimensionType)|
    ensures sub == WorldsOfType(worlds, names, dimensionType)
    decreases |worlds|
  {
    if worlds != [] {
      var rest := worlds[1..];
      assert AllTypesNamed(rest, names) by {
        forall w | w in rest ensures w.dimensionType in names { assert w in worlds; }
      }
      var rr := WorldsOfType(rest, names, dimensionType);
      if sub != [] && sub[0] == worlds[0] && IsSubsequence(sub[1..], rest) {
        assert sub[0] in sub;
        assert AllMatch(sub[1..], names, dimensionType) by {
          forall w | w in sub[1..] ensures w in sub { }
        }
        MatchingSubsequenceIsFilter(sub[1..], rest, names, dimensionType);
        assert sub == [sub[0]] + sub[1..];
      } else {
        MatchingSubsequenceBounded(sub, rest, names, dimensionType);
        if SameTypeName(names, worlds[0], dimensionType) {
          assert false;
        }
        MatchingSubsequenceIsFilter(sub, rest, names, dimensionType);
      }
    }
  }

  /**
   * In a bidirectional dimension-type table, comparing names is comparing
   * types: the filter keeps exactly the worlds whose type is the requested
   * one, and nothing at all when the requested type is not registered.
   */
  lemma WorldsOfTypeByValue(worlds: seq<ServerWorld>, entries: map<RegistryKey, DimensionType>,
                            names: map<DimensionType, ResourceLocation>, dimensionType: DimensionType)
    requires NamesInverse(DimensionTypeKey, entries, names)
    requires AllTypesNamed(worlds, names)
    ensures forall w :: w in WorldsOfType(worlds, names, dimensionType) <==>
      w in worlds && dimensionType in names && w.dimensionType == dimensionType
    ensures dimensionType !in names ==> WorldsOfType(worlds, names, dimensionType) == []
  {
    WorldsOfTypeIsMatchingSubsequence(worlds, names, dimensionType);
    var r := WorldsOfType(worlds, names, dimensionType);
    forall w ensures w in r <==> w in worlds && dimensionType in names && w.dimensionType == dimensionType {
      if w in worlds {
        NamesInverseInjective(DimensionTypeKey, entries, names, w.dimensionType, dimensionType);
        assert w in r <==> multiset(r)[w] > 0;
      } else if w in r {
        SubsequenceMembers(r, worlds, w);
      }
    }
  }

  /** An element of a subsequence is an element of the sequence. */
  lemma {:induction false} SubsequenceMembers<T>(sub: seq<T>, s: seq<T>, x: T)
    requires IsSubsequence(sub, s) && x in sub
    ensures x in s
    decreases |s|
  {
    if s != [] {
      if sub != [] && sub[0] == s[0] && IsSubsequence(sub[1..], s[1..]) {
        if x != sub[0] {
          assert sub == [sub[0]] + sub[1..];
          SubsequenceMembers(sub[1..], s[1..], x);
        }
      } else {
        SubsequenceMembers(sub, s[1..], x);
      }
    }
  }
}
