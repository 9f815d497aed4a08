/** The order-insensitive comparisons that decide whether a status write is skipped
    (internal/controller/app/applicationdefinition_controller.go). */
module StatusCompare {
  import opened Text
  import opened Config
  import opened Status

  /** The map the comparison builds from its first list: the last entry of a key wins. */
  function LastOf<K, V>(l: seq<(K, V)>): map<K, V> {
    if l == [] then map[] else LastOf(l[..|l| - 1])[l[|l| - 1].0 := l[|l| - 1].1]
  }

  /** What the comparisons test: equal lengths, and each entry of the second list is in the map of the first. */
  predicate Matches<K(==), V(==)>(l1: seq<(K, V)>, l2: seq<(K, V)>) {
    && |l1| == |l2|
    && forall i :: 0 <= i < |l2| ==> l2[i].0 in LastOf(l1) && LastOf(l1)[l2[i].0] == l2[i].1
  }

  ghost predicate DistinctKeys<K, V>(l: seq<(K, V)>) {
    forall i, j :: 0 <= i < j < |l| ==> l[i].0 != l[j].0
  }

  lemma {:induction false} LastOfDistinct<K, V>(l: seq<(K, V)>)
    requires DistinctKeys(l)
    ensures |LastOf(l)| == |l|
    ensures forall i :: 0 <= i < |l| ==> l[i].0 in LastOf(l) && LastOf(l)[l[i].0] == l[i].1
    ensures forall k :: k in LastOf(l) ==> exists i :: 0 <= i < |l| && l[i].0 == k
  {
    if l != [] {
      var front, last := l[..|l| - 1], l[|l| - 1];
      LastOfDistinct(front);
      assert last.0 !in LastOf(front) by {
        assert forall i :: 0 <= i < |front| ==> front[i].0 == l[i].0 && l[i].0 != last.0;
      }
      forall k | k in LastOf(l) ensures exists i :: 0 <= i < |l| && l[i].0 == k {
        if k in LastOf(front) {
          var i :| 0 <= i < |front| && front[i].0 == k;
          assert l[i].0 == k;
        } else {
          assert l[|l| - 1].0 == k;
        }
      }
    }
  }

  lemma SubsetOfEqualSize<K>(a: set<K>, b: set<K>)
    requires a <= b && |a| == |b|
    ensures a == b
  {
    if a != b {
      var x :| x in b && x !in a;
      assert a <= b - {x};
      SubsetSize(a, b - {x});
    }
  }

  lemma SubsetSize<K>(a: set<K>, b: set<K>)
    requires a <= b
    ensures |a| <= |b|
  {
    if a != {} {
      var x :| x in a;
      SubsetSize(a - {x}, b - {x});
    }
  }

  /** On lists with distinct keys the one-directional test is equality of the denoted maps. */
  lemma MatchesIsEquality<K, V>(l1: seq<(K, V)>, l2: seq<(K, V)>)
    requires DistinctKeys(l1) && DistinctKeys(l2)
    ensures Matches(l1, l2) <==> LastOf(l1) == LastOf(l2)
  {
    LastOfDistinct(l1);
    LastOfDistinct(l2);
    var m1, m2 := LastOf(l1), LastOf(l2);
    assert |m1.Keys| == |m1| && |m2.Keys| == |m2|;
    if Matches(l1, l2) {
      forall k | k in m2 ensures k in m1 && m1[k] == m2[k] {
        var i :| 0 <= i < |l2| && l2[i].0 == k;
      }
      SubsetOfEqualSize(m2.Keys, m1.Keys);
      assert m1 == m2;
    }
  }

  /** ... or, without the maps: the two lists have the same members. */
  lemma MatchesIsMembership<K, V>(l1: seq<(K, V)>, l2: seq<(K, V)>)
    requires DistinctKeys(l1) && DistinctKeys(l2)
    ensures Matches(l1, l2) <==> forall p :: p in l1 <==> p in l2
  {
    MatchesIsEquality(l1, l2);
    if Matches(l1, l2) {
      forall p ensures p in l1 <==> p in l2 {
        PairsOfMap(l1, p);
        PairsOfMap(l2, p);
      }
    }
    if forall p :: p in l1 <==> p in l2 {
      MembersMakeMap(l1, l2);
      MembersMakeMap(l2, l1);
      assert LastOf(l1) == LastOf(l2);
    }
  }

  lemma MembersMakeMap<K, V>(l1: seq<(K, V)>, l2: seq<(K, V)>)
    requires DistinctKeys(l1) && DistinctKeys(l2) && forall p :: p in l1 ==> p in l2
    ensures forall k :: k in LastOf(l1) ==> k in LastOf(l2) && LastOf(l2)[k] == LastOf(l1)[k]
  {
    forall k | k in LastOf(l1) ensures k in LastOf(l2) && LastOf(l2)[k] == LastOf(l1)[k] {
      PairsOfMap(l1, (k, LastOf(l1)[k]));
      PairsOfMap(l2, (k, LastOf(l1)[k]));
    }
  }

  lemma PairsOfMap<K, V>(l: seq<(K, V)>, p: (K, V))
    requires DistinctKeys(l)
    ensures p in l <==> p.0 in LastOf(l) && LastOf(l)[p.0] == p.1
  {
    LastOfDistinct(l);
    if p.0 in LastOf(l) && LastOf(l)[p.0] == p.1 {
      var i :| 0 <= i < |l| && l[i].0 == p.0;
      assert l[i] == p;
    }
  }

  /** Hence an equivalence relation on such lists. */
  lemma MatchesEquivalence<K, V>(l1: seq<(K, V)>, l2: seq<(K, V)>, l3: seq<(K, V)>)
    requires DistinctKeys(l1) && DistinctKeys(l2) && DistinctKeys(l3)
    ensures Matches(l1, l1)
    ensures Matches(l1, l2) <==> Matches(l2, l1)
    ensures Matches(l1, l2) && Matches(l2, l3) ==> Matches(l1, l3)
  {
    MatchesIsEquality(l1, l1);
    MatchesIsEquality(l1, l2);
    MatchesIsEquality(l2, l1);
    MatchesIsEquality(l2, l3);
    MatchesIsEquality(l1, l3);
  }

  /** A repeated key breaks symmetry: the test passes one way only. */
  lemma DuplicatesBreakSymmetry<K, V>(a: K, b: K, x: V, y: V)
    requires a != b
    ensures Matches([(a, x), (b, y)], [(a, x), (a, x)]) && !Matches([(a, x), (a, x)], [(a, x), (b, y)])
  {
    var l1, l2 := [(a, x), (b, y)], [(a, x), (a, x)];
    assert l1[..1] == [(a, x)] && l2[..1] == [(a, x)] && [(a, x)][..0] == [];
    assert LastOf([(a, x)]) == map[a := x];
    assert LastOf(l1) == map[a := x, b := y];
    assert LastOf(l2) == map[a := x];
    assert l2[0].0 in LastOf(l1);
    assert l1[1].0 !in LastOf(l2);
  }

  // ----- the two comparisons -----

  function ConditionPairs(cs: seq<Condition>): (l: seq<(ConditionType, (bool, Reason, Option<Error>))>)
    ensures |l| == |cs|
    ensures forall i :: 0 <= i < |cs| ==> l[i] == (cs[i].kind, (cs[i].isTrue, cs[i].reason, cs[i].detail))
  {
    seq(|cs|, i requires 0 <= i < |cs| => (cs[i].kind, (cs[i].isTrue, cs[i].reason, cs[i].detail)))
  }

  function ComponentPairs(ss: seq<CompStatus>): (l: seq<(string, CompStatus)>)
    ensures |l| == |ss|
    ensures forall i :: 0 <= i < |ss| ==> l[i] == (ss[i].name, ss[i])
  {
    seq(|ss|, i requires 0 <= i < |ss| => (ss[i].name, ss[i]))
  }

  method ConditionsEqual(c1: seq<Condition>, c2: seq<Condition>) returns (equal: bool)
    ensures equal == Matches(ConditionPairs(c1), ConditionPairs(c2))
  {
    ghost var l1, l2 := ConditionPairs(c1), ConditionPairs(c2);
    if |c1| != |c2| {
      return false;
    }
    var map1: map<ConditionType, Condition> := map[];
    for i := 0 to |c1|
      invariant map1.Keys == LastOf(l1[..i]).Keys
      invariant forall k :: k in map1 ==> LastOf(l1[..i])[k] == (map1[k].isTrue, map1[k].reason, map1[k].detail)
    {
      assert l1[..i + 1][..i] == l1[..i];
      map1 := map1[c1[i].kind := c1[i]];
    }
    assert l1[..|c1|] == l1;
    for i := 0 to |c2|
      invariant forall j :: 0 <= j < i ==> l2[j].0 in LastOf(l1) && LastOf(l1)[l2[j].0] == l2[j].1
    {
      var c := c2[i];
      assert l2[i].0 == c.kind;
      if c.kind !in map1 || map1[c.kind].isTrue != c.isTrue || map1[c.kind].reason != c.reason
         || map1[c.kind].detail != c.detail {
        return false;
      }
    }
    return true;
  }

  method ComponentStatusesEqual(s1: seq<CompStatus>, s2: seq<CompStatus>) returns (equal: bool)
    ensures equal == Matches(ComponentPairs(s1), ComponentPairs(s2))
  {
    ghost var l1, l2 := ComponentPairs(s1), ComponentPairs(s2);
    if |s1| != |s2| {
      return false;
    }
    var map1: map<string, CompStatus> := map[];
    for i := 0 to |s1|
      invariant map1 == LastOf(l1[..i])
      invariant forall k :: k in map1 ==> map1[k].name == k
    {
      assert l1[..i + 1][..i] == l1[..i];
      map1 := map1[s1[i].name := s1[i]];
    }
    assert l1[..|s1|] == l1;
    for i := 0 to |s2|
      invariant forall j :: 0 <= j < i ==> l2[j].0 in LastOf(l1) && LastOf(l1)[l2[j].0] == l2[j].1
    {
      var s := s2[i];
      assert l2[i].0 == s.name;
      if s.name !in map1 || map1[s.name].kind != s.kind || map1[s.name].apiVersion != s.apiVersion
         || map1[s.name].resourceName != s.resourceName || map1[s.name].namespace != s.namespace
         || map1[s.name].health != s.health || map1[s.name].message != s.message {
        return false;
      }
    }
    return true;
  }

  lemma SameConditions(a: seq<Condition>, b: seq<Condition>)
    requires DistinctTypes(a) && DistinctTypes(b)
    ensures Matches(ConditionPairs(a), ConditionPairs(b)) <==> forall c :: c in a <==> c in b
  {
    hide Matches;
    var l1, l2 := ConditionPairs(a), ConditionPairs(b);
    MatchesIsMembership(l1, l2);
    if forall p :: p in l1 <==> p in l2 {
      forall c ensures c in a <==> c in b {
        ConditionPair(a, c);
        ConditionPair(b, c);
      }
    }
    if forall c :: c in a <==> c in b {
      forall p ensures p in l1 <==> p in l2 {
        ConditionPair(a, Condition(p.0, p.1.0, p.1.1, p.1.2));
        ConditionPair(b, Condition(p.0, p.1.0, p.1.1, p.1.2));
      }
    }
  }

  lemma ConditionPair(cs: seq<Condition>, c: Condition)
    ensures c in cs <==> (c.kind, (c.isTrue, c.reason, c.detail)) in ConditionPairs(cs)
  {
    var l := ConditionPairs(cs);
    if (c.kind, (c.isTrue, c.reason, c.detail)) in l {
      var i :| 0 <= i < |l| && l[i] == (c.kind, (c.isTrue, c.reason, c.detail));
      assert cs[i] == c;
    }
    if c in cs {
      var i :| 0 <= i < |cs| && cs[i] == c;
      assert l[i] == (c.kind, (c.isTrue, c.reason, c.detail));
    }
  }

  lemma SameEntries(a: seq<CompStatus>, b: seq<CompStatus>)
    requires DistinctKeys(ComponentPairs(a)) && DistinctKeys(ComponentPairs(b))
    ensures Matches(ComponentPairs(a), ComponentPairs(b)) <==> forall s :: s in a <==> s in b
  {
    hide Matches;
    var l1, l2 := ComponentPairs(a), ComponentPairs(b);
    MatchesIsMembership(l1, l2);
    if forall p :: p in l1 <==> p in l2 {
      forall s ensures s in a <==> s in b {
        EntryPair(a, (s.name, s));
        EntryPair(b, (s.name, s));
      }
    }
    if forall s :: s in a <==> s in b {
      forall p ensures p in l1 <==> p in l2 {
        EntryPair(a, p);
        EntryPair(b, p);
      }
    }
  }

  lemma EntryPair(l: seq<CompStatus>, p: (string, CompStatus))
    ensures p in ComponentPairs(l) <==> p.0 == p.1.name && p.1 in l
  {
    var ps := ComponentPairs(l);
    if p.0 == p.1.name && p.1 in l {
      var i :| 0 <= i < |l| && l[i] == p.1;
      assert ps[i] == p;
    }
  }

  /** The test of updateStatusIfNeeded: the replica record and the annotations are not looked at. */
  predicate SameStatus(a: AppStatus, b: AppStatus) {
    && a.phase == b.phase
    && Matches(ConditionPairs(a.conditions), ConditionPairs(b.conditions))
    && Matches(ComponentPairs(a.components), ComponentPairs(b.components))
    && a.observedGeneration == b.observedGeneration
    && a.lastChangeID == b.lastChangeID
  }

  /** Two statuses that agree on everything but condition order are the same to it. */
  lemma SameStatusReflexive(st: AppStatus)
    requires DistinctTypes(st.conditions) && DistinctKeys(ComponentPairs(st.components))
    ensures SameStatus(st, st)
  {
    MatchesIsEquality(ConditionPairs(st.conditions), ConditionPairs(st.conditions));
    MatchesIsEquality(ComponentPairs(st.components), ComponentPairs(st.components));
  }
}
