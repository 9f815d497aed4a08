/** mapToSliceComponentStatus: component entries leave the map in random order and are put
    into one canonical order by name. */
module StatusOrder {
  import opened Status
  import opened StatusCompare

  /** Byte-wise string order. */
  predicate Before(a: string, b: string) {
    b != "" && (a == "" || if a[0] == b[0] then Before(a[1..], b[1..]) else a[0] < b[0])
  }

  /** At the first difference the smaller character comes first; a prefix comes before the whole. */
  lemma {:induction false} BeforeIff(a: string, b: string)
    ensures Before(a, b) <==>
              a < b || exists k :: 0 <= k < |a| && k < |b| && a[..k] == b[..k] && a[k] < b[k]
  {
    if a != "" && b != "" && a[0] == b[0] {
      var x, y := a[1..], b[1..];
      BeforeIff(x, y);
      assert a == [a[0]] + x && b == [b[0]] + y;
      if k :| 0 <= k < |x| && k < |y| && x[..k] == y[..k] && x[k] < y[k] {
        assert a[..k + 1] == [a[0]] + x[..k] && b[..k + 1] == [b[0]] + y[..k];
        assert a[k + 1] < b[k + 1];
      }
      if k :| 0 <= k < |a| && k < |b| && a[..k] == b[..k] && a[k] < b[k] {
        assert x[..k - 1] == a[..k][1..] && y[..k - 1] == b[..k][1..];
        assert x[k - 1] < y[k - 1];
      }
    }
  }

  lemma {:induction false} BeforeTotal(a: string, b: string)
    ensures !Before(a, a)
    ensures a != b ==> Before(a, b) != Before(b, a)
  {
    if a != "" && b != "" {
      BeforeTotal(a[1..], b[1..]);
      assert a == [a[0]] + a[1..] && b == [b[0]] + b[1..];
    } else if a != "" {
      BeforeTotal(a[1..], b);
    }
  }

  lemma {:induction false} BeforeTransitive(a: string, b: string, c: string)
    requires Before(a, b) && Before(b, c)
    ensures Before(a, c)
  {
    if a != "" && a[0] == b[0] == c[0] {
      BeforeTransitive(a[1..], b[1..], c[1..]);
    }
  }

  ghost predicate SortedByName(l: seq<CompStatus>) {
    forall i, j :: 0 <= i < j < |l| ==> Before(l[i].name, l[j].name)
  }

  /** sort.Slice by name. */
  function Insert(l: seq<CompStatus>, x: CompStatus): seq<CompStatus> {
    if l == [] || Before(x.name, l[0].name) then [x] + l else [l[0]] + Insert(l[1..], x)
  }

  function SortSlice(l: seq<CompStatus>): seq<CompStatus> {
    if l == [] then [] else Insert(SortSlice(l[..|l| - 1]), l[|l| - 1])
  }

  lemma {:induction false} InsertSorted(l: seq<CompStatus>, x: CompStatus)
    requires SortedByName(l) && forall y :: y in l ==> y.name != x.name
    ensures SortedByName(Insert(l, x))
    ensures forall y :: y in Insert(l, x) <==> y == x || y in l
  {
    if l != [] {
      BeforeTotal(x.name, l[0].name);
      if Before(x.name, l[0].name) {
        forall j | 0 < j < |l| ensures Before(x.name, l[j].name) {
          BeforeTransitive(x.name, l[0].name, l[j].name);
        }
      } else {
        InsertSorted(l[1..], x);
        var r := Insert(l[1..], x);
        assert forall y :: y in l <==> y == l[0] || y in l[1..];
        forall j | 0 <= j < |r| ensures Before(l[0].name, r[j].name) {
          assert r[j] in r;
        }
      }
    }
  }

  ghost predicate DistinctEntries(l: seq<CompStatus>) {
    forall i, j :: 0 <= i < j < |l| ==> l[i].name != l[j].name
  }

  lemma {:induction false} SortSliceSorts(l: seq<CompStatus>)
    requires DistinctEntries(l)
    ensures SortedByName(SortSlice(l))
    ensures forall y :: y in SortSlice(l) <==> y in l
  {
    if l != [] {
      var front, last := l[..|l| - 1], l[|l| - 1];
      SortSliceSorts(front);
      assert forall y :: y in front ==> y.name != last.name by {
        assert forall i :: 0 <= i < |front| ==> front[i] == l[i];
      }
      InsertSorted(SortSlice(front), last);
      assert forall y :: y in l <==> y in front || y == last;
    }
  }

  /** Two sorted lists with the same entries are the same list. */
  lemma {:induction false} SortedUnique(a: seq<CompStatus>, b: seq<CompStatus>)
    requires SortedByName(a) && SortedByName(b)
    requires forall y :: y in a <==> y in b
    ensures a == b
  {
    if a == [] {
      assert forall i :: 0 <= i < |b| ==> b[i] in a;
    } else {
      assert a[0] in b;
      LeastFirst(a, b);
      forall y ensures y in a[1..] <==> y in b[1..] {
        TailMembers(a, y);
        TailMembers(b, y);
      }
      SortedUnique(a[1..], b[1..]);
      assert a == [a[0]] + a[1..] && b == [b[0]] + b[1..];
    }
  }

  lemma TailMembers(a: seq<CompStatus>, y: CompStatus)
    requires a != [] && SortedByName(a)
    ensures y in a[1..] <==> y in a && y != a[0]
  {
    assert a == [a[0]] + a[1..];
    forall i | 0 <= i < |a[1..]| ensures a[1..][i] != a[0] {
      BeforeTotal(a[0].name, a[0].name);
      assert Before(a[0].name, a[i + 1].name);
    }
  }

  lemma LeastFirst(a: seq<CompStatus>, b: seq<CompStatus>)
    requires a != [] && b != [] && SortedByName(a) && SortedByName(b)
    requires forall y :: y in a <==> y in b
    ensures a[0] == b[0]
  {
    assert a[0] in a && b[0] in b;
    var i :| 0 <= i < |b| && b[i] == a[0];
    var j :| 0 <= j < |a| && a[j] == b[0];
    BeforeTotal(a[0].name, b[0].name);
    assert i == 0 || !Before(a[0].name, b[0].name);
  }

  // ----- from map to list -----

  /** l lists the values of m, each once. */
  ghost predicate Enumerates(l: seq<CompStatus>, m: map<string, CompStatus>) {
    && DistinctEntries(l)
    && forall s :: s in l <==> s.name in m && m[s.name] == s
  }

  ghost predicate KeyedByName(m: map<string, CompStatus>) {
    forall k :: k in m ==> m[k].name == k
  }

  ghost function SomeOrder(m: map<string, CompStatus>): (l: seq<CompStatus>)
    requires KeyedByName(m)
    ensures Enumerates(l, m)
  {
    if m == map[] then []
    else
      var k :| k in m;
      assert m == (m - {k})[k := m[k]];
      SomeOrder(m - {k}) + [m[k]]
  }

  /** The one list a map is turned into. */
  ghost function Canonical(m: map<string, CompStatus>): seq<CompStatus>
    requires KeyedByName(m)
  {
    SortSlice(SomeOrder(m))
  }

  lemma CanonicalWhateverOrder(m: map<string, CompStatus>, l: seq<CompStatus>)
    requires KeyedByName(m) && Enumerates(l, m)
    ensures SortSlice(l) == Canonical(m)
  {
    SortSliceSorts(l);
    SortSliceSorts(SomeOrder(m));
    SortedUnique(SortSlice(l), Canonical(m));
  }

  lemma CanonicalMembers(m: map<string, CompStatus>)
    requires KeyedByName(m)
    ensures forall s :: s in Canonical(m) <==> s.name in m && m[s.name] == s
    ensures DistinctKeys(ComponentPairs(Canonical(m)))
    ensures SortedByName(Canonical(m))
  {
    SortSliceSorts(SomeOrder(m));
    var l := Canonical(m);
    forall i, j | 0 <= i < j < |l| ensures l[i].name != l[j].name {
      BeforeTotal(l[i].name, l[i].name);
      assert Before(l[i].name, l[j].name);
    }
  }

  method MapToSlice(statusMap: map<string, CompStatus>) returns (slice: seq<CompStatus>)
    requires KeyedByName(statusMap)
    ensures slice == Canonical(statusMap)
  {
    slice := [];
    var todo := statusMap.Keys;
    while todo != {}
      invariant todo <= statusMap.Keys
      invariant DistinctEntries(slice)
      invariant forall s :: s in slice <==> s.name in statusMap && s.name !in todo && statusMap[s.name] == s
      decreases todo
    {
      var k :| k in todo;
      ghost var before := slice;
      slice := slice + [statusMap[k]];
      todo := todo - {k};
      assert forall s :: s in slice <==> s in before || s == statusMap[k];
      assert forall i :: 0 <= i < |before| ==> slice[i] in before;
    }
    CanonicalWhateverOrder(statusMap, slice);
    slice := SortSlice(slice);
  }
}
