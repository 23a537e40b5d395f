/**
 * The grouping the dashboard panels share: a `Record<string, number>` filled by
 * `grouped[k] = (grouped[k] || 0) + amount`, read back with `Object.keys` (in
 * order of first insertion), and the `sort((a, b) => b.value - a.value)` of the
 * resulting `{ name, value }` list. The dictionary is an association list in
 * insertion order.
 */
module Aggregation {
  import opened Wrappers

  datatype Entry = Entry(name: string, value: real)

  function Names(es: seq<Entry>): (r: seq<string>)
    ensures |r| == |es|
  {
    if es == [] then [] else [es[0].name] + Names(es[1..])
  }

  function SumValues(es: seq<Entry>): real
  {
    if es == [] then 0.0 else es[0].value + SumValues(es[1..])
  }

  predicate Distinct(xs: seq<string>)
  {
    forall i, j :: 0 <= i < j < |xs| ==> xs[i] != xs[j]
  }

  /** `grouped[k]`: the value stored under `k`, if any. */
  function Lookup(es: seq<Entry>, k: string): Option<real>
  {
    if es == [] then None else if es[0].name == k then Some(es[0].value) else Lookup(es[1..], k)
  }

  /** `grouped[k] = (grouped[k] || 0) + v`: update the entry in place, or add one at the end. */
  function AddTo(es: seq<Entry>, k: string, v: real): seq<Entry>
  {
    if es == [] then [Entry(k, v)]
    else if es[0].name == k then [Entry(k, es[0].value + v)] + es[1..]
    else [es[0]] + AddTo(es[1..], k, v)
  }

  /** A new name goes to the end; a known one keeps its place. */
  lemma {:induction false} AddToNames(es: seq<Entry>, k: string, v: real)
    ensures Names(AddTo(es, k, v)) == if k in Names(es) then Names(es) else Names(es) + [k]
  {
    if es != [] {
      assert Names(es) == [es[0].name] + Names(es[1..]);
      if es[0].name != k {
        AddToNames(es[1..], k, v);
        assert Names(AddTo(es, k, v)) == [es[0].name] + Names(AddTo(es[1..], k, v));
      } else {
        assert Names(AddTo(es, k, v)) == [k] + Names(es[1..]);
      }
    }
  }

  lemma {:induction false} AddToSum(es: seq<Entry>, k: string, v: real)
    ensures SumValues(AddTo(es, k, v)) == SumValues(es) + v
  {
    if es != [] && es[0].name != k {
      AddToSum(es[1..], k, v);
      assert AddTo(es, k, v)[1..] == AddTo(es[1..], k, v);
    } else if es != [] {
      assert AddTo(es, k, v)[1..] == es[1..];
    }
  }

  /** After the update, `k` holds its old value (or 0) plus `v`; every other name is untouched. */
  lemma {:induction false} LookupAddTo(es: seq<Entry>, k: string, v: real, j: string)
    ensures Lookup(AddTo(es, k, v), j) == if j == k then Some(Lookup(es, k).GetOr(0.0) + v) else Lookup(es, j)
  {
    if es != [] && es[0].name != k {
      LookupAddTo(es[1..], k, v, j);
    }
  }

  /** The dictionary after `forEach` has added every item's value under its name. */
  function Grouped(items: seq<Entry>): seq<Entry>
  {
    if items == [] then []
    else
      var last := items[|items| - 1];
      AddTo(Grouped(items[..|items| - 1]), last.name, last.value)
  }

  /** The names in order of first appearance: what `Object.keys` lists. */
  function Dedup(xs: seq<string>): (r: seq<string>)
    ensures Distinct(r)
    ensures forall x :: x in r <==> x in xs
  {
    if xs == [] then []
    else
      var d := Dedup(xs[..|xs| - 1]);
      assert xs == xs[..|xs| - 1] + [xs[|xs| - 1]];
      if xs[|xs| - 1] in d then d else d + [xs[|xs| - 1]]
  }

  /** The sum of the values of the items named `k`. */
  function KeyTotal(items: seq<Entry>, k: string): real
  {
    if items == [] then 0.0
    else KeyTotal(items[..|items| - 1], k) + (if items[|items| - 1].name == k then items[|items| - 1].value else 0.0)
  }

  lemma {:induction false} NamesAt(es: seq<Entry>, i: nat)
    requires i < |es|
    ensures Names(es)[i] == es[i].name
  {
    if i > 0 {
      NamesAt(es[1..], i - 1);
    }
  }

  lemma {:induction false} NamesAppend(a: seq<Entry>, b: seq<Entry>)
    ensures Names(a + b) == Names(a) + Names(b)
  {
    if a != [] {
      assert (a + b)[1..] == a[1..] + b;
      NamesAppend(a[1..], b);
    } else {
      assert a + b == b;
    }
  }

  /** The names of the first `n - 1` items, and the last one's name after them. */
  lemma {:induction false} NamesSnoc(items: seq<Entry>)
    requires items != []
    ensures Names(items) == Names(items[..|items| - 1]) + [items[|items| - 1].name]
  {
    var p, e := items[..|items| - 1], items[|items| - 1];
    assert p + [e] == items;
    NamesAppend(p, [e]);
    assert Names([e]) == [e.name] + Names([]);
  }

  lemma {:induction false} SumValuesSnoc(es: seq<Entry>, e: Entry)
    ensures SumValues(es + [e]) == SumValues(es) + e.value
  {
    if es != [] {
      assert (es + [e])[1..] == es[1..] + [e];
      SumValuesSnoc(es[1..], e);
    }
  }

  /** The keys of the grouped dictionary are the distinct names, in order of first appearance. */
  lemma {:induction false} GroupedNames(items: seq<Entry>)
    ensures Names(Grouped(items)) == Dedup(Names(items))
    ensures Distinct(Names(Grouped(items)))
  {
    if items != [] {
      var n := |items|;
      GroupedNames(items[..n - 1]);
      NamesSnoc(items);
      AddToNames(Grouped(items[..n - 1]), items[n - 1].name, items[n - 1].value);
    }
  }

  /** No amount is lost or counted twice: the grouped values add up to the items' total. */
  lemma {:induction false} GroupedSum(items: seq<Entry>)
    ensures SumValues(Grouped(items)) == SumValues(items)
  {
    if items != [] {
      var n := |items|;
      GroupedSum(items[..n - 1]);
      AddToSum(Grouped(items[..n - 1]), items[n - 1].name, items[n - 1].value);
      assert items == items[..n - 1] + [items[n - 1]];
      SumValuesSnoc(items[..n - 1], items[n - 1]);
    }
  }

  /** The value stored under each name is the total of that name's items. */
  lemma {:induction false} GroupedLookup(items: seq<Entry>, k: string)
    ensures Lookup(Grouped(items), k) == if k in Names(items) then Some(KeyTotal(items, k)) else None
  {
    if items != [] {
      var n := |items|;
      var p, last := items[..n - 1], items[n - 1];
      var g := Grouped(p);
      GroupedLookup(p, k);
      NamesSnoc(items);
      assert Grouped(items) == AddTo(g, last.name, last.value);
      LookupAddTo(g, last.name, last.value, k);
      assert KeyTotal(items, k) == KeyTotal(p, k) + (if last.name == k then last.value else 0.0);
      if k == last.name {
        if k !in Names(p) {
          KeyTotalAbsent(p, k);
          assert Lookup(g, k) == None;
        }
        assert Lookup(g, k).GetOr(0.0) == KeyTotal(p, k);
        assert k in Names(items);
      } else {
        assert k in Names(items) <==> k in Names(p);
        assert Lookup(Grouped(items), k) == Lookup(g, k);
      }
    } else {
      assert Names(items) == [];
    }
  }

  lemma {:induction false} KeyTotalAbsent(items: seq<Entry>, k: string)
    requires k !in Names(items)
    ensures KeyTotal(items, k) == 0.0
  {
    if items != [] {
      var n := |items|;
      NamesSnoc(items);
      KeyTotalAbsent(items[..n - 1], k);
    }
  }

  /** With one entry per name, looking up an entry's name finds that entry. */
  lemma {:induction false} LookupDistinct(es: seq<Entry>, i: nat)
    requires Distinct(Names(es)) && i < |es|
    ensures Lookup(es, es[i].name) == Some(es[i].value)
  {
    if i > 0 {
      assert Names(es) == [es[0].name] + Names(es[1..]);
      DistinctCons(es[0].name, Names(es[1..]));
      NamesAt(es, i);
      NamesAt(es, 0);
      LookupDistinct(es[1..], i - 1);
    }
  }

  /** Each entry of the grouped dictionary holds the total of its name's items. */
  lemma GroupedEntry(items: seq<Entry>, i: nat)
    requires i < |Grouped(items)|
    ensures Grouped(items)[i].name in Names(items)
    ensures Grouped(items)[i].value == KeyTotal(items, Grouped(items)[i].name)
  {
    var g := Grouped(items);
    GroupedNames(items);
    LookupDistinct(g, i);
    GroupedLookup(items, g[i].name);
  }

  /** The `forEach` loop filling the dictionary. */
  method Tally(items: seq<Entry>) returns (grouped: seq<Entry>)
    ensures grouped == Grouped(items)
  {
    grouped := [];
    var i := 0;
    while i < |items|
      invariant 0 <= i <= |items|
      invariant grouped == Grouped(items[..i])
    {
      assert items[..i + 1][..i] == items[..i];
      grouped := AddTo(grouped, items[i].name, items[i].value);
      i := i + 1;
    }
    assert items[..i] == items;
  }

  // ---------------------------------------------------------------------------
  // Sorting by value, largest first
  // ---------------------------------------------------------------------------

  predicate SortedDesc(s: seq<Entry>)
  {
    forall i, j :: 0 <= i < j < |s| ==> s[i].value >= s[j].value
  }

  /** Place `e` before the first entry it is not smaller than. */
  function Insert(e: Entry, s: seq<Entry>): (r: seq<Entry>)
    ensures |r| == |s| + 1
  {
    if s == [] || s[0].value <= e.value then [e] + s
    else [s[0]] + Insert(e, s[1..])
  }

  /**
   * A stable sort, largest value first: entries with equal values keep their
   * order, as with the runtime's stable `Array.prototype.sort`.
   */
  function SortDesc(es: seq<Entry>): (r: seq<Entry>)
    ensures |r| == |es|
  {
    if es == [] then [] else Insert(es[0], SortDesc(es[1..]))
  }

  /** The entries of `s` whose value is `v`, in the order they appear. */
  function OfValue(s: seq<Entry>, v: real): (r: seq<Entry>)
    ensures |r| <= |s|
  {
    if s == [] then [] else (if s[0].value == v then [s[0]] else []) + OfValue(s[1..], v)
  }

  /** `e` goes in front of every entry of equal value, and the rest keep their order. */
  lemma {:induction false} InsertOfValue(e: Entry, s: seq<Entry>, v: real)
    ensures OfValue(Insert(e, s), v) == if e.value == v then [e] + OfValue(s, v) else OfValue(s, v)
  {
    var r := Insert(e, s);
    if s != [] && s[0].value > e.value {
      InsertOfValue(e, s[1..], v);
      assert r[0] == s[0] && r[1..] == Insert(e, s[1..]);
    } else {
      assert r[0] == e && r[1..] == s;
    }
  }

  /** The sort is stable: the entries of any one value come out in their original order. */
  lemma {:induction false} SortDescStable(es: seq<Entry>, v: real)
    ensures OfValue(SortDesc(es), v) == OfValue(es, v)
  {
    if es != [] {
      SortDescStable(es[1..], v);
      InsertOfValue(es[0], SortDesc(es[1..]), v);
    }
  }

  lemma {:induction false} InsertPermutes(e: Entry, s: seq<Entry>)
    ensures multiset(Insert(e, s)) == multiset(s) + multiset{e}
  {
    if s != [] && s[0].value > e.value {
      assert s == [s[0]] + s[1..];
      InsertPermutes(e, s[1..]);
    }
  }

  /** Sorting only reorders the entries. */
  lemma {:induction false} SortDescPermutes(es: seq<Entry>)
    ensures multiset(SortDesc(es)) == multiset(es)
  {
    if es != [] {
      assert es == [es[0]] + es[1..];
      SortDescPermutes(es[1..]);
      InsertPermutes(es[0], SortDesc(es[1..]));
    }
  }

  lemma {:induction false} InsertBelow(e: Entry, s: seq<Entry>, b: real)
    requires e.value <= b
    requires forall i :: 0 <= i < |s| ==> s[i].value <= b
    ensures forall i :: 0 <= i < |Insert(e, s)| ==> Insert(e, s)[i].value <= b
  {
    if s != [] && s[0].value > e.value {
      InsertBelow(e, s[1..], b);
    }
  }

  lemma {:induction false} InsertSorted(e: Entry, s: seq<Entry>)
    requires SortedDesc(s)
    ensures SortedDesc(Insert(e, s))
  {
    if s != [] && s[0].value > e.value {
      var t := s[1..];
      assert SortedDesc(t) by {
        forall i, j | 0 <= i < j < |t| ensures t[i].value >= t[j].value {
          assert t[i] == s[i + 1] && t[j] == s[j + 1];
        }
      }
      InsertSorted(e, t);
      assert forall i :: 0 <= i < |t| ==> t[i].value <= s[0].value by {
        forall i | 0 <= i < |t| ensures t[i].value <= s[0].value {
          assert t[i] == s[i + 1];
        }
      }
      InsertBelow(e, t, s[0].value);
    }
  }

  /** The category list comes out sorted, non-increasing. */
  lemma {:induction false} SortDescSorted(es: seq<Entry>)
    ensures SortedDesc(SortDesc(es))
  {
    if es != [] {
      SortDescSorted(es[1..]);
      InsertSorted(es[0], SortDesc(es[1..]));
    }
  }

  lemma {:induction false} InsertSum(e: Entry, s: seq<Entry>)
    ensures SumValues(Insert(e, s)) == e.value + SumValues(s)
  {
    if s != [] && s[0].value > e.value {
      InsertSum(e, s[1..]);
    }
  }

  /** Sorting keeps the total. */
  lemma {:induction false} SortDescSum(es: seq<Entry>)
    ensures SumValues(SortDesc(es)) == SumValues(es)
  {
    if es != [] {
      SortDescSum(es[1..]);
      InsertSum(es[0], SortDesc(es[1..]));
    }
  }

  lemma {:induction false} InsertDistinct(e: Entry, s: seq<Entry>)
    requires Distinct(Names(s)) && e.name !in Names(s)
    ensures Distinct(Names(Insert(e, s)))
    ensures forall k :: k in Names(Insert(e, s)) <==> k == e.name || k in Names(s)
  {
    var r := Insert(e, s);
    if s == [] || s[0].value <= e.value {
      assert Names(r) == [e.name] + Names(s);
      DistinctCons(e.name, Names(s));
    } else {
      assert Names(s) == [s[0].name] + Names(s[1..]);
      DistinctCons(s[0].name, Names(s[1..]));
      InsertDistinct(e, s[1..]);
      assert Names(r) == [s[0].name] + Names(Insert(e, s[1..]));
      DistinctCons(s[0].name, Names(Insert(e, s[1..])));
    }
  }

  lemma DistinctCons(x: string, xs: seq<string>)
    ensures Distinct([x] + xs) <==> x !in xs && Distinct(xs)
  {
    var ys := [x] + xs;
    if x !in xs && Distinct(xs) {
      forall i, j | 0 <= i < j < |ys| ensures ys[i] != ys[j] {
        if i > 0 {
          assert ys[i] == xs[i - 1] && ys[j] == xs[j - 1];
        } else {
          assert ys[j] == xs[j - 1];
        }
      }
    }
    if Distinct(ys) {
      forall i, j | 0 <= i < j < |xs| ensures xs[i] != xs[j] {
        assert xs[i] == ys[i + 1] && xs[j] == ys[j + 1];
      }
      forall j | 0 <= j < |xs| ensures xs[j] != x {
        assert xs[j] == ys[j + 1] && x == ys[0];
      }
    }
  }

  /** One entry per name before sorting means one entry per name after. */
  lemma {:induction false} SortDescDistinct(es: seq<Entry>)
    requires Distinct(Names(es))
    ensures Distinct(Names(SortDesc(es)))
    ensures forall k :: k in Names(SortDesc(es)) <==> k in Names(es)
  {
    if es != [] {
      assert Names(es) == [es[0].name] + Names(es[1..]);
      DistinctCons(es[0].name, Names(es[1..]));
      SortDescDistinct(es[1..]);
      InsertDistinct(es[0], SortDesc(es[1..]));
    }
  }

  /** The index of the earliest entry with the largest value: a reference for the head of the sort. */
  function FirstMax(es: seq<Entry>): (r: nat)
    requires es != []
    ensures r < |es|
    ensures forall j :: 0 <= j < |es| ==> es[j].value <= es[r].value
    ensures forall j :: 0 <= j < r ==> es[j].value < es[r].value
  {
    if |es| == 1 then 0
    else
      var j := 1 + FirstMax(es[1..]);
      if es[0].value >= es[j].value then 0 else j
  }

  /** The first entry of the sorted list is the earliest of the largest. */
  lemma {:induction false} SortDescHead(es: seq<Entry>)
    requires es != []
    ensures SortDesc(es)[0] == es[FirstMax(es)]
  {
    if |es| > 1 {
      SortDescHead(es[1..]);
    }
  }
}
