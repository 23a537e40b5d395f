/**
 * The transaction record shared by the dashboard, and the two folds every
 * panel starts from: keeping one kind (`filter(t => t.type === …)`) and
 * totalling amounts (`reduce((acc, t) => acc + Number(t.amount), 0)`).
 */
module Records {
  import opened Wrappers
  import opened Aggregation

  datatype Kind = Income | Expense

  datatype Owner = John | Hannah | Both

  /** A row of the `transactions` table; `owner` is optional, `createdAt` an ISO timestamp. */
  datatype Transaction = Transaction(
    id: string,
    kind: Kind,
    description: string,
    amount: real,
    category: string,
    createdAt: string,
    owner: Option<Owner>)

  /** The transactions of one kind, in their original order. */
  function OfKind(ts: seq<Transaction>, k: Kind): seq<Transaction>
  {
    if ts == [] then []
    else
      var rest := OfKind(ts[..|ts| - 1], k);
      var t := ts[|ts| - 1];
      if t.kind == k then rest + [t] else rest
  }

  /** The kept transactions are exactly those of the kind. */
  lemma {:induction false} OfKindMembers(ts: seq<Transaction>, k: Kind)
    ensures forall t :: t in OfKind(ts, k) <==> t in ts && t.kind == k
    ensures |OfKind(ts, k)| <= |ts|
  {
    if ts != [] {
      var p := ts[..|ts| - 1];
      OfKindMembers(p, k);
      assert ts == p + [ts[|ts| - 1]];
    }
  }

  /** The sum of the amounts, left to right. */
  function Total(ts: seq<Transaction>): real
  {
    if ts == [] then 0.0 else Total(ts[..|ts| - 1]) + ts[|ts| - 1].amount
  }

  lemma {:induction false} TotalAppend(a: seq<Transaction>, b: seq<Transaction>)
    ensures Total(a + b) == Total(a) + Total(b)
  {
    if b == [] {
      assert a + b == a;
    } else {
      assert (a + b)[..|a + b| - 1] == a + b[..|b| - 1];
      TotalAppend(a, b[..|b| - 1]);
    }
  }

  lemma {:induction false} OfKindAppend(a: seq<Transaction>, b: seq<Transaction>, k: Kind)
    ensures OfKind(a + b, k) == OfKind(a, k) + OfKind(b, k)
  {
    if b == [] {
      assert a + b == a;
    } else {
      assert (a + b)[..|a + b| - 1] == a + b[..|b| - 1];
      OfKindAppend(a, b[..|b| - 1], k);
    }
  }

  /** Income and expense totals together make up the total of everything. */
  lemma {:induction false} TotalSplitsByKind(ts: seq<Transaction>)
    ensures Total(OfKind(ts, Income)) + Total(OfKind(ts, Expense)) == Total(ts)
  {
    if ts != [] {
      var p := ts[..|ts| - 1];
      TotalSplitsByKind(p);
      var t := ts[|ts| - 1];
      TotalAppend(OfKind(p, t.kind), [t]);
    }
  }

  lemma {:induction false} TotalNonNegative(ts: seq<Transaction>)
    requires forall t :: t in ts ==> t.amount >= 0.0
    ensures Total(ts) >= 0.0
  {
    if ts != [] {
      assert forall t :: t in ts[..|ts| - 1] ==> t in ts;
      TotalNonNegative(ts[..|ts| - 1]);
      assert ts[|ts| - 1] in ts;
    }
  }

  /** No transaction of the kind, nothing kept. */
  lemma {:induction false} OfKindNone(ts: seq<Transaction>, k: Kind)
    requires forall i :: 0 <= i < |ts| ==> ts[i].kind != k
    ensures OfKind(ts, k) == []
  {
    if ts != [] {
      var p := ts[..|ts| - 1];
      assert forall i :: 0 <= i < |p| ==> p[i] == ts[i];
      OfKindNone(p, k);
    }
  }

  /** `t.category`: the key of both the spending and the income breakdowns. */
  function Category(t: Transaction): string { t.category }

  /** Each transaction as a `{ name, value }` item: its key and its amount, in order. */
  function Keyed(ts: seq<Transaction>, key: Transaction -> string): (r: seq<Entry>)
    ensures |r| == |ts|
  {
    if ts == [] then [] else Keyed(ts[..|ts| - 1], key) + [Entry(key(ts[|ts| - 1]), ts[|ts| - 1].amount)]
  }

  lemma KeyedPrefix(ts: seq<Transaction>, key: Transaction -> string, i: nat)
    requires i < |ts|
    ensures Keyed(ts[..i + 1], key) == Keyed(ts[..i], key) + [Entry(key(ts[i]), ts[i].amount)]
  {
    assert ts[..i + 1][..i] == ts[..i];
  }

  /** Keying the transactions keeps their total. */
  lemma {:induction false} KeyedSum(ts: seq<Transaction>, key: Transaction -> string)
    ensures SumValues(Keyed(ts, key)) == Total(ts)
  {
    if ts != [] {
      var p := ts[..|ts| - 1];
      KeyedSum(p, key);
      SumValuesSnoc(Keyed(p, key), Entry(key(ts[|ts| - 1]), ts[|ts| - 1].amount));
    }
  }

  lemma {:induction false} KeyedAt(ts: seq<Transaction>, key: Transaction -> string, i: nat)
    requires i < |ts|
    ensures Keyed(ts, key)[i] == Entry(key(ts[i]), ts[i].amount)
  {
    if i < |ts| - 1 {
      KeyedAt(ts[..|ts| - 1], key, i);
    }
  }

  /** One more transaction is one more `AddTo` of its key and amount. */
  lemma GroupedKeyedStep(ts: seq<Transaction>, key: Transaction -> string, i: nat)
    requires i < |ts|
    ensures Grouped(Keyed(ts[..i + 1], key)) == AddTo(Grouped(Keyed(ts[..i], key)), key(ts[i]), ts[i].amount)
  {
    KeyedPrefix(ts, key, i);
    var items := Keyed(ts[..i + 1], key);
    assert items[..|items| - 1] == Keyed(ts[..i], key);
    assert items[|items| - 1] == Entry(key(ts[i]), ts[i].amount);
  }

  /** The names of the keyed items are exactly the keys of the transactions. */
  lemma KeyedNames(ts: seq<Transaction>, key: Transaction -> string, k: string)
    ensures k in Names(Keyed(ts, key)) <==> exists i :: 0 <= i < |ts| && key(ts[i]) == k
  {
    var ks := Keyed(ts, key);
    if k in Names(ks) {
      var j :| 0 <= j < |ks| && Names(ks)[j] == k;
      NamesAt(ks, j);
      KeyedAt(ts, key, j);
    }
    if exists i :: 0 <= i < |ts| && key(ts[i]) == k {
      var i :| 0 <= i < |ts| && key(ts[i]) == k;
      NamesAt(ks, i);
      KeyedAt(ts, key, i);
      assert Names(ks)[i] == k;
    }
  }

  /**
   * Grouping transactions by a key and sorting the groups largest first keeps
   * the total, yields one entry per key that occurs, and is sorted; groups of
   * equal value stay in the order their keys first occur.
   */
  lemma SortedGroups(ts: seq<Transaction>, key: Transaction -> string, k: string)
    ensures SumValues(SortDesc(Grouped(Keyed(ts, key)))) == Total(ts)
    ensures Distinct(Names(SortDesc(Grouped(Keyed(ts, key)))))
    ensures SortedDesc(SortDesc(Grouped(Keyed(ts, key))))
    ensures k in Names(SortDesc(Grouped(Keyed(ts, key)))) <==> exists i :: 0 <= i < |ts| && key(ts[i]) == k
    ensures forall v :: OfValue(SortDesc(Grouped(Keyed(ts, key))), v) == OfValue(Grouped(Keyed(ts, key)), v)
  {
    var items := Keyed(ts, key);
    forall v {
      SortDescStable(Grouped(items), v);
    }
    SortDescSum(Grouped(items));
    GroupedSum(items);
    KeyedSum(ts, key);
    GroupedNames(items);
    SortDescDistinct(Grouped(items));
    SortDescSorted(Grouped(items));
    KeyedNames(ts, key, k);
  }
}
