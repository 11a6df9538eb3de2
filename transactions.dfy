/**
 * Aggregation of stored transactions into a summary (`processTransactions`)
 * and the period filter and null-return rules of `getTransactionData`.
 * Amounts are integers; "today" is a parameter; the store's rows are given.
 */
module Transactions {
  import opened Strings
  import opened Ledger
  import opened Calendar

  /** A row of the transactions table (the fields the aggregation reads). */
  datatype Txn = Txn(amount: Option<int>, txType: Option<string>, category: Option<string>, datetime: Option<string>)

  /** Per-category sums in first-seen order: a JavaScript object used as a map. */
  type Sums = seq<(string, int)>

  /** The running totals the aggregation loop keeps. */
  datatype Totals = Totals(income: int, expense: int, incomeCats: Sums, expenseCats: Sums)

  /** The formatted result of `processTransactions`. */
  datatype Report = Report(income: string, expense: string, balance: string,
                           expenseItems: seq<AnalysisItem>, incomeItems: seq<AnalysisItem>)

  /** `!transaction.amount` skips the row: a missing amount or 0. */
  predicate Counted(t: Txn)
  {
    t.amount.Some? && t.amount.value != 0
  }

  predicate IsIncome(t: Txn)
  {
    t.txType == Some("income")
  }

  function CategoryOf(t: Txn): string
  {
    OrElse(t.category, "其他")
  }

  function Keys(s: Sums): seq<string>
  {
    if s == [] then [] else [s[0].0] + Keys(s[1..])
  }

  function Total(s: Sums): int
  {
    if s == [] then 0 else s[0].1 + Total(s[1..])
  }

  predicate DistinctKeys(s: Sums)
  {
    forall i, j :: 0 <= i < j < |s| ==> s[i].0 != s[j].0
  }

  /** `if (!m[k]) m[k] = 0; m[k] += a` on a category map, keys kept in first-insertion
   *  order (see the README on how a plain JavaScript object differs for some key names). */
  function AddTo(s: Sums, k: string, a: int): (r: Sums)
    ensures |r| == |s| || |r| == |s| + 1
  {
    if s == [] then [(k, a)]
    else if s[0].0 == k then [(k, s[0].1 + a)] + s[1..]
    else [s[0]] + AddTo(s[1..], k, a)
  }

  /** Adding to a key changes the total by exactly that amount ... */
  lemma {:induction false} AddToTotal(s: Sums, k: string, a: int)
    ensures Total(AddTo(s, k, a)) == Total(s) + a
  {
    if s != [] && s[0].0 != k { AddToTotal(s[1..], k, a); }
  }

  /** ... keeps one entry per key, with `k` among them ... */
  lemma AddToKeys(s: Sums, k: string, a: int)
    requires DistinctKeys(s)
    ensures DistinctKeys(AddTo(s, k, a))
    ensures Keys(AddTo(s, k, a)) == (if k in Keys(s) then Keys(s) else Keys(s) + [k])
  {
    AddToKeyList(s, k, a);
    var r := AddTo(s, k, a);
    KeysIndex(s);
    KeysIndex(r);
    var ks, kr := Keys(s), Keys(r);
    forall i, j | 0 <= i < j < |r| ensures r[i].0 != r[j].0 {
      assert r[i].0 == kr[i] && r[j].0 == kr[j];
      if j < |s| {
        assert kr[i] == ks[i] == s[i].0 && kr[j] == ks[j] == s[j].0;
      } else {
        assert kr[j] == k && kr[i] == ks[i] && ks[i] in ks;
      }
    }
  }

  /** ... appending `k` to the key list when it is new and leaving the list as it is otherwise ... */
  lemma {:induction false} AddToKeyList(s: Sums, k: string, a: int)
    ensures Keys(AddTo(s, k, a)) == (if k in Keys(s) then Keys(s) else Keys(s) + [k])
    decreases |s|
  {
    if s == [] {
      assert Keys(AddTo(s, k, a)) == [k];
    } else if s[0].0 == k {
      assert AddTo(s, k, a)[1..] == s[1..];
      assert Keys(AddTo(s, k, a)) == [k] + Keys(s[1..]) == Keys(s);
    } else {
      AddToKeyList(s[1..], k, a);
      assert Keys(AddTo(s, k, a)) == [s[0].0] + Keys(AddTo(s[1..], k, a));
      assert Keys(s) == [s[0].0] + Keys(s[1..]);
      assert k in Keys(s) <==> k in Keys(s[1..]);
      if k !in Keys(s) {
        assert [s[0].0] + (Keys(s[1..]) + [k]) == Keys(s) + [k];
      }
    }
  }

  lemma {:induction false} KeysIndex(s: Sums)
    ensures |Keys(s)| == |s|
    ensures forall i :: 0 <= i < |s| ==> Keys(s)[i] == s[i].0
    decreases |s|
  {
    if s != [] {
      KeysIndex(s[1..]);
      forall i | 0 <= i < |s| ensures Keys(s)[i] == s[i].0 {
        if i > 0 { assert Keys(s)[i] == Keys(s[1..])[i - 1]; }
      }
    }
  }

  /** The value a category map holds for `k` (0 when `k` has no entry, as `!m[k]` treats it). */
  function Lookup(s: Sums, k: string): int
  {
    if s == [] then 0 else if s[0].0 == k then s[0].1 else Lookup(s[1..], k)
  }

  /** Adding `a` under `k` raises the entry for `k` by `a` and leaves every other entry as it was. */
  lemma {:induction false} AddToValue(s: Sums, k: string, a: int, c: string)
    ensures Lookup(AddTo(s, k, a), c) == Lookup(s, c) + (if c == k then a else 0)
    ensures c in Keys(AddTo(s, k, a)) <==> c in Keys(s) || c == k
    decreases |s|
  {
    AddToKeyList(s, k, a);
    if s != [] && s[0].0 != k {
      AddToValue(s[1..], k, a, c);
      assert AddTo(s, k, a)[1..] == AddTo(s[1..], k, a);
    } else if s != [] {
      assert AddTo(s, k, a)[1..] == s[1..];
    }
  }

  /** With one entry per key, the lookup of entry i's key finds entry i. */
  lemma {:induction false} LookupAt(s: Sums, i: int)
    requires DistinctKeys(s) && 0 <= i < |s|
    ensures Lookup(s, s[i].0) == s[i].1
    decreases i
  {
    if i > 0 {
      assert s[0].0 != s[i].0;
      assert s[1..][i - 1] == s[i];
      LookupAt(s[1..], i - 1);
    }
  }

  /** Row `t` adds its amount to category `c` of the given kind (income or not). */
  predicate Contributes(t: Txn, c: string, income: bool)
  {
    Counted(t) && IsIncome(t) == income && CategoryOf(t) == c
  }

  /** The sum of the counted rows of the given kind whose category is `c`. */
  function CatSum(data: seq<Txn>, c: string, income: bool): int
  {
    if data == [] then 0
    else CatSum(data[..|data| - 1], c, income)
         + (var t := data[|data| - 1]; if Contributes(t, c, income) then t.amount.value else 0)
  }

  /** Some counted row of the given kind has category `c`. */
  predicate Seen(data: seq<Txn>, c: string, income: bool)
  {
    exists i :: 0 <= i < |data| && Contributes(data[i], c, income)
  }

  lemma SeenStep(data: seq<Txn>, c: string, income: bool)
    requires data != []
    ensures Seen(data, c, income) <==>
            Seen(data[..|data| - 1], c, income) || Contributes(data[|data| - 1], c, income)
  {
    var init := data[..|data| - 1];
    if Seen(data, c, income) {
      var i :| 0 <= i < |data| && Contributes(data[i], c, income);
      if i < |init| { assert init[i] == data[i]; }
    }
    if Seen(init, c, income) {
      var i :| 0 <= i < |init| && Contributes(init[i], c, income);
      assert data[i] == init[i];
    }
  }

  /** The entry for `c` in each category map is the sum of the counted rows of that kind with
   *  category `c`, and `c` has an entry exactly when some such row exists. */
  lemma {:induction false} CategoryValue(data: seq<Txn>, c: string)
    ensures Lookup(Accumulate(data).incomeCats, c) == CatSum(data, c, true)
    ensures Lookup(Accumulate(data).expenseCats, c) == CatSum(data, c, false)
    ensures c in Keys(Accumulate(data).incomeCats) <==> Seen(data, c, true)
    ensures c in Keys(Accumulate(data).expenseCats) <==> Seen(data, c, false)
  {
    if data != [] {
      var init, t := data[..|data| - 1], data[|data| - 1];
      CategoryValue(init, c);
      SeenStep(data, c, true);
      SeenStep(data, c, false);
      var acc := Accumulate(init);
      if Counted(t) {
        AddToValue(acc.incomeCats, CategoryOf(t), t.amount.value, c);
        AddToValue(acc.expenseCats, CategoryOf(t), t.amount.value, c);
      }
    }
  }

  /** Each entry `(c, v)` of the accumulated category maps holds `v == CatSum(data, c, kind)`,
   *  and the keys are exactly the categories of the counted rows of that kind. */
  lemma CategoryEntries(data: seq<Txn>)
    ensures var cats := Accumulate(data).incomeCats;
            forall i :: 0 <= i < |cats| ==> cats[i].1 == CatSum(data, cats[i].0, true)
    ensures var cats := Accumulate(data).expenseCats;
            forall i :: 0 <= i < |cats| ==> cats[i].1 == CatSum(data, cats[i].0, false)
    ensures forall c :: c in Keys(Accumulate(data).incomeCats) <==> Seen(data, c, true)
    ensures forall c :: c in Keys(Accumulate(data).expenseCats) <==> Seen(data, c, false)
  {
    var acc := Accumulate(data);
    AccumulateSums(data);
    forall i | 0 <= i < |acc.incomeCats|
      ensures acc.incomeCats[i].1 == CatSum(data, acc.incomeCats[i].0, true)
    {
      LookupAt(acc.incomeCats, i);
      CategoryValue(data, acc.incomeCats[i].0);
    }
    forall i | 0 <= i < |acc.expenseCats|
      ensures acc.expenseCats[i].1 == CatSum(data, acc.expenseCats[i].0, false)
    {
      LookupAt(acc.expenseCats, i);
      CategoryValue(data, acc.expenseCats[i].0);
    }
    forall c ensures c in Keys(acc.incomeCats) <==> Seen(data, c, true) {
      CategoryValue(data, c);
    }
    forall c ensures c in Keys(acc.expenseCats) <==> Seen(data, c, false) {
      CategoryValue(data, c);
    }
  }

  /** One iteration of the `forEach` over the rows. */
  function Step(acc: Totals, t: Txn): Totals
  {
    if !Counted(t) then acc
    else if IsIncome(t) then
      acc.(income := acc.income + t.amount.value,
           incomeCats := AddTo(acc.incomeCats, CategoryOf(t), t.amount.value))
    else
      acc.(expense := acc.expense + t.amount.value,
           expenseCats := AddTo(acc.expenseCats, CategoryOf(t), t.amount.value))
  }

  /** The totals after visiting `data` in order. */
  function Accumulate(data: seq<Txn>): Totals
  {
    if data == [] then Totals(0, 0, [], [])
    else Step(Accumulate(data[..|data| - 1]), data[|data| - 1])
  }

  /** Income is the sum of counted "income" rows; expense the sum of every other counted row. */
  function IncomeOf(data: seq<Txn>): int
  {
    if data == [] then 0
    else IncomeOf(data[..|data| - 1]) + (var t := data[|data| - 1]; if Counted(t) && IsIncome(t) then t.amount.value else 0)
  }

  function ExpenseOf(data: seq<Txn>): int
  {
    if data == [] then 0
    else ExpenseOf(data[..|data| - 1]) + (var t := data[|data| - 1]; if Counted(t) && !IsIncome(t) then t.amount.value else 0)
  }

  /** The accumulated totals are the per-type sums of the counted rows; the
   *  category sums of each type add up to that type's total, one entry per category. */
  lemma {:induction false} AccumulateSums(data: seq<Txn>)
    ensures Accumulate(data).income == IncomeOf(data) && Accumulate(data).expense == ExpenseOf(data)
    ensures Total(Accumulate(data).incomeCats) == IncomeOf(data)
    ensures Total(Accumulate(data).expenseCats) == ExpenseOf(data)
    ensures DistinctKeys(Accumulate(data).incomeCats) && DistinctKeys(Accumulate(data).expenseCats)
  {
    if data != [] {
      var init, t := data[..|data| - 1], data[|data| - 1];
      AccumulateSums(init);
      var acc := Accumulate(init);
      if Counted(t) {
        AddToTotal(acc.incomeCats, CategoryOf(t), t.amount.value);
        AddToTotal(acc.expenseCats, CategoryOf(t), t.amount.value);
        AddToKeys(acc.incomeCats, CategoryOf(t), t.amount.value);
        AddToKeys(acc.expenseCats, CategoryOf(t), t.amount.value);
      }
    }
  }

  /** Rows with a falsy amount have no effect at all. */
  lemma {:induction false} SkippedRowsIgnored(data: seq<Txn>, t: Txn)
    requires !Counted(t)
    ensures Accumulate(data + [t]) == Accumulate(data)
  {
    assert (data + [t])[..|data + [t]| - 1] == data;
  }

  /** `Math.round(a / total * 100)`: rounding half up, for a positive total. */
  function Percent(a: int, total: int): (p: int)
    requires total > 0
    ensures 2 * total * p <= 200 * a + total < 2 * total * p + 2 * total
  {
    var p := (200 * a + total) / (2 * total);
    DivBounds(200 * a + total, 2 * total);
    p
  }

  lemma DivBounds(x: int, d: int)
    requires d > 0
    ensures d * (x / d) <= x < d * (x / d) + d
  {
  }

  /** A share between nothing and the whole total is a percentage between 0 and 100. */
  lemma PercentRange(a: int, total: int)
    requires total > 0 && 0 <= a <= total
    ensures 0 <= Percent(a, total) <= 100
  {
    var p := Percent(a, total);
    if p < 0 { MulAtLeast(2 * total, -p); }
    if p > 100 { MulAtLeast(2 * total, p - 100); }
  }

  /** The analysis line for one category. */
  function Item(c: (string, int), total: int): AnalysisItem
    requires total > 0
  {
    AnalysisItem(c.0, Money(c.1), IntToString(Percent(c.1, total)) + "%")
  }

  /** One analysis line per category, in the map's order; none unless the total is positive. */
  function Items(s: Sums, total: int): (r: seq<AnalysisItem>)
    ensures total > 0 ==> |r| == |s|
    ensures total <= 0 ==> r == []
  {
    if total <= 0 || s == [] then [] else [Item(s[0], total)] + Items(s[1..], total)
  }

  /** The number the source sorts an analysis line by. */
  function ItemKey(it: AnalysisItem): int
  {
    match SortKey(it.amount)
    case Some(v) => v
    case None => 0
  }

  /** Insert `x` before the first element whose key is not larger (ties keep `x` first). */
  function InsertDesc<T>(key: T -> int, x: T, s: seq<T>): (r: seq<T>)
    ensures multiset(r) == multiset(s) + multiset{x}
  {
    if s == [] || key(s[0]) <= key(x) then [x] + s
    else
      assert s == [s[0]] + s[1..];
      [s[0]] + InsertDesc(key, x, s[1..])
  }

  /** A stable sort by descending key (the comparator `b - a` on the parsed amounts). */
  function SortDesc<T>(key: T -> int, s: seq<T>): (r: seq<T>)
    ensures multiset(r) == multiset(s)
  {
    if s == [] then []
    else
      assert s == [s[0]] + s[1..];
      InsertDesc(key, s[0], SortDesc(key, s[1..]))
  }

  predicate SortedDesc<T>(key: T -> int, s: seq<T>)
  {
    forall i, j :: 0 <= i < j < |s| ==> key(s[i]) >= key(s[j])
  }

  lemma {:induction false} InsertDescSorted<T>(key: T -> int, x: T, s: seq<T>)
    requires SortedDesc(key, s)
    ensures SortedDesc(key, InsertDesc(key, x, s))
    decreases |s|
  {
    if s == [] || key(s[0]) <= key(x) {
      ConsSorted(key, x, s);
    } else {
      var t := s[1..];
      assert forall i :: 0 <= i < |t| ==> t[i] == s[i + 1];
      InsertDescSorted(key, x, t);
      InsertDescBounded(key, x, t, key(s[0]));
      ConsSorted(key, s[0], InsertDesc(key, x, t));
    }
  }

  /** No key of `s` exceeds `k`. */
  predicate AllAtMost<T>(key: T -> int, s: seq<T>, k: int)
  {
    forall i :: 0 <= i < |s| ==> key(s[i]) <= k
  }

  /** An element no smaller than every element of a sorted list can go in front of it. */
  lemma ConsSorted<T>(key: T -> int, h: T, t: seq<T>)
    requires SortedDesc(key, t) && AllAtMost(key, t, key(h))
    ensures SortedDesc(key, [h] + t)
  {
    var r := [h] + t;
    forall i, j | 0 <= i < j < |r| ensures key(r[i]) >= key(r[j]) {
      assert r[j] == t[j - 1];
      if i > 0 { assert r[i] == t[i - 1]; }
    }
  }

  /** Inserting an element keeps a bound that it and the list already respect. */
  lemma {:induction false} InsertDescBounded<T>(key: T -> int, x: T, s: seq<T>, k: int)
    requires AllAtMost(key, s, k) && key(x) <= k
    ensures AllAtMost(key, InsertDesc(key, x, s), k)
    decreases |s|
  {
    if s == [] || key(s[0]) <= key(x) {
      var r := [x] + s;
      assert InsertDesc(key, x, s) == r;
      forall i | 0 <= i < |r| ensures key(r[i]) <= k {
        if i > 0 { assert r[i] == s[i - 1]; }
      }
    } else {
      var t := s[1..];
      assert forall i :: 0 <= i < |t| ==> t[i] == s[i + 1];
      InsertDescBounded(key, x, t, k);
      var u := InsertDesc(key, x, t);
      var r := [s[0]] + u;
      assert InsertDesc(key, x, s) == r;
      forall i | 0 <= i < |r| ensures key(r[i]) <= k {
        if i > 0 { assert r[i] == u[i - 1]; }
      }
    }
  }

  /** The sort yields a descending arrangement of the same elements. */
  lemma {:induction false} SortDescSorted<T>(key: T -> int, s: seq<T>)
    ensures SortedDesc(key, SortDesc(key, s)) && multiset(SortDesc(key, s)) == multiset(s)
    decreases |s|
  {
    if s != [] {
      SortDescSorted(key, s[1..]);
      InsertDescSorted(key, s[0], SortDesc(key, s[1..]));
    }
  }

  /** The specification of `processTransactions`. */
  function Process(data: seq<Txn>): Report
  {
    var acc := Accumulate(data);
    Report(Money(acc.income), Money(acc.expense), Money(acc.income - acc.expense),
           SortDesc(ItemKey, Items(acc.expenseCats, acc.expense)),
           SortDesc(ItemKey, Items(acc.incomeCats, acc.income)))
  }

  /** Each analysis line's key is the category's sum, so the lines are ordered by that sum. */
  lemma {:induction false} ItemsKeys(s: Sums, total: int)
    requires total > 0
    ensures forall i :: 0 <= i < |s| ==> Items(s, total)[i] == Item(s[i], total)
    ensures forall i :: 0 <= i < |s| ==> ItemKey(Items(s, total)[i]) == s[i].1
  {
    ItemsAt(s, total);
    forall i | 0 <= i < |s| ensures ItemKey(Items(s, total)[i]) == s[i].1 {
      ItemKeyOfItem(s[i], total);
    }
  }

  lemma {:induction false} ItemsAt(s: Sums, total: int)
    requires total > 0
    ensures forall i :: 0 <= i < |s| ==> Items(s, total)[i] == Item(s[i], total)
    decreases |s|
  {
    if s != [] {
      var t := s[1..];
      ItemsAt(t, total);
      var r := Items(s, total);
      assert r == [Item(s[0], total)] + Items(t, total);
      forall i | 0 <= i < |s| ensures r[i] == Item(s[i], total) {
        if i > 0 { assert r[i] == Items(t, total)[i - 1] && t[i - 1] == s[i]; }
      }
    }
  }

  /** The sort key of a category's line is the category's sum. */
  lemma ItemKeyOfItem(c: (string, int), total: int)
    requires total > 0
    ensures ItemKey(Item(c, total)) == c.1
  {
    MoneySortKey(c.1);
  }

  /** What `processTransactions` promises: the displayed figures read back as
   *  income, expense and income − expense; both analysis lists are sorted by
   *  amount, descending; a list is empty unless its total is positive, and
   *  otherwise it has one line per category. */
  lemma ProcessReport(data: seq<Txn>)
    ensures SortKey(Process(data).income) == Some(IncomeOf(data))
    ensures SortKey(Process(data).expense) == Some(ExpenseOf(data))
    ensures SortKey(Process(data).balance) == Some(IncomeOf(data) - ExpenseOf(data))
    ensures SortedDesc(ItemKey, Process(data).expenseItems) && SortedDesc(ItemKey, Process(data).incomeItems)
    ensures (Process(data).expenseItems == []) <==> (ExpenseOf(data) <= 0 || Accumulate(data).expenseCats == [])
    ensures ExpenseOf(data) > 0 ==> |Process(data).expenseItems| == |Accumulate(data).expenseCats|
    ensures (Process(data).incomeItems == []) <==> (IncomeOf(data) <= 0 || Accumulate(data).incomeCats == [])
    ensures IncomeOf(data) > 0 ==> |Process(data).incomeItems| == |Accumulate(data).incomeCats|
  {
    var acc := Accumulate(data);
    AccumulateSums(data);
    MoneySortKey(acc.income);
    MoneySortKey(acc.expense);
    MoneySortKey(acc.income - acc.expense);
    var e, i := Items(acc.expenseCats, acc.expense), Items(acc.incomeCats, acc.income);
    SortDescSorted(ItemKey, e);
    SortDescSorted(ItemKey, i);
    EmptyIffNoElements(SortDesc(ItemKey, e), e);
    EmptyIffNoElements(SortDesc(ItemKey, i), i);
  }

  lemma EmptyIffNoElements(a: seq<AnalysisItem>, b: seq<AnalysisItem>)
    requires multiset(a) == multiset(b)
    ensures |a| == |b|
  {
    assert |multiset(a)| == |a| && |multiset(b)| == |b|;
  }

  /** `processTransactions` as the source runs it: one pass over the rows
   *  updating the totals and the two category maps, then one pass per map to
   *  build the analysis lines, then the sorts. */
  method ProcessTransactions(data: seq<Txn>) returns (r: Report)
    ensures r == Process(data)
  {
    var income, expense, incomeCats, expenseCats := AccumulateRows(data);
    var balance := income - expense;
    var expenseItems := BuildItems(expenseCats, expense);
    var incomeItems := BuildItems(incomeCats, income);
    r := Report(Money(income), Money(expense), Money(balance), SortDesc(ItemKey, expenseItems), SortDesc(ItemKey, incomeItems));
  }

  /** The `forEach` over the rows of `processTransactions`. */
  method AccumulateRows(data: seq<Txn>) returns (income: int, expense: int, incomeCats: Sums, expenseCats: Sums)
    ensures Totals(income, expense, incomeCats, expenseCats) == Accumulate(data)
  {
    income, expense := 0, 0;
    incomeCats, expenseCats := [], [];
    var i := 0;
    while i < |data|
      invariant 0 <= i <= |data|
      invariant Totals(income, expense, incomeCats, expenseCats) == Accumulate(data[..i])
    {
      var t := data[i];
      assert data[..i + 1][..i] == data[..i];
      if t.amount.Some? && t.amount.value != 0 {
        var amount := t.amount.value;
        var category := OrElse(t.category, "其他");
        if t.txType == Some("income") {
          income := income + amount;
          incomeCats := AddTo(incomeCats, category, amount);
        } else {
          expense := expense + amount;
          expenseCats := AddTo(expenseCats, category, amount);
        }
      }
      i := i + 1;
    }
    assert data[..|data|] == data;
  }

  /** `Object.entries(m).forEach(... push(item))`, guarded by `total > 0`. */
  method BuildItems(s: Sums, total: int) returns (items: seq<AnalysisItem>)
    ensures items == Items(s, total)
  {
    items := [];
    if total > 0 {
      var j := 0;
      while j < |s|
        invariant 0 <= j <= |s|
        invariant items + Items(s[j..], total) == Items(s, total)
      {
        ItemsStep(s, j, total);
        items := items + [Item(s[j], total)];
        j := j + 1;
      }
    }
  }

  lemma ItemsStep(s: Sums, j: nat, total: int)
    requires j < |s| && total > 0
    ensures Items(s[j..], total) == [Item(s[j], total)] + Items(s[j + 1..], total)
  {
    assert s[j..][1..] == s[j + 1..];
  }

  // ---- getTransactionData ----

  /** `s.split("T")[0]`: the text before the first "T". */
  function DatePart(s: string): (r: string)
    ensures |r| <= |s|
  {
    if s == [] || s[0] == 'T' then [] else [s[0]] + DatePart(s[1..])
  }

  /** Whether a row is kept for the period: day, week (from Sunday) and month
   *  compare the row's date text with inclusive ISO bounds; any other period keeps every row. */
  predicate InPeriod(period: string, today: Date, t: Txn)
    requires Valid(today) && today.year >= 2
  {
    var todayStr := Iso(today);
    if period == "日" then
      t.datetime.Some? && t.datetime.value != "" && DatePart(t.datetime.value) == todayStr
    else if period == "週" then
      t.datetime.Some? && t.datetime.value != ""
      && LexLe(Iso(WeekStart(today)), DatePart(t.datetime.value)) && LexLe(DatePart(t.datetime.value), todayStr)
    else if period == "月" then
      t.datetime.Some? && t.datetime.value != ""
      && LexLe(Iso(MonthStart(today)), DatePart(t.datetime.value)) && LexLe(DatePart(t.datetime.value), todayStr)
    else true
  }

  /** The rows of `data` kept for the period, in their order: a row is kept exactly when it is
   *  one of the rows and falls in the period. */
  function FilterPeriod(period: string, today: Date, data: seq<Txn>): (r: seq<Txn>)
    requires Valid(today) && today.year >= 2
    ensures |r| <= |data|
    ensures forall t :: t in r <==> t in data && InPeriod(period, today, t)
  {
    if data == [] then []
    else (if InPeriod(period, today, data[0]) then [data[0]] else []) + FilterPeriod(period, today, data[1..])
  }

  /** Filtering splits over concatenation, so the kept rows keep the order of `data`. */
  lemma {:induction false} FilterPeriodConcat(period: string, today: Date, a: seq<Txn>, b: seq<Txn>)
    requires Valid(today) && today.year >= 2
    ensures FilterPeriod(period, today, a + b) == FilterPeriod(period, today, a) + FilterPeriod(period, today, b)
    decreases |a|
  {
    if a == [] {
      assert a + b == b;
    } else {
      assert (a + b)[0] == a[0] && (a + b)[1..] == a[1..] + b;
      FilterPeriodConcat(period, today, a[1..], b);
    }
  }

  /** `getTransactionData`: `rows` is the query result (`None` for no client or a query
   *  error); null when there are no rows or none in the period, otherwise the report. */
  function GetTransactionData(rows: Option<seq<Txn>>, period: string, today: Date): (r: Option<Report>)
    requires Valid(today) && today.year >= 2
    ensures rows.None? ==> r.None?
    ensures r.Some? <==> rows.Some? && FilterPeriod(period, today, rows.value) != []
    ensures r.Some? ==> r.value == Process(FilterPeriod(period, today, rows.value))
  {
    if rows.None? || rows.value == [] then None
    else
      var inRange := FilterPeriod(period, today, rows.value);
      if inRange == [] then None else Some(Process(inRange))
  }

  function NoLetterT(s: string): bool
  {
    forall i :: 0 <= i < |s| ==> s[i] != 'T'
  }

  lemma {:induction false} DatePartConcat(a: string, b: string)
    requires NoLetterT(a) && (b == [] || b[0] == 'T')
    ensures DatePart(a + b) == a
  {
    if a != [] {
      assert (a + b)[1..] == a[1..] + b;
      DatePartConcat(a[1..], b);
    } else {
      assert a + b == b;
    }
  }

  lemma IsoNoT(d: Date)
    requires Valid(d)
    ensures NoLetterT(Iso(d))
  {
    NatToStringRoundTrip(d.year);
    var y, m, dd := NatToString(d.year), Pad2(d.month), Pad2(d.day);
    Pad2Fixed(d.month);
    Pad2Fixed(d.day);
    FixedIsDigits(2, d.month);
    FixedIsDigits(2, d.day);
    DigitsNoT(y);
    DigitsNoT(m);
    DigitsNoT(dd);
    assert NoLetterT("-");
    NoTConcat(y, "-");
    NoTConcat(y + "-", m);
    NoTConcat(y + "-" + m, "-");
    NoTConcat(y + "-" + m + "-", dd);
  }

  lemma DigitsNoT(s: string)
    requires AllDigits(s)
    ensures NoLetterT(s)
  {
    forall i | 0 <= i < |s| ensures s[i] != 'T' {
      assert IsDigit(s[i]);
    }
  }

  lemma NoTConcat(a: string, b: string)
    requires NoLetterT(a) && NoLetterT(b)
    ensures NoLetterT(a + b)
  {
    forall i | 0 <= i < |a + b| ensures (a + b)[i] != 'T' {
      if i < |a| { assert (a + b)[i] == a[i]; } else { assert (a + b)[i] == b[i - |a|]; }
    }
  }

  /** The week containing a date of year 1001 or later starts in a four-digit year. */
  lemma WeekStartYear(today: Date)
    requires Valid(today) && 1001 <= today.year <= 9999
    ensures FourDigitYear(WeekStart(today))
  {
    var ws := WeekStart(today);
    DateLeIff(ws, today);
    assert DayNumber(today) - 6 <= DayNumber(ws) <= DayNumber(today);
    if ws.year + 2 <= today.year {
      YearsApart(ws, today);
    }
  }

  /** The date text of a row dated `x`, possibly with a "T..." time after it, is `Iso(x)`. */
  lemma DatePartOfIso(x: Date, rest: string)
    requires Valid(x) && (rest == [] || rest[0] == 'T')
    ensures DatePart(Iso(x) + rest) == Iso(x) && Iso(x) + rest != ""
  {
    IsoNoT(x);
    DatePartConcat(Iso(x), rest);
  }

  /** For a row dated `x` (a date, possibly followed by a "T..." time), the period filters
   *  keep it exactly when `x` is today, in today's Sunday-to-today week, or in today's
   *  month up to today; any other period keeps every row. */
  lemma InPeriodDates(today: Date, x: Date, rest: string, t: Txn)
    requires Valid(today) && 1001 <= today.year <= 9999
    requires Valid(x) && FourDigitYear(x)
    requires rest == [] || rest[0] == 'T'
    requires t.datetime == Some(Iso(x) + rest)
    ensures InPeriod("日", today, t) <==> x == today
    ensures InPeriod("週", today, t) <==> DateLe(WeekStart(today), x) && DateLe(x, today)
    ensures InPeriod("月", today, t) <==> DateLe(MonthStart(today), x) && DateLe(x, today)
    ensures forall p :: p != "日" && p != "週" && p != "月" ==> InPeriod(p, today, t)
  {
    DatePartOfIso(x, rest);
    WeekStartYear(today);
    IsoOrder(WeekStart(today), x);
    IsoOrder(x, today);
    IsoOrder(MonthStart(today), x);
    if Iso(x) == Iso(today) { IsoInjective(x, today); }
  }

  /** A row dated today is kept under every period. */
  lemma TodayAlwaysKept(today: Date, rest: string, t: Txn, period: string)
    requires Valid(today) && 1001 <= today.year <= 9999
    requires rest == [] || rest[0] == 'T'
    requires t.datetime == Some(Iso(today) + rest)
    ensures InPeriod(period, today, t)
  {
    InPeriodDates(today, today, rest, t);
    DateLeIff(WeekStart(today), today);
    DateLeIff(MonthStart(today), today);
  }
}
