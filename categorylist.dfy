/**
 * The category list message (utils/categoryList.js): the user's income and
 * expense categories laid out as rows of three labels inside the bubbles of
 * a template, and the merge of the system categories with the user's own
 * that produces those two lists.
 */
module CategoryList {
  import opened Strings

  // ---- rows ----

  /** A cell of a row: a category label, or a transparent filler whose text is one space. */
  datatype Cell = Label(name: string) | Filler

  function CellText(c: Cell): string
  {
    if c.Label? then c.name else " "
  }

  /** A horizontal row of cells; `margin` is set to "md" on every row after the first. */
  datatype Row = Row(cells: seq<Cell>, margin: Option<string>)

  const RowWidth: nat := 3

  /** `createCategoryRow`: always three cells, the given names first, then fillers. */
  method CreateCategoryRow(categories: seq<string>) returns (cells: seq<Cell>)
    ensures |cells| == RowWidth
    ensures forall i :: 0 <= i < RowWidth && i < |categories| ==> cells[i] == Label(categories[i])
    ensures forall i :: |categories| <= i < RowWidth ==> cells[i] == Filler
  {
    cells := [];
    for i := 0 to RowWidth
      invariant |cells| == i
      invariant forall j :: 0 <= j < i && j < |categories| ==> cells[j] == Label(categories[j])
      invariant forall j :: |categories| <= j < i ==> cells[j] == Filler
    {
      if i < |categories| {
        cells := cells + [Label(categories[i])];
      } else {
        cells := cells + [Filler];
      }
    }
  }

  /** The cells of a row of at most three names, as `CreateCategoryRow` builds them. */
  function RowCells(names: seq<string>): (cells: seq<Cell>)
    requires |names| <= RowWidth
  {
    seq(RowWidth, i requires 0 <= i < RowWidth => if i < |names| then Label(names[i]) else Filler)
  }

  function Min(a: nat, b: nat): nat { if a < b then a else b }

  /** The names of row `k`: the slice `[3k, min(3k + 3, n))`. */
  function Chunk(names: seq<string>, k: nat): (c: seq<string>)
    requires RowWidth * k <= |names|
    ensures |c| <= RowWidth
  {
    names[RowWidth * k..Min(RowWidth * k + RowWidth, |names|)]
  }

  function RowCount(n: nat): nat { (n + RowWidth - 1) / RowWidth }

  /** The rows of a list of names, three names a row, in order. */
  function Layout(names: seq<string>): (rows: seq<Row>)
  {
    seq(RowCount(|names|), k requires 0 <= k < RowCount(|names|) =>
      Row(RowCells(Chunk(names, k)), if k > 0 then Some("md") else None))
  }

  /** The `for (i = 0; i < n; i += 3)` loop that builds the rows. */
  method BuildRows(names: seq<string>) returns (rows: seq<Row>)
    ensures rows == Layout(names)
  {
    rows := [];
    var i := 0;
    while i < |names|
      invariant i == RowWidth * |rows| && |rows| <= RowCount(|names|)
      invariant i < |names| ==> |rows| < RowCount(|names|)
      invariant i >= |names| ==> |rows| == RowCount(|names|)
      invariant forall k :: 0 <= k < |rows| ==> rows[k] == Layout(names)[k]
      decreases |names| - i
    {
      var rowCategories := names[i..Min(i + RowWidth, |names|)];
      var cells := CreateCategoryRow(rowCategories);
      assert cells == RowCells(rowCategories);
      var margin := if i > 0 then Some("md") else None;
      rows := rows + [Row(cells, margin)];
      i := i + RowWidth;
    }
    assert |rows| == |Layout(names)|;
  }

  /** The label names of some cells, fillers skipped. */
  function LabelNames(cells: seq<Cell>): seq<string>
    decreases |cells|
  {
    if cells == [] then []
    else LabelNames(cells[..|cells| - 1]) + (if cells[|cells| - 1].Label? then [cells[|cells| - 1].name] else [])
  }

  /** The label names of some rows, row after row. */
  function RowNames(rows: seq<Row>): seq<string>
    decreases |rows|
  {
    if rows == [] then [] else RowNames(rows[..|rows| - 1]) + LabelNames(rows[|rows| - 1].cells)
  }

  lemma {:induction false} RowCellsPrefix(names: seq<string>, m: nat)
    requires |names| <= RowWidth && m <= RowWidth
    ensures LabelNames(RowCells(names)[..m]) == names[..Min(m, |names|)]
  {
    if m > 0 {
      var c := RowCells(names)[..m];
      assert c[..m - 1] == RowCells(names)[..m - 1];
      RowCellsPrefix(names, m - 1);
      if m <= |names| {
        assert names[..m] == names[..m - 1] + [names[m - 1]];
      }
    }
  }

  lemma RowCellsNames(names: seq<string>)
    requires |names| <= RowWidth
    ensures LabelNames(RowCells(names)) == names
  {
    RowCellsPrefix(names, RowWidth);
    assert RowCells(names)[..RowWidth] == RowCells(names);
    assert names[..|names|] == names;
  }

  /** Every row has three cells, every row after the first has the margin, and reading the
   *  labels row after row gives back the names, in order. */
  lemma LayoutShape(names: seq<string>)
    ensures forall k :: 0 <= k < |Layout(names)| ==> |Layout(names)[k].cells| == RowWidth
    ensures forall k :: 0 <= k < |Layout(names)| ==> (Layout(names)[k].margin == Some("md") <==> k > 0)
    ensures RowNames(Layout(names)) == names
  {
    LayoutNames(names, RowCount(|names|));
    assert Layout(names)[..RowCount(|names|)] == Layout(names);
    if RowCount(|names|) * RowWidth > |names| {
      assert names[..Min(RowWidth * RowCount(|names|), |names|)] == names;
    }
  }

  /** The first `m` rows hold the first `3m` names. */
  lemma {:induction false} LayoutNames(names: seq<string>, m: nat)
    requires m <= RowCount(|names|)
    ensures RowNames(Layout(names)[..m]) == names[..Min(RowWidth * m, |names|)]
  {
    if m > 0 {
      var rows := Layout(names)[..m];
      assert rows[..m - 1] == Layout(names)[..m - 1];
      LayoutNames(names, m - 1);
      RowCellsNames(Chunk(names, m - 1));
      var a := Min(RowWidth * (m - 1), |names|);
      assert a == RowWidth * (m - 1);
      var b := Min(RowWidth * m, |names|);
      assert names[..b] == names[..a] + names[a..b];
    }
  }

  // ---- bubbles ----

  /** A bubble of the template; `rows` is `None` while the bubble keeps the body it has in the
   *  template, and the rows once the category container is filled in. */
  datatype Bubble = Bubble(title: string, rows: Option<seq<Row>>)

  /** The result: the default bubble, a single bubble returned unwrapped, or a carousel. */
  datatype CategoryMessage = DefaultMessage | Single(bubble: Bubble) | Carousel(bubbles: seq<Bubble>)

  const IncomeTitle := "收入分類"
  const ExpenseTitle := "支出分類"

  /** The two name lists handed to the layout. */
  datatype Categories = Categories(income: seq<string>, expense: seq<string>)

  /** `Array.prototype.find` on the title: the index of the first bubble with that title. */
  function Find(bs: seq<Bubble>, title: string): (r: Option<nat>)
    ensures r.Some? ==> r.value < |bs| && bs[r.value].title == title
                        && forall j :: 0 <= j < r.value ==> bs[j].title != title
    ensures r.None? ==> forall j :: 0 <= j < |bs| ==> bs[j].title != title
    decreases |bs|
  {
    if bs == [] then None
    else if bs[0].title == title then Some(0)
    else match Find(bs[1..], title)
      case None => None
      case Some(k) => Some(k + 1)
  }

  /** The first bubble with the title gets the rows; a template without one is left as it is. */
  function Fill(bs: seq<Bubble>, title: string, rows: seq<Row>): (r: seq<Bubble>)
    ensures |r| == |bs|
  {
    match Find(bs, title)
    case None => bs
    case Some(k) => bs[k := bs[k].(rows := Some(rows))]
  }

  /** The template's bubbles reordered to expense then income when it has more than one and
   *  both are there. */
  function Reordered(t: seq<Bubble>): seq<Bubble>
  {
    if |t| > 1 && Find(t, ExpenseTitle).Some? && Find(t, IncomeTitle).Some? then
      [t[Find(t, ExpenseTitle).value], t[Find(t, IncomeTitle).value]]
    else t
  }

  /** The bubbles that are kept: only the income one, only the expense one, or all. `None` when
   *  the one kept is not in the template, where the code keeps `undefined` and the next
   *  lookup throws. */
  function Selected(t: seq<Bubble>, c: Categories): Option<seq<Bubble>>
  {
    if c.income != [] && c.expense == [] then
      (match Find(t, IncomeTitle) case None => None case Some(k) => Some([t[k]]))
    else if c.expense != [] && c.income == [] then
      (match Find(t, ExpenseTitle) case None => None case Some(k) => Some([t[k]]))
    else Some(t)
  }

  /** The bubbles with the income rows and then the expense rows filled in. */
  function Filled(bs: seq<Bubble>, c: Categories): seq<Bubble>
  {
    var withIncome := if c.income != [] then Fill(bs, IncomeTitle, Layout(c.income)) else bs;
    if c.expense != [] then Fill(withIncome, ExpenseTitle, Layout(c.expense)) else withIncome
  }

  function Wrapped(bs: seq<Bubble>): CategoryMessage
  {
    if |bs| == 0 then DefaultMessage else if |bs| == 1 then Single(bs[0]) else Carousel(bs)
  }

  /** What `createCategoryListMessage` returns, given the categories (`None` when they could not
   *  be read) and the parsed template (`None` when reading or parsing it throws). */
  function ListMessage(data: Option<Categories>, template: Option<seq<Bubble>>): CategoryMessage
  {
    if data.None? || (data.value.income == [] && data.value.expense == []) then DefaultMessage
    else if template.None? then DefaultMessage
    else match Selected(Reordered(template.value), data.value)
      case None => DefaultMessage
      case Some(bs) => Wrapped(Filled(bs, data.value))
  }

  /** `createCategoryListMessage`, step by step. */
  method CreateCategoryListMessage(data: Option<Categories>, template: Option<seq<Bubble>>)
    returns (m: CategoryMessage)
    ensures m == ListMessage(data, template)
  {
    if data.None? || (|data.value.income| == 0 && |data.value.expense| == 0) {
      return DefaultMessage;
    }
    if template.None? {
      return DefaultMessage;
    }
    var incomeCategories := data.value.income;
    var expenseCategories := data.value.expense;
    var contents := Reordered(template.value);
    var kept := Selected(contents, data.value);
    if kept.None? {
      return DefaultMessage;
    }
    contents := kept.value;
    if |incomeCategories| > 0 {
      var rows := BuildRows(incomeCategories);
      contents := Fill(contents, IncomeTitle, rows);
    }
    if |expenseCategories| > 0 {
      var rows := BuildRows(expenseCategories);
      contents := Fill(contents, ExpenseTitle, rows);
    }
    if |contents| == 0 {
      return DefaultMessage;
    }
    if |contents| == 1 {
      return Single(contents[0]);
    }
    return Carousel(contents);
  }

  /** A template holding both titled bubbles. */
  predicate HasBoth(t: seq<Bubble>)
  {
    Find(t, IncomeTitle).Some? && Find(t, ExpenseTitle).Some?
  }

  /** Nothing to show gives the default message. */
  lemma NoDataDefault(data: Option<Categories>, template: Option<seq<Bubble>>)
    requires data.None? || (data.value.income == [] && data.value.expense == [])
    ensures ListMessage(data, template) == DefaultMessage
  {
  }

  /** Only income categories: the income bubble alone, unwrapped, with the income rows. */
  lemma OnlyIncome(c: Categories, t: seq<Bubble>)
    requires c.income != [] && c.expense == [] && HasBoth(t)
    ensures ListMessage(Some(c), Some(t)) == Single(Bubble(IncomeTitle, Some(Layout(c.income))))
  {
    var r := Reordered(t);
    assert Find(r, IncomeTitle).Some? by {
      if r != t {
        assert r[1].title == IncomeTitle;
        assert r[0].title == ExpenseTitle;
      }
    }
  }

  /** Only expense categories: the expense bubble alone, unwrapped, with the expense rows. */
  lemma OnlyExpense(c: Categories, t: seq<Bubble>)
    requires c.expense != [] && c.income == [] && HasBoth(t)
    ensures ListMessage(Some(c), Some(t)) == Single(Bubble(ExpenseTitle, Some(Layout(c.expense))))
  {
    var r := Reordered(t);
    assert Find(r, ExpenseTitle).Some? by {
      if r != t {
        assert r[0].title == ExpenseTitle;
      }
    }
  }

  /** Both kinds: a carousel of the expense bubble and then the income bubble, each with its rows. */
  lemma BothKinds(c: Categories, t: seq<Bubble>)
    requires c.expense != [] && c.income != [] && HasBoth(t)
    ensures ListMessage(Some(c), Some(t))
         == Carousel([Bubble(ExpenseTitle, Some(Layout(c.expense))), Bubble(IncomeTitle, Some(Layout(c.income)))])
  {
    var e := Find(t, ExpenseTitle).value;
    var i := Find(t, IncomeTitle).value;
    assert e != i;
    assert |t| > 1;
    var r := Reordered(t);
    assert r == [t[e], t[i]];
    assert Find(r, IncomeTitle) == Some(1);
    var r1 := Fill(r, IncomeTitle, Layout(c.income));
    assert Find(r1, ExpenseTitle) == Some(0);
  }

  /** A template without the income bubble, with only income categories, gives the default
   *  message: the kept `undefined` makes the next lookup throw. */
  lemma MissingBubbleDefault(c: Categories, t: seq<Bubble>)
    requires c.income != [] && c.expense == [] && Find(t, IncomeTitle).None?
    ensures ListMessage(Some(c), Some(t)) == DefaultMessage
  {
    assert Find(Reordered(t), IncomeTitle).None? by {
      if |t| > 1 && Find(t, ExpenseTitle).Some? && Find(t, IncomeTitle).Some? {
        assert false;
      }
    }
  }

  // ---- merge ----

  /** A row of the categories table: name and type. */
  datatype Category = Category(name: string, kind: string)

  /** A user's row; `deleted` is `is_deleted`, which may be null. */
  datatype UserCategory = UserCategory(name: string, kind: string, deleted: Option<bool>)

  /** The names the user deleted (`is_deleted === true`). */
  function DeletedNames(user: seq<UserCategory>): set<string>
  {
    set c | c in user && c.deleted == Some(true) :: c.name
  }

  /** The system categories the user has not deleted, in order. */
  function ValidSystem(system: seq<Category>, deleted: set<string>): (r: seq<Category>)
    ensures forall c :: c in r <==> c in system && c.name !in deleted
    decreases |system|
  {
    if system == [] then []
    else (if system[0].name in deleted then [] else [system[0]]) + ValidSystem(system[1..], deleted)
  }

  /** The user's own categories that are not deleted (`is_deleted === false`), in order. */
  function ValidUser(user: seq<UserCategory>): (r: seq<Category>)
    ensures forall c :: c in r <==> UserCategory(c.name, c.kind, Some(false)) in user
    decreases |user|
  {
    if user == [] then []
    else (if user[0].deleted == Some(false) then [Category(user[0].name, user[0].kind)] else [])
         + ValidUser(user[1..])
  }

  function Names(cs: seq<Category>): (r: seq<string>)
    ensures |r| == |cs| && forall i :: 0 <= i < |cs| ==> r[i] == cs[i].name
  {
    seq(|cs|, i requires 0 <= i < |cs| => cs[i].name)
  }

  /** The de-duplication by name, the first occurrence kept. */
  function Dedup(cs: seq<Category>): seq<Category>
    decreases |cs|
  {
    if cs == [] then []
    else
      var d := Dedup(cs[..|cs| - 1]);
      if cs[|cs| - 1].name in Names(d) then d else d + [cs[|cs| - 1]]
  }

  /** The `forEach` with a name set. */
  method DedupCategories(all: seq<Category>) returns (unique: seq<Category>)
    ensures unique == Dedup(all)
  {
    unique := [];
    var nameSet: set<string> := {};
    for i := 0 to |all|
      invariant unique == Dedup(all[..i])
      invariant forall n :: n in nameSet <==> n in Names(unique)
    {
      assert all[..i + 1][..i] == all[..i];
      var cat := all[i];
      if cat.name !in nameSet {
        nameSet := nameSet + {cat.name};
        unique := unique + [cat];
        assert Names(unique) == Names(unique[..|unique| - 1]) + [cat.name];
      }
    }
    assert all[..|all|] == all;
  }

  /** Row `i` is the first row of `cs` with its name. */
  predicate FirstOfName(cs: seq<Category>, i: nat)
    requires i < |cs|
  {
    forall k :: 0 <= k < i ==> cs[k].name != cs[i].name
  }

  /** Every name of the input is kept, no name is kept twice, and each kept row is the first
   *  row of the input with its name. */
  lemma {:induction false} DedupFirstWins(cs: seq<Category>)
    ensures forall c :: c in cs ==> c.name in Names(Dedup(cs))
    ensures forall i, j :: 0 <= i < j < |Dedup(cs)| ==> Dedup(cs)[i].name != Dedup(cs)[j].name
    ensures forall j :: 0 <= j < |Dedup(cs)| ==>
              exists i :: 0 <= i < |cs| && cs[i] == Dedup(cs)[j] && FirstOfName(cs, i)
    decreases |cs|
  {
    if cs != [] {
      var init := cs[..|cs| - 1];
      var last := cs[|cs| - 1];
      DedupFirstWins(init);
      var d := Dedup(init);
      assert forall k :: 0 <= k < |init| ==> init[k] == cs[k];
      forall j | 0 <= j < |d|
        ensures exists i :: 0 <= i < |cs| && cs[i] == d[j] && FirstOfName(cs, i)
      {
        var i :| 0 <= i < |init| && init[i] == d[j] && FirstOfName(init, i);
        assert cs[i] == d[j] && FirstOfName(cs, i);
      }
      if last.name !in Names(d) {
        var r := d + [last];
        assert Dedup(cs) == r;
        assert FirstOfName(cs, |cs| - 1) by {
          forall k | 0 <= k < |init| ensures cs[k].name != last.name {
            assert init[k] in init;
          }
        }
        forall j | 0 <= j < |r|
          ensures exists i :: 0 <= i < |cs| && cs[i] == r[j] && FirstOfName(cs, i)
        {
          if j == |d| {
            assert cs[|cs| - 1] == r[j];
          } else {
            assert r[j] == d[j];
          }
        }
        assert Names(r) == Names(d) + [last.name];
        forall c | c in cs ensures c.name in Names(r) {
          if c != last { assert c in init; }
        }
      } else {
        assert Dedup(cs) == d;
        forall c | c in cs ensures c.name in Names(d) {
          if c != last { assert c in init; }
        }
      }
    } else {
      assert Dedup(cs) == [];
    }
  }

  /** The names of the given type, in order; other types are dropped. */
  function NamesOfType(cs: seq<Category>, kind: string): (r: seq<string>)
    ensures |r| <= |cs|
    decreases |cs|
  {
    if cs == [] then []
    else (if cs[0].kind == kind then [cs[0].name] else []) + NamesOfType(cs[1..], kind)
  }

  /** What `getCategoriesForUser` returns, given the two query results (`None` on a query error). */
  function CategoriesOf(system: Option<seq<Category>>, user: Option<seq<UserCategory>>): Option<Categories>
  {
    if system.None? || user.None? then None
    else
      var unique := Dedup(ValidSystem(system.value, DeletedNames(user.value)) + ValidUser(user.value));
      Some(Categories(NamesOfType(unique, "income"), NamesOfType(unique, "expense")))
  }

  /** `getCategoriesForUser`, step by step. */
  method GetCategoriesForUser(system: Option<seq<Category>>, user: Option<seq<UserCategory>>)
    returns (r: Option<Categories>)
    ensures r == CategoriesOf(system, user)
  {
    if system.None? || user.None? {
      return None;
    }
    var deleted := DeletedNames(user.value);
    var allValid := ValidSystem(system.value, deleted) + ValidUser(user.value);
    var unique := DedupCategories(allValid);
    r := Some(Categories(NamesOfType(unique, "income"), NamesOfType(unique, "expense")));
  }

  /** A name is listed under income exactly when some row of that name, of type income, is kept. */
  lemma {:induction false} NamesOfTypeIff(cs: seq<Category>, kind: string, n: string)
    ensures n in NamesOfType(cs, kind) <==> Category(n, kind) in cs
    decreases |cs|
  {
    if cs != [] {
      NamesOfTypeIff(cs[1..], kind, n);
      assert cs == [cs[0]] + cs[1..];
    }
  }

  /** Only income and expense rows are listed: the two lists hold every kept row exactly when
   *  no kept row has another type. */
  lemma {:induction false} SplitDropsOthers(cs: seq<Category>)
    ensures |NamesOfType(cs, "income")| + |NamesOfType(cs, "expense")| <= |cs|
    ensures |NamesOfType(cs, "income")| + |NamesOfType(cs, "expense")| == |cs|
            <==> forall c :: c in cs ==> c.kind == "income" || c.kind == "expense"
    decreases |cs|
  {
    if cs != [] {
      SplitDropsOthers(cs[1..]);
      assert cs == [cs[0]] + cs[1..];
      assert forall c :: c in cs <==> c == cs[0] || c in cs[1..];
    }
  }

  /** A system category the user deleted is offered only if the user has a live category of
   *  the same name; every system category the user kept is offered under its name. */
  lemma MergeRules(system: seq<Category>, user: seq<UserCategory>)
    ensures var unique := Dedup(ValidSystem(system, DeletedNames(user)) + ValidUser(user));
            forall c :: c in system && c.name !in DeletedNames(user) ==> c.name in Names(unique)
    ensures var unique := Dedup(ValidSystem(system, DeletedNames(user)) + ValidUser(user));
            forall n :: n in Names(unique) ==>
              (exists c :: c in system && c.name == n && n !in DeletedNames(user))
              || (exists k :: UserCategory(n, k, Some(false)) in user)
  {
    var all := ValidSystem(system, DeletedNames(user)) + ValidUser(user);
    var unique := Dedup(all);
    DedupFirstWins(all);
    forall c | c in system && c.name !in DeletedNames(user) ensures c.name in Names(unique) {
      assert c in all;
    }
    forall n | n in Names(unique)
      ensures (exists c :: c in system && c.name == n && n !in DeletedNames(user))
              || (exists k :: UserCategory(n, k, Some(false)) in user)
    {
      var j :| 0 <= j < |unique| && unique[j].name == n;
      var i :| 0 <= i < |all| && all[i] == unique[j] && FirstOfName(all, i);
      assert all[i] in all;
      if all[i] in ValidSystem(system, DeletedNames(user)) {
        assert all[i] in system;
      } else {
        assert all[i] in ValidUser(user);
        assert UserCategory(n, all[i].kind, Some(false)) in user;
      }
    }
  }
}
