/**
 * `extractSummaryData` and `extractCategories`: the figures a reply states
 * after 收入, 支出 and 結餘/餘額 labels, the category lines
 * `name：amount (pct%)`, the title derived from the keyword, and the store
 * fallback through `getTransactionData` when the reply states neither
 * income nor expense.
 */
module Summary {
  import opened Strings
  import opened Scanning
  import opened Ledger
  import opened Calendar
  import opened Transactions

  /** The dataset handed to the summary card. `None` is a value left null. */
  datatype Summary = Summary(
    title: string,
    income: Option<string>,
    expense: Option<string>,
    balance: Option<string>,
    analysisTitle: string,
    analysisItems: seq<AnalysisItem>)

  predicate IsCurrency(c: char) { c == '$' || c == '¥' || c == '￥' }

  predicate DigitOrComma(c: char) { IsDigit(c) || c == ',' }

  predicate DigitOrDot(c: char) { IsDigit(c) || c == '.' }

  /** The letters of a category name: CJK ideographs U+4E00..U+9FA5 and ASCII letters. */
  predicate LabelChar(c: char)
  {
    ('\U{4E00}' <= c <= '\U{9FA5}') || ('a' <= c <= 'z') || ('A' <= c <= 'Z')
  }

  /** A full-width or ASCII colon. */
  function Colon(t: string, p: nat): (r: Option<nat>)
    requires p <= |t|
    ensures r.Some? ==> p < |t| && (t[p] == ':' || t[p] == '：') && r.value == p + 1
  {
    if p < |t| && (t[p] == ':' || t[p] == '：') then Some(p + 1) else None
  }

  /** An optional `.` with one or two digits after `c`. */
  function OptFraction(t: string, c: nat): (q: nat)
    requires c <= |t|
    ensures c <= q <= |t| && (q == c || IsDigit(t[q - 1]))
  {
    if c + 1 < |t| && t[c] == '.' && IsDigit(t[c + 1]) then
      (if c + 2 < |t| && IsDigit(t[c + 2]) then c + 3 else c + 2)
    else c
  }

  /** A figure at `p`: an optional currency symbol, spaces, digits and commas, and an
   *  optional fraction of one or two digits. */
  function Figure(t: string, p: nat): (r: Option<nat>)
    requires p <= |t|
    ensures r.Some? ==> p < r.value <= |t| && DigitOrComma(t[r.value - 1])
  {
    var a := if p < |t| && IsCurrency(t[p]) then p + 1 else p;
    var b :- Run1(t, SkipSpace(t, a), DigitOrComma);
    Some(OptFraction(t, b))
  }

  /** `word`, a colon, spaces and a figure at `p`: the bounds of the figure. */
  function LabelledFigureAt(t: string, p: nat, word: string): (r: Option<(nat, nat)>)
    requires p <= |t|
    ensures r.Some? ==> p <= r.value.0 < r.value.1 <= |t| && Unpadded(t[r.value.0..r.value.1])
  {
    var a :- Lit(t, p, word);
    var b :- Colon(t, a);
    var c := SkipSpace(t, b);
    var d :- Figure(t, c);
    Some((c, d))
  }

  /** The first alternative of `labels` that matches at `p`. */
  function FigureAt(labels: seq<string>, t: string, p: nat): (r: Option<(nat, nat)>)
    requires p <= |t|
    ensures r.Some? ==> p <= r.value.0 < r.value.1 <= |t| && Unpadded(t[r.value.0..r.value.1])
  {
    if labels == [] then None
    else
      var m := LabelledFigureAt(t, p, labels[0]);
      if m.Some? then m else FigureAt(labels[1..], t, p)
  }

  /** The figure of the leftmost match at or after `p` (`t.match(...)[1]`); it has no
   *  whitespace at its ends, so the `.trim()` applied to it changes nothing. */
  function FirstFigure(labels: seq<string>, t: string, p: nat): (r: Option<string>)
    requires p <= |t|
    ensures r.Some? ==> Unpadded(r.value)
    decreases |t| - p
  {
    var m := FigureAt(labels, t, p);
    if m.Some? then Some(t[m.value.0..m.value.1])
    else if p == |t| then None
    else FirstFigure(labels, t, p + 1)
  }

  const IncomeLabels: seq<string> := ["收入"]
  const ExpenseLabels: seq<string> := ["支出"]
  const BalanceLabels: seq<string> := ["結餘", "餘額"]

  /** A figure as stored in the dataset: "$ " in front unless it starts with a currency symbol. */
  function WithSymbol(v: string): (r: string)
    ensures r != [] && IsCurrency(r[0])
    ensures v != [] && IsCurrency(v[0]) ==> r == v
    ensures !(v != [] && IsCurrency(v[0])) ==> r == "$ " + v
  {
    if v != [] && IsCurrency(v[0]) then v else "$ " + v
  }

  /** The dataset value of a figure found in the text (its `.trim()` is the identity,
   *  see `FigureTrimmed`). */
  function Symbolled(f: Option<string>): (r: Option<string>)
    ensures r.Some? <==> f.Some?
  {
    if f.Some? then Some(WithSymbol(f.value)) else None
  }

  /** The `.trim()` of a captured figure leaves it unchanged. */
  lemma FigureTrimmed(labels: seq<string>, t: string)
    requires FirstFigure(labels, t, 0).Some?
    ensures Trim(FirstFigure(labels, t, 0).value) == FirstFigure(labels, t, 0).value
  {
    TrimUnpadded(FirstFigure(labels, t, 0).value);
  }

  /** The characters `replace(/[$¥￥,\s]/g, "")` removes before `parseFloat`. */
  predicate FigureJunk(c: char) { IsCurrency(c) || c == ',' || IsSpace(c) }

  /** `parseFloat` of a figure stripped of symbols, commas and spaces, in hundredths. */
  function Numeric(v: string): Option<int>
  {
    ParseHundredths(RemoveChars(v, FigureJunk))
  }

  /** `$ ${(income - expense).toLocaleString("en-US", 2 fraction digits)}`; NaN prints as "NaN". */
  function BalanceText(income: string, expense: string): string
  {
    var a, b := Numeric(income), Numeric(expense);
    "$ " + (if a.Some? && b.Some? then Hundredths(a.value - b.value) else "NaN")
  }

  /** Hundredths rounded to the nearest whole unit, halves away from zero. */
  function RoundHundredths(c: int): int
  {
    if c < 0 then -((-c + 50) / 100) else (c + 50) / 100
  }

  /** The same difference with 0 fraction digits. */
  function BalanceTextWhole(income: string, expense: string): string
  {
    var a, b := Numeric(income), Numeric(expense);
    "$ " + (if a.Some? && b.Some? then Whole(RoundHundredths(a.value - b.value)) else "NaN")
  }

  // ---- keyword ----

  /** The first of 日, 週, 周 or 月 in the keyword, with 周 written as 週; "" if none. */
  function PeriodOf(keyword: string): (r: string)
    ensures r == "" || r == "日" || r == "週" || r == "月"
    ensures r == "" <==> forall i :: 0 <= i < |keyword| ==> keyword[i] !in "日週周月"
  {
    if keyword == [] then ""
    else if keyword[0] == '日' || keyword[0] == '週' || keyword[0] == '月' then [keyword[0]]
    else if keyword[0] == '周' then "週"
    else
      var r := PeriodOf(keyword[1..]);
      assert forall i :: 1 <= i < |keyword| ==> keyword[i] == keyword[1..][i - 1];
      r
  }

  /** The first of 支出 or 收入 in the keyword; 支出 if neither occurs. */
  function KeywordType(keyword: string): (r: string)
    ensures r == "支出" || r == "收入"
    ensures r == "收入" ==> Contains(keyword, "收入")
    ensures !Contains(keyword, "收入") ==> r == "支出"
  {
    if |keyword| < 2 then "支出"
    else if keyword[..2] == "支出" then "支出"
    else if keyword[..2] == "收入" then "收入"
    else KeywordType(keyword[1..])
  }

  // ---- categories ----

  /** One match of the category expression: the name, the figure, the optional percentage. */
  datatype CategoryMatch = CategoryMatch(name: string, figure: string, percent: Option<string>)

  /** `(`, digits and dots, `%`, `)` at `p`: the bounds of the percentage and the end. */
  function PercentAt(t: string, p: nat): (r: Option<(nat, nat, nat)>)
    requires p <= |t|
    ensures r.Some? ==> p < r.value.0 < r.value.1 < r.value.2 <= |t| && t[r.value.1 - 1] == '%'
    ensures r.Some? ==> PercentText(t[r.value.0..r.value.1])
  {
    var a :- Lit(t, p, "(");
    var b :- Run1(t, a, DigitOrDot);
    var c :- Lit(t, b, "%");
    var d :- Lit(t, c, ")");
    assert t[b] == '%' by { assert t[b..c][0] == t[b]; }
    UnpaddedSlice(t, a, c);
    assert t[a..c][c - a - 1] == '%';
    Some((a, c, d))
  }

  /** The captures of a match have no whitespace at their ends, and a percentage always
   *  ends with its `%`. */
  predicate WellFormed(m: CategoryMatch)
  {
    Unpadded(m.name) && Unpadded(m.figure)
    && (m.percent.Some? ==> PercentText(m.percent.value))
  }

  /** A captured percentage: no whitespace at its ends, and a `%` last. */
  predicate PercentText(p: string)
  {
    Unpadded(p) && p[|p| - 1] == '%'
  }

  /** A slice that starts and ends on a letter, a digit, a comma, a symbol or a `%`. */
  lemma UnpaddedSlice(t: string, i: nat, j: nat)
    requires i < j <= |t|
    requires LabelChar(t[i]) || DigitOrDot(t[i]) || IsCurrency(t[i]) || DigitOrComma(t[i])
    requires LabelChar(t[j - 1]) || DigitOrComma(t[j - 1]) || t[j - 1] == '%'
    ensures Unpadded(t[i..j])
  {
  }

  /** The name, the colon, spaces and the figure at the start of `t`: the end of the name and
   *  the bounds of the figure. */
  function NameFigureAt(t: string): (r: Option<(nat, nat, nat)>)
    ensures r.Some? ==> 0 < r.value.0 < r.value.1 < r.value.2 <= |t|
    ensures r.Some? ==> Unpadded(t[..r.value.0]) && Unpadded(t[r.value.1..r.value.2])
  {
    var a :- Run1(t, 0, LabelChar);
    var b :- Colon(t, a);
    var c := SkipSpace(t, b);
    var d :- Figure(t, c);
    UnpaddedSlice(t, 0, a);
    UnpaddedSlice(t, c, d);
    Some((a, c, d))
  }

  /** The category expression at the start of `t`, and the length of its match. */
  function CategoryAt(t: string): (r: Option<(CategoryMatch, nat)>)
    ensures r.Some? ==> 0 < r.value.1 <= |t| && WellFormed(r.value.0)
  {
    match NameFigureAt(t)
    case None => None
    case Some((a, c, d)) =>
      var e := SkipSpace(t, d);
      match PercentAt(t, e)
      case None => Some((CategoryMatch(t[..a], t[c..d], None), e))
      case Some((i, j, k)) => Some((CategoryMatch(t[..a], t[c..d], Some(t[i..j])), k))
  }

  /** `[...text.matchAll(categoryRegex)]`: the matches left to right, each search resuming
   *  where the previous match ended. */
  function CategoryMatches(t: string): (ms: seq<CategoryMatch>)
    ensures forall m :: m in ms ==> WellFormed(m)
    decreases |t|
  {
    if t == [] then []
    else
      match CategoryAt(t)
      case Some((m, n)) => [m] + CategoryMatches(t[n..])
      case None => CategoryMatches(t[1..])
  }

  const SkipLabels: seq<string> := ["收入", "支出", "結餘", "餘額", "凈收入", "主要支出類別", "主要", "支出類別"]

  /** `xs.includes(x)`. */
  predicate Listed(x: string, xs: seq<string>)
  {
    xs != [] && (xs[0] == x || Listed(x, xs[1..]))
  }

  /** Names that are figures of the summary rather than categories. */
  predicate Skipped(name: string) { Listed(name, SkipLabels) }

  /** The analysis item of a match; the `.trim()` calls on its captures are the identity
   *  (`CapturesTrimmed`). */
  function ItemOf(m: CategoryMatch): (it: AnalysisItem)
    ensures it.category == m.name
    ensures it.amount == WithSymbol(m.figure)
    ensures it.amount != [] && IsCurrency(it.amount[0])
    ensures m.percent.Some? ==> it.percentage == m.percent.value
    ensures m.percent.None? ==> it.percentage == "0%"
  {
    AnalysisItem(m.name, WithSymbol(m.figure), if m.percent.Some? then m.percent.value else "0%")
  }

  /** Every capture of a match is left unchanged by `.trim()`. */
  lemma CapturesTrimmed(t: string)
    ensures forall m :: m in CategoryMatches(t) ==>
      Trim(m.name) == m.name && Trim(m.figure) == m.figure
      && (m.percent.Some? ==> Trim(m.percent.value) == m.percent.value)
  {
    forall m | m in CategoryMatches(t)
      ensures Trim(m.name) == m.name && Trim(m.figure) == m.figure
              && (m.percent.Some? ==> Trim(m.percent.value) == m.percent.value)
    {
      TrimUnpadded(m.name);
      TrimUnpadded(m.figure);
      if m.percent.Some? { TrimUnpadded(m.percent.value); }
    }
  }

  /** The analysis items of the matches whose name is not skip-listed, in order. */
  function Categories(ms: seq<CategoryMatch>): (items: seq<AnalysisItem>)
    ensures |items| <= |ms|
  {
    if ms == [] then [] else Kept(ms[0]) + Categories(ms[1..])
  }

  /** The item of one match, or nothing for a skip-listed name. */
  function Kept(m: CategoryMatch): (r: seq<AnalysisItem>)
    ensures |r| <= 1
  {
    if Skipped(m.name) then [] else [ItemOf(m)]
  }

  /** The analysis items are exactly the items of the matches whose name is not skip-listed. */
  lemma {:induction false} CategoriesFilter(ms: seq<CategoryMatch>)
    ensures forall m :: m in ms && !Skipped(m.name) ==> ItemOf(m) in Categories(ms)
    ensures forall it :: it in Categories(ms) ==> exists m :: m in ms && !Skipped(m.name) && it == ItemOf(m)
  {
    if ms != [] {
      CategoriesFilter(ms[1..]);
      assert forall m :: m in ms ==> m == ms[0] || m in ms[1..];
      assert forall m :: m in ms[1..] ==> m in ms;
    }
  }

  /** `extractCategories`: every match of the category expression, through the loop below. */
  method ExtractCategories(text: string) returns (items: seq<AnalysisItem>)
    ensures items == Categories(CategoryMatches(text))
  {
    items := CollectItems(CategoryMatches(text));
  }

  /** The `forEach` of `extractCategories`: skip-listed names are dropped, the rest become
   *  analysis items in match order. */
  method CollectItems(ms: seq<CategoryMatch>) returns (items: seq<AnalysisItem>)
    ensures items == Categories(ms)
  {
    items := [];
    var i := 0;
    while i < |ms|
      invariant 0 <= i <= |ms|
      invariant items == Categories(ms[..i])
    {
      assert ms[..i + 1] == ms[..i] + [ms[i]];
      CategoriesSnoc(ms[..i], ms[i]);
      if !Skipped(ms[i].name) {
        items := items + [ItemOf(ms[i])];
      }
      i := i + 1;
    }
    assert ms[..i] == ms;
  }

  /** One more match adds its item at the end, unless its name is skip-listed. */
  lemma {:induction false} CategoriesSnoc(ms: seq<CategoryMatch>, m: CategoryMatch)
    ensures Categories(ms + [m]) == Categories(ms) + Kept(m)
  {
    if ms == [] {
      assert ms + [m] == [m] && [m][1..] == [];
      assert Categories([m]) == Kept(m) + [];
    } else {
      var rest := ms[1..];
      assert (ms + [m])[0] == ms[0] && (ms + [m])[1..] == rest + [m];
      CategoriesSnoc(rest, m);
      assert Categories(ms + [m]) == Kept(ms[0]) + (Categories(rest) + Kept(m));
    }
  }

  // ---- extractSummaryData ----

  /** The type the summary is about: 支出 for a balance keyword, else the keyword's own. */
  function TxTypeOf(keyword: string): (r: string)
    ensures r == "支出" || r == "收入"
    ensures Contains(keyword, "結餘") ==> r == "支出"
    ensures r == "收入" ==> Contains(keyword, "收入")
  {
    if Contains(keyword, "結餘") then "支出" else KeywordType(keyword)
  }

  /** `X結餘` for a balance keyword, `X支出總結` or `X收入總結` otherwise, with X the period. */
  function TitleOf(keyword: string): string
  {
    if Contains(keyword, "結餘") then PeriodOf(keyword) + "結餘"
    else PeriodOf(keyword) + TxTypeOf(keyword) + "總結"
  }

  function AnalysisTitleOf(keyword: string): string
  {
    PeriodOf(keyword) + TxTypeOf(keyword) + "分析"
  }

  /** The first balance pass: the balance computed from the stated figures when the text
   *  states both but no balance. */
  function FirstBalance(income: Option<string>, expense: Option<string>, stated: Option<string>): Option<string>
  {
    if income.Some? && expense.Some? && stated.None? then Some(BalanceText(income.value, expense.value))
    else stated
  }

  /** The store's analysis items of the summary's type, when it has any; else the text's. */
  function ChooseItems(txType: string, rep: Report, items: seq<AnalysisItem>): seq<AnalysisItem>
  {
    if txType == "收入" && rep.incomeItems != [] then rep.incomeItems
    else if txType == "支出" && rep.expenseItems != [] then rep.expenseItems
    else items
  }

  /** The store's report, fetched only when the text states neither income nor expense. */
  function StoreReport(income: Option<string>, expense: Option<string>, rows: Option<seq<Txn>>,
                       keyword: string, today: Date): Option<Report>
    requires Valid(today) && today.year >= 2
  {
    if income.None? && expense.None? then GetTransactionData(rows, PeriodOf(keyword), today) else None
  }

  /** The dataset from the figures and items found in the text and the store's report. */
  function Assemble(keyword: string, income: Option<string>, expense: Option<string>, stated: Option<string>,
                    items: seq<AnalysisItem>, report: Option<Report>): (s: Summary)
    ensures s.title == TitleOf(keyword) && s.analysisTitle == AnalysisTitleOf(keyword)
  {
    if report.Some? then
      Summary(TitleOf(keyword), Some(report.value.income), Some(report.value.expense), Some(report.value.balance),
              AnalysisTitleOf(keyword), ChooseItems(TxTypeOf(keyword), report.value, items))
    else
      Summary(TitleOf(keyword), income, expense, FirstBalance(income, expense, stated), AnalysisTitleOf(keyword), items)
  }

  /** What `extractSummaryData(text, keyword)` returns, given the store's rows and today. */
  function SummaryOf(text: string, keyword: string, rows: Option<seq<Txn>>, today: Date): Summary
    requires Valid(today) && today.year >= 2
  {
    var t := Trim(text);
    var income := Symbolled(FirstFigure(IncomeLabels, t, 0));
    var expense := Symbolled(FirstFigure(ExpenseLabels, t, 0));
    var stated := Symbolled(FirstFigure(BalanceLabels, t, 0));
    Assemble(keyword, income, expense, stated, Categories(CategoryMatches(t)), StoreReport(income, expense, rows, keyword, today))
  }

  /** A JavaScript truthiness test on a dataset value. */
  predicate Truthy(v: Option<string>) { v.Some? && v.value != "" }

  /** The balance the second pass would compute, with 0 fraction digits. */
  function SecondPass(income: Option<string>, expense: Option<string>): Option<string>
  {
    if income.Some? && expense.Some? then Some(BalanceTextWhole(income.value, expense.value)) else None
  }

  /** Every figure the store reports is a money text, never empty. */
  lemma ReportTruthy(rows: Option<seq<Txn>>, period: string, today: Date)
    requires Valid(today) && today.year >= 2
    requires GetTransactionData(rows, period, today).Some?
    ensures var rep := GetTransactionData(rows, period, today).value;
            rep.income != "" && rep.expense != "" && rep.balance != ""
  {
    var rep := GetTransactionData(rows, period, today).value;
    ProcessReport(FilterPeriod(period, today, rows.value));
  }

  /** The first steps of `extractSummaryData`: the period, the type and the title from the keyword. */
  method KeywordHeadings(keyword: string) returns (periodType: string, transactionType: string, title: string)
    ensures periodType == PeriodOf(keyword) && transactionType == TxTypeOf(keyword)
    ensures title == TitleOf(keyword)
  {
    periodType := PeriodOf(keyword);
    var isBalanceKeyword := Contains(keyword, "結餘");
    transactionType := "支出";
    if !isBalanceKeyword {
      transactionType := KeywordType(keyword);
    }
    if isBalanceKeyword || keyword == "月結餘" {
      if keyword == "月結餘" {
        ContainsIff(keyword, "結餘");
        assert OccursAt(keyword, "結餘", 1);
      }
      title := periodType + "結餘";
    } else {
      title := periodType + transactionType + "總結";
    }
  }

  /** The figures the text states, with the first balance pass. */
  method StatedFigures(cleanText: string) returns (incomeValue: Option<string>, expenseValue: Option<string>,
                                                   balanceValue: Option<string>, hasData: bool)
    ensures incomeValue == Symbolled(FirstFigure(IncomeLabels, cleanText, 0))
    ensures expenseValue == Symbolled(FirstFigure(ExpenseLabels, cleanText, 0))
    ensures balanceValue == FirstBalance(incomeValue, expenseValue, Symbolled(FirstFigure(BalanceLabels, cleanText, 0)))
    ensures hasData <==> incomeValue.Some? || expenseValue.Some? || balanceValue.Some?
  {
    incomeValue := Symbolled(FirstFigure(IncomeLabels, cleanText, 0));
    expenseValue := Symbolled(FirstFigure(ExpenseLabels, cleanText, 0));
    balanceValue := Symbolled(FirstFigure(BalanceLabels, cleanText, 0));
    hasData := incomeValue.Some? || expenseValue.Some? || balanceValue.Some?;
    if Truthy(incomeValue) && Truthy(expenseValue) && !Truthy(balanceValue) {
      balanceValue := Some(BalanceText(incomeValue.value, expenseValue.value));
      hasData := true;
    }
  }

  /** `extractSummaryData`, step by step: the headings, the figures from the text with a first
   *  balance pass, the store when the text states neither income nor expense, and a second
   *  balance pass, which never fires. */
  method ExtractSummaryData(text: string, keyword: string, rows: Option<seq<Txn>>, today: Date)
    returns (s: Summary)
    requires Valid(today) && today.year >= 2
    ensures s == SummaryOf(text, keyword, rows, today)
  {
    var cleanText := Trim(text);
    var periodType, transactionType, title := KeywordHeadings(keyword);
    var incomeValue, expenseValue, balanceValue, hasData := StatedFigures(cleanText);
    ghost var income0, expense0, balance0 := incomeValue, expenseValue, balanceValue;
    var analysisItems := ExtractCategories(cleanText);
    ghost var items0 := analysisItems;
    ghost var report := StoreReport(income0, expense0, rows, keyword, today);
    if !hasData || (!Truthy(incomeValue) && !Truthy(expenseValue)) {
      assert income0.None? && expense0.None?;
      var supabaseData := GetTransactionData(rows, periodType, today);
      assert supabaseData == report;
      if supabaseData.Some? {
        ReportTruthy(rows, periodType, today);
        incomeValue := Some(supabaseData.value.income);
        expenseValue := Some(supabaseData.value.expense);
        balanceValue := Some(supabaseData.value.balance);
        analysisItems := ChooseItems(transactionType, supabaseData.value, analysisItems);
        hasData := true;
      }
    } else {
      assert report.None?;
    }
    if Truthy(incomeValue) && Truthy(expenseValue) && !Truthy(balanceValue) {
      balanceValue := SecondPass(incomeValue, expenseValue);
    }
    assert report.None? ==> balanceValue == balance0;
    s := Summary(title, incomeValue, expenseValue, balanceValue, periodType + transactionType + "分析", analysisItems);
  }

  // ---- properties ----

  /** The store is consulted only when the text states neither income nor expense:
   *  otherwise the rows make no difference. */
  lemma StoreOnlyWithoutFigures(text: string, keyword: string, rows1: Option<seq<Txn>>,
                                rows2: Option<seq<Txn>>, today: Date)
    requires Valid(today) && today.year >= 2
    requires FirstFigure(IncomeLabels, Trim(text), 0).Some? || FirstFigure(ExpenseLabels, Trim(text), 0).Some?
    ensures SummaryOf(text, keyword, rows1, today) == SummaryOf(text, keyword, rows2, today)
    ensures SummaryOf(text, keyword, rows1, today).analysisItems == Categories(CategoryMatches(Trim(text)))
  {
  }

  /** When the text states neither and the store has rows in the period, its figures win,
   *  and its analysis items replace the extracted ones exactly when it has some of the
   *  summary's type; otherwise the items extracted from the text stay. */
  lemma StoreOverrides(text: string, keyword: string, rows: Option<seq<Txn>>, today: Date)
    requires Valid(today) && today.year >= 2
    requires FirstFigure(IncomeLabels, Trim(text), 0).None? && FirstFigure(ExpenseLabels, Trim(text), 0).None?
    requires GetTransactionData(rows, PeriodOf(keyword), today).Some?
    ensures var rep := GetTransactionData(rows, PeriodOf(keyword), today).value;
            var s := SummaryOf(text, keyword, rows, today);
            s.income == Some(rep.income) && s.expense == Some(rep.expense) && s.balance == Some(rep.balance)
            && (TxTypeOf(keyword) == "收入" && rep.incomeItems != [] ==> s.analysisItems == rep.incomeItems)
            && (TxTypeOf(keyword) == "支出" && rep.expenseItems != [] ==> s.analysisItems == rep.expenseItems)
            && (!(TxTypeOf(keyword) == "收入" && rep.incomeItems != []) &&
                !(TxTypeOf(keyword) == "支出" && rep.expenseItems != []) ==>
                  s.analysisItems == Categories(CategoryMatches(Trim(text))))
  {
    var rep := GetTransactionData(rows, PeriodOf(keyword), today).value;
    assert SummaryOf(text, keyword, rows, today).analysisItems
        == ChooseItems(TxTypeOf(keyword), rep, Categories(CategoryMatches(Trim(text))));
  }

  /** When the text states neither and the store has nothing for the period, the summary has
   *  no income or expense, only the balance the text states, and the items extracted from the text. */
  lemma StoreEmpty(text: string, keyword: string, rows: Option<seq<Txn>>, today: Date)
    requires Valid(today) && today.year >= 2
    requires FirstFigure(IncomeLabels, Trim(text), 0).None? && FirstFigure(ExpenseLabels, Trim(text), 0).None?
    requires GetTransactionData(rows, PeriodOf(keyword), today).None?
    ensures var s := SummaryOf(text, keyword, rows, today);
            s.income.None? && s.expense.None?
            && s.balance == Symbolled(FirstFigure(BalanceLabels, Trim(text), 0))
            && s.analysisItems == Categories(CategoryMatches(Trim(text)))
  {
  }

  /** When the text states both figures and no balance, the balance is their difference:
   *  read back the way the figures are read, it is income minus expense. */
  lemma ComputedBalance(text: string, keyword: string, rows: Option<seq<Txn>>, today: Date)
    requires Valid(today) && today.year >= 2
    requires FirstFigure(IncomeLabels, Trim(text), 0).Some? && FirstFigure(ExpenseLabels, Trim(text), 0).Some?
    requires FirstFigure(BalanceLabels, Trim(text), 0).None?
    ensures var s := SummaryOf(text, keyword, rows, today);
            s.income.Some? && s.expense.Some? &&
            s.balance == Some(BalanceText(s.income.value, s.expense.value))
  {
  }

  /** The balance text of two figures reads back as their difference (for a difference that
   *  is not negative: figures carry no sign). */
  lemma BalanceReadsBack(income: string, expense: string)
    requires Numeric(income).Some? && Numeric(expense).Some?
    requires Numeric(income).value >= Numeric(expense).value
    ensures Numeric(BalanceText(income, expense)) == Some(Numeric(income).value - Numeric(expense).value)
  {
    var c: nat := Numeric(income).value - Numeric(expense).value;
    assert BalanceText(income, expense) == "$ " + Hundredths(c);
    MoneyReadsBack(c);
  }

  /** A money text with two fraction digits reads back as its hundredths. */
  lemma MoneyReadsBack(c: nat)
    ensures Numeric("$ " + Hundredths(c)) == Some(c)
  {
    StrippedHundredths(c);
    ParseHundredthsFixed(c / 100, c % 100);
  }

  /** Stripping the symbol, the space and the grouping commas from a money text leaves the
   *  plain digits, the point and the two fraction digits. */
  lemma StrippedHundredths(c: nat)
    ensures RemoveChars("$ " + Hundredths(c), FigureJunk) == NatToString(c / 100) + ("." + Fixed(2, c % 100))
  {
    var g, f := Grouped(c / 100), Fixed(2, c % 100);
    assert "$ " + Hundredths(c) == "$ " + (g + ("." + f));
    StripMoneyParts(g, f);
    assert StripsCommas(FigureJunk);
    GroupedDigits(c / 100, FigureJunk);
    FixedIsDigits(2, c % 100);
    DigitsKept(f, FigureJunk);
  }

  /** The symbol and its space go, the point stays, and each side is stripped on its own. */
  lemma StripMoneyParts(g: string, f: string)
    ensures RemoveChars("$ " + (g + ("." + f)), FigureJunk)
         == RemoveChars(g, FigureJunk) + ("." + RemoveChars(f, FigureJunk))
  {
    var rest := g + ("." + f);
    assert "$ " + rest == ['$'] + ([' '] + rest);
    DropHead(' ', rest, FigureJunk);
    DropHead('$', [' '] + rest, FigureJunk);
    RemoveCharsConcat(g, "." + f, FigureJunk);
    assert "." + f == ['.'] + f;
    KeepHead('.', f, FigureJunk);
  }

  /** The title and the analysis title follow the keyword alone. */
  lemma Titles(text: string, keyword: string, rows: Option<seq<Txn>>, today: Date)
    requires Valid(today) && today.year >= 2
    ensures var s := SummaryOf(text, keyword, rows, today);
            (Contains(keyword, "結餘") ==> s.title == PeriodOf(keyword) + "結餘" && s.analysisTitle == PeriodOf(keyword) + "支出分析")
            && (!Contains(keyword, "結餘") ==> s.title == PeriodOf(keyword) + KeywordType(keyword) + "總結")
  {
    var s := SummaryOf(text, keyword, rows, today);
    assert s.title == TitleOf(keyword) && s.analysisTitle == AnalysisTitleOf(keyword);
  }

  /** A text without any colon states no figure. */
  lemma {:induction false} NoColonNoFigure(labels: seq<string>, t: string, p: nat)
    requires p <= |t|
    requires forall i :: 0 <= i < |t| ==> t[i] != ':' && t[i] != '：'
    ensures FirstFigure(labels, t, p).None?
    decreases |t| - p
  {
    NoColonNoMatch(labels, t, p);
    if p < |t| { NoColonNoFigure(labels, t, p + 1); }
  }

  lemma {:induction false} NoColonNoMatch(labels: seq<string>, t: string, p: nat)
    requires p <= |t|
    requires forall i :: 0 <= i < |t| ==> t[i] != ':' && t[i] != '：'
    ensures FigureAt(labels, t, p).None?
  {
    if labels != [] {
      NoColonNoMatch(labels[1..], t, p);
    }
  }
}
