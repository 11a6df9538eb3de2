/**
 * `createFlexMessage`: the record card. A four-way table on the record's
 * type and `is_fixed` chooses the pill label, its colour and its padding;
 * the remaining placeholders of the card template get the record's fields
 * or their defaults. When the template cannot be loaded or its substituted
 * text is not JSON, a plain four-line bubble is returned instead.
 * The template text itself is not modelled: a card is the tuple of values
 * substituted into it.
 */
module FlexMessage {
  import opened Strings
  import opened Records

  datatype Variant = FixedIncome | Income | FixedExpense | Expense

  /** The variant of a record: only the type "income" is income, anything else is expense. */
  function VariantOf(txType: string, isFixed: bool): (v: Variant)
    ensures (v == FixedIncome || v == Income) <==> txType == "income"
    ensures (v == FixedIncome || v == FixedExpense) <==> isFixed
  {
    if txType == "income" then (if isFixed then FixedIncome else Income)
    else (if isFixed then FixedExpense else Expense)
  }

  function PillText(v: Variant): string
  {
    match v
    case FixedIncome => "固定收入"
    case Income => "收入"
    case FixedExpense => "固定支出"
    case Expense => "支出"
  }

  function PillColor(v: Variant): string
  {
    match v
    case FixedIncome => "#4A90E2"
    case Income => "#2D9CDB"
    case FixedExpense => "#EB5757"
    case Expense => "#1DB446"
  }

  /** `paddingStart` and `paddingEnd` (always equal). */
  function Padding(v: Variant): string
  {
    if v == FixedIncome || v == FixedExpense then "8px" else "0px"
  }

  /** The `flex` weight of the amount column. */
  function FlexWeight(isFixed: bool): (w: nat)
    ensures w == 3 <==> isFixed
    ensures w == 2 <==> !isFixed
  {
    if isFixed then 3 else 2
  }

  /** The label names the direction of the record, and says "固定" exactly for fixed records. */
  lemma {:induction false} PillTextMentions(txType: string, isFixed: bool)
    ensures Contains(PillText(VariantOf(txType, isFixed)), "收入") <==> txType == "income"
    ensures Contains(PillText(VariantOf(txType, isFixed)), "支出") <==> txType != "income"
    ensures Contains(PillText(VariantOf(txType, isFixed)), "固定") <==> isFixed
  {
    PillMentions(VariantOf(txType, isFixed));
  }

  lemma {:induction false} PillMentions(v: Variant)
    ensures Contains(PillText(v), "收入") <==> (v == FixedIncome || v == Income)
    ensures Contains(PillText(v), "支出") <==> (v == FixedExpense || v == Expense)
    ensures Contains(PillText(v), "固定") <==> (v == FixedIncome || v == FixedExpense)
  {
    var p := PillText(v);
    match v
    case FixedIncome =>
      OccursContains(p, "收入", 2);
      ContainsChar(p, "支出");
      OccursContains(p, "固定", 0);
    case Income =>
      OccursContains(p, "收入", 0);
      ContainsChar(p, "支出");
      ContainsChar(p, "固定");
    case FixedExpense =>
      ContainsChar(p, "收入");
      OccursContains(p, "支出", 2);
      OccursContains(p, "固定", 0);
    case Expense =>
      ContainsChar(p, "收入");
      OccursContains(p, "支出", 0);
      ContainsChar(p, "固定");
  }

  lemma OccursContains(s: string, t: string, i: int)
    requires OccursAt(s, t, i)
    ensures Contains(s, t)
  {
    ContainsIff(s, t);
  }

  /** The four variants are told apart by colour alone, and the wide padding marks the fixed ones. */
  lemma VariantStyle(v: Variant, w: Variant)
    ensures PillColor(v) == PillColor(w) <==> v == w
    ensures PillText(v) == PillText(w) <==> v == w
    ensures Padding(v) == "8px" <==> (v == FixedIncome || v == FixedExpense)
  {
  }

  /** The values substituted into the card template. */
  datatype Card = Card(
    category: string,
    pillColor: string,
    pillText: string,
    paddingStart: string,
    paddingEnd: string,
    flex: nat,
    amount: string,
    memo: string,
    datetime: string,
    liffId: string,
    recordId: string,
    txType: string)

  /** A text node of the fallback bubble; `None` is an attribute left out. */
  datatype TextNode = TextNode(text: string, weight: Option<string>, color: Option<string>,
                               size: string, margin: Option<string>, wrap: bool)

  /**
   * A bubble in a reply. `OtherBubble` is one this model does not render (tutorial
   * pages, summary cards, bubbles built by a caller); `pillAt` is the text found at
   * `body.contents[0].contents[1].contents[0]`, `None` when that path does not exist.
   */
  datatype Flex =
    | RecordCard(card: Card)
    | FallbackCard(contents: seq<TextNode>)
    | OtherBubble(name: string, pillAt: Option<string>)

  /**
   * What `createFlexMessage` reads besides the record: today's UTC date as
   * `YYYY-MM-DD`, the LIFF app ID of the environment, and whether the
   * substituted template loads and parses as JSON.
   */
  datatype Context = Context(utcDate: string, liffId: string, templateParses: Card -> bool)

  /** `${amount}` replaced by `data.amount`: its decimal text, or "undefined" when missing. */
  function AmountText(a: Option<int>): string
  {
    if a.Some? then IntToString(a.value) else "undefined"
  }

  /** The `recordId` URL parameter: "" for a falsy ID, otherwise its URI encoding,
   *  which for a numeric ID is its decimal digits. */
  function RecordIdParam(id: RecordId): (p: string)
    ensures p == "" <==> !(id.Id? && id.n > 0)
    ensures id.Id? && id.n > 0 ==> AllDigits(p) && ParseDigits(p) == id.n
  {
    if id.Id? && id.n > 0 then
      NatToStringRoundTrip(id.n);
      NatToString(id.n)
    else ""
  }

  /** `data.type || "expense"` for the edit button. */
  function TypeParam(t: string): (p: string)
    ensures p != ""
    ensures t != "" ==> p == t
  {
    if t == "" then "expense" else t
  }

  /** The card for a decorated record. */
  function CardFor(e: Entry, ctx: Context): (c: Card)
    ensures c.pillText == PillText(VariantOf(e.txType, e.isFixed))
    ensures c.pillColor == PillColor(VariantOf(e.txType, e.isFixed))
    ensures c.paddingStart == c.paddingEnd == Padding(VariantOf(e.txType, e.isFixed))
    ensures c.flex == FlexWeight(e.isFixed)
    ensures c.category == OrElse(e.category, "未分類")
    ensures c.memo == OrElse(e.memo, "無備註")
    ensures c.datetime == OrElse(e.datetime, ctx.utcDate)
    ensures c.amount == AmountText(e.amount)
    ensures c.liffId == ctx.liffId
    ensures c.recordId == RecordIdParam(e.recordId)
    ensures c.txType == TypeParam(e.txType)
  {
    var v := VariantOf(e.txType, e.isFixed);
    Card(OrElse(e.category, "未分類"), PillColor(v), PillText(v), Padding(v), Padding(v),
         FlexWeight(e.isFixed), AmountText(e.amount), OrElse(e.memo, "無備註"),
         OrElse(e.datetime, ctx.utcDate), ctx.liffId, RecordIdParam(e.recordId), TypeParam(e.txType))
  }

  /** The four lines of the fallback bubble; `color` is the colour used for the category line. */
  function FallbackContents(e: Entry, ctx: Context, color: string): (ns: seq<TextNode>)
    ensures |ns| == 4
    ensures ns[0].text == OrElse(e.category, "未分類") && ns[0].color == Some(color)
    ensures ns[1].text == "$" + AmountText(e.amount)
    ensures ns[2].text == OrElse(e.memo, "無備註")
    ensures ns[3].text == OrElse(e.datetime, ctx.utcDate)
  {
    [ TextNode(OrElse(e.category, "未分類"), Some("bold"), Some(color), "sm", None, false),
      TextNode("$" + AmountText(e.amount), Some("bold"), None, "xl", Some("md"), false),
      TextNode(OrElse(e.memo, "無備註"), None, Some("#555555"), "sm", Some("md"), true),
      TextNode(OrElse(e.datetime, ctx.utcDate), None, Some("#aaaaaa"), "xs", Some("md"), true) ]
  }

  /**
   * `createFlexMessage` as evidently intended: the card when the template works, otherwise
   * the fallback bubble whose category line takes the variant colour.
   */
  function CreateFlexMessage(e: Entry, ctx: Context): (f: Flex)
    ensures f.RecordCard? <==> ctx.templateParses(CardFor(e, ctx))
    ensures f.RecordCard? ==> f.card == CardFor(e, ctx)
    ensures f.FallbackCard? ==>
      f.contents == FallbackContents(e, ctx, PillColor(VariantOf(e.txType, e.isFixed)))
    ensures !f.OtherBubble?
  {
    var c := CardFor(e, ctx);
    if ctx.templateParses(c) then RecordCard(c)
    else FallbackCard(FallbackContents(e, ctx, PillColor(VariantOf(e.txType, e.isFixed))))
  }

  /**
   * `createFlexMessage` as written: the fallback is built in the `catch` block, where the
   * `let pillColor` of the `try` block is out of scope, so that path throws.
   */
  function CreateFlexMessageAsWritten(e: Entry, ctx: Context): (r: Result<Flex>)
    ensures r.Ok? <==> ctx.templateParses(CardFor(e, ctx))
    ensures r.Ok? ==> r.value == RecordCard(CardFor(e, ctx))
  {
    var c := CardFor(e, ctx);
    if ctx.templateParses(c) then Ok(RecordCard(c))
    else Err("ReferenceError: pillColor is not defined")
  }

  /** Which `createFlexMessage` a caller gets: the one the repository ships, or the corrected one. */
  datatype Builder = AsWritten | Corrected

  /** The bubble of a record from the chosen builder; an `Err` is a throw. */
  function Build(b: Builder, e: Entry, ctx: Context): Result<Flex>
  {
    if b == AsWritten then CreateFlexMessageAsWritten(e, ctx) else Ok(CreateFlexMessage(e, ctx))
  }

  /** Whatever the builder, a bubble it returns is the corrected one, and only the shipped
   *  builder throws, exactly when the template does not parse. */
  lemma BuildChoice(b: Builder, e: Entry, ctx: Context)
    ensures Build(b, e, ctx).Ok? ==> Build(b, e, ctx).value == CreateFlexMessage(e, ctx)
    ensures Build(b, e, ctx).Err? <==> b == AsWritten && !ctx.templateParses(CardFor(e, ctx))
  {
  }

  /** The two versions agree on every record whose card renders, and differ on every other. */
  lemma CreateFlexMessageVersions(e: Entry, ctx: Context)
    ensures CreateFlexMessageAsWritten(e, ctx) == Ok(CreateFlexMessage(e, ctx))
        <==> ctx.templateParses(CardFor(e, ctx))
  {
  }

  /** A template that never parses: the as-written function throws on any record. */
  lemma FallbackThrowsExample()
    ensures CreateFlexMessageAsWritten(Entry(None, Some(5), None, None, "expense", false, NoId),
                                       Context("2026-01-01", "liff", (c: Card) => false)).Err?
    ensures CreateFlexMessage(Entry(None, Some(5), None, None, "expense", false, NoId),
                              Context("2026-01-01", "liff", (c: Card) => false)).FallbackCard?
  {
  }

  /** The text at `body.contents[0].contents[1].contents[0].text`, the pill of a record card;
   *  the fallback bubble's first content is a text node, so the lookup throws there. */
  function PillAt(f: Flex): (p: Option<string>)
    ensures f.RecordCard? ==> p == Some(f.card.pillText)
    ensures f.FallbackCard? ==> p == None
  {
    match f
    case RecordCard(c) => Some(c.pillText)
    case FallbackCard(_) => None
    case OtherBubble(_, p) => p
  }
}
