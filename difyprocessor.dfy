/**
 * `processDifyMessage`: the reply of the conversational AI turned into the
 * text, the flex bubbles and the type the assembler sends on. Command replies
 * (tutorial triggers, 餘額, the summary keywords) are answered first; any
 * other reply goes through the record strategies in their fixed order:
 * fenced code blocks, then a bare JSON array, then a bare JSON object, then
 * the legacy sentence template.
 *
 * The regular-expression search is abstracted: a `Scan` is the view of the
 * reply those expressions produce (the extracted IDs, the type marker, the
 * fenced blocks with their parse results, the bare matches). Both the current
 * revision and the older one of server.js are modelled; they differ in how a
 * record's type is set and in the text cleaner.
 */
module DifyProcessor {
  import opened Strings
  import opened Records
  import opened FlexMessage
  import opened CleanText
  import opened Calendar
  import opened Transactions
  import opened Summary

  /** What `processDifyMessage` returns: `{text, flexMessages, type}`. */
  datatype Processed = Processed(text: string, flexMessages: seq<Flex>, kind: string)

  /** A fenced code block the block loop visits, by the shape of its trimmed content:
   *  `[...]`, `{...}`, or neither. `None` is a content `JSON.parse` rejects. */
  datatype Block =
    | ArrayBlock(records: Option<seq<Record>>)
    | ObjectBlock(record: Option<Record>)
    | OtherBlock

  /**
   * The pre-scanned reply.
   * `bareArray` and `bareObject`: `None` when the expression does not match, `Some(None)`
   * when it matches but the match does not parse. `legacy`: the captures of the legacy
   * sentence template when it matches.
   */
  datatype Scan = Scan(
    ids: seq<nat>,
    typeMarker: Option<string>,
    jsonTypeHit: Option<string>,
    blocks: seq<Block>,
    bareArray: Option<Option<seq<Record>>>,
    bareObject: Option<Option<Record>>,
    legacy: Option<LegacyCapture>)

  /** A card renderer imported from the flex module; `NotExported` is a name the module does
   *  not export, so calling it throws a TypeError, which the caller catches. */
  datatype Renderer = NotExported | Exported(render: Summary -> Option<Flex>)

  /**
   * What the reply processing reads besides the reply: the tutorial pages loaded from their
   * files (`None` when loading fails), the two summary renderers, the store's rows for the
   * user, today, what `createFlexMessage` reads, and which `createFlexMessage` is called.
   */
  datatype Env = Env(
    tutorialPages: Option<seq<Flex>>,
    balanceRenderer: Renderer,
    summaryRenderer: Renderer,
    rows: Option<seq<Txn>>,
    today: Date,
    flex: Context,
    builder: Builder)

  /** The two revisions of `processDifyMessage`: the current one, and the older one in server.js. */
  datatype Revision = Current | Older

  const MaxFlexMessages: nat := 5

  /** `createTutorialMessage`: both pages (at most five are kept), or a text when loading fails. */
  function TutorialReply(pages: Option<seq<Flex>>): (r: Processed)
    ensures r.kind == "tutorial"
    ensures |r.flexMessages| <= MaxFlexMessages
    ensures pages.Some? ==> |r.flexMessages| <= |pages.value|
    ensures pages.Some? ==> r.text == "" && r.flexMessages == pages.value[..|r.flexMessages|]
    ensures pages.None? ==> r.flexMessages == [] && r.text != ""
  {
    if pages.Some? then
      Processed("", if |pages.value| > MaxFlexMessages then pages.value[..MaxFlexMessages] else pages.value, "tutorial")
    else Processed("無法顯示教學文檔。請重新嘗試或聯繫客服。", [], "tutorial")
  }

  predicate IsTutorialTrigger(t: string)
  {
    t == "教學文檔" || t == "旺來怎麼用" || t == "說明"
  }

  const SummaryKeywords: seq<string> := ["日支出總結", "日收入總結", "週支出總結", "週收入總結", "月支出總結", "月收入總結"]

  /** The simplified balance card: the monthly balance summary rendered, or `None` when the
   *  renderer throws or returns nothing. */
  function BalanceCard(env: Env): Option<Flex>
    requires Valid(env.today) && env.today.year >= 2
  {
    match env.balanceRenderer
    case NotExported => None
    case Exported(render) => render(SummaryOf("月結餘", "月結餘", env.rows, env.today))
  }

  // ---- record strategies ----

  /** The decoration of a revision: the current one lets a record's own type win, the older
   *  one stamps the global type. */
  function DecorateFor(rev: Revision, rec: Record, id: RecordId, g: string): Entry
  {
    if rev == Current then Decorate(rec, id, g) else DecorateOld(rec, id, g)
  }

  function DecorateArrayFor(rev: Revision, recs: seq<Record>, ids: seq<nat>, g: string): (es: seq<Entry>)
    ensures |es| == |recs|
    ensures forall i :: 0 <= i < |recs| ==> es[i] == DecorateFor(rev, recs[i], ArrayId(ids, i), g)
  {
    if rev == Current then DecorateArray(recs, ids, g) else DecorateArrayOld(recs, ids, g)
  }

  /** A block that `JSON.parse` accepted. */
  predicate Parsed(b: Block)
  {
    (b.ArrayBlock? && b.records.Some?) || (b.ObjectBlock? && b.record.Some?)
  }

  /** The records one block contributes. */
  function BlockRecords(rev: Revision, b: Block, ids: seq<nat>, g: string): (es: seq<Entry>)
    ensures !Parsed(b) ==> es == []
  {
    match b
    case ArrayBlock(Some(recs)) => DecorateArrayFor(rev, recs, ids, g)
    case ObjectBlock(Some(rec)) => [DecorateFor(rev, rec, SingleId(ids), g)]
    case _ => []
  }

  /** The sequences `f` gives for the elements, one after another. */
  function FlatMap<A, B>(f: A -> seq<B>, xs: seq<A>): seq<B>
    decreases |xs|
  {
    if xs == [] then [] else FlatMap(f, xs[..|xs| - 1]) + f(xs[|xs| - 1])
  }

  lemma {:induction false} FlatMapConcat<A, B>(f: A -> seq<B>, a: seq<A>, b: seq<A>)
    ensures FlatMap(f, a + b) == FlatMap(f, a) + FlatMap(f, b)
    decreases |b|
  {
    if b == [] {
      assert a + b == a;
    } else {
      var init := b[..|b| - 1];
      assert (a + b)[..|a + b| - 1] == a + init;
      assert (a + b)[|a + b| - 1] == b[|b| - 1];
      FlatMapConcat(f, a, init);
    }
  }

  function RecordsOf(rev: Revision, ids: seq<nat>, g: string): Block -> seq<Entry>
  {
    b => BlockRecords(rev, b, ids, g)
  }

  /** The records of the blocks, block after block. */
  function BlockEntries(rev: Revision, bs: seq<Block>, ids: seq<nat>, g: string): seq<Entry>
  {
    FlatMap(RecordsOf(rev, ids, g), bs)
  }

  predicate AnyParsed(bs: seq<Block>)
  {
    exists i :: 0 <= i < |bs| && Parsed(bs[i])
  }

  /** The records the strategy chain produces, in order. */
  function Entries(rev: Revision, s: Scan, g: string): seq<Entry>
  {
    if AnyParsed(s.blocks) then BlockEntries(rev, s.blocks, s.ids, g)
    else if s.bareArray.Some? then
      (if s.bareArray.value.Some? then DecorateArrayFor(rev, s.bareArray.value.value, s.ids, g) else [])
    else if s.bareObject.Some? then
      (if s.bareObject.value.Some? then [DecorateFor(rev, s.bareObject.value.value, SingleId(s.ids), g)] else [])
    else if s.legacy.Some? then [FromLegacy(s.legacy.value, s.ids, g)]
    else []
  }

  /** `f` applied to every element, in order. */
  function MapSeq<A, B>(f: A -> B, xs: seq<A>): (ys: seq<B>)
    ensures |ys| == |xs|
    ensures forall i :: 0 <= i < |xs| ==> ys[i] == f(xs[i])
  {
    seq(|xs|, i requires 0 <= i < |xs| => f(xs[i]))
  }

  lemma MapSeqConcat<A, B>(f: A -> B, a: seq<A>, b: seq<A>)
    ensures MapSeq(f, a + b) == MapSeq(f, a) + MapSeq(f, b)
  {
    var l, r := MapSeq(f, a + b), MapSeq(f, a) + MapSeq(f, b);
    forall i | 0 <= i < |l| ensures l[i] == r[i] {
      if i < |a| {
        assert (a + b)[i] == a[i];
      } else {
        assert (a + b)[i] == b[i - |a|];
      }
    }
  }

  /** The bubble of one record from the corrected builder. */
  function CardOf(ctx: Context): Entry -> Flex
  {
    e => CreateFlexMessage(e, ctx)
  }

  /** The record bubbles of the corrected builder, one per record, in record order. */
  function Cards(es: seq<Entry>, ctx: Context): (fs: seq<Flex>)
    ensures |fs| == |es|
    ensures forall i :: 0 <= i < |es| ==> fs[i] == CreateFlexMessage(es[i], ctx)
  {
    MapSeq(CardOf(ctx), es)
  }

  lemma CardsConcat(a: seq<Entry>, b: seq<Entry>, ctx: Context)
    ensures Cards(a + b, ctx) == Cards(a, ctx) + Cards(b, ctx)
  {
    MapSeqConcat(CardOf(ctx), a, b);
  }

  /** What a `forEach` over records leaves pushed, and whether a throw ended it. */
  datatype Pushed = Pushed(cards: seq<Flex>, threw: bool)

  /**
   * The `forEach` that pushes one bubble per record: the bubbles of the records before the
   * first one whose bubble throws; the throw leaves the loop, and nothing after it is pushed.
   */
  function PushCards(builder: Builder, es: seq<Entry>, ctx: Context): (p: Pushed)
    ensures |p.cards| <= |es|
    ensures p.threw <==> |p.cards| < |es|
    decreases |es|
  {
    if es == [] then Pushed([], false)
    else
      var p := PushCards(builder, es[..|es| - 1], ctx);
      if p.threw then p
      else match Build(builder, es[|es| - 1], ctx)
        case Err(_) => Pushed(p.cards, true)
        case Ok(f) => Pushed(p.cards + [f], false)
  }

  /** Bubble `i` is the one record `i` gives. */
  lemma {:induction false} PushedAt(builder: Builder, es: seq<Entry>, i: nat, ctx: Context)
    requires i < |PushCards(builder, es, ctx).cards|
    ensures Build(builder, es[i], ctx) == Ok(PushCards(builder, es, ctx).cards[i])
    decreases |es|
  {
    var init := es[..|es| - 1];
    var p0 := PushCards(builder, init, ctx);
    var p := PushCards(builder, es, ctx);
    assert p.cards == p0.cards || (!p0.threw && p.cards == p0.cards + [Build(builder, es[|es| - 1], ctx).value]);
    if i < |p0.cards| {
      assert p.cards[i] == p0.cards[i];
      PushedAt(builder, init, i, ctx);
      assert init[i] == es[i];
    } else {
      assert i == |init|;
    }
  }

  /** A throw comes from the record after the last bubble pushed. */
  lemma {:induction false} ThrewAt(builder: Builder, es: seq<Entry>, ctx: Context)
    requires PushCards(builder, es, ctx).threw
    ensures Build(builder, es[|PushCards(builder, es, ctx).cards|], ctx).Err?
    decreases |es|
  {
    var init := es[..|es| - 1];
    var p0 := PushCards(builder, init, ctx);
    if p0.threw {
      ThrewAt(builder, init, ctx);
      assert init[|p0.cards|] == es[|p0.cards|];
    }
  }

  /** Once a record has thrown, the records after it change nothing. */
  lemma {:induction false} ThrewStays(builder: Builder, es: seq<Entry>, n: nat, ctx: Context)
    requires n <= |es| && PushCards(builder, es[..n], ctx).threw
    ensures PushCards(builder, es, ctx) == PushCards(builder, es[..n], ctx)
    decreases |es|
  {
    if n == |es| {
      assert es[..n] == es;
    } else {
      var init := es[..|es| - 1];
      assert init[..n] == es[..n];
      ThrewStays(builder, init, n, ctx);
    }
  }

  /** Pushing record `i` after the ones before it, none of which threw. */
  lemma PushStep(builder: Builder, es: seq<Entry>, i: nat, ctx: Context)
    requires i < |es| && !PushCards(builder, es[..i], ctx).threw
    ensures Build(builder, es[i], ctx).Err? ==>
              PushCards(builder, es[..i + 1], ctx) == Pushed(PushCards(builder, es[..i], ctx).cards, true)
    ensures Build(builder, es[i], ctx).Ok? ==>
              PushCards(builder, es[..i + 1], ctx)
              == Pushed(PushCards(builder, es[..i], ctx).cards + [Build(builder, es[i], ctx).value], false)
  {
    assert es[..i + 1][..i] == es[..i];
  }

  /** The loop step of the `forEach`: record `i` either throws, which ends the whole push with
   *  the bubbles before it, or adds its bubble. */
  lemma PushNext(builder: Builder, es: seq<Entry>, i: nat, ctx: Context)
    requires i < |es| && !PushCards(builder, es[..i], ctx).threw
    ensures Build(builder, es[i], ctx).Err? ==>
              PushCards(builder, es, ctx) == Pushed(PushCards(builder, es[..i], ctx).cards, true)
    ensures Build(builder, es[i], ctx).Ok? ==>
              PushCards(builder, es[..i + 1], ctx)
              == Pushed(PushCards(builder, es[..i], ctx).cards + [Build(builder, es[i], ctx).value], false)
  {
    PushStep(builder, es, i, ctx);
    if Build(builder, es[i], ctx).Err? {
      ThrewStays(builder, es, i + 1, ctx);
    }
  }

  /** One record: its bubble, or nothing when it throws. */
  lemma PushOne(builder: Builder, e: Entry, ctx: Context)
    ensures PushCards(builder, [e], ctx).cards
         == if Build(builder, e, ctx).Ok? then [Build(builder, e, ctx).value] else []
  {
    assert [e][..0] == [];
  }

  /** When no record throws, every record gets its bubble, in order. */
  lemma AllBuilt(builder: Builder, es: seq<Entry>, ctx: Context)
    requires forall i :: 0 <= i < |es| ==> Build(builder, es[i], ctx).Ok?
    ensures PushCards(builder, es, ctx) == Pushed(Cards(es, ctx), false)
  {
    var p := PushCards(builder, es, ctx);
    if p.threw {
      ThrewAt(builder, es, ctx);
    }
    forall i | 0 <= i < |p.cards|
      ensures p.cards[i] == Cards(es, ctx)[i]
    {
      PushedAt(builder, es, i, ctx);
    }
  }

  /** The bubble `f` is the one the builder gives for some record of `es`. */
  predicate BuiltFrom(builder: Builder, f: Flex, es: seq<Entry>, ctx: Context)
  {
    exists e :: e in es && Build(builder, e, ctx) == Ok(f)
  }

  /** Every pushed bubble is built from one of the records. */
  lemma PushedSound(builder: Builder, es: seq<Entry>, ctx: Context)
    ensures forall f :: f in PushCards(builder, es, ctx).cards ==> BuiltFrom(builder, f, es, ctx)
  {
    var p := PushCards(builder, es, ctx);
    forall f | f in p.cards
      ensures BuiltFrom(builder, f, es, ctx)
    {
      var i :| 0 <= i < |p.cards| && p.cards[i] == f;
      PushedAt(builder, es, i, ctx);
      assert es[i] in es && Build(builder, es[i], ctx) == Ok(f);
    }
  }

  /** The bubbles one parsed block leaves pushed: a throw inside it is caught by the block's
   *  `catch`, keeping the bubbles pushed before it. */
  function BlockCards(builder: Builder, rev: Revision, b: Block, ids: seq<nat>, g: string, ctx: Context): seq<Flex>
  {
    PushCards(builder, BlockRecords(rev, b, ids, g), ctx).cards
  }

  function CardsOfBlock(builder: Builder, rev: Revision, ids: seq<nat>, g: string, ctx: Context): Block -> seq<Flex>
  {
    b => BlockCards(builder, rev, b, ids, g, ctx)
  }

  /** The bubbles of the blocks, block after block. */
  function AllBlockCards(builder: Builder, rev: Revision, bs: seq<Block>, ids: seq<nat>, g: string, ctx: Context)
    : seq<Flex>
  {
    FlatMap(CardsOfBlock(builder, rev, ids, g, ctx), bs)
  }

  /** The block loop's step: block `k` pushes its bubbles after those of the blocks before it. */
  lemma AllBlockCardsStep(builder: Builder, rev: Revision, bs: seq<Block>, k: nat, ids: seq<nat>, g: string,
                          ctx: Context)
    requires k < |bs|
    ensures AllBlockCards(builder, rev, bs[..k + 1], ids, g, ctx)
         == AllBlockCards(builder, rev, bs[..k], ids, g, ctx) + BlockCards(builder, rev, bs[k], ids, g, ctx)
  {
    assert bs[..k + 1][..k] == bs[..k];
  }

  /** A block that throws does not stop the loop: block `k` pushes its bubbles between those of
   *  the blocks before and after it. */
  lemma BlockCardsInPlace(builder: Builder, rev: Revision, bs: seq<Block>, k: nat, ids: seq<nat>, g: string,
                          ctx: Context)
    requires k < |bs|
    ensures AllBlockCards(builder, rev, bs, ids, g, ctx)
         == AllBlockCards(builder, rev, bs[..k], ids, g, ctx) + BlockCards(builder, rev, bs[k], ids, g, ctx)
            + AllBlockCards(builder, rev, bs[k + 1..], ids, g, ctx)
  {
    var f := CardsOfBlock(builder, rev, ids, g, ctx);
    assert bs == bs[..k] + [bs[k]] + bs[k + 1..];
    FlatMapConcat(f, bs[..k] + [bs[k]], bs[k + 1..]);
    FlatMapConcat(f, bs[..k], [bs[k]]);
    assert FlatMap(f, [bs[k]]) == f(bs[k]) by {
      assert [bs[k]][..0] == [];
    }
  }

  /** The bubble count is bounded by the record count, and every bubble is built from a record
   *  of the blocks. */
  lemma {:induction false} BlocksSound(builder: Builder, rev: Revision, bs: seq<Block>, ids: seq<nat>, g: string,
                                       ctx: Context)
    ensures |AllBlockCards(builder, rev, bs, ids, g, ctx)| <= |BlockEntries(rev, bs, ids, g)|
    ensures forall f :: f in AllBlockCards(builder, rev, bs, ids, g, ctx) ==>
              BuiltFrom(builder, f, BlockEntries(rev, bs, ids, g), ctx)
    decreases |bs|
  {
    if bs != [] {
      var init := bs[..|bs| - 1];
      var a := BlockEntries(rev, init, ids, g);
      var b := BlockRecords(rev, bs[|bs| - 1], ids, g);
      var cs := AllBlockCards(builder, rev, init, ids, g, ctx);
      var ds := BlockCards(builder, rev, bs[|bs| - 1], ids, g, ctx);
      assert BlockEntries(rev, bs, ids, g) == a + b;
      assert AllBlockCards(builder, rev, bs, ids, g, ctx) == cs + ds;
      BlocksSound(builder, rev, init, ids, g, ctx);
      PushedSound(builder, b, ctx);
      forall f | f in cs + ds
        ensures BuiltFrom(builder, f, a + b, ctx)
      {
        if f in cs {
          var e :| e in a && Build(builder, e, ctx) == Ok(f);
          assert e in a + b;
        } else {
          var e :| e in b && Build(builder, e, ctx) == Ok(f);
          assert e in a + b;
        }
      }
    }
  }

  lemma NoneThrowsSplit(builder: Builder, a: seq<Entry>, b: seq<Entry>, ctx: Context)
    requires forall e :: e in a + b ==> Build(builder, e, ctx).Ok?
    ensures forall e :: e in a ==> Build(builder, e, ctx).Ok?
    ensures forall i :: 0 <= i < |b| ==> Build(builder, b[i], ctx).Ok?
  {
    forall i | 0 <= i < |b|
      ensures Build(builder, b[i], ctx).Ok?
    {
      assert b[i] == (a + b)[|a| + i];
    }
  }

  /** When no record of the blocks throws, the blocks give one bubble per record, in order. */
  lemma {:induction false} BlocksAllBuilt(builder: Builder, rev: Revision, bs: seq<Block>, ids: seq<nat>, g: string,
                                          ctx: Context)
    requires forall e :: e in BlockEntries(rev, bs, ids, g) ==> Build(builder, e, ctx).Ok?
    ensures AllBlockCards(builder, rev, bs, ids, g, ctx) == Cards(BlockEntries(rev, bs, ids, g), ctx)
    decreases |bs|
  {
    if bs != [] {
      var init := bs[..|bs| - 1];
      var a := BlockEntries(rev, init, ids, g);
      var b := BlockRecords(rev, bs[|bs| - 1], ids, g);
      assert BlockEntries(rev, bs, ids, g) == a + b;
      assert AllBlockCards(builder, rev, bs, ids, g, ctx)
          == AllBlockCards(builder, rev, init, ids, g, ctx) + BlockCards(builder, rev, bs[|bs| - 1], ids, g, ctx);
      NoneThrowsSplit(builder, a, b, ctx);
      BlocksAllBuilt(builder, rev, init, ids, g, ctx);
      AllBuilt(builder, b, ctx);
      CardsConcat(a, b, ctx);
    }
  }

  /** The legacy template is the only strategy without a `catch`: its bubble throwing is the
   *  one way the chain fails. */
  predicate LegacyThrows(builder: Builder, s: Scan, g: string, ctx: Context)
  {
    !AnyParsed(s.blocks) && s.bareArray.None? && s.bareObject.None? && s.legacy.Some?
    && Build(builder, FromLegacy(s.legacy.value, s.ids, g), ctx).Err?
  }

  /**
   * The bubbles the strategy chain pushes. In a parsed block, a bare array or a bare object a
   * throwing bubble is caught by that strategy's `catch` (an array keeps the bubbles pushed
   * before it); the legacy template has no `catch`, so its throw is the result.
   */
  function ExtractedCards(builder: Builder, rev: Revision, s: Scan, g: string, ctx: Context): Result<seq<Flex>>
  {
    if AnyParsed(s.blocks) then Ok(AllBlockCards(builder, rev, s.blocks, s.ids, g, ctx))
    else if s.bareArray.Some? then
      Ok(if s.bareArray.value.Some? then PushCards(builder, DecorateArrayFor(rev, s.bareArray.value.value, s.ids, g), ctx).cards
         else [])
    else if s.bareObject.Some? then
      Ok(if s.bareObject.value.Some? then PushCards(builder, [DecorateFor(rev, s.bareObject.value.value, SingleId(s.ids), g)], ctx).cards
         else [])
    else if s.legacy.Some? then
      match Build(builder, FromLegacy(s.legacy.value, s.ids, g), ctx)
      case Ok(f) => Ok([f])
      case Err(e) => Err(e)
    else Ok([])
  }

  /** The chain fails exactly when the legacy template's bubble throws; otherwise it gives at
   *  most one bubble per record found, each built from one of them. */
  lemma ExtractedSound(builder: Builder, rev: Revision, s: Scan, g: string, ctx: Context)
    ensures ExtractedCards(builder, rev, s, g, ctx).Err? <==> LegacyThrows(builder, s, g, ctx)
    ensures var r := ExtractedCards(builder, rev, s, g, ctx);
            r.Ok? ==> |r.value| <= |Entries(rev, s, g)|
                      && forall f :: f in r.value ==> BuiltFrom(builder, f, Entries(rev, s, g), ctx)
  {
    if AnyParsed(s.blocks) {
      BlocksSound(builder, rev, s.blocks, s.ids, g, ctx);
    } else if s.bareArray.Some? {
      if s.bareArray.value.Some? {
        PushedSound(builder, DecorateArrayFor(rev, s.bareArray.value.value, s.ids, g), ctx);
      }
    } else if s.bareObject.Some? {
      if s.bareObject.value.Some? {
        PushedSound(builder, [DecorateFor(rev, s.bareObject.value.value, SingleId(s.ids), g)], ctx);
      }
    } else if s.legacy.Some? {
      assert FromLegacy(s.legacy.value, s.ids, g) in Entries(rev, s, g);
    }
  }

  /** When no record's bubble throws, the chain gives exactly one bubble per record found, in
   *  record order. */
  lemma ExtractedComplete(builder: Builder, rev: Revision, s: Scan, g: string, ctx: Context)
    requires forall e :: e in Entries(rev, s, g) ==> Build(builder, e, ctx).Ok?
    ensures ExtractedCards(builder, rev, s, g, ctx) == Ok(Cards(Entries(rev, s, g), ctx))
  {
    var es := Entries(rev, s, g);
    if AnyParsed(s.blocks) {
      BlocksAllBuilt(builder, rev, s.blocks, s.ids, g, ctx);
    } else if s.bareArray.Some? {
      if s.bareArray.value.Some? {
        assert forall i :: 0 <= i < |es| ==> es[i] in es;
        AllBuilt(builder, es, ctx);
      }
    } else if s.bareObject.Some? {
      if s.bareObject.value.Some? {
        assert es == [es[0]] && es[0] in es;
        PushOne(builder, es[0], ctx);
        assert Cards(es, ctx) == [CreateFlexMessage(es[0], ctx)];
      }
    } else if s.legacy.Some? {
      assert es == [es[0]] && es[0] in es;
      assert Cards(es, ctx) == [CreateFlexMessage(es[0], ctx)];
    }
  }

  /** The corrected builder never throws, so every record found gets its bubble. */
  lemma CorrectedExtractsAll(rev: Revision, s: Scan, g: string, ctx: Context)
    ensures ExtractedCards(Corrected, rev, s, g, ctx) == Ok(Cards(Entries(rev, s, g), ctx))
  {
    ExtractedComplete(Corrected, rev, s, g, ctx);
  }

  /** The shipped builder never puts the fallback bubble in a reply: every bubble is the record
   *  card of a record found. */
  lemma AsWrittenOnlyRecordCards(rev: Revision, s: Scan, g: string, ctx: Context)
    ensures var r := ExtractedCards(AsWritten, rev, s, g, ctx);
            r.Ok? ==> forall f :: f in r.value ==> f.RecordCard?
  {
    ExtractedSound(AsWritten, rev, s, g, ctx);
  }

  /** The global type of a revision. */
  function GlobalTypeFor(rev: Revision, s: Scan): string
  {
    if rev == Current then GlobalType(s.typeMarker, s.jsonTypeHit) else GlobalTypeOld(s.typeMarker)
  }

  /** The cleaned text of a revision. */
  function CleanFor(rev: Revision, msg: string): string
  {
    if rev == Current then CleanMessageText(Some(msg)) else CleanMessageTextOld(Some(msg))
  }

  /** The reply when no command is recognised: the cleaned text, the record bubbles and the
   *  global type, or the throw of the legacy template. */
  function Extraction(builder: Builder, rev: Revision, msg: string, s: Scan, ctx: Context): Result<Processed>
  {
    var g := GlobalTypeFor(rev, s);
    match ExtractedCards(builder, rev, s, g, ctx)
    case Ok(fs) => Ok(Processed(CleanFor(rev, msg), fs, g))
    case Err(e) => Err(e)
  }

  // ---- the whole reply ----

  /** The summary card of a keyword, or the apology when the renderer gives nothing. */
  function RenderedSummary(msg: string, keyword: string, env: Env): Processed
    requires Valid(env.today) && env.today.year >= 2 && env.summaryRenderer.Exported?
  {
    match env.summaryRenderer.render(SummaryOf(msg, keyword, env.rows, env.today))
    case None => Processed("抱歉，無法生成摘要報告。", [], "text")
    case Some(card) => Processed("", [card], "summary")
  }

  /** The summary command: a reply that is exactly one of the keywords, when the renderer is
   *  exported, gives the rendered summary of the keyword, or an apology when it renders nothing. */
  function SummaryReply(msg: string, t: string, env: Env): (r: Option<Processed>)
    requires Valid(env.today) && env.today.year >= 2
    ensures r.Some? <==> t in SummaryKeywords && env.summaryRenderer.Exported?
  {
    if t in SummaryKeywords && env.summaryRenderer.Exported? then Some(RenderedSummary(msg, t, env))
    else None
  }

  /** The reply to a recognised command, in the order the commands are tried; `None` when the
   *  reply is not one. */
  function CommandReply(msg: string, env: Env): Option<Processed>
    requires Valid(env.today) && env.today.year >= 2
  {
    var t := Trim(msg);
    if IsTutorialTrigger(t) then Some(TutorialReply(env.tutorialPages))
    else if t == "餘額" && BalanceCard(env).Some? then Some(Processed("", [BalanceCard(env).value], "balance_summary"))
    else if t == "" then Some(Processed("", [], "text"))
    else if Contains(msg, "餘額") && !Contains(msg, "總結") && BalanceCard(env).Some? then
      Some(Processed(CleanMessageText(Some(msg)), [BalanceCard(env).value], "balance_summary"))
    else SummaryReply(msg, t, env)
  }

  /** What the current `processDifyMessage(message)` resolves to; `Err` is a rejection. */
  function DifyReply(message: Option<string>, s: Scan, env: Env): Result<Processed>
    requires Valid(env.today) && env.today.year >= 2
  {
    var msg := OrElse(message, "");
    match CommandReply(msg, env)
    case Some(r) => Ok(r)
    case None => Extraction(env.builder, Current, msg, s, env.flex)
  }

  /** What the older `processDifyMessage(message)` of server.js resolves to. */
  function DifyReplyOld(msg: string, s: Scan, env: Env): Result<Processed>
  {
    if IsTutorialTrigger(Trim(msg)) then Ok(TutorialReply(env.tutorialPages))
    else Extraction(env.builder, Older, msg, s, env.flex)
  }

  // ---- the imperative version ----

  /** The `forEach` over the records of an array: one bubble per decorated record, pushed in
   *  order, until a bubble throws; `threw` reports the throw to the enclosing `try`. */
  method PushArray(flexMessages: seq<Flex>, builder: Builder, rev: Revision, recs: seq<Record>, ids: seq<nat>,
                   g: string, ctx: Context) returns (out: seq<Flex>, threw: bool)
    ensures var p := PushCards(builder, DecorateArrayFor(rev, recs, ids, g), ctx);
            out == flexMessages + p.cards && threw == p.threw
  {
    ghost var es := DecorateArrayFor(rev, recs, ids, g);
    var pushed: seq<Flex> := [];
    var index := 0;
    while index < |recs|
      invariant 0 <= index <= |recs|
      invariant PushCards(builder, es[..index], ctx) == Pushed(pushed, false)
    {
      var recordId := ArrayId(ids, index);
      var recordWithId := DecorateFor(rev, recs[index], recordId, g);
      assert recordWithId == es[index];
      var flexMessage := Build(builder, recordWithId, ctx);
      PushNext(builder, es, index, ctx);
      if flexMessage.Err? {
        return flexMessages + pushed, true;
      }
      pushed := pushed + [flexMessage.value];
      index := index + 1;
    }
    assert es[..index] == es;
    out, threw := flexMessages + pushed, false;
  }

  /** One pass of the block loop: the bubbles of the block's records, pushed in order; a throw
   *  is caught by the block's `catch`, after the block has been counted as parsed. */
  method VisitBlock(flexMessages: seq<Flex>, builder: Builder, rev: Revision, b: Block, ids: seq<nat>, g: string,
                    ctx: Context) returns (out: seq<Flex>, parsed: bool)
    ensures parsed == Parsed(b)
    ensures out == flexMessages + BlockCards(builder, rev, b, ids, g, ctx)
  {
    match b {
      case ArrayBlock(Some(recs)) =>
        parsed := true;
        var threw;
        out, threw := PushArray(flexMessages, builder, rev, recs, ids, g, ctx);
      case ObjectBlock(Some(rec)) =>
        parsed := true;
        var recordWithId := DecorateFor(rev, rec, SingleId(ids), g);
        var flexMessage := Build(builder, recordWithId, ctx);
        PushOne(builder, recordWithId, ctx);
        out := flexMessages;
        if flexMessage.Ok? {
          out := out + [flexMessage.value];
        }
      case _ =>
        parsed := false;
        out := flexMessages;
    }
  }

  /** The strategies tried when no fenced block parsed: a bare array, else a bare object,
   *  else the legacy template, whose throw is not caught. */
  method Fallback(builder: Builder, rev: Revision, s: Scan, g: string, ctx: Context) returns (r: Result<seq<Flex>>)
    requires !AnyParsed(s.blocks)
    ensures r == ExtractedCards(builder, rev, s, g, ctx)
  {
    var flexMessages: seq<Flex> := [];
    if s.bareArray.Some? {
      if s.bareArray.value.Some? {
        var threw;
        flexMessages, threw := PushArray(flexMessages, builder, rev, s.bareArray.value.value, s.ids, g, ctx);
        assert flexMessages == PushCards(builder, DecorateArrayFor(rev, s.bareArray.value.value, s.ids, g), ctx).cards;
      }
      assert Ok(flexMessages) == ExtractedCards(builder, rev, s, g, ctx);
    } else if s.bareObject.Some? {
      if s.bareObject.value.Some? {
        var jsonData := DecorateFor(rev, s.bareObject.value.value, SingleId(s.ids), g);
        var flexMessage := Build(builder, jsonData, ctx);
        PushOne(builder, jsonData, ctx);
        if flexMessage.Ok? {
          flexMessages := flexMessages + [flexMessage.value];
        }
      }
      assert Ok(flexMessages) == ExtractedCards(builder, rev, s, g, ctx);
    } else if s.legacy.Some? {
      var flexMessage := Build(builder, FromLegacy(s.legacy.value, s.ids, g), ctx);
      if flexMessage.Err? {
        return Err(flexMessage.error);
      }
      flexMessages := [flexMessage.value];
      assert Ok(flexMessages) == ExtractedCards(builder, rev, s, g, ctx);
    }
    r := Ok(flexMessages);
  }

  lemma AnyParsedStep(bs: seq<Block>, k: nat)
    requires k < |bs|
    ensures AnyParsed(bs[..k + 1]) <==> AnyParsed(bs[..k]) || Parsed(bs[k])
  {
    if AnyParsed(bs[..k + 1]) && !Parsed(bs[k]) {
      var i :| 0 <= i < k + 1 && Parsed(bs[..k + 1][i]);
      assert bs[..k][i] == bs[i];
    }
    if AnyParsed(bs[..k]) {
      var i :| 0 <= i < k && Parsed(bs[..k][i]);
      assert bs[..k + 1][i] == bs[i];
    }
    if Parsed(bs[k]) {
      assert bs[..k + 1][k] == bs[k];
    }
  }

  /** Once a block parsed, the chain's bubbles are those of the blocks. */
  lemma BlocksTaken(builder: Builder, rev: Revision, s: Scan, g: string, ctx: Context)
    requires AnyParsed(s.blocks)
    ensures ExtractedCards(builder, rev, s, g, ctx) == Ok(AllBlockCards(builder, rev, s.blocks, s.ids, g, ctx))
  {
  }

  /** The block loop and the fallback strategies: the bubbles of the records found, or the
   *  throw of the legacy template. */
  method ExtractFlexMessages(builder: Builder, rev: Revision, s: Scan, g: string, ctx: Context)
    returns (r: Result<seq<Flex>>)
    ensures r == ExtractedCards(builder, rev, s, g, ctx)
  {
    var flexMessages: seq<Flex> := [];
    var foundJsonInCodeBlock := false;
    var k := 0;
    while k < |s.blocks|
      invariant 0 <= k <= |s.blocks|
      invariant foundJsonInCodeBlock == AnyParsed(s.blocks[..k])
      invariant flexMessages == AllBlockCards(builder, rev, s.blocks[..k], s.ids, g, ctx)
    {
      AllBlockCardsStep(builder, rev, s.blocks, k, s.ids, g, ctx);
      AnyParsedStep(s.blocks, k);
      var parsed;
      flexMessages, parsed := VisitBlock(flexMessages, builder, rev, s.blocks[k], s.ids, g, ctx);
      foundJsonInCodeBlock := foundJsonInCodeBlock || parsed;
      k := k + 1;
    }
    assert s.blocks[..k] == s.blocks;
    if !foundJsonInCodeBlock {
      r := Fallback(builder, rev, s, g, ctx);
    } else {
      BlocksTaken(builder, rev, s, g, ctx);
      r := Ok(flexMessages);
    }
  }

  /** The summary branch for a keyword the reply equals, with an exported renderer. */
  method RenderSummary(difyMessage: string, keyword: string, env: Env) returns (r: Processed)
    requires Valid(env.today) && env.today.year >= 2 && env.summaryRenderer.Exported?
    ensures r == RenderedSummary(difyMessage, keyword, env)
  {
    var summaryData := ExtractSummaryData(difyMessage, keyword, env.rows, env.today);
    var summaryFlexMessage := env.summaryRenderer.render(summaryData);
    if summaryFlexMessage.None? {
      return Processed("抱歉，無法生成摘要報告。", [], "text");
    }
    return Processed("", [summaryFlexMessage.value], "summary");
  }

  /** The loop over the summary keywords: the first one equal to the trimmed reply is answered,
   *  and a renderer that is not exported ends the loop. */
  method SummaryCommand(difyMessage: string, env: Env) returns (r: Option<Processed>)
    requires Valid(env.today) && env.today.year >= 2
    ensures r == SummaryReply(difyMessage, Trim(difyMessage), env)
  {
    var t := Trim(difyMessage);
    var i := 0;
    while i < |SummaryKeywords|
      invariant 0 <= i <= |SummaryKeywords|
      invariant forall j :: 0 <= j < i ==> t != SummaryKeywords[j]
    {
      var keyword := SummaryKeywords[i];
      if t == keyword {
        assert t in SummaryKeywords;
        if env.summaryRenderer.Exported? {
          var card := RenderSummary(difyMessage, keyword, env);
          return Some(card);
        }
        return None;
      }
      i := i + 1;
    }
    assert t !in SummaryKeywords;
    return None;
  }

  /** The command checks of `processDifyMessage`, in their order. */
  method Commands(difyMessage: string, env: Env) returns (r: Option<Processed>)
    requires Valid(env.today) && env.today.year >= 2
    ensures r == CommandReply(difyMessage, env)
  {
    var t := Trim(difyMessage);
    if IsTutorialTrigger(t) {
      return Some(TutorialReply(env.tutorialPages));
    }
    if t == "餘額" {
      var card := BalanceCard(env);
      if card.Some? {
        return Some(Processed("", [card.value], "balance_summary"));
      }
    }
    if difyMessage == "" || t == "" {
      return Some(Processed("", [], "text"));
    }
    if Contains(difyMessage, "餘額") && !Contains(difyMessage, "總結") {
      var card := BalanceCard(env);
      if card.Some? {
        return Some(Processed(CleanMessageText(Some(difyMessage)), [card.value], "balance_summary"));
      }
    }
    r := SummaryCommand(difyMessage, env);
  }

  /** Blocks none of which parses contribute no record. */
  lemma {:induction false} NothingParsed(rev: Revision, bs: seq<Block>, ids: seq<nat>, g: string)
    requires !AnyParsed(bs)
    ensures BlockEntries(rev, bs, ids, g) == []
    decreases |bs|
  {
    if bs != [] {
      var init := bs[..|bs| - 1];
      assert forall i :: 0 <= i < |init| ==> init[i] == bs[i];
      NothingParsed(rev, init, ids, g);
      assert !Parsed(bs[|bs| - 1]);
    }
  }

  /** The current `processDifyMessage`, step by step. */
  method ProcessDifyMessage(message: Option<string>, s: Scan, env: Env) returns (r: Result<Processed>)
    requires Valid(env.today) && env.today.year >= 2
    ensures r == DifyReply(message, s, env)
  {
    var difyMessage := OrElse(message, "");
    var command := Commands(difyMessage, env);
    if command.Some? {
      return Ok(command.value);
    }
    var transactionType := GlobalType(s.typeMarker, s.jsonTypeHit);
    var flexMessages := ExtractFlexMessages(env.builder, Current, s, transactionType, env.flex);
    if flexMessages.Err? {
      return Err(flexMessages.error);
    }
    var cleanedText := CleanMessageText(Some(difyMessage));
    r := Ok(Processed(cleanedText, flexMessages.value, transactionType));
  }

  /** The older `processDifyMessage` of server.js. */
  method ProcessDifyMessageOld(difyMessage: string, s: Scan, env: Env) returns (r: Result<Processed>)
    ensures r == DifyReplyOld(difyMessage, s, env)
  {
    if IsTutorialTrigger(Trim(difyMessage)) {
      return Ok(TutorialReply(env.tutorialPages));
    }
    var transactionType := GlobalTypeOld(s.typeMarker);
    var flexMessages := ExtractFlexMessages(env.builder, Older, s, transactionType, env.flex);
    if flexMessages.Err? {
      return Err(flexMessages.error);
    }
    r := Ok(Processed(CleanMessageTextOld(Some(difyMessage)), flexMessages.value, transactionType));
  }

  // ---- properties ----

  /** A tutorial trigger is answered with the tutorial whatever the reply holds. */
  lemma TutorialFirst(message: Option<string>, s: Scan, env: Env)
    requires Valid(env.today) && env.today.year >= 2
    requires IsTutorialTrigger(Trim(OrElse(message, "")))
    ensures DifyReply(message, s, env) == Ok(TutorialReply(env.tutorialPages))
    ensures DifyReply(message, s, env).value.kind == "tutorial"
  {
  }

  /** A missing, empty or blank reply gives the empty text result. */
  lemma EmptyReply(message: Option<string>, s: Scan, env: Env)
    requires Valid(env.today) && env.today.year >= 2
    requires message.None? || AllSpace(message.value)
    ensures DifyReply(message, s, env) == Ok(Processed("", [], "text"))
  {
    TrimEmptyIff(OrElse(message, ""));
  }

  /**
   * When no command is recognised, the reply is rejected exactly when the legacy template's
   * bubble throws. Otherwise the text is the cleaned reply and the type the global type, and
   * there is at most one bubble per record found, each built from one of them. When no
   * record's bubble throws, the bubbles are exactly one per record, in record order.
   */
  lemma ExtractionShape(builder: Builder, rev: Revision, msg: string, s: Scan, ctx: Context)
    ensures var g := GlobalTypeFor(rev, s);
            var r := Extraction(builder, rev, msg, s, ctx);
            (r.Err? <==> LegacyThrows(builder, s, g, ctx))
            && (r.Ok? ==> r.value.text == CleanFor(rev, msg) && r.value.kind == g
                          && |r.value.flexMessages| <= |Entries(rev, s, g)|
                          && forall f :: f in r.value.flexMessages ==> BuiltFrom(builder, f, Entries(rev, s, g), ctx))
    ensures var g := GlobalTypeFor(rev, s);
            (forall e :: e in Entries(rev, s, g) ==> Build(builder, e, ctx).Ok?) ==>
              Extraction(builder, rev, msg, s, ctx) == Ok(Processed(CleanFor(rev, msg), Cards(Entries(rev, s, g), ctx), g))
  {
    var g := GlobalTypeFor(rev, s);
    ExtractedSound(builder, rev, s, g, ctx);
    if forall e :: e in Entries(rev, s, g) ==> Build(builder, e, ctx).Ok? {
      ExtractedComplete(builder, rev, s, g, ctx);
    }
  }

  /** With the renderers as the flex module ships them (neither exported), every reply that is
   *  not a tutorial trigger and not blank goes through the record strategies, summary keywords
   *  and 餘額 included. */
  lemma AsShipped(message: Option<string>, s: Scan, env: Env)
    requires Valid(env.today) && env.today.year >= 2
    requires env.balanceRenderer == NotExported && env.summaryRenderer == NotExported
    requires !IsTutorialTrigger(Trim(OrElse(message, ""))) && Trim(OrElse(message, "")) != ""
    ensures DifyReply(message, s, env) == Extraction(env.builder, Current, OrElse(message, ""), s, env.flex)
  {
    assert BalanceCard(env).None?;
    assert SummaryReply(OrElse(message, ""), Trim(OrElse(message, "")), env).None?;
  }

  /** Once any fenced block parses, the bare strategies and the legacy template are not consulted. */
  lemma BlocksWin(rev: Revision, s: Scan, t: Scan, g: string)
    requires AnyParsed(s.blocks) && t.blocks == s.blocks && t.ids == s.ids
    ensures Entries(rev, s, g) == Entries(rev, t, g) == BlockEntries(rev, s.blocks, s.ids, g)
  {
  }

  /** A bare array that matches but does not parse yields no record, and the object and legacy
   *  strategies are not tried. */
  lemma UnparsedArrayStops(rev: Revision, s: Scan, g: string)
    requires !AnyParsed(s.blocks) && s.bareArray == Some(None)
    ensures Entries(rev, s, g) == []
  {
  }

  /** The records of the blocks concatenate: each block contributes its records in place. */
  lemma BlockEntriesConcat(rev: Revision, a: seq<Block>, b: seq<Block>, ids: seq<nat>, g: string)
    ensures BlockEntries(rev, a + b, ids, g) == BlockEntries(rev, a, ids, g) + BlockEntries(rev, b, ids, g)
  {
    FlatMapConcat(RecordsOf(rev, ids, g), a, b);
  }

  /** Block `k` contributes exactly its own records, between those of the blocks before and after it. */
  lemma BlockInPlace(rev: Revision, bs: seq<Block>, k: nat, ids: seq<nat>, g: string)
    requires k < |bs|
    ensures BlockEntries(rev, bs, ids, g)
         == BlockEntries(rev, bs[..k], ids, g) + BlockRecords(rev, bs[k], ids, g) + BlockEntries(rev, bs[k + 1..], ids, g)
  {
    assert bs == bs[..k] + [bs[k]] + bs[k + 1..];
    BlockEntriesConcat(rev, bs[..k] + [bs[k]], bs[k + 1..], ids, g);
    BlockEntriesConcat(rev, bs[..k], [bs[k]], ids, g);
    assert BlockEntries(rev, [bs[k]], ids, g) == BlockRecords(rev, bs[k], ids, g);
  }

  /** The older revision gives every record the global type, the current one only those
   *  without a truthy type of their own. */
  lemma {:induction false} OlderStampsGlobal(s: Scan, g: string)
    ensures forall e :: e in Entries(Older, s, g) ==> e.txType == g
  {
    OlderBlocksStamp(s.blocks, s.ids, g);
  }

  lemma {:induction false} OlderBlocksStamp(bs: seq<Block>, ids: seq<nat>, g: string)
    ensures forall e :: e in BlockEntries(Older, bs, ids, g) ==> e.txType == g
    decreases |bs|
  {
    if bs != [] {
      OlderBlocksStamp(bs[..|bs| - 1], ids, g);
    }
  }

  predicate NoColon(t: string)
  {
    forall i :: 0 <= i < |t| ==> t[i] != ':' && t[i] != '：'
  }

  lemma KeywordsHaveNoColon(k: string)
    requires k in SummaryKeywords
    ensures NoColon(k)
  {
    assert NoColon(SummaryKeywords[0]) && NoColon(SummaryKeywords[1]) && NoColon(SummaryKeywords[2]);
    assert NoColon(SummaryKeywords[3]) && NoColon(SummaryKeywords[4]) && NoColon(SummaryKeywords[5]);
  }

  /** A summary keyword states no figure, so the summary of a reply that is a keyword shows
   *  the store's figures for the keyword's period, or none when the store has no rows there. */
  lemma SummaryFromStore(text: string, rows: Option<seq<Txn>>, today: Date)
    requires Valid(today) && today.year >= 2
    requires Trim(text) in SummaryKeywords
    ensures var k := Trim(text);
            var sum := SummaryOf(text, k, rows, today);
            var rep := GetTransactionData(rows, PeriodOf(k), today);
            (rep.Some? ==> sum.income == Some(rep.value.income) && sum.expense == Some(rep.value.expense)
                           && sum.balance == Some(rep.value.balance))
            && (rep.None? ==> sum.income.None? && sum.expense.None? && sum.balance.None?)
  {
    var k := Trim(text);
    KeywordsHaveNoColon(k);
    NoColonNoFigure(IncomeLabels, k, 0);
    NoColonNoFigure(ExpenseLabels, k, 0);
    NoColonNoFigure(BalanceLabels, k, 0);
  }
}
