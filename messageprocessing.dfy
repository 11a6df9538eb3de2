/**
 * `createMessagesFromResponse`: the list of LINE messages sent for one reply.
 * The list is an optional transcription card, then one flex message per
 * bubble, then an optional text message; it is cut to five messages and the
 * last one carries the quick-reply buttons. A response that already holds
 * bubbles is sent as it is; any other goes through `processDifyMessage`
 * first, and then an empty list is replaced by a default text.
 *
 * The older revision in server.js has no direct path and no default text,
 * and chooses alternative texts from the reply type alone.
 */
module MessageProcessing {
  import opened Strings
  import opened FlexMessage
  import opened Records
  import opened Calendar
  import opened DifyProcessor

  /** What the assembler is handed: a bare string, or an object with optional fields
   *  (a missing `flexMessages` is the empty list). */
  datatype Response =
    | Plain(message: string)
    | Payload(text: Option<string>, transcribedText: Option<string>, kind: Option<string>, flexMessages: seq<Flex>)

  /** One LINE message, before the quick reply is attached. */
  datatype Body =
    | Transcription(text: string)                  // a kilo bubble, alternative text 語音訊息內容
    | FlexBody(altText: string, contents: Flex)
    | TextBody(text: string, cony: bool)           // `cony`: the Cony sender is attached

  /** A LINE message; `quickReply` is set when it carries the `QUICK_REPLY_ITEMS` buttons. */
  datatype Message = Message(body: Body, quickReply: bool)

  const MaxMessagesPerRequest: nat := 5

  const DefaultText := "處理完成"
  const TranscriptionAltText := "語音訊息內容"
  const IncomeAltText := "已為您記錄收入！"
  const ExpenseAltText := "已為您記錄支出！"
  const RecordAltText := "已為您記帳！"
  const TutorialUpper := "🍍旺來新手教學 (上)"
  const TutorialLower := "🍍旺來新手教學 (下)"

  predicate Blank(s: Option<string>)
  {
    s.None? || Trim(s.value) == ""
  }

  /** The transcription card, when the transcript is not blank. */
  function TranscriptionPart(transcribed: Option<string>): (bs: seq<Body>)
    ensures |bs| <= 1
    ensures bs != [] <==> !Blank(transcribed)
    ensures bs != [] ==> bs[0] == Transcription("：" + Trim(transcribed.value))
  {
    if !Blank(transcribed) then [Transcription("：" + Trim(transcribed.value))] else []
  }

  /** The text message, when the text is not blank. */
  function TextPart(text: Option<string>, cony: bool): (bs: seq<Body>)
    ensures |bs| <= 1
    ensures bs != [] <==> !Blank(text)
    ensures bs != [] ==> bs[0] == TextBody(text.value, cony)
  {
    if !Blank(text) then [TextBody(text.value, cony)] else []
  }

  /** The alternative text of bubble `index`: by the reply type for tutorials, summaries and
   *  balances; otherwise by the pill of the bubble, or by the type when the pill lookup fails. */
  function AltText(kind: string, index: nat, f: Flex): string
  {
    if kind == "tutorial" then (if index == 0 then TutorialUpper else TutorialLower)
    else if kind == "summary" then "📊 收支總結"
    else if kind == "balance_summary" then "💰 餘額"
    else match PillAt(f)
      case Some(pill) =>
        if Contains(pill, "收入") then IncomeAltText
        else if Contains(pill, "支出") then ExpenseAltText
        else RecordAltText
      case None =>
        if kind == "income" then IncomeAltText
        else if kind == "expense" then ExpenseAltText
        else RecordAltText
  }

  /** The alternative text in server.js: from the reply type alone. */
  function AltTextOld(kind: string, index: nat): string
  {
    if kind == "tutorial" then (if index == 0 then TutorialUpper else TutorialLower)
    else if kind == "income" then IncomeAltText
    else if kind == "expense" then ExpenseAltText
    else RecordAltText
  }

  /** The flex messages wrapping the bubbles, in bubble order. */
  function FlexPart(kind: string, fs: seq<Flex>): (bs: seq<Body>)
    ensures |bs| == |fs|
    ensures forall i :: 0 <= i < |fs| ==> bs[i] == FlexBody(AltText(kind, i, fs[i]), fs[i])
  {
    seq(|fs|, i requires 0 <= i < |fs| => FlexBody(AltText(kind, i, fs[i]), fs[i]))
  }

  function FlexPartOld(kind: string, fs: seq<Flex>): (bs: seq<Body>)
    ensures |bs| == |fs|
    ensures forall i :: 0 <= i < |fs| ==> bs[i] == FlexBody(AltTextOld(kind, i), fs[i])
  {
    seq(|fs|, i requires 0 <= i < |fs| => FlexBody(AltTextOld(kind, i), fs[i]))
  }

  /** `splice(5)`: at most the first five messages. */
  function Truncate(bs: seq<Body>): (r: seq<Body>)
    ensures |r| <= MaxMessagesPerRequest
    ensures |r| == if |bs| > MaxMessagesPerRequest then MaxMessagesPerRequest else |bs|
    ensures r == bs[..|r|]
  {
    if |bs| > MaxMessagesPerRequest then bs[..MaxMessagesPerRequest] else bs
  }

  /** The quick reply attached to the last message only. */
  function WithQuickReply(bs: seq<Body>): (ms: seq<Message>)
    ensures |ms| == |bs|
    ensures forall i :: 0 <= i < |bs| ==> ms[i].body == bs[i] && (ms[i].quickReply <==> i == |bs| - 1)
  {
    seq(|bs|, i requires 0 <= i < |bs| => Message(bs[i], i == |bs| - 1))
  }

  /** Messages as they are pushed, with no quick reply yet. */
  function Unmarked(bs: seq<Body>): (ms: seq<Message>)
    ensures |ms| == |bs|
    ensures forall i :: 0 <= i < |bs| ==> ms[i] == Message(bs[i], false)
  {
    seq(|bs|, i requires 0 <= i < |bs| => Message(bs[i], false))
  }

  /** The single default text that replaces an empty list. */
  function Defaulted(bs: seq<Body>): (r: seq<Body>)
    ensures r != []
    ensures bs != [] ==> r == bs
  {
    if bs == [] then [TextBody(DefaultText, false)] else bs
  }

  function Transcript(r: Response): Option<string>
  {
    if r.Payload? then r.transcribedText else None
  }

  function MessageText(r: Response): Option<string>
  {
    if r.Payload? then r.text else Some(r.message)
  }

  /** A response that already holds bubbles. */
  predicate Direct(r: Response)
  {
    r.Payload? && r.flexMessages != []
  }

  /** A tutorial object is used as the processed message as it is. */
  predicate TutorialObject(r: Response)
  {
    r.Payload? && r.kind == Some("tutorial")
  }

  /** The processed message of the current revision; `Err` where `processDifyMessage` rejects. */
  function ProcessedOf(r: Response, s: Scan, env: Env): Result<Processed>
    requires Valid(env.today) && env.today.year >= 2
  {
    if TutorialObject(r) then Ok(Processed(OrElse(r.text, ""), r.flexMessages, "tutorial"))
    else DifyReply(MessageText(r), s, env)
  }

  /** The messages of a response that already holds bubbles, before the cut. */
  function DirectBodies(r: Response, cony: bool): seq<Body>
    requires r.Payload?
  {
    TranscriptionPart(r.transcribedText) + FlexPart(OrElse(r.kind, ""), r.flexMessages) + TextPart(r.text, cony)
  }

  /** The messages of a processed message, before the default and the cut. */
  function ProcessedBodies(r: Response, p: Processed, cony: bool): seq<Body>
  {
    TranscriptionPart(Transcript(r)) + FlexPart(p.kind, p.flexMessages) + TextPart(Some(p.text), cony)
  }

  /** What the current `createMessagesFromResponse(response, isConyMessage)` resolves to; `s` is
   *  the pre-scanned message text and `env` what `processDifyMessage` reads. A rejection of
   *  `processDifyMessage` is not caught, so it is the result. */
  function Reply(r: Response, cony: bool, s: Scan, env: Env): Result<seq<Message>>
    requires Valid(env.today) && env.today.year >= 2
  {
    if Direct(r) then Ok(WithQuickReply(Truncate(DirectBodies(r, cony))))
    else match ProcessedOf(r, s, env)
      case Err(e) => Err(e)
      case Ok(p) => Ok(WithQuickReply(Truncate(Defaulted(ProcessedBodies(r, p, cony)))))
  }

  /** What the older `createMessagesFromResponse` of server.js resolves to: `Err` when the message
   *  text is missing, where its `processDifyMessage` calls a method on `undefined` and throws,
   *  and when that `processDifyMessage` rejects. */
  function ReplyOld(r: Response, cony: bool, s: Scan, env: Env): Result<seq<Message>>
  {
    if TutorialObject(r) then
      Ok(WithQuickReply(Truncate(TranscriptionPart(r.transcribedText) + FlexPartOld("tutorial", r.flexMessages)
                                 + TextPart(r.text, cony))))
    else if MessageText(r).None? then Err("TypeError: Cannot read properties of undefined")
    else match DifyReplyOld(MessageText(r).value, s, env)
      case Err(e) => Err(e)
      case Ok(p) =>
        Ok(WithQuickReply(Truncate(TranscriptionPart(Transcript(r)) + FlexPartOld(p.kind, p.flexMessages)
                                   + TextPart(Some(p.text), cony))))
  }

  // ---- the imperative version ----

  /** The `forEach` over the bubbles: one flex message each, pushed in order. */
  method PushFlex(messages: seq<Message>, kind: string, fs: seq<Flex>, older: bool) returns (out: seq<Message>)
    ensures out == messages + Unmarked(if older then FlexPartOld(kind, fs) else FlexPart(kind, fs))
  {
    out := messages;
    ghost var part := if older then FlexPartOld(kind, fs) else FlexPart(kind, fs);
    var index := 0;
    while index < |fs|
      invariant 0 <= index <= |fs|
      invariant out == messages + Unmarked(part[..index])
    {
      var altText := if older then AltTextOld(kind, index) else AltText(kind, index, fs[index]);
      assert part[..index + 1] == part[..index] + [FlexBody(altText, fs[index])];
      UnmarkedConcat(part[..index], [FlexBody(altText, fs[index])]);
      out := out + [Message(FlexBody(altText, fs[index]), false)];
      index := index + 1;
    }
    assert part[..index] == part;
  }

  lemma UnmarkedConcat(a: seq<Body>, b: seq<Body>)
    ensures Unmarked(a + b) == Unmarked(a) + Unmarked(b)
  {
    assert forall i :: 0 <= i < |a + b| ==> Unmarked(a + b)[i] == (Unmarked(a) + Unmarked(b))[i];
  }

  /** The transcription card, when the transcript is not blank. */
  method PushTranscription(transcribed: Option<string>) returns (messages: seq<Message>)
    ensures messages == Unmarked(TranscriptionPart(transcribed))
  {
    messages := [];
    if transcribed.Some? && Trim(transcribed.value) != "" {
      var cleanTranscribedText := Trim(transcribed.value);
      messages := messages + [Message(Transcription("：" + cleanTranscribedText), false)];
    }
  }

  /** The text message, when the text is not blank. */
  method PushText(messages: seq<Message>, text: Option<string>, cony: bool) returns (out: seq<Message>)
    ensures out == messages + Unmarked(TextPart(text, cony))
  {
    out := messages;
    if text.Some? && Trim(text.value) != "" {
      out := out + [Message(TextBody(text.value, cony), false)];
    }
  }

  /** The transcription card, the bubbles and the text, pushed in that order. */
  method PushAll(transcribed: Option<string>, kind: string, fs: seq<Flex>, text: Option<string>, cony: bool, older: bool)
    returns (messages: seq<Message>)
    ensures messages == Unmarked(TranscriptionPart(transcribed)
                                 + (if older then FlexPartOld(kind, fs) else FlexPart(kind, fs))
                                 + TextPart(text, cony))
  {
    ghost var a := TranscriptionPart(transcribed);
    ghost var b := if older then FlexPartOld(kind, fs) else FlexPart(kind, fs);
    ghost var c := TextPart(text, cony);
    messages := PushTranscription(transcribed);
    messages := PushFlex(messages, kind, fs, older);
    UnmarkedConcat(a, b);
    messages := PushText(messages, text, cony);
    UnmarkedConcat(a + b, c);
  }

  /** The end of both paths: cut to five messages, then the quick reply on the last one. */
  method Finish(messages: seq<Message>, ghost bs: seq<Body>) returns (out: seq<Message>)
    requires messages == Unmarked(bs)
    ensures out == WithQuickReply(Truncate(bs))
  {
    out := messages;
    if |out| > MaxMessagesPerRequest {
      out := out[..MaxMessagesPerRequest];
    }
    assert out == Unmarked(Truncate(bs));
    if |out| > 0 {
      out := out[|out| - 1 := out[|out| - 1].(quickReply := true)];
    }
  }

  /** The current `createMessagesFromResponse`, step by step. */
  method CreateMessagesFromResponse(response: Response, isConyMessage: bool, s: Scan, env: Env)
    returns (messages: Result<seq<Message>>)
    requires Valid(env.today) && env.today.year >= 2
    ensures messages == Reply(response, isConyMessage, s, env)
  {
    if response.Payload? && |response.flexMessages| > 0 {
      var kind := OrElse(response.kind, "");
      var pushed := PushAll(response.transcribedText, kind, response.flexMessages, response.text, isConyMessage, false);
      var out := Finish(pushed, DirectBodies(response, isConyMessage));
      return Ok(out);
    }
    var processedMessage: Processed;
    if TutorialObject(response) {
      processedMessage := Processed(OrElse(response.text, ""), response.flexMessages, "tutorial");
    } else {
      var processed := ProcessDifyMessage(MessageText(response), s, env);
      if processed.Err? {
        return Err(processed.error);
      }
      processedMessage := processed.value;
    }
    var pushed := PushAll(Transcript(response), processedMessage.kind, processedMessage.flexMessages,
                          Some(processedMessage.text), isConyMessage, false);
    ghost var bs := ProcessedBodies(response, processedMessage, isConyMessage);
    if |pushed| == 0 {
      pushed := pushed + [Message(TextBody(DefaultText, false), false)];
    }
    assert pushed == Unmarked(Defaulted(bs));
    var out := Finish(pushed, Defaulted(bs));
    messages := Ok(out);
  }

  /** The older `createMessagesFromResponse` of server.js; `Err` where it throws. */
  method CreateMessagesFromResponseOld(response: Response, isConyMessage: bool, s: Scan, env: Env)
    returns (messages: Result<seq<Message>>)
    ensures messages == ReplyOld(response, isConyMessage, s, env)
  {
    var processedMessage: Processed;
    if TutorialObject(response) {
      processedMessage := Processed(OrElse(response.text, ""), response.flexMessages, "tutorial");
    } else if MessageText(response).None? {
      return Err("TypeError: Cannot read properties of undefined");
    } else {
      var processed := ProcessDifyMessageOld(MessageText(response).value, s, env);
      if processed.Err? {
        return Err(processed.error);
      }
      processedMessage := processed.value;
    }
    var text := if TutorialObject(response) then response.text else Some(processedMessage.text);
    var pushed := PushAll(Transcript(response), processedMessage.kind, processedMessage.flexMessages,
                          text, isConyMessage, true);
    var out := Finish(pushed, TranscriptionPart(Transcript(response))
                              + FlexPartOld(processedMessage.kind, processedMessage.flexMessages)
                              + TextPart(text, isConyMessage));
    messages := Ok(out);
  }

  // ---- properties ----

  /** The reply is rejected exactly when it goes through `processDifyMessage` and that rejects;
   *  otherwise there are never more than five messages, the quick reply on exactly the last. */
  lemma ReplyShape(r: Response, cony: bool, s: Scan, env: Env)
    requires Valid(env.today) && env.today.year >= 2
    ensures Reply(r, cony, s, env).Err? <==> !Direct(r) && ProcessedOf(r, s, env).Err?
    ensures var rr := Reply(r, cony, s, env);
            rr.Ok? ==> |rr.value| <= MaxMessagesPerRequest
                       && forall i :: 0 <= i < |rr.value| ==> (rr.value[i].quickReply <==> i == |rr.value| - 1)
  {
    if Direct(r) {
      CutShape(DirectBodies(r, cony));
    } else if ProcessedOf(r, s, env).Ok? {
      CutShape(Defaulted(ProcessedBodies(r, ProcessedOf(r, s, env).value, cony)));
    }
  }

  /** Whatever the bodies, the sent list has at most five messages, the last one marked. */
  lemma CutShape(bs: seq<Body>)
    ensures var ms := WithQuickReply(Truncate(bs));
            |ms| <= MaxMessagesPerRequest
            && forall i :: 0 <= i < |ms| ==> (ms[i].quickReply <==> i == |ms| - 1)
  {
  }

  /** The messages are, in this order, the transcription card, the bubbles and the text,
   *  cut to five: the sent list is a prefix of that concatenation. */
  lemma ReplyOrder(r: Response, cony: bool, s: Scan, env: Env)
    requires Valid(env.today) && env.today.year >= 2
    requires Direct(r)
    ensures Reply(r, cony, s, env).Ok?
    ensures var ms := Reply(r, cony, s, env).value;
            var all := TranscriptionPart(r.transcribedText) + FlexPart(OrElse(r.kind, ""), r.flexMessages)
                       + TextPart(r.text, cony);
            |ms| <= |all| && forall i :: 0 <= i < |ms| ==> ms[i].body == all[i]
  {
  }

  /** On the path through `processDifyMessage`, when it resolves, the messages are the first
   *  five of the transcription card, the bubbles and the text of the processed message, in this
   *  order (or the default text when there are none). */
  lemma ProcessedOrder(r: Response, cony: bool, s: Scan, env: Env)
    requires Valid(env.today) && env.today.year >= 2
    requires !Direct(r) && ProcessedOf(r, s, env).Ok?
    ensures Reply(r, cony, s, env).Ok?
    ensures var ms := Reply(r, cony, s, env).value;
            var p := ProcessedOf(r, s, env).value;
            var all := Defaulted(TranscriptionPart(Transcript(r)) + FlexPart(p.kind, p.flexMessages)
                                 + TextPart(Some(p.text), cony));
            |ms| == (if |all| > MaxMessagesPerRequest then MaxMessagesPerRequest else |all|)
            && forall i :: 0 <= i < |ms| ==> ms[i].body == all[i]
  {
  }

  /** The older assembler rejects exactly when the message text is missing or its
   *  `processDifyMessage` rejects (a tutorial object never does); otherwise it sends the first
   *  five of the transcription card, the bubbles and the text, in this order, the quick reply on
   *  exactly the last. */
  lemma ReplyOldShape(r: Response, cony: bool, s: Scan, env: Env)
    ensures ReplyOld(r, cony, s, env).Err? <==>
            !TutorialObject(r) && (MessageText(r).None? || DifyReplyOld(MessageText(r).value, s, env).Err?)
    ensures var rr := ReplyOld(r, cony, s, env);
            rr.Ok? && !TutorialObject(r) ==>
              var p := DifyReplyOld(MessageText(r).value, s, env).value;
              var all := TranscriptionPart(Transcript(r)) + FlexPartOld(p.kind, p.flexMessages)
                         + TextPart(Some(p.text), cony);
              |rr.value| == (if |all| > MaxMessagesPerRequest then MaxMessagesPerRequest else |all|)
              && forall i :: 0 <= i < |rr.value| ==>
                   rr.value[i].body == all[i] && (rr.value[i].quickReply <==> i == |rr.value| - 1)
  {
  }

  /** The path through `processDifyMessage`, when it resolves, never sends an empty list: when
   *  nothing was produced, the one message is the default text. */
  lemma ProcessedNeverEmpty(r: Response, cony: bool, s: Scan, env: Env)
    requires Valid(env.today) && env.today.year >= 2
    requires !Direct(r) && ProcessedOf(r, s, env).Ok?
    ensures Reply(r, cony, s, env).Ok?
    ensures var ms := Reply(r, cony, s, env).value;
            var bs := ProcessedBodies(r, ProcessedOf(r, s, env).value, cony);
            ms != []
            && (bs == [] ==> ms == [Message(TextBody(DefaultText, false), true)])
            && (bs != [] ==> ms[0].body == bs[0])
  {
  }

  /** No message of `bs` but a text one carries the Cony sender, and only if `cony`. */
  predicate ConyOnlyText(bs: seq<Body>, cony: bool)
  {
    forall i :: 0 <= i < |bs| && bs[i].TextBody? && bs[i].cony ==> cony
  }

  lemma ConyAssembled(tr: Option<string>, kind: string, fs: seq<Flex>, tx: Option<string>, cony: bool, dflt: bool)
    ensures var bs := TranscriptionPart(tr) + FlexPart(kind, fs) + TextPart(tx, cony);
            var ms := WithQuickReply(Truncate(if dflt then Defaulted(bs) else bs));
            forall i :: 0 <= i < |ms| && ms[i].body.TextBody? && ms[i].body.cony ==> cony
  {
    var bs := TranscriptionPart(tr) + FlexPart(kind, fs) + TextPart(tx, cony);
    assert ConyOnlyText(bs, cony);
    var cut := Truncate(if dflt then Defaulted(bs) else bs);
    assert ConyOnlyText(cut, cony);
  }

  /** The Cony sender is on text messages only, and only when asked for. */
  lemma ConyOnlyOnText(r: Response, cony: bool, s: Scan, env: Env)
    requires Valid(env.today) && env.today.year >= 2
    ensures var rr := Reply(r, cony, s, env);
            rr.Ok? ==> forall i :: 0 <= i < |rr.value| && rr.value[i].body.TextBody? && rr.value[i].body.cony ==> cony
  {
    if Direct(r) {
      ConyAssembled(r.transcribedText, OrElse(r.kind, ""), r.flexMessages, r.text, cony, false);
    } else if ProcessedOf(r, s, env).Ok? {
      var p := ProcessedOf(r, s, env).value;
      ConyAssembled(Transcript(r), p.kind, p.flexMessages, Some(p.text), cony, true);
    }
  }

  /** A tutorial's first bubble reads (上) and every later one (下); summaries and balances
   *  get their own text whatever the bubble. */
  lemma AltTextByType(kind: string, index: nat, f: Flex)
    ensures kind == "tutorial" ==> (AltText(kind, index, f) == TutorialUpper <==> index == 0)
    ensures kind == "tutorial" ==> (AltText(kind, index, f) == TutorialLower <==> index > 0)
    ensures kind == "summary" ==> AltText(kind, index, f) == "📊 收支總結"
    ensures kind == "balance_summary" ==> AltText(kind, index, f) == "💰 餘額"
  {
  }

  /** For a record card the alternative text follows the record's type: the income text
   *  exactly for income records, the expense text for every other type. For the fallback
   *  bubble of the corrected builder, whose pill lookup fails, it follows the reply type. */
  lemma RecordAltTextFollowsType(kind: string, index: nat, e: Entry, ctx: Context)
    requires kind != "tutorial" && kind != "summary" && kind != "balance_summary"
    ensures var f := RecordCard(CardFor(e, ctx));
            (AltText(kind, index, f) == IncomeAltText <==> e.txType == "income")
            && (AltText(kind, index, f) == ExpenseAltText <==> e.txType != "income")
    ensures var f := CreateFlexMessage(e, ctx);
            f.FallbackCard? ==> AltText(kind, index, f) == AltTextOld(kind, 1)
  {
    PillTextMentions(e.txType, e.isFixed);
  }

  /** The older assembler can send nothing at all: a blank reply with no bubbles and no
   *  transcript gives the empty list. */
  lemma OldMaySendNothing(s: Scan, env: Env)
    requires Entries(Older, s, GlobalTypeFor(Older, s)) == []
    ensures ReplyOld(Plain(""), false, s, env) == Ok([])
  {
    ExtractionShape(env.builder, Older, "", s, env.flex);
  }
}
