# A LINE bookkeeping bot: reply mining and reply assembly

The bot forwards a user's LINE message to a conversational back end. It turns the
back end's free-text answer into LINE reply segments. The answer can carry JSON
transaction records, record-ID markers (`[{"id":N}]`) and type markers
(`[{"type":"income"}]`), in several encodings. This project models the
deterministic core of that pipeline and proves its rules:

- **Reply mining** (`processDifyMessage`, current and older revision). It covers:
  - the command replies: tutorial triggers, 餘額 and the six summary keywords;
  - ID and type-marker extraction;
  - the chain of record strategies: fenced code blocks, then a bare array, then a
    bare object, then the legacy sentence template;
  - record decoration: IDs by position, type precedence, `is_fixed` default;
  - the text cleanup (`cleanMessageText`, both revisions);
  - summary figures (`extractSummaryData`, `extractCategories`).
- **Reply assembly** (`createMessagesFromResponse`, both revisions). It builds the
  ordered list of segments: transcription card, flex cards, text. It also handles
  the 5-message cut, the quick reply on the last segment, the alt text and the
  "處理完成" default.
- **Record cards** (`createFlexMessage`). A 4-way table on (type, is_fixed) picks
  the pill text, colour and padding. The module also covers the field defaults,
  the `recordId` parameter and the fallback bubble.
- **Aggregation** (`processTransactions`) and the period filters and null rules of
  `getTransactionData`. Amounts are integers. "Today" is a parameter.
- **Category list** (`categoryList.js`). It covers rows of three with fillers, the
  choice of bubbles, and the merge rules: deleted system categories are dropped,
  names are de-duplicated (the first one wins) and the list is split by type.
- **Administrator push mode** (`adminController.js`). This is a one-flag state
  machine. Forwarding is an outside call whose outcome is a parameter.

One module per concern:

| module | models |
|---|---|
| `Strings` | JS `trim`, `includes`, decimal digits, string order |
| `Scanning` | helpers for the regex matchers |
| `Calendar` | dates, `getDay`, week and month starts, ISO date strings |
| `Ledger` | money formatting and its read-back |
| `Records` | the record shape, ID assignment and decoration |
| `FlexMessage` | `createFlexMessage` |
| `CleanText` | `cleanMessageText` |
| `Transactions` | `processTransactions`, `getTransactionData` |
| `Summary` | `extractSummaryData`, `extractCategories` |
| `DifyProcessor` | `processDifyMessage` |
| `MessageProcessing` | `createMessagesFromResponse` |
| `CategoryList` | `categoryList.js` |
| `Admin` | `adminController.js` |

**How the reply text is modelled.**
- The regex engine of `processDifyMessage` is abstracted. A `Scan` value lists
  what its expressions find in the reply:
  - the ID list and the type markers;
  - each fenced block the `exec` loop visits, with its parse result;
  - the bare-array and bare-object matches with their parse results;
  - the legacy-template captures.
- `cleanMessageText` is modelled on the string itself. Each expression of its
  chain is a matcher that follows JavaScript's backtracking order for that
  expression.
- The regexes of `extractSummaryData` and `extractCategories` are modelled the
  same way.

Stateful code keeps its imperative form:
- `processDifyMessage`, `createMessagesFromResponse`, `processTransactions`,
  `extractSummaryData`, `extractCategories`, `createCategoryRow`,
  `createCategoryListMessage` and the de-dup loop are methods with loops.
- Each method is proved equal to a specification function.
- The properties are lemmas about those functions.
- The administrator controller is a class. Its flag is a field.

**Where the code departs from its description.** The model follows the code.
- The current `cleanMessageText` says it keeps type markers (line 564). They are
  not kept. Its `{...}` step removes the marker's object, and its empty-bracket
  step removes what is left.
  `CleanText.NoTypeMarker` proves that no `[{"type": "x"}]` survives.
- The ID-removal steps at lines 558-574 run after every `{...}` group is gone. So
  they can never match (`CleanText.IdStepsInert`).
- The second balance pass of `extractSummaryData` (lines 763-779) never fires.
  When it would apply, the first pass (lines 680-697) has already set the
  balance. `Summary.ExtractSummaryData` runs both passes and still equals
  `SummaryOf`, which has only the first.
- The date filter of `getTransactionData` starts the week on Sunday
  (supabaseUtils.js:188-191). `processDifyMessage` computes a Monday-based range
  for an unused text.
- `createFlexMessage` throws instead of returning its fallback bubble (see
  Findings). This happens whenever the substituted template is not valid JSON,
  for instance when a memo holds a `"`, because category and memo are pasted
  into the JSON text unescaped. Each record strategy feels this differently, and the model follows
  the shipped behaviour when `Env.builder` is `AsWritten`:
  - in a fenced array block or a bare array, the `forEach` stops at the first
    record that throws; the cards pushed before it stay, and the strategy's
    `catch` swallows the error;
  - in an object block or a bare object, the card is simply missing;
  - the legacy template (lines 476-506) has no `catch`, so `processDifyMessage`
    rejects, and `createMessagesFromResponse` rejects with it.
  With `Env.builder = Corrected` every record gets its card or the fallback
  bubble. `DifyProcessor.ExtractedSound` and `DifyProcessor.ExtractedComplete`
  cover both builders.
- The renderers `createSummaryMessage` and `createBalanceSummaryMessage` are
  imported by difyMessageProcessor.js:1-5. utils/flexMessage.js:149-151 does not
  export them, so both calls throw, and the throw is caught. The model takes
  each renderer as a parameter, `Renderer = NotExported | Exported(render)`.
  `DifyProcessor.AsShipped` proves that with both not exported, every non-command
  message goes to record extraction.

## Model

| member | source | states |
|---|---|---|
| Admin.StatusText | controllers/adminController.js:43-47 | the status report reads "Push 模式目前已開啟" when the mode is on and "Push 模式目前已關閉" when it is off |
| Admin.StatusTells | controllers/adminController.js:43-47 | the two status reports differ, so the report tells the modes apart |
| Admin.AdminController.constructor | controllers/adminController.js:5 | the push mode starts off and nothing has been forwarded |
| Admin.AdminController.ToggleAdminPushMode | controllers/adminController.js:12-16 | sets the flag to `enabled`, returns `enabled`, and forwards nothing |
| Admin.AdminController.HandleAdminCommand | controllers/adminController.js:24-66 | the reply is `CommandReply` in the mode before the call; the new mode is `NextMode`; the message is appended to the forwarded list exactly when `Forwards` holds |
| Admin.NonAdminIgnored | controllers/adminController.js:26-28 | a sender who is not the administrator gets no reply, the mode is unchanged and nothing is forwarded |
| Admin.Switches | controllers/adminController.js:31-42 | 開啟Push模式 turns the mode on and 關閉Push模式 turns it off, whatever it was; each replies with its fixed confirmation and neither is forwarded |
| Admin.StatusReports | controllers/adminController.js:43-47 | Push狀態 reports the current mode and leaves it unchanged |
| Admin.OtherMessages | controllers/adminController.js:48-65 | any other administrator message is forwarded exactly when the mode is on; it gets the success or failure text by the call's outcome, or no reply when the mode is off; the mode is unchanged |
| Admin.ReplyIff | controllers/adminController.js:24-66 | a message gets a reply if and only if it is forwarded or is one of the three commands from the administrator |
| Admin.ModeChangesOnlyBySwitch | controllers/adminController.js:31-42 | a change of mode implies the sender is the administrator and the message is one of the two switches |
| Admin.NoSwitchKeeps | controllers/adminController.js:24-66 | a sequence with no switch from the administrator leaves the mode as it was |
| Admin.LastSwitchWins | controllers/adminController.js:31-42 | after a sequence, the mode is the one set by the administrator's last switch |
| Admin.RepliesAfterAt | controllers/adminController.js:24-66 | the reply to message i of a sequence is the reply to that message in the mode left by messages 0..i-1 |
| Admin.Run | controllers/adminController.js:24-66 | feeding a controller a sequence leaves it in `ModeAfter` of the sequence and returns `RepliesAfter`, one reply per message |
| Calendar.DayOfWeek | utils/supabaseUtils.js:190 | the weekday index (`getDay`) is in 0..6 |
| Calendar.StepBack | utils/supabaseUtils.js:191 | stepping back k days (`setDate(getDate() - k)`) gives a valid date whose day number is k smaller |
| Calendar.WeekStart | utils/supabaseUtils.js:188-191 | the week start is a Sunday, no later than the date and at most 6 days before it |
| Calendar.MonthStart | utils/supabaseUtils.js:222 | the month start is day 1 of the same year and month, no later than the date |
| Calendar.DateLeIff | utils/supabaseUtils.js:218 | the field-wise date order agrees with the order of day numbers |
| Calendar.IsoOrder | utils/supabaseUtils.js:215-218 | for four-digit years, comparing the `YYYY-MM-DD` strings is the same as comparing the dates, in both directions |
| Calendar.IsoInjective | utils/supabaseUtils.js:183-185 | two valid dates with four-digit years and the same `YYYY-MM-DD` text are the same date |
| Ledger.MoneySortKey | utils/supabaseUtils.js:413-424 | the sort key the item sort parses back from a formatted `$ n` amount (commas and "$ " removed) is exactly n, for negative amounts too |
| Ledger.GroupedDigits | utils/supabaseUtils.js:380-383 | removing the thousands commas from an amount formatted `en-US` gives its plain decimal digits |
| Ledger.ParseHundredthsFixed | utils/difyMessageProcessor.js:685-692 | reading back `w.ff` as hundredths gives `100w + ff` |
| Records.IdOrEmpty | utils/difyMessageProcessor.js:313 | `id \|\| ""`: the ID is kept if and only if it is positive; 0 becomes "" |
| Records.ArrayId | utils/difyMessageProcessor.js:309-320 | with more than one ID, record i gets `ids[i]` or "" past the end; with one ID every record gets it; with none every record gets ""; an assigned ID is one of the IDs and positive |
| Records.SingleId | utils/difyMessageProcessor.js:353-356 | a single-object path takes `ids[0]` or "" |
| Records.BroadcastId | utils/difyMessageProcessor.js:314-317 | with exactly one ID, every position gets the same ID, equal to the single-object one |
| Records.Decorate | utils/difyMessageProcessor.js:322-332 | the record's own non-empty type beats the global type; an explicit `is_fixed` is kept and a missing one becomes false; the other fields and the ID pass through |
| Records.DecorateOld | server.js:588-598 | the older revision stamps the global type on every record, with the same `is_fixed` default |
| Records.DecorationsAgreeIff | utils/difyMessageProcessor.js:322-327 | the two revisions decorate a record alike if and only if its own type is missing, empty or equal to the global type |
| Records.DecorateArray | utils/difyMessageProcessor.js:306-337 | decorating an array keeps its length and decorates record i with the ID of position i |
| Records.DecorateArrayOld | server.js:572-603 | the same for the older revision: one entry per record, with the ID of its position |
| Records.FromLegacy | utils/difyMessageProcessor.js:476-493 | the legacy-template record takes the captured fields, the global type, the captured fixed flag and `ids[0]` or "" |
| Records.GlobalType | utils/difyMessageProcessor.js:261-280 | a `[{"type":…}]` marker wins, else an in-JSON `"type"` hit, else "expense" |
| Records.GlobalTypeOld | server.js:537-546 | the older revision takes the marker or "expense" |
| FlexMessage.VariantOf | utils/flexMessage.js:21-44 | the variant is an income one if and only if the type is "income", and a fixed one if and only if `is_fixed` is set; any other type is an expense |
| FlexMessage.PillTextMentions | utils/flexMessage.js:15-44 | the pill text contains 收入 if and only if the type is "income", 支出 if and only if it is not, and 固定 if and only if the record is fixed |
| FlexMessage.VariantStyle | utils/flexMessage.js:14-44 | the four colours and the four labels are pairwise distinct, and the padding is 8px exactly for the two fixed variants |
| FlexMessage.FlexWeight | utils/flexMessage.js:80-83 | the flex weight is 3 if and only if the record is fixed, and 2 otherwise |
| FlexMessage.RecordIdParam | utils/flexMessage.js:58-71 | the parameter is "" if and only if the ID is falsy; otherwise it is a string of digits that reads back as the ID |
| FlexMessage.TypeParam | utils/flexMessage.js:92 | the type parameter is never empty and is the record's type when that is set |
| FlexMessage.CardFor | utils/flexMessage.js:14-92 | the card's pill text, colour, padding and flex follow the variant table; category, memo and date default to 未分類, 無備註 and today; the LIFF ID, record ID and type parameters are filled in |
| FlexMessage.FallbackContents | utils/flexMessage.js:105-143 | the fallback bubble has exactly four text nodes: the category in the variant colour, "$" + amount, the memo, the date |
| FlexMessage.CreateFlexMessage | utils/flexMessage.js:7-147 | corrected: the record card when the template parses, otherwise the fallback bubble in the variant colour |
| FlexMessage.CreateFlexMessageAsWritten | utils/flexMessage.js:102-146 | as written: the record card when the template parses, otherwise an error, because the fallback reads a `let` of the `try` block |
| FlexMessage.CreateFlexMessageVersions | utils/flexMessage.js:13-146 | the as-written and the corrected functions agree if and only if the template parses |
| FlexMessage.FallbackThrowsExample | utils/flexMessage.js:115 | one record with an unloadable template: the as-written function fails and the corrected one returns the fallback |
| FlexMessage.BuildChoice | utils/difyMessageProcessor.js:335 | the chosen builder fails exactly when it is the shipped one and the template does not parse; any bubble it returns is the corrected builder's |
| FlexMessage.PillAt | utils/messageProcessing.js:203-205 | the structural pill-text lookup finds the pill of a record card, and fails on the fallback bubble |
| CleanText.CleanMessageText | utils/difyMessageProcessor.js:544-589 | a missing or empty message gives ""; the result is single-spaced (every whitespace is a plain space, none adjacent) and contains no `{…}` group |
| CleanText.CleanMessageTextOld | server.js:808-864 | the same, and no `[…]` group survives either |
| CleanText.ObjectsRemoved | utils/difyMessageProcessor.js:556 | after the `{…}` removal no `{` is followed later by a `}` |
| CleanText.BracketsRemoved | server.js:847 | after the older revision's `[…]` removal no `[` is followed later by a `]` |
| CleanText.KeepsNoPair | utils/difyMessageProcessor.js:559-580 | a removal step whose replacement has neither character keeps a text free of `o…c` groups |
| CleanText.CollapseSpaced | utils/difyMessageProcessor.js:583 | collapsing whitespace runs gives a single-spaced text that keeps a non-space first character |
| CleanText.Finish | utils/difyMessageProcessor.js:583-586 | collapse, trim and the removal of the empty lead-in keep the text single-spaced and free of any pair that was already absent |
| CleanText.NoTypeMarker | utils/difyMessageProcessor.js:556-580 | no `[{"type": "x"}]` marker survives the current cleanup, although line 564 says type markers are kept |
| CleanText.NoIdMarker | utils/difyMessageProcessor.js:556-574 | no `[{"id":n}]` marker survives either revision |
| CleanText.IdStepsInert | utils/difyMessageProcessor.js:558-574 | once no `{…}` group is left, the two ID-removal steps change nothing |
| Transactions.AddToTotal | utils/supabaseUtils.js:344-347 | adding an amount to a category adds it to the sum over all categories |
| Transactions.AddToKeys | utils/supabaseUtils.js:343-358 | a category is appended the first time it is seen, and names stay distinct |
| Transactions.AddToValue | utils/supabaseUtils.js:343-347 | adding an amount under a category raises that category's entry by the amount, leaves every other entry unchanged, and gives that category an entry |
| Transactions.CategoryValue | utils/supabaseUtils.js:329-360 | the entry for category c of each kind is the sum of the counted rows of that kind with category c (0 when absent), and c has an entry iff such a row exists |
| Transactions.CategoryEntries | utils/supabaseUtils.js:329-360 | every entry (c, v) of the income and expense category maps has v equal to the sum of the counted rows of that kind with category c, and the keys are exactly the categories of those rows |
| Transactions.AccumulateSums | utils/supabaseUtils.js:329-360 | income and expense are the sums over the counted rows of each kind; the category sums of each kind add up to that kind's total; category names are distinct |
| Transactions.SkippedRowsIgnored | utils/supabaseUtils.js:330-333 | a row with a falsy amount changes nothing |
| Transactions.Percent | utils/supabaseUtils.js:377-384 | the percentage is the exact share 100 · amount / total rounded half up, stated as the rounding bounds |
| Transactions.PercentRange | utils/supabaseUtils.js:377-384 | a share of the total is between 0% and 100% |
| Transactions.Items | utils/supabaseUtils.js:375-410 | one item per category when the total is positive, none otherwise |
| Transactions.ItemsKeys | utils/supabaseUtils.js:375-424 | item i describes category i, and its sort key reads back that category's amount |
| Transactions.SortDesc | utils/supabaseUtils.js:413-424 | sorting keeps the same items (a permutation) |
| Transactions.SortDescSorted | utils/supabaseUtils.js:413-424 | the sorted list is in descending order of amount and is a permutation of the input |
| Transactions.ProcessReport | utils/supabaseUtils.js:301-449 | the formatted income, expense and balance read back as the sums and their difference; both item lists are sorted in descending order; a list is empty if and only if its total is not positive or it has no category; otherwise it has one item per category |
| Transactions.ProcessTransactions | utils/supabaseUtils.js:301-449 | the method's report equals `Process` of the rows |
| Transactions.AccumulateRows | utils/supabaseUtils.js:329-360 | the loop's totals and category sums equal `Accumulate` of the rows |
| Transactions.BuildItems | utils/supabaseUtils.js:375-410 | the loop's items equal `Items` |
| Transactions.FilterPeriod | utils/supabaseUtils.js:180-244 | a record is kept exactly when it is a record of the input and satisfies the period predicate |
| Transactions.FilterPeriodConcat | utils/supabaseUtils.js:180-244 | filtering splits over concatenation, so the kept records keep their input order |
| Transactions.GetTransactionData | utils/supabaseUtils.js:92-294 | null when there are no rows or no row is in range; otherwise `processTransactions` of the rows in range |
| Transactions.DatePartOfIso | utils/supabaseUtils.js:183 | `split("T")[0]` of an ISO date, with or without a time part, is the date |
| Transactions.InPeriodDates | utils/supabaseUtils.js:163-244 | 日 keeps exactly today; 週 keeps exactly the dates from the Sunday week start to today; 月 keeps exactly the dates from the first of the month to today; any other period keeps every record |
| Transactions.TodayAlwaysKept | utils/supabaseUtils.js:163-244 | a record dated today is kept for every period |
| Transactions.WeekStartYear | utils/supabaseUtils.js:188-197 | for a four-digit year the week start also has a four-digit year, so the string bounds compare as dates |
| Summary.PeriodOf | utils/difyMessageProcessor.js:597-603 | the period is 日, 週 or 月, with 周 normalised to 週, and "" if and only if the keyword has none of 日週周月 |
| Summary.KeywordType | utils/difyMessageProcessor.js:612-618 | the type is 支出 or 收入; it is 收入 only if the keyword contains 收入, and 支出 when it does not |
| Summary.TxTypeOf | utils/difyMessageProcessor.js:608-618 | a 結餘 keyword counts as 支出; otherwise the keyword's own type |
| Summary.FirstFigure | utils/difyMessageProcessor.js:640-647 | the figure captured after a label and a colon has no surrounding spaces |
| Summary.FigureTrimmed | utils/difyMessageProcessor.js:653 | `.trim()` of a captured figure is the identity |
| Summary.WithSymbol | utils/difyMessageProcessor.js:655-657 | the value starts with a currency symbol; a value that already starts with one is unchanged, any other gets "$ " prefixed |
| Summary.Symbolled | utils/difyMessageProcessor.js:652-677 | a figure is present after the symbol step if and only if it was captured |
| Summary.CategoryMatches | utils/difyMessageProcessor.js:796-799 | every match of the category expression is well formed |
| Summary.ItemOf | utils/difyMessageProcessor.js:817-827 | an item takes the match's name, its figure with the currency prefix rule, and the captured percentage, or "0%" when none was captured |
| Summary.CapturesTrimmed | utils/difyMessageProcessor.js:815-826 | the `.trim()` calls on the captures are the identity |
| Summary.CategoriesFilter | utils/difyMessageProcessor.js:802-829 | every match whose name is not skip-listed gives an item, and every item comes from such a match |
| Summary.ExtractCategories | utils/difyMessageProcessor.js:794-832 | the method's items equal `Categories` of the matches |
| Summary.CollectItems | utils/difyMessageProcessor.js:814-829 | the `forEach` loop's items equal `Categories` |
| Summary.Assemble | utils/difyMessageProcessor.js:781-788 | the summary's title and analysis title are those the keyword determines |
| Summary.ReportTruthy | utils/supabaseUtils.js:426-442 | the store's income, expense and balance strings are never empty, so the store's values are always used |
| Summary.KeywordHeadings | utils/difyMessageProcessor.js:597-632 | the method's period, type and title equal `PeriodOf`, `TxTypeOf` and `TitleOf` |
| Summary.StatedFigures | utils/difyMessageProcessor.js:639-697 | income, expense and balance are the first labelled figures with the currency step; the balance is computed when both were found and it was not; the data flag is set if and only if some value was found |
| Summary.ExtractSummaryData | utils/difyMessageProcessor.js:594-789 | the method, with its second balance pass, equals `SummaryOf`, which has no second pass |
| Summary.StoreOnlyWithoutFigures | utils/difyMessageProcessor.js:703 | when income or expense was found in the text, the store's rows do not affect the summary, and the analysis items are those extracted from the text |
| Summary.StoreOverrides | utils/difyMessageProcessor.js:703-746 | with neither figure in the text and a store report, income, expense and balance come from the store, and its items of the keyword's type replace the text's when there are any; otherwise the items extracted from the text stay |
| Summary.StoreEmpty | utils/difyMessageProcessor.js:703-746 | with neither figure in the text and no store report for the period, the summary has no income or expense figure, keeps any balance the text states, and keeps the items extracted from the text |
| Summary.ComputedBalance | utils/difyMessageProcessor.js:679-697 | with income and expense stated but no balance, the balance is the text of income − expense |
| Summary.BalanceReadsBack | utils/difyMessageProcessor.js:682-692 | the computed balance text reads back as income − expense, in hundredths |
| Summary.MoneyReadsBack | utils/difyMessageProcessor.js:689-692 | a `$ ` amount formatted with two decimals reads back as its value in hundredths |
| Summary.Titles | utils/difyMessageProcessor.js:622-632 | the title is `X結餘` with a `X支出分析` analysis title when the keyword contains 結餘, and `X{支出\|收入}總結` otherwise |
| Summary.NoColonNoFigure | utils/difyMessageProcessor.js:640-643 | a text without a colon yields no labelled figure |
| DifyProcessor.TutorialReply | utils/tutorialMessage.js:8-62 | the tutorial result has type "tutorial" and at most five pages, taken in order from the loaded pages; when loading fails it has a text and no cards |
| DifyProcessor.Cards | utils/difyMessageProcessor.js:335-336 | one card per decorated record, in order, each the corrected `createFlexMessage` of its record: what the strategies push when no card throws |
| DifyProcessor.PushedAt | utils/difyMessageProcessor.js:306-337 | card i of the `forEach` is the card record i gives |
| DifyProcessor.ThrewAt | utils/difyMessageProcessor.js:306-337 | when the `forEach` was left by a throw, the record after the last pushed card is the one that threw |
| DifyProcessor.ThrewStays | utils/difyMessageProcessor.js:306-337 | once a record has thrown, the records after it change nothing |
| DifyProcessor.AllBuilt | utils/difyMessageProcessor.js:306-337 | when no record throws, the `forEach` pushes exactly one card per record, in order |
| DifyProcessor.PushedSound | utils/difyMessageProcessor.js:306-337 | every pushed card is built from one of the records |
| DifyProcessor.BlockCardsInPlace | utils/difyMessageProcessor.js:290-380 | a block that throws does not stop the block loop: block k's cards sit between those of the blocks before and after it |
| DifyProcessor.BlocksSound | utils/difyMessageProcessor.js:290-380 | the blocks give at most one card per record, each built from one of their records |
| DifyProcessor.BlocksAllBuilt | utils/difyMessageProcessor.js:290-380 | when no record of the blocks throws, they give exactly one card per record, in order |
| DifyProcessor.ExtractedSound | utils/difyMessageProcessor.js:285-506 | the chain fails exactly when only the legacy template matches and its card throws; otherwise at most one card per record found, each built from one of them |
| DifyProcessor.ExtractedComplete | utils/difyMessageProcessor.js:285-506 | when no record's card throws, the chain gives exactly one card per record found, in record order |
| DifyProcessor.CorrectedExtractsAll | utils/difyMessageProcessor.js:285-506 | with the corrected builder every record found gets its card |
| DifyProcessor.AsWrittenOnlyRecordCards | utils/flexMessage.js:102-146 | with the shipped builder the fallback bubble never reaches a reply: every card is a record card |
| DifyProcessor.BlocksTaken | utils/difyMessageProcessor.js:382-383 | once a block parsed, the chain's cards are exactly the blocks' cards |
| DifyProcessor.SummaryReply | utils/difyMessageProcessor.js:100-233 | a summary reply exists if and only if the trimmed text is one of the six keywords and the renderer is available |
| DifyProcessor.PushArray | utils/difyMessageProcessor.js:306-337 | the `forEach` appends the cards of the array's records, in order, up to the first record whose card throws, and reports whether one threw |
| DifyProcessor.VisitBlock | utils/difyMessageProcessor.js:290-380 | one pass of the block loop reports whether the block parsed and appends the cards its records give before any throw; a throw is caught by the block |
| DifyProcessor.Fallback | utils/difyMessageProcessor.js:382-506 | with no parsed block, the first strategy that matches gives the cards: bare array (stopping at a throw), then bare object (no card on a throw), then the legacy template, whose throw is the result |
| DifyProcessor.ExtractFlexMessages | utils/difyMessageProcessor.js:285-506 | the block loop and the fallback strategies give `ExtractedCards`: the cards pushed, or the legacy template's throw |
| DifyProcessor.RenderSummary | utils/difyMessageProcessor.js:116-229 | the summary path with an available renderer equals `RenderedSummary` |
| DifyProcessor.SummaryCommand | utils/difyMessageProcessor.js:110-233 | the keyword loop gives `SummaryReply` of the trimmed text |
| DifyProcessor.Commands | utils/difyMessageProcessor.js:17-233 | the command checks in order give `CommandReply` |
| DifyProcessor.NothingParsed | utils/difyMessageProcessor.js:290-383 | blocks that all failed to parse contribute no records |
| DifyProcessor.ProcessDifyMessage | utils/difyMessageProcessor.js:12-539 | the method equals `DifyReply`: commands first, then extraction, which rejects where the legacy template's card throws |
| DifyProcessor.ProcessDifyMessageOld | server.js:497-805 | the older method equals `DifyReplyOld`, with the same throw behaviour (caught at lines 607, 642, 695 and 733, not at 764) |
| DifyProcessor.TutorialFirst | utils/difyMessageProcessor.js:18-28 | a trimmed 教學文檔, 旺來怎麼用 or 說明 returns the tutorial result, whatever the scan says |
| DifyProcessor.EmptyReply | utils/difyMessageProcessor.js:61-69 | a missing or blank message returns text "", no cards and type "text" |
| DifyProcessor.ExtractionShape | utils/difyMessageProcessor.js:508-538 | extraction rejects exactly when the legacy template's card throws; otherwise its text is `cleanMessageText` of the original, its type the global type, and it has at most one card per record, each built from a record; when no card throws, exactly one per record, in order |
| DifyProcessor.AsShipped | utils/difyMessageProcessor.js:1-5 | with both renderers not exported, every non-tutorial, non-blank message goes to extraction |
| DifyProcessor.BlocksWin | utils/difyMessageProcessor.js:382-383 | once a fenced block parsed, only the blocks contribute, whatever the array, object and legacy matches are |
| DifyProcessor.UnparsedArrayStops | utils/difyMessageProcessor.js:388-432 | a bare array that matches but does not parse yields no records and does not fall through to the object or legacy strategy |
| DifyProcessor.BlockEntriesConcat | utils/difyMessageProcessor.js:290-380 | the records of consecutive blocks are the concatenation of each block's records |
| DifyProcessor.BlockInPlace | utils/difyMessageProcessor.js:290-380 | block k's records appear between those of the blocks before it and after it |
| DifyProcessor.OlderStampsGlobal | server.js:588-593 | every record of the older revision carries the global type |
| DifyProcessor.SummaryFromStore | utils/difyMessageProcessor.js:594-755 | for a summary keyword, income, expense and balance come from the store report, or are all missing when there is none |
| MessageProcessing.TranscriptionPart | utils/messageProcessing.js:153-180 | a transcription card exists if and only if the trimmed transcript is non-empty, and its text is "：" + the trimmed transcript |
| MessageProcessing.TextPart | utils/messageProcessing.js:232-248 | a text segment exists if and only if the text is non-empty after trimming; it carries the untrimmed text and the Cony flag |
| MessageProcessing.FlexPart | utils/messageProcessing.js:187-228 | one flex segment per card, in order, each with the alt text its type and position select |
| MessageProcessing.FlexPartOld | server.js:1378-1398 | the same with the older alt-text rule |
| MessageProcessing.Truncate | utils/messageProcessing.js:260-264 | the cut keeps the first min(n, 5) segments |
| MessageProcessing.WithQuickReply | utils/messageProcessing.js:266-271 | exactly the last segment gets the quick reply |
| MessageProcessing.Defaulted | utils/messageProcessing.js:250-258 | an empty list becomes one default segment; a non-empty list is unchanged |
| MessageProcessing.PushFlex | utils/messageProcessing.js:187-228 | the loop appends the flex segments to the list so far |
| MessageProcessing.PushTranscription | utils/messageProcessing.js:153-180 | the list starts with the transcription card, if any |
| MessageProcessing.PushText | utils/messageProcessing.js:231-248 | the text segment, if any, is appended |
| MessageProcessing.PushAll | utils/messageProcessing.js:152-248 | the list is transcription, then flex cards, then text |
| MessageProcessing.Finish | utils/messageProcessing.js:260-271 | the cut and the quick-reply mark turn the list into `WithQuickReply(Truncate(…))` |
| MessageProcessing.CreateMessagesFromResponse | utils/messageProcessing.js:11-281 | the method equals `Reply`, on both the direct path and the processed path |
| MessageProcessing.CreateMessagesFromResponseOld | server.js:1330-1477 | the older method equals `ReplyOld` |
| MessageProcessing.ReplyShape | utils/messageProcessing.js:122-133 | the reply is rejected exactly when it goes through `processDifyMessage` and that rejects; otherwise it has at most 5 segments, and a segment carries the quick reply if and only if it is the last |
| MessageProcessing.CutShape | utils/messageProcessing.js:260-271 | the same for any list cut and marked |
| MessageProcessing.ReplyOrder | utils/messageProcessing.js:28-117 | on the direct path the segments are a prefix of transcription, then flex cards in input order, then text |
| MessageProcessing.ProcessedOrder | utils/messageProcessing.js:153-271 | on the path through `processDifyMessage`, when it resolves, the messages are the first min(n, 5) of transcription card, processed flex cards, processed text, or the default text when there are none |
| MessageProcessing.ReplyOldShape | server.js:1330-1477 | the older assembler rejects iff the text is missing or its `processDifyMessage` rejects (never for a tutorial object); otherwise the first min(n, 5) of transcription, flex cards and text in that order, the quick reply on exactly the last |
| MessageProcessing.ProcessedNeverEmpty | utils/messageProcessing.js:250-258 | on the processed path the reply is never empty: with nothing produced it is the single "處理完成" segment with the quick reply |
| MessageProcessing.ConyAssembled | utils/messageProcessing.js:238-245 | in any assembled list only text segments can carry the Cony sender, and only when the flag is set |
| MessageProcessing.ConyOnlyOnText | utils/messageProcessing.js:108-115 | in every reply, a segment with the Cony sender is a text segment of a Cony message |
| MessageProcessing.AltTextByType | utils/messageProcessing.js:191-199 | tutorial gives (上) exactly at index 0 and (下) exactly after it; summary gives "📊 收支總結"; balance_summary gives "💰 餘額" |
| MessageProcessing.RecordAltTextFollowsType | utils/messageProcessing.js:201-218 | for a record card the alt text is the income one if and only if the type is "income", and the expense one otherwise; for the corrected builder's fallback bubble the lookup fails and the global type decides (the shipped builder never produces that bubble) |
| MessageProcessing.OldMaySendNothing | server.js:1292-1295 | the older assembler returns an empty list for an empty text with no records; the webhook then sends nothing |
| CategoryList.CreateCategoryRow | utils/categoryList.js:189-244 | a row has exactly 3 cells: the given names in order, then transparent fillers |
| CategoryList.BuildRows | utils/categoryList.js:104-117 | the row loop builds `Layout` of the names |
| CategoryList.LayoutShape | utils/categoryList.js:104-117 | every row has 3 cells; every row after the first, and only those, has margin "md"; the rows list the names in order |
| CategoryList.Find | utils/categoryList.js:43-55 | the bubble found is the first with that title, and none is found exactly when no bubble has it |
| CategoryList.CreateCategoryListMessage | utils/categoryList.js:10-182 | the method equals `ListMessage` |
| CategoryList.NoDataDefault | utils/categoryList.js:17-25 | no data, or no category of either type, gives the default message |
| CategoryList.OnlyIncome | utils/categoryList.js:57-64 | only income categories give the income bubble alone, unwrapped |
| CategoryList.OnlyExpense | utils/categoryList.js:65-72 | only expense categories give the expense bubble alone, unwrapped |
| CategoryList.BothKinds | utils/categoryList.js:43-55 | both types give a carousel of the expense bubble, then the income bubble |
| CategoryList.MissingBubbleDefault | utils/categoryList.js:57-82 | when the template lacks the needed bubble the lookup throws, and the caught error gives the default message |
| CategoryList.ValidSystem | utils/categoryList.js:286-299 | exactly the system categories whose name the user has not deleted are kept |
| CategoryList.ValidUser | utils/categoryList.js:303-306 | exactly the user's categories that are not deleted are kept |
| CategoryList.DedupCategories | utils/categoryList.js:317-325 | the loop with its seen-set equals `Dedup` |
| CategoryList.DedupFirstWins | utils/categoryList.js:317-325 | every name is kept, no name repeats, and each kept entry is the first with its name |
| CategoryList.GetCategoriesForUser | utils/categoryList.js:251-348 | null when either query fails; otherwise the merged, de-duplicated names split by type |
| CategoryList.NamesOfTypeIff | utils/categoryList.js:328-334 | a name is listed under a type if and only if a category of that name and type is in the list |
| CategoryList.SplitDropsOthers | utils/categoryList.js:328-334 | the two lists hold all entries exactly when every entry is income or expense; others are dropped |
| CategoryList.MergeRules | utils/categoryList.js:286-325 | every system category the user has not deleted survives by name, and every surviving name is such a system category or a non-deleted user category |
| Strings.TrimEmptyIff | utils/difyMessageProcessor.js:62 | `trim() === ""` holds if and only if the text is all whitespace |

## Left out

- Network and service calls: the LINE and Dify HTTP clients, audio transcription, image upload, forwarding a message, and the Supabase queries. The outcome of a forward is a boolean parameter. The query results are `Option` parameters (`None` is a query error or a missing client).
- The webhook layer: dispatch, the timer-based dedup, signature checks (HMAC), cron and test endpoints, and Express routing.
- The JavaScript regex engine inside `processDifyMessage`. Its matches arrive pre-scanned in `Scan`.
- The interplay of the `exec` loop's `lastIndex` with the `remainingText` it rewrites. `Scan.blocks` lists the blocks the loop visits. `remainingText` does not reach the result and is not modelled.
- `JSON.parse` and the JSON template text. A record is a value with optional fields: an integer amount, a string type, a boolean `is_fixed`. A card is the tuple of the values substituted into the template. Whether the template loads and parses is a predicate of the context.
- Loading the tutorial pages from files. The loaded pages, or their absence, are a parameter.
- The summary and balance card renderers. They are not exported, and their code is not part of this model. Each is a `Renderer` parameter.
- The Monday-based date-range text in `processDifyMessage` (utils/difyMessageProcessor.js:178-195). It feeds a message that is never returned.
- Clock and time zone: "today" in Asia/Taipei is a `Date` parameter.
- Floating point. Amounts are integers (hundredths where the text has two decimals). `parseFloat` is modelled only for the strings the code itself formats. `Math.round` is stated by its bounds.
- The mix of 2-decimal (utils/difyMessageProcessor.js:689-692) and 0-decimal (supabaseUtils.js:428-439) formatting is kept as the code has it. It is not reconciled.
- The quick-reply items and the Cony icon URL: the quick reply is a flag, and the sender is a flag on the text segment.
- The structure-check logging at the end of `createMessagesFromResponse`. It only logs.
- The content of `createDefaultCategoryMessage` (utils/categoryList.js:354-395). It is the constant `DefaultMessage`.
- The `is_deleted = false` filter of the system-category query. The query applies it itself, and the model receives the rows it returns.
- `getSupabaseClient`, `getUserIdFromLineId` and `createDatabaseSchema`. They are client set-up and lookups.
- The older `processDifyMessage` in server.js throws on a missing text, because it calls `.match` on `undefined`. Its model takes a string.
- The older `createFlexMessage` at server.js:867-1004 differs from utils/flexMessage.js only in the template path. `FlexMessage` models both.
- Admin.Run: the forwarded list after a sequence is not stated; each call's contract states it.
- Summary.BalanceReadsBack: proved only for a non-negative difference, the case where the formatted text has no minus sign.
- Transactions.SortDesc: the order of items with equal amounts (JavaScript's stable sort) is not stated; the contract states sortedness and permutation.
- Transactions.AccumulateSums: the category maps `result.incomeCategories` and `result.expenseCategories` (utils/supabaseUtils.js:321-322) are plain JavaScript objects; the model treats them as maps from any name to a number, kept in first-insertion order. Two differences follow. First, a category named after an `Object.prototype` member behaves differently in JavaScript. For `toString` or `constructor` the inherited function is truthy, so no reset to 0 happens and `+=` stores a string. A `__proto__` category is dropped, because assigning a number to `__proto__` is ignored; its amount is then missing from the category sums, so they no longer add up to the total. Second, `Object.entries` (lines 376, 395) lists integer-like names such as `"2024"` first, in ascending numeric order, not in insertion order; after the stable sort by amount this only changes the order of equal amounts. The model's category order and sums (AddTo, AddToKeys, AddToValue, CategoryValue, CategoryEntries, Items) hold for category names that are neither `Object.prototype` members nor integer-like.
- Transactions.Percent: the source rounds the double `(amount / total) * 100`; the model rounds the exact rational. They differ at half-way shares: 29 of 200 is 14.499999999999998 in JavaScript, so 14%, where the model gives 15%.
- The week start of `getTransactionData` uses the server's local `getDay`/`setDate` on a date built at UTC midnight (supabaseUtils.js:148, 189-196). The model assumes the server runs at UTC; on a server west of UTC a Sunday's week would start on the previous Sunday.
- `String.prototype.replace` with a string replacement expands `$$`, `$&` and the other `$` patterns (utils/flexMessage.js:75, 85). The model pastes category and memo verbatim.
- Summary.KeywordType: when the keyword contains both 支出 and 收入, which one comes first is not stated.

## Findings

| source | as written | input that shows it | evidently intended | confidence | as-written member | corrected member |
|---|---|---|---|---|---|---|
| utils/flexMessage.js:115 (the same at server.js:972) | the `catch` block reads `pillColor`, a `let` declared inside the `try` block (line 16), so building the fallback bubble throws a ReferenceError of its own | any record, when the template file cannot be read or the substituted text is not valid JSON | the fallback bubble with the category in the variant colour (`pillColor \|\| "#1DB446"`) | not executed | FlexMessage.CreateFlexMessageAsWritten (shown failing by FlexMessage.FallbackThrowsExample) | FlexMessage.CreateFlexMessage (compared in FlexMessage.CreateFlexMessageVersions) |
