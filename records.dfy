/**
 * Bookkeeping records as they come out of a reply's JSON, and the
 * decoration `processDifyMessage` applies before a record is rendered:
 * the record ID taken from the `[{"id":N},...]` list, the transaction
 * type, and the `is_fixed` default.
 */
module Records {
  import opened Strings

  /** A record object parsed from the reply; `None` is a missing (undefined) field. */
  datatype Record = Record(
    category: Option<string>,
    amount: Option<int>,
    memo: Option<string>,
    datetime: Option<string>,
    txType: Option<string>,
    isFixed: Option<bool>)

  /** A `record_id` after `x || ""`: the empty string, or a positive ID. */
  datatype RecordId = NoId | Id(n: nat)

  /** The record handed to `createFlexMessage`, with `record_id`, `type` and `is_fixed` set. */
  datatype Entry = Entry(
    category: Option<string>,
    amount: Option<int>,
    memo: Option<string>,
    datetime: Option<string>,
    txType: string,
    isFixed: bool,
    recordId: RecordId)

  /** `x || ""` on an extracted numeric ID: the ID 0 is falsy. */
  function IdOrEmpty(x: nat): (r: RecordId)
    ensures r.Id? <==> x > 0
    ensures r.Id? ==> r.n == x
  {
    if x == 0 then NoId else Id(x)
  }

  /** The ID the record at position `i` of a JSON array receives. */
  function ArrayId(ids: seq<nat>, i: nat): (r: RecordId)
    ensures |ids| > 1 && i < |ids| ==> r == IdOrEmpty(ids[i])
    ensures |ids| > 1 && i >= |ids| ==> r == NoId
    ensures |ids| == 1 ==> r == IdOrEmpty(ids[0])
    ensures |ids| == 0 ==> r == NoId
    ensures r.Id? ==> r.n in ids && r.n > 0
  {
    if |ids| > 0 then
      if |ids| > 1 then (if i < |ids| then IdOrEmpty(ids[i]) else NoId)
      else IdOrEmpty(ids[0])
    else NoId
  }

  /** The ID a record found on its own (one object, or the legacy template) receives. */
  function SingleId(ids: seq<nat>): (r: RecordId)
    ensures |ids| > 0 ==> r == IdOrEmpty(ids[0])
    ensures |ids| == 0 ==> r == NoId
  {
    if |ids| > 0 then IdOrEmpty(ids[0]) else NoId
  }

  /** With a single extracted ID, every record of an array shares it. */
  lemma BroadcastId(ids: seq<nat>, i: nat, j: nat)
    requires |ids| == 1
    ensures ArrayId(ids, i) == ArrayId(ids, j) == SingleId(ids)
  {
  }

  /** The current decoration: the record's own truthy `type` wins over the global one,
   *  and `is_fixed` becomes false only when it is missing. */
  function Decorate(rec: Record, id: RecordId, globalType: string): (e: Entry)
    ensures rec.txType.Some? && rec.txType.value != "" ==> e.txType == rec.txType.value
    ensures rec.txType.None? || rec.txType == Some("") ==> e.txType == globalType
    ensures rec.isFixed.Some? ==> e.isFixed == rec.isFixed.value
    ensures rec.isFixed.None? ==> !e.isFixed
    ensures e.category == rec.category && e.amount == rec.amount
    ensures e.memo == rec.memo && e.datetime == rec.datetime && e.recordId == id
  {
    Entry(rec.category, rec.amount, rec.memo, rec.datetime,
          OrElse(rec.txType, globalType),
          if rec.isFixed.Some? then rec.isFixed.value else false,
          id)
  }

  /** The older decoration in server.js: the global type is stamped on every record. */
  function DecorateOld(rec: Record, id: RecordId, globalType: string): (e: Entry)
    ensures e.txType == globalType
    ensures rec.isFixed.Some? ==> e.isFixed == rec.isFixed.value
    ensures rec.isFixed.None? ==> !e.isFixed
    ensures e.category == rec.category && e.amount == rec.amount
    ensures e.memo == rec.memo && e.datetime == rec.datetime && e.recordId == id
  {
    Entry(rec.category, rec.amount, rec.memo, rec.datetime, globalType,
          if rec.isFixed.Some? then rec.isFixed.value else false, id)
  }

  /** The two decorations differ exactly when the record carries a truthy type of its own
   *  that is not the global one. */
  lemma DecorationsAgreeIff(rec: Record, id: RecordId, globalType: string)
    ensures Decorate(rec, id, globalType) == DecorateOld(rec, id, globalType)
        <==> (rec.txType.None? || rec.txType.value == "" || rec.txType.value == globalType)
  {
  }

  /** The decorated records of a JSON array, in array order. */
  function DecorateArray(recs: seq<Record>, ids: seq<nat>, globalType: string): (es: seq<Entry>)
    ensures |es| == |recs|
    ensures forall i :: 0 <= i < |recs| ==> es[i] == Decorate(recs[i], ArrayId(ids, i), globalType)
  {
    seq(|recs|, i requires 0 <= i < |recs| => Decorate(recs[i], ArrayId(ids, i), globalType))
  }

  /** The older array decoration of server.js. */
  function DecorateArrayOld(recs: seq<Record>, ids: seq<nat>, globalType: string): (es: seq<Entry>)
    ensures |es| == |recs|
    ensures forall i :: 0 <= i < |recs| ==> es[i] == DecorateOld(recs[i], ArrayId(ids, i), globalType)
  {
    seq(|recs|, i requires 0 <= i < |recs| => DecorateOld(recs[i], ArrayId(ids, i), globalType))
  }

  /** The captures of the legacy sentence template: `"category"` (non-empty), the value
   *  `parseInt` reads from the digits of `"amount"`, `"memo"`, `"is_fixed"` (`true|false`),
   *  `"user_id"` and `"datetime"`. */
  datatype LegacyCapture = LegacyCapture(
    category: string,
    amount: nat,
    memo: string,
    isFixed: bool,
    userId: string,
    datetime: string)

  /** The record built from the legacy template: always the global type and the first
   *  extracted ID; `is_fixed` is the captured flag. */
  function FromLegacy(c: LegacyCapture, ids: seq<nat>, globalType: string): (e: Entry)
    ensures e.txType == globalType && e.isFixed == c.isFixed && e.recordId == SingleId(ids)
    ensures e.category == Some(c.category) && e.memo == Some(c.memo) && e.datetime == Some(c.datetime)
    ensures e.amount == Some(c.amount as int)
  {
    Entry(Some(c.category), Some(c.amount as int), Some(c.memo), Some(c.datetime),
          globalType, c.isFixed, SingleId(ids))
  }

  /** The global transaction type: a `[{"type":"..."}]` marker, else a `"type":"income|expense"`
   *  hit anywhere in the reply, else "expense". */
  function GlobalType(typeMarker: Option<string>, jsonTypeHit: Option<string>): (t: string)
    ensures typeMarker.Some? ==> t == typeMarker.value
    ensures typeMarker.None? && jsonTypeHit.Some? ==> t == jsonTypeHit.value
    ensures typeMarker.None? && jsonTypeHit.None? ==> t == "expense"
  {
    if typeMarker.Some? then typeMarker.value
    else if jsonTypeHit.Some? then jsonTypeHit.value
    else "expense"
  }

  /** The older global type of server.js: only the marker counts. */
  function GlobalTypeOld(typeMarker: Option<string>): (t: string)
    ensures typeMarker.Some? ==> t == typeMarker.value
    ensures typeMarker.None? ==> t == "expense"
  {
    if typeMarker.Some? then typeMarker.value else "expense"
  }
}
