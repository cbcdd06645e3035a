/** The MongoDB flavour of the model layer: option resolution, the write pipeline
    (add, addMany, update, updateMany, delete) and the query helpers (select, find,
    increment, decrement, count, sum), over an adapter whose replies are arbitrary. */
module Mongo {
  import opened Results
  import opened JsValues
  import opened Driver

  /** The primary key of every MongoDB collection. */
  const PrimaryKey: string := "_id"

  /** The options every resolution writes after merging: the table, its prefix and the model. */
  const StampKeys: set<string> := {"table", "tablePrefix", "model"}

  /** The extra options `find` passes: a result set of one row. */
  const LimitOne: Value := Obj(map["limit" := Num(1)])

  /** What the base model supplies to option resolution: `getTableName()`,
      the `tablePrefix` property and `getModelName()`. */
  datatype Naming = Naming(tableName: string, tablePrefix: string, modelName: string)

  /** The options asked for before the table default and the stamps are applied: with an
      object of caller options, the pending options, then the caller's, then the extra ones,
      a later source winning on a shared key; otherwise the pending options alone. */
  function Requested(pending: Record, caller: Value, extra: Value): (m: Record)
    ensures IsObject(caller) ==> m.Keys == pending.Keys + caller.fields.Keys + Entries(extra).Keys
    ensures IsObject(caller) ==> forall k :: k in m ==>
      m[k] == (if k in Entries(extra) then Entries(extra)[k]
               else if k in caller.fields then caller.fields[k]
               else pending[k])
    ensures !IsObject(caller) ==> m == pending
  {
    if IsObject(caller) then Extend(Extend(pending, caller), extra) else pending
  }

  /** `options.table || getTableName()`, then the prefix and model name stamped on. */
  function Stamped(options: Record, naming: Naming): (r: Record)
    ensures r.Keys == options.Keys + StampKeys
    ensures r["table"] == (var t := Get(options, "table"); if Truthy(t) then t else Str(naming.tableName))
    ensures r["tablePrefix"] == Str(naming.tablePrefix) && r["model"] == Str(naming.modelName)
    ensures forall k :: k in options && k !in StampKeys ==> r[k] == options[k]
  {
    var table := Get(options, "table");
    options["table" := if Truthy(table) then table else Str(naming.tableName)]
           ["tablePrefix" := Str(naming.tablePrefix)]
           ["model" := Str(naming.modelName)]
  }

  /** `parseOptions(oriOpts, extraOptions)` as a function of the pending options it reads. */
  function ResolveOptions(pending: Record, caller: Value, extra: Value, naming: Naming): (r: Record)
    // the result holds every option any source named, plus the three stamps
    ensures r.Keys == pending.Keys + Entries(caller).Keys + Entries(extra).Keys + StampKeys
    // a truthy table asked for is kept, a falsy or missing one falls back to the table name,
    // unless a non-object caller's extra options name a table of their own
    ensures IsObject(caller) || "table" !in Entries(extra) ==>
      r["table"] == (var t := Get(Requested(pending, caller, extra), "table");
                     if Truthy(t) then t else Str(naming.tableName))
    // object caller options: prefix and model are always the model's own ...
    ensures IsObject(caller) ==>
      r["tablePrefix"] == Str(naming.tablePrefix) && r["model"] == Str(naming.modelName)
    // ... and every other option follows pending < caller < extra
    ensures IsObject(caller) ==>
      forall k :: k in r && k !in StampKeys ==> r[k] == Requested(pending, caller, extra)[k]
    // otherwise the extra options are merged last and override everything, stamps included
    ensures !IsObject(caller) ==> forall k :: k in Entries(extra) ==> r[k] == Entries(extra)[k]
    ensures !IsObject(caller) ==> forall k :: k in r && k !in Entries(extra) && k !in StampKeys ==> r[k] == pending[k]
    ensures !IsObject(caller) && "tablePrefix" !in Entries(extra) ==> r["tablePrefix"] == Str(naming.tablePrefix)
    ensures !IsObject(caller) && "model" !in Entries(extra) ==> r["model"] == Str(naming.modelName)
  {
    var stamped := Stamped(Requested(pending, caller, extra), naming);
    if IsObject(caller) then stamped else Extend(Extend(stamped, caller), extra)
  }

  /** `where(filter)`: the filter's clauses merged into the pending `where` option,
      which a later clause on the same field replaces. */
  function WhereAdded(options: Record, filter: Record): (r: Record)
    ensures r.Keys == options.Keys + {"where"}
    ensures forall k :: k in options && k != "where" ==> r[k] == options[k]
    ensures r["where"].Obj?
    ensures r["where"].fields.Keys == Entries(Get(options, "where")).Keys + filter.Keys
    ensures forall f :: f in filter ==> r["where"].fields[f] == filter[f]
    ensures forall f :: f in Entries(Get(options, "where")) && f !in filter ==>
      r["where"].fields[f] == Entries(Get(options, "where"))[f]
  {
    options["where" := Obj(Extend(Entries(Get(options, "where")), Obj(filter)))]
  }

  /** `field(field)`: a truthy field selection becomes the pending `field` option;
      a missing one leaves the pending options as they are (select every field). */
  function FieldSelected(options: Record, field: Value): (r: Record)
    ensures Truthy(field) ==> r.Keys == options.Keys + {"field"} && r["field"] == field
    ensures Truthy(field) ==> forall k :: k in options && k != "field" ==> r[k] == options[k]
    ensures !Truthy(field) ==> r == options
  {
    if Truthy(field) then options["field" := field] else options
  }

  /** The record `update` hands to the driver: a truthy primary key is deleted from it,
      a falsy one (0, "", null) stays; every other field is untouched. */
  function Stripped(fields: Record): (r: Record)
    ensures Truthy(Get(fields, PrimaryKey)) ==> r.Keys == fields.Keys - {PrimaryKey}
    ensures !Truthy(Get(fields, PrimaryKey)) ==> r == fields
    ensures forall k :: k in r ==> k in fields && r[k] == fields[k]
    ensures !Truthy(Get(r, PrimaryKey))
  {
    if Truthy(Get(fields, PrimaryKey)) then fields - {PrimaryKey} else fields
  }

  /** The pending options `update` leaves behind: its key filter, set through `where`
      after this call's options were already resolved, or nothing. */
  function KeyLeak(fields: Record): (r: Record)
    ensures Truthy(Get(fields, PrimaryKey)) ==>
      r == map["where" := Obj(map[PrimaryKey := fields[PrimaryKey]])]
    ensures !Truthy(Get(fields, PrimaryKey)) ==> r == map[]
  {
    var key := Get(fields, PrimaryKey);
    assert Extend(map[], Obj(map[PrimaryKey := key])) == map[PrimaryKey := key];
    if Truthy(key) then WhereAdded(map[], map[PrimaryKey := key]) else map[]
  }

  /** The options an update is meant to run with: the resolved options, narrowed by an
      equality filter on the record's primary key when the record carries a truthy one. */
  function KeyFiltered(options: Record, fields: Record): (r: Record)
    ensures Truthy(Get(fields, PrimaryKey)) ==>
      && "where" in r && r["where"].Obj?
      && PrimaryKey in r["where"].fields
      && r["where"].fields[PrimaryKey] == fields[PrimaryKey]
      && (forall f :: f in Entries(Get(options, "where")) && f != PrimaryKey ==>
            f in r["where"].fields && r["where"].fields[f] == Entries(Get(options, "where"))[f])
      // nothing else appears: no other option and no other clause
      && r.Keys == options.Keys + {"where"}
      && r["where"].fields.Keys == Entries(Get(options, "where")).Keys + {PrimaryKey}
    ensures forall k :: k in options && k != "where" ==> k in r && r[k] == options[k]
    ensures !Truthy(Get(fields, PrimaryKey)) ==> r == options
  {
    var key := Get(fields, PrimaryKey);
    if Truthy(key) then WhereAdded(options, map[PrimaryKey := key]) else options
  }

  /** `reply.result.<counter> || 0`: the count a write reports, 0 when the driver left it out;
      reading it out of a reply without a `result` member is a TypeError. */
  function ReplyCount(reply: WriteReply, counter: string): (r: Result<int>)
    ensures r.Err? <==> reply.result.None?
    ensures r.Err? ==> r.error == TypeError
    ensures reply.result.Some? && counter in reply.result.value ==> r == Ok(reply.result.value[counter])
    ensures reply.result.Some? && counter !in reply.result.value ==> r == Ok(0)
  {
    match reply.result
    case None => Err(TypeError)
    case Some(counters) =>
      // `|| 0` only matters for a missing counter: a present falsy count is 0 already
      Ok(if counter in counters then counters[counter] else 0)
  }

  /** `data[0] || {}`: the first row when it is truthy, otherwise an empty record;
      in either case the result is a truthy value. */
  function FirstRowOrEmpty(rows: seq<Value>): (row: Value)
    ensures Truthy(row)
    ensures |rows| > 0 && Truthy(rows[0]) ==> row == rows[0]
    ensures |rows| == 0 || !Truthy(rows[0]) ==> row == Obj(map[])
  {
    if |rows| > 0 && Truthy(rows[0]) then rows[0] else Obj(map[])
  }

  /** `{$inc: {[field]: amount}}`: an atomic delta of `amount` on one field. */
  function IncDelta(field: string, amount: int): (delta: Record)
    ensures delta.Keys == {"$inc"}
    ensures delta["$inc"].Obj? && delta["$inc"].fields.Keys == {field}
    ensures delta["$inc"].fields[field] == Num(amount)
  {
    map["$inc" := Obj(map[field := Num(amount)])]
  }

  /** The `step = 1` default of `increment` and `decrement`. */
  function StepOrOne(step: Option<int>): (s: int)
    ensures step.Some? ==> s == step.value
    ensures step.None? ==> s == 1
  {
    match step
    case Some(n) => n
    case None => 1
  }

  /** The shape `addMany` demands: an array whose first element is an object,
      which rules out the empty array. */
  predicate IsRecordList(v: Value)
    // the empty array, and anything that is not an array, is refused
    ensures IsRecordList(v) ==> v.Arr? && v.items != []
    // otherwise the first element alone decides
    ensures v.Arr? && v.items != [] ==> (IsRecordList(v) <==> IsObject(v.items[0]))
  {
    v.Arr? && |v.items| > 0 && IsObject(v.items[0])
  }

  /** `reduce((a, b) => a + b)` over the settled per-record counts, after `Promise.all`
      has rejected with the first failure if there is one. */
  function SumCounts(counts: seq<Result<int>>): (r: Result<int>)
    // without a seed, `reduce` returns a single element as it is
    ensures |counts| == 1 ==> r == counts[0]
  {
    if counts == [] then Ok(0) else AddCount(SumCounts(counts[..|counts| - 1]), counts[|counts| - 1])
  }

  lemma {:induction false} SumCountsFails(counts: seq<Result<int>>)
    ensures SumCounts(counts).Ok? <==> forall i :: 0 <= i < |counts| ==> counts[i].Ok?
    ensures SumCounts(counts).Err? ==>
      exists i :: 0 <= i < |counts| && counts[i] == SumCounts(counts) &&
                  forall j :: 0 <= j < i ==> counts[j].Ok?
  {
    if counts != [] {
      var init := counts[..|counts| - 1];
      SumCountsFails(init);
      assert forall i :: 0 <= i < |init| ==> init[i] == counts[i];
    }
  }

  /** One step of the reduction: `a + b` once both counts are known, the earlier failure otherwise. */
  function AddCount(a: Result<int>, b: Result<int>): (r: Result<int>)
    ensures r.Ok? <==> a.Ok? && b.Ok?
    ensures r.Ok? ==> r.value == a.value + b.value
    ensures r.Err? ==> r == (if a.Err? then a else b)
  {
    if a.Err? then a else if b.Err? then b else Ok(a.value + b.value)
  }

  lemma SumCountsAppend(counts: seq<Result<int>>, last: Result<int>)
    ensures SumCounts(counts + [last]) == AddCount(SumCounts(counts), last)
  {
    assert (counts + [last])[..|counts|] == counts;
  }

  /** The plain sum of successful counts, taken from the front: the reference for `SumCounts`. */
  function Total(counts: seq<Result<int>>): int
    requires forall i :: 0 <= i < |counts| ==> counts[i].Ok?
  {
    if counts == [] then 0 else counts[0].value + Total(counts[1..])
  }

  lemma {:induction false} TotalAppend(counts: seq<Result<int>>, last: Result<int>)
    requires forall i :: 0 <= i < |counts| ==> counts[i].Ok?
    requires last.Ok?
    ensures Total(counts + [last]) == Total(counts) + last.value
  {
    if counts != [] {
      assert (counts + [last])[1..] == counts[1..] + [last];
      TotalAppend(counts[1..], last);
    }
  }

  /** When no update failed, the reduction `updateMany` returns is the sum of the counts. */
  lemma {:induction false} SumCountsIsTotal(counts: seq<Result<int>>)
    requires forall i :: 0 <= i < |counts| ==> counts[i].Ok?
    ensures SumCounts(counts) == Ok(Total(counts))
  {
    if counts != [] {
      var init := counts[..|counts| - 1];
      SumCountsIsTotal(init);
      TotalAppend(init, counts[|counts| - 1]);
      assert init + [counts[|counts| - 1]] == counts;
    }
  }

  /** The `nModified` counts of a run of update calls, in call order. */
  function ModifiedCounts(calls: seq<Call>): (counts: seq<Result<int>>)
    ensures |counts| == |calls|
    ensures forall j {:trigger counts[j]} :: 0 <= j < |calls| ==>
      counts[j] == if calls[j].UpdateCall? then ReplyCount(calls[j].reply, "nModified") else Ok(0)
  {
    if calls == [] then []
    else
      var last := calls[|calls| - 1];
      ModifiedCounts(calls[..|calls| - 1])
        + [if last.UpdateCall? then ReplyCount(last.reply, "nModified") else Ok(0)]
  }

  /** `add` rejects exactly when neither the pending record nor the argument has a field. */
  lemma AddRejectsOnlyEmpty(pending: Record, record: Value)
    ensures Extend(pending, record) == map[] <==> pending == map[] && Entries(record) == map[]
  {
    if Extend(pending, record) == map[] {
      assert pending.Keys == {} && Entries(record).Keys == {};
    }
  }

  lemma StrippedIdempotent(fields: Record)
    ensures Stripped(Stripped(fields)) == Stripped(fields)
  {
  }

  lemma KeyLeakOfStripped(fields: Record)
    ensures KeyLeak(Stripped(fields)) == map[]
  {
  }

  /** `update({_id: "x", name: "y"})` on a model with nothing pending: the options it sends
      carry no filter at all, while the next resolution receives `{_id: "x"}`; the intended
      options would have carried the filter on this very call. */
  lemma UpdateFilterIsDeferred(naming: Naming)
    ensures var fields := map[PrimaryKey := Str("x"), "name" := Str("y")];
      && "where" !in ResolveOptions(map[], Undefined, Undefined, naming)
      && ResolveOptions(KeyLeak(fields), Undefined, Undefined, naming)["where"]
           == Obj(map[PrimaryKey := Str("x")])
      && KeyFiltered(ResolveOptions(map[], Undefined, Undefined, naming), fields)["where"]
           == Obj(map[PrimaryKey := Str("x")])
  {
    var fields := map[PrimaryKey := Str("x"), "name" := Str("y")];
    assert Get(fields, PrimaryKey) == Str("x");
  }

  /** A caller's record, which `update` changes in place. */
  class Document {
    var fields: Record

    constructor (fields: Record)
      ensures this.fields == fields
    {
      this.fields := fields;
    }
  }

  /** The input of `updateMany`: an array of records, or anything that is not an array. */
  datatype BulkInput = Records(docs: seq<Document>) | NotArray(value: Value)
  {
    /** Every array, the empty one included, is given as `Records`. */
    predicate WellFormed()
    {
      NotArray? ==> !value.Arr?
    }

    function Docs(): set<Document>
    {
      if Records? then set d | d in docs else {}
    }
  }

  /** The fields each record of a list holds, by record. */
  ghost function Snapshot(docs: seq<Document>): (m: map<Document, Record>)
    reads set d | d in docs
    ensures forall d :: d in docs ==> d in m && m[d] == d.fields
  {
    map d | d in docs :: d.fields
  }

  /** `before` has the fields of every record of `docs`. */
  ghost predicate Covers(docs: seq<Document>, before: map<Document, Record>)
  {
    forall d :: d in docs ==> d in before
  }

  /** The fields record `j` of an `updateMany` over `docs` holds when its update reaches it,
      `before` giving each record's fields beforehand: its own, or its stripped ones when the
      same record came earlier in the list and was updated already. */
  function SeenAt(docs: seq<Document>, before: map<Document, Record>, j: int): Record
    requires Covers(docs, before) && 0 <= j < |docs|
  {
    if docs[j] in docs[..j] then Stripped(before[docs[j]]) else before[docs[j]]
  }

  /** The pending options after the first `j` updates of an `updateMany` registered their key
      filters, starting from `initial`. */
  function KeysFiltered(initial: Record, docs: seq<Document>, before: map<Document, Record>, j: int): Record
    requires Covers(docs, before) && 0 <= j <= |docs|
  {
    if j == 0 then initial
    else KeyFiltered(KeysFiltered(initial, docs, before, j - 1), SeenAt(docs, before, j - 1))
  }

  /** The index of the last of the first `j` records whose key was still truthy when its
      update reached it, or -1 when there is none. */
  function LastKeyed(docs: seq<Document>, before: map<Document, Record>, j: int): (k: int)
    requires Covers(docs, before) && 0 <= j <= |docs|
    ensures -1 <= k < j
    ensures k >= 0 ==> Truthy(Get(SeenAt(docs, before, k), PrimaryKey))
    ensures forall l :: k < l < j ==> !Truthy(Get(SeenAt(docs, before, l), PrimaryKey))
  {
    if j == 0 then -1
    else if Truthy(Get(SeenAt(docs, before, j - 1), PrimaryKey)) then j - 1
    else LastKeyed(docs, before, j - 1)
  }

  /** A later key filter replaces an earlier one: both filter the same field. */
  lemma KeyFilterReplaced(earlier: Record, later: Record)
    requires Truthy(Get(later, PrimaryKey))
    ensures KeyFiltered(KeyLeak(earlier), later) == KeyLeak(later)
  {
    var prev, key := KeyLeak(earlier), later[PrimaryKey];
    var clauses := Entries(Get(prev, "where"));
    assert clauses == map[] || clauses == map[PrimaryKey := earlier[PrimaryKey]];
    assert Extend(clauses, Obj(map[PrimaryKey := key])) == map[PrimaryKey := key];
    assert prev == map[] || prev.Keys == {"where"};
  }

  /** After `updateMany` the pending slot, which the first resolution cleared, holds the key
      filter of the last record whose key was still truthy when its update reached it, and
      nothing when there was none. */
  lemma {:induction false} KeysFilteredLast(docs: seq<Document>, before: map<Document, Record>, j: int)
    requires Covers(docs, before) && 0 <= j <= |docs|
    ensures var k := LastKeyed(docs, before, j);
      KeysFiltered(map[], docs, before, j) == if k < 0 then map[] else KeyLeak(SeenAt(docs, before, k))
  {
    if j > 0 {
      KeysFilteredLast(docs, before, j - 1);
      var seen := SeenAt(docs, before, j - 1);
      if Truthy(Get(seen, PrimaryKey)) {
        var k := LastKeyed(docs, before, j - 1);
        if k < 0 {
          KeyFilterReplaced(map[], seen);
        } else {
          KeyFilterReplaced(SeenAt(docs, before, k), seen);
        }
      }
    }
  }

  /** `c` is a driver update of `payload` with `options`. */
  predicate IsUpdateOf(c: Call, payload: Record, options: Record)
  {
    c.UpdateCall? && c.payload == payload && c.options == options
  }

  /** The driver call of one more update extends the run of calls `updateMany` made ... */
  lemma SentGrows(sent: seq<Call>, c: Call, docs: seq<Document>, before: map<Document, Record>, opts: seq<Record>)
    requires |sent| < |docs| == |opts| && Covers(docs, before)
    requires forall j {:trigger sent[j]} :: 0 <= j < |sent| ==> IsUpdateOf(sent[j], Stripped(before[docs[j]]), opts[j])
    requires IsUpdateOf(c, Stripped(before[docs[|sent|]]), opts[|sent|])
    ensures forall j {:trigger (sent + [c])[j]} :: 0 <= j < |sent| + 1 ==>
      IsUpdateOf((sent + [c])[j], Stripped(before[docs[j]]), opts[j])
  {
  }

  /** ... and its count the reduction over them. */
  lemma CountsGrow(sent: seq<Call>, c: Call)
    requires c.UpdateCall?
    ensures SumCounts(ModifiedCounts(sent + [c]))
         == AddCount(SumCounts(ModifiedCounts(sent)), ReplyCount(c.reply, "nModified"))
  {
    assert (sent + [c])[..|sent|] == sent;
    SumCountsAppend(ModifiedCounts(sent), ReplyCount(c.reply, "nModified"));
  }

  lemma PrefixGrows<T>(s: seq<T>, i: int)
    requires 0 <= i < |s|
    ensures forall x :: x in s[..i + 1] <==> x in s[..i] || x == s[i]
  {
    assert s[..i + 1] == s[..i] + [s[i]];
  }

  /** One model instance: its two pending slots, the names it resolves options with and its adapter. */
  class Model {
    /** `_options`: options set by chained calls, consumed by the next resolution. */
    var options: Record
    /** `_data`: a pending record, consumed by the next `add`. */
    var data: Record
    const naming: Naming
    const db: Db

    constructor (naming: Naming)
      ensures this.naming == naming && options == map[] && data == map[]
      ensures fresh(db) && db.calls == []
    {
      this.naming := naming;
      options := map[];
      data := map[];
      db := new Db();
    }

    function GetPk(): (pk: string)
      ensures pk == PrimaryKey
    {
      "_id"
    }

    /** The record normaliser: the identity. */
    function ParseData(record: Record): (r: Record)
      ensures r == record
    {
      record
    }

    /** Reads and clears the pending options slot: `think.extend({}, this._options)` copies
        the pending options, which `ResolveOptions` then merges and stamps. */
    method ParseOptions(caller: Value, extra: Value) returns (r: Record)
      modifies this`options
      ensures options == map[]
      ensures r == ResolveOptions(old(options), caller, extra, naming)
    {
      var pending := Extend(map[], Obj(options));
      ExtendEmptyCopies(options);
      options := map[];
      r := ResolveOptions(pending, caller, extra, naming);
    }

    method Where(filter: Record)
      modifies this`options
      ensures options == WhereAdded(old(options), filter)
    {
      options := WhereAdded(options, filter);
    }

    method Field(field: Value)
      modifies this`options
      ensures options == FieldSelected(old(options), field)
    {
      if Truthy(field) {
        options := options["field" := field];
      }
    }

    method Add(record: Value, callerOptions: Value) returns (r: Result<Value>)
      modifies this`data, this`options, db
      ensures data == map[]
      ensures Extend(old(data), record) == map[] ==>
        r == Err(DataEmpty) && options == old(options) && db.calls == old(db.calls)
      ensures Extend(old(data), record) != map[] ==>
        && r.Ok?
        && options == map[]
        && db.calls == old(db.calls) + [
             AddCall(Extend(old(data), record), ResolveOptions(old(options), callerOptions, Undefined, naming)),
             LastInsertIdCall(r.value)]
    {
      ExtendEmptyCopies(data);
      var merged := Extend(Extend(map[], Obj(data)), record);
      data := map[];
      if merged == map[] {
        return Err(DataEmpty);
      }
      var opts := ParseOptions(callerOptions, Undefined);
      // the before-add hook is the identity
      merged := ParseData(merged);
      db.Add(merged, opts);
      // the after-add hook does nothing
      var id := db.GetLastInsertId();
      r := Ok(id);
    }

    method AddMany(records: Value, callerOptions: Value) returns (r: Result<Value>)
      modifies this`options, db
      ensures !IsRecordList(records) ==>
        r == Err(DataMustBeArray) && options == old(options) && db.calls == old(db.calls)
      ensures IsRecordList(records) ==>
        && r.Ok?
        && options == map[]
        && db.calls == old(db.calls) + [
             AddManyCall(records.items, ResolveOptions(old(options), callerOptions, Undefined, naming)),
             LastInsertIdCall(r.value)]
    {
      if !records.Arr? || !IsObject(if |records.items| > 0 then records.items[0] else Undefined) {
        return Err(DataMustBeArray);
      }
      var opts := ParseOptions(callerOptions, Undefined);
      db.AddMany(records.items, opts);
      var id := db.GetLastInsertId();
      r := Ok(id);
    }

    method Delete(callerOptions: Value) returns (r: Result<int>)
      modifies this`options, db
      ensures options == map[]
      ensures |db.calls| == |old(db.calls)| + 1 && db.calls[..|old(db.calls)|] == old(db.calls)
      ensures var c := db.calls[|old(db.calls)|];
        && c.DeleteCall?
        && c.options == ResolveOptions(old(options), callerOptions, Undefined, naming)
        && r == ReplyCount(c.reply, "n")
    {
      var opts := ParseOptions(callerOptions, Undefined);
      var reply := db.Delete(opts);
      r := ReplyCount(reply, "n");
    }

    /** `update` as written: the key filter is registered after this call's options were
        resolved, so it is not sent with this update and waits in the pending slot. A missing
        record (`null` or `undefined`) is a null reference: reading its key is a TypeError. */
    method Update(doc: Document?, callerOptions: Value) returns (r: Result<int>)
      modifies this`options, db, doc
      // `update(null)` or `update(undefined)`: the options are consumed before `data[pk]` throws
      ensures doc == null ==> options == map[] && db.calls == old(db.calls) && r == Err(TypeError)
      ensures doc != null ==>
        && doc.fields == Stripped(old(doc.fields))
        && options == KeyLeak(old(doc.fields))
        && |db.calls| == |old(db.calls)| + 1 && db.calls[..|old(db.calls)|] == old(db.calls)
        && var c := db.calls[|old(db.calls)|];
           && c.UpdateCall?
           && c.payload == Stripped(old(doc.fields))
           && c.options == ResolveOptions(old(options), callerOptions, Undefined, naming)
           && r == ReplyCount(c.reply, "nModified")
    {
      var opts := ParseOptions(callerOptions, Undefined);
      if doc == null {
        return Err(TypeError);
      }
      r := UpdateResolved(doc, opts);
    }

    /** What `update` does once its options are resolved (after its first `await`): moves a
        truthy primary key out of the record into a pending key filter, then hands the
        record to the driver with the options it resolved. */
    method UpdateResolved(doc: Document, opts: Record) returns (r: Result<int>)
      modifies this`options, db, doc
      ensures doc.fields == Stripped(old(doc.fields))
      ensures options == KeyFiltered(old(options), old(doc.fields))
      ensures |db.calls| == |old(db.calls)| + 1
      ensures var c := db.calls[|old(db.calls)|];
        && db.calls == old(db.calls) + [c]
        && c.UpdateCall?
        && c.payload == Stripped(old(doc.fields))
        && c.options == opts
        && r == ReplyCount(c.reply, "nModified")
    {
      var pk := GetPk();
      var key := Get(doc.fields, pk);
      if Truthy(key) {
        Where(map[pk := key]);
        doc.fields := doc.fields - {pk};
      }
      var reply := db.Update(doc.fields, opts);
      // the after-update hook does nothing
      r := ReplyCount(reply, "nModified");
    }

    /** `update` with the key filter added to the options of the same call. */
    method UpdateByKey(doc: Document?, callerOptions: Value) returns (r: Result<int>)
      modifies this`options, db, doc
      ensures options == map[]
      ensures doc == null ==> db.calls == old(db.calls) && r == Err(TypeError)
      ensures doc != null ==>
        && doc.fields == Stripped(old(doc.fields))
        && |db.calls| == |old(db.calls)| + 1 && db.calls[..|old(db.calls)|] == old(db.calls)
        && var c := db.calls[|old(db.calls)|];
           && c.UpdateCall?
           && c.payload == Stripped(old(doc.fields))
           && c.options == KeyFiltered(ResolveOptions(old(options), callerOptions, Undefined, naming), old(doc.fields))
           && r == ReplyCount(c.reply, "nModified")
    {
      var opts := ParseOptions(callerOptions, Undefined);
      if doc == null {
        return Err(TypeError);
      }
      // the key filter goes into this call's own options
      opts := KeyFiltered(opts, doc.fields);
      doc.fields := Stripped(doc.fields);
      var reply := db.Update(doc.fields, opts);
      r := ReplyCount(reply, "nModified");
    }

    /** `updateMany`: rejects anything but an array, starts one `update` per record and
        reduces their counts, which fails with a TypeError on an empty list. Each `update`
        resolves its options before its first `await`, so every resolution runs before any
        update goes on: the first one consumes the pending options, the others find none,
        and the key filters the updates then register, in list order, are all left pending. */
    method UpdateMany(input: BulkInput, callerOptions: Value) returns (r: Result<int>)
      requires input.WellFormed()
      modifies this`options, db, input.Docs()
      ensures input.NotArray? ==>
        r == Err(DataMustBeArray) && options == old(options) && db.calls == old(db.calls)
      ensures input.Records? ==>
        var docs, n, before := input.docs, |old(db.calls)|, old(Snapshot(input.docs));
        && |db.calls| == n + |docs|
        && db.calls[..n] == old(db.calls)
        // one update per record, in list order, without its truthy primary key ...
        && (forall j {:trigger db.calls[n..][j]} :: 0 <= j < |docs| ==>
              && db.calls[n..][j].UpdateCall?
              && db.calls[n..][j].payload == Stripped(old(docs[j].fields))
              // ... with options resolved from the pending ones for the first record only ...
              && db.calls[n..][j].options ==
                   ResolveOptions(if j == 0 then old(options) else map[], callerOptions, Undefined, naming))
        // ... and the key filters left pending, the last one winning
        && options == (if docs == [] then old(options) else KeysFiltered(map[], docs, before, |docs|))
        && (forall d :: d in docs ==> d.fields == Stripped(old(d.fields)))
        // the sum of the counts, the first failure, or a TypeError for an empty list
        && r == (if docs == [] then Err(TypeError) else SumCounts(ModifiedCounts(db.calls[n..])))
    {
      if input.NotArray? {
        return Err(DataMustBeArray);
      }
      var opts := ResolveEach(|input.docs|, callerOptions);
      ghost var n := |db.calls|;
      var sum, sent := UpdateEach(input.docs, opts);
      assert db.calls[n..] == sent;
      r := if input.docs == [] then Err(TypeError) else sum;
    }

    /** The first part of each of `count` updates: every one resolves its options. */
    method ResolveEach(count: nat, callerOptions: Value) returns (opts: seq<Record>)
      modifies this`options
      ensures |opts| == count
      ensures count == 0 ==> options == old(options)
      ensures count > 0 ==> options == map[]
      ensures forall j :: 0 <= j < count ==>
        opts[j] == ResolveOptions(if j == 0 then old(options) else map[], callerOptions, Undefined, naming)
    {
      ghost var first := ResolveOptions(options, callerOptions, Undefined, naming);
      ghost var rest := ResolveOptions(map[], callerOptions, Undefined, naming);
      opts := [];
      var i := 0;
      while i < count
        invariant 0 <= i <= count && |opts| == i
        invariant i == 0 ==> options == old(options)
        invariant i > 0 ==> options == map[] && opts[0] == first
        invariant forall j :: 0 < j < i ==> opts[j] == rest
      {
        var o := ParseOptions(callerOptions, Undefined);
        opts := opts + [o];
        i := i + 1;
      }
    }

    /** The rest of each update of `updateMany`, in list order, with the options `opts` they
        resolved, and the sum of their counts. */
    method UpdateEach(docs: seq<Document>, opts: seq<Record>) returns (acc: Result<int>, ghost sent: seq<Call>)
      requires |opts| == |docs|
      modifies this`options, db, set d | d in docs
      ensures var before := old(Snapshot(docs));
        && db.calls == old(db.calls) + sent
        && |sent| == |docs|
        && (forall j {:trigger sent[j]} :: 0 <= j < |docs| ==>
              IsUpdateOf(sent[j], Stripped(before[docs[j]]), opts[j]))
        && options == KeysFiltered(old(options), docs, before, |docs|)
        && (forall d :: d in docs ==> d.fields == Stripped(before[d]))
        && acc == SumCounts(ModifiedCounts(sent))
    {
      ghost var before := Snapshot(docs);
      sent := [];
      acc := Ok(0);
      var i := 0;
      while i < |docs|
        invariant 0 <= i <= |docs| && |sent| == i
        invariant db.calls == old(db.calls) + sent
        invariant forall j {:trigger sent[j]} :: 0 <= j < i ==> IsUpdateOf(sent[j], Stripped(before[docs[j]]), opts[j])
        invariant options == KeysFiltered(old(options), docs, before, i)
        invariant forall d :: d in docs ==>
          d.fields == if d in docs[..i] then Stripped(before[d]) else before[d]
        invariant acc == SumCounts(ModifiedCounts(sent))
      {
        var count;
        ghost var c;
        count, c := UpdateNext(docs, opts, i, before, old(options), old(db.calls), sent);
        CountsGrow(sent, c);
        acc := AddCount(acc, count);
        sent := sent + [c];
        i := i + 1;
      }
      assert docs[..i] == docs;
    }

    /** The update of `docs[i]` within `updateMany`, the ones before it done: `c` is its
        driver call, which extends the run `sent`, and `count` its count. */
    method UpdateNext(docs: seq<Document>, opts: seq<Record>, i: int, ghost before: map<Document, Record>,
                      ghost initial: Record, ghost prior: seq<Call>, ghost sent: seq<Call>)
      returns (count: Result<int>, ghost c: Call)
      requires |opts| == |docs| && 0 <= i < |docs| && Covers(docs, before) && |sent| == i
      requires db.calls == prior + sent
      requires forall j {:trigger sent[j]} :: 0 <= j < i ==> IsUpdateOf(sent[j], Stripped(before[docs[j]]), opts[j])
      requires options == KeysFiltered(initial, docs, before, i)
      requires forall d :: d in docs ==> d.fields == if d in docs[..i] then Stripped(before[d]) else before[d]
      modifies this`options, db, docs[i]
      ensures db.calls == prior + (sent + [c])
      ensures forall j {:trigger (sent + [c])[j]} :: 0 <= j < i + 1 ==>
        IsUpdateOf((sent + [c])[j], Stripped(before[docs[j]]), opts[j])
      ensures c.UpdateCall? && count == ReplyCount(c.reply, "nModified")
      ensures options == KeysFiltered(initial, docs, before, i + 1)
      ensures forall d :: d in docs ==> d.fields == if d in docs[..i + 1] then Stripped(before[d]) else before[d]
    {
      var doc := docs[i];
      assert doc.fields == SeenAt(docs, before, i);
      StrippedIdempotent(before[doc]);
      count := UpdateResolved(doc, opts[i]);
      PrefixGrows(docs, i);
      c := db.calls[|old(db.calls)|];
      assert prior + sent + [c] == prior + (sent + [c]);
      SentGrows(sent, c, docs, before, opts);
    }

    method Select(callerOptions: Value) returns (rows: seq<Value>)
      modifies this`options, db
      ensures options == map[]
      ensures db.calls == old(db.calls) + [SelectCall(ResolveOptions(old(options), callerOptions, Undefined, naming), rows)]
    {
      var opts := ParseOptions(callerOptions, Undefined);
      rows := db.Select(opts);
      // the after-select hook is the identity
    }

    method Find(callerOptions: Value) returns (row: Value)
      modifies this`options, db
      ensures options == map[]
      ensures |db.calls| == |old(db.calls)| + 1 && db.calls[..|old(db.calls)|] == old(db.calls)
      ensures var c := db.calls[|old(db.calls)|];
        && c.SelectCall?
        && c.options == ResolveOptions(old(options), callerOptions, LimitOne, naming)
        && "limit" in c.options && c.options["limit"] == Num(1)
        && row == FirstRowOrEmpty(c.rows)
    {
      var opts := ParseOptions(callerOptions, LimitOne);
      var rows := db.Select(opts);
      // the after-find hook is the identity
      row := FirstRowOrEmpty(rows);
    }

    method Increment(field: string, step: Option<int>) returns (reply: WriteReply)
      modifies this`options, db
      ensures options == map[]
      ensures db.calls == old(db.calls) + [
        UpdateCall(IncDelta(field, StepOrOne(step)), ResolveOptions(old(options), Undefined, Undefined, naming), reply)]
    {
      var opts := ParseOptions(Undefined, Undefined);
      reply := db.Update(IncDelta(field, StepOrOne(step)), opts);
    }

    method Decrement(field: string, step: Option<int>) returns (reply: WriteReply)
      modifies this`options, db
      ensures options == map[]
      ensures db.calls == old(db.calls) + [
        UpdateCall(IncDelta(field, 0 - StepOrOne(step)), ResolveOptions(old(options), Undefined, Undefined, naming), reply)]
    {
      var opts := ParseOptions(Undefined, Undefined);
      reply := db.Update(IncDelta(field, 0 - StepOrOne(step)), opts);
    }

    method Count(field: Value) returns (count: Value)
      modifies this`options, db
      ensures options == map[]
      ensures db.calls == old(db.calls) + [
        CountCall(ResolveOptions(FieldSelected(old(options), field), Undefined, Undefined, naming), count)]
      // the selected field reaches the driver with this very call
      ensures Truthy(field) ==> var o := db.calls[|db.calls| - 1].options; "field" in o && o["field"] == field
    {
      Field(field);
      var opts := ParseOptions(Undefined, Undefined);
      count := db.Count(opts);
    }

    method Sum(field: Value) returns (sum: Value)
      modifies this`options, db
      ensures options == map[]
      ensures db.calls == old(db.calls) + [
        SumCall(ResolveOptions(FieldSelected(old(options), field), Undefined, Undefined, naming), sum)]
      // the selected field reaches the driver with this very call
      ensures Truthy(field) ==> var o := db.calls[|db.calls| - 1].options; "field" in o && o["field"] == field
    {
      Field(field);
      var opts := ParseOptions(Undefined, Undefined);
      sum := db.Sum(opts);
    }
  }
}
