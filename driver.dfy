/** The database adapter the model delegates to. Its behaviour is not visible from the
    model layer: every reply is an arbitrary value, and every call is recorded in a ghost
    log so that the model's contracts can say which calls were made, with what. */
module Driver {
  import opened Results
  import opened JsValues

  /** The reply of a write: its `result` member, holding the counters the driver reports
      (`n` for a delete, `nModified` for an update), or nothing when the member is missing. */
  datatype WriteReply = WriteReply(result: Option<map<string, int>>)

  /** One call made on the adapter, with its arguments and what it answered. */
  datatype Call =
    | AddCall(record: Record, options: Record)
    | AddManyCall(records: seq<Value>, options: Record)
    | UpdateCall(payload: Record, options: Record, reply: WriteReply)
    | DeleteCall(options: Record, reply: WriteReply)
    | SelectCall(options: Record, rows: seq<Value>)
    | CountCall(options: Record, count: Value)
    | SumCall(options: Record, sum: Value)
    | LastInsertIdCall(id: Value)

  class Db {
    ghost var calls: seq<Call>

    constructor ()
      ensures calls == []
    {
      calls := [];
    }

    method Add(record: Record, options: Record)
      modifies this
      ensures calls == old(calls) + [AddCall(record, options)]
    {
      calls := calls + [AddCall(record, options)];
    }

    method AddMany(records: seq<Value>, options: Record)
      modifies this
      ensures calls == old(calls) + [AddManyCall(records, options)]
    {
      calls := calls + [AddManyCall(records, options)];
    }

    method Update(payload: Record, options: Record) returns (reply: WriteReply)
      modifies this
      ensures calls == old(calls) + [UpdateCall(payload, options, reply)]
    {
      reply :| true;
      calls := calls + [UpdateCall(payload, options, reply)];
    }

    method Delete(options: Record) returns (reply: WriteReply)
      modifies this
      ensures calls == old(calls) + [DeleteCall(options, reply)]
    {
      reply :| true;
      calls := calls + [DeleteCall(options, reply)];
    }

    method Select(options: Record) returns (rows: seq<Value>)
      modifies this
      ensures calls == old(calls) + [SelectCall(options, rows)]
    {
      rows :| true;
      calls := calls + [SelectCall(options, rows)];
    }

    method Count(options: Record) returns (count: Value)
      modifies this
      ensures calls == old(calls) + [CountCall(options, count)]
    {
      count :| true;
      calls := calls + [CountCall(options, count)];
    }

    method Sum(options: Record) returns (sum: Value)
      modifies this
      ensures calls == old(calls) + [SumCall(options, sum)]
    {
      sum :| true;
      calls := calls + [SumCall(options, sum)];
    }

    method GetLastInsertId() returns (id: Value)
      modifies this
      ensures calls == old(calls) + [LastInsertIdCall(id)]
    {
      id :| true;
      calls := calls + [LastInsertIdCall(id)];
    }
  }
}
