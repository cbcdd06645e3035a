# MongoDB model layer

This project models the MongoDB flavour of the framework's model layer (`src/model/mongo.js`). A model instance holds two slots that chained calls fill and the next operation consumes:

- `_options`, the pending query options;
- `_data`, a pending record.

Every operation resolves its options (`parseOptions`) and then talks to a database adapter.

- `Results` holds the outcome types: a value, or one of the layer's rejections (DATA_EMPTY, DATA_MUST_BE_ARRAY). It also has a TypeError for the runtime errors JavaScript raises on a missing driver reply or on `reduce` of an empty array.
- `JsValues` holds JavaScript values and records, truthiness, and one level of `think.extend`: the later source wins on a shared key, and only plain objects contribute properties (the recursive part of the helper is left out, see below).
- `Driver` models the adapter as a class whose every reply is arbitrary. It appends each call, with its arguments and reply, to a ghost log. Contracts can therefore say exactly which driver calls an operation made, and that a rejected operation made none. The adapter never rejects in this model (see "## Left out").
- `Mongo` holds two classes:
  - the `Model` class, whose fields are the two pending slots;
  - a `Document` class for a caller's record, which `update` changes in place.

  It also holds the pure functions that specify option resolution, key filtering and the count reduction, and the lemmas about them.

Option resolution is specified by `ResolveOptions`, and every operation's contract is stated in terms of it. The caller's options decide the merge order:
- If they are an object, the order is pending < caller < extra, and then the table default and the `tablePrefix`/`model` stamps apply.
- Otherwise, the extra options are merged after the stamps and can override them.

`updateMany` is modelled with the order the `async` code actually has:
- Each `update` runs `parseOptions` synchronously, before its first `await`. So all resolutions happen first: the first one consumes the pending options and the others find the slot empty.
- Only then does each update register its key filter and call the driver, in list order.

## Model

| member | source | states |
|---|---|---|
| `Mongo.Model.GetPk` | src/model/mongo.js:15-17 | the primary key is always `_id` |
| `Mongo.Model.ParseData` | src/model/mongo.js:46-48 | the record normaliser hands the record on unchanged |
| `Mongo.Model.ParseOptions` | src/model/mongo.js:23-40 | the pending options slot is empty afterwards, and the result is the resolution of the pending options it held with the caller's and the extra options |
| `Mongo.Requested` | src/model/mongo.js:24-27 | with object caller options, every option named by a source is present, and the extra options beat the caller's, which beat the pending ones; otherwise only the pending options are merged at this point |
| `Mongo.Stamped` | src/model/mongo.js:31-34 | `tablePrefix` and `model` are always set to the model's own; a truthy `table` is kept and a falsy or missing one becomes the table name; nothing else changes |
| `Mongo.ResolveOptions` | src/model/mongo.js:23-39 | the keys are the union of all sources plus the three stamps. Object caller options: precedence pending < caller < extra, then the stamps win. Otherwise the extra options override everything, stamps included, and the table falls back to the table name |
| `Mongo.Model.Where` | src/model/mongo.js:123 | a filter is merged into the pending `where` option and leaves every other pending option alone |
| `Mongo.WhereAdded` | src/model/mongo.js:123 | the `where` clauses are the old ones plus the filter's, the filter winning on a shared field, and all other options are kept |
| `Mongo.Model.Field` | src/model/mongo.js:199 | a truthy field selection becomes the pending `field` option; a missing one changes nothing |
| `Mongo.FieldSelected` | src/model/mongo.js:209 | a truthy field is set as `field` with every other option kept; a falsy one leaves the options equal |
| `Mongo.Model.Add` | src/model/mongo.js:62-77 | the pending record is always cleared. An empty merged record is rejected with DataEmpty before option resolution, the options slot is untouched and no driver call is made. Otherwise the merged record (argument wins) is added with the resolved options, and the last insert id is returned |
| `Mongo.AddRejectsOnlyEmpty` | src/model/mongo.js:64-70 | `add` rejects exactly when neither the pending record nor the argument has a field |
| `JsValues.Extend` | src/model/mongo.js:64 | the merge has the keys of both sides, the source's value on a shared key and the target's value elsewhere |
| `JsValues.ExtendEmptyCopies` | src/model/mongo.js:24 | extending an empty object with a record yields the record |
| `Mongo.IsRecordList` | src/model/mongo.js:95 | the shape `addMany` accepts: never the empty array or a non-array; for a non-empty array, exactly when its first element is a plain object |
| `Mongo.Model.AddMany` | src/model/mongo.js:94-104 | anything but an array whose first element is an object, including the empty array, is rejected with DataMustBeArray, with no option resolution and no driver call; otherwise one bulk add with the resolved options, then the last insert id |
| `Mongo.Model.Delete` | src/model/mongo.js:109-114 | the pending options are consumed; exactly one delete with the resolved options; the result is the reply's `n` count, 0 when missing, a TypeError without a `result` |
| `Mongo.ReplyCount` | src/model/mongo.js:126-128 | fails exactly when the reply has no `result`; otherwise the named counter, or 0 when the driver left it out |
| `Mongo.Model.Update` | src/model/mongo.js:119-129 | as written: a missing record consumes the pending options and then fails with a TypeError, with no driver call. Otherwise the caller's record loses a truthy `_id` in place; exactly one driver update is made, of the stripped record with the options resolved before the key filter existed; the pending slot is left holding `{where: {_id: key}}` |
| `Mongo.Model.UpdateResolved` | src/model/mongo.js:121-128 | the part of `update` after resolution: the key filter is merged into the pending slot rather than into the options sent, and the driver gets the stripped record with the given options |
| `Mongo.Stripped` | src/model/mongo.js:122-124 | a truthy primary key is removed and a falsy one (0, "", null) stays; no other field changes; the result never carries a truthy key |
| `Mongo.StrippedIdempotent` | src/model/mongo.js:122-124 | stripping a record twice is stripping it once |
| `Mongo.KeyLeakOfStripped` | src/model/mongo.js:122-124 | a record that was already updated leaves no key filter pending when it is updated again |
| `Mongo.KeyLeak` | src/model/mongo.js:122-123 | what `update` leaves pending: exactly the equality filter on a truthy key, or nothing |
| `Mongo.KeyFiltered` | src/model/mongo.js:122-123 | the intended options: a truthy key adds an `_id` equality clause to `where`, keeping the other clauses and every other option, and adding no other option or clause; a falsy key changes nothing |
| `Mongo.UpdateFilterIsDeferred` | src/model/mongo.js:120-123 | for `update({_id: "x", name: "y"})`, the options sent carry no `where`, while the next resolution receives `{_id: "x"}` and the intended options would carry it now |
| `Mongo.Model.UpdateByKey` | src/model/mongo.js:119-129 | corrected `update`: the one driver update carries the key filter in its own options, and nothing is left pending; a missing record fails with a TypeError as in `update` |
| `Mongo.Model.UpdateMany` | src/model/mongo.js:135-145 | a non-array is rejected with DataMustBeArray, with no driver call and the options untouched. For a list: one update per record in list order, without its truthy key; only the first uses the pending options; the key filters are left pending; every record is stripped in place. The result is the sum of counts, the first failure, or a TypeError for an empty list |
| `Mongo.Model.ResolveEach` | src/model/mongo.js:139-141 | the synchronous first part of every update: the first resolution consumes the pending options and every later one resolves from an empty slot |
| `Mongo.Model.UpdateEach` | src/model/mongo.js:139-144 | the rest of every update, in list order: each driver call gets its record's stripped fields and its own resolved options; the pending slot accumulates the key filters; the accumulated result is the reduction of the counts |
| `Mongo.Model.UpdateNext` | src/model/mongo.js:140 | one more update extends the run of driver calls by its own call, with its record's stripped fields and its own options, adds its key filter to the pending slot and strips its record; its count is read from its reply |
| `Mongo.ModifiedCounts` | src/model/mongo.js:128 | one result per driver call, in call order: for an update, its reply's `nModified` count as `update` returns it |
| `Mongo.LastKeyed` | src/model/mongo.js:139-141 | the index of the last record whose key was still truthy when its update reached it, with every later one falsy |
| `Mongo.KeysFilteredLast` | src/model/mongo.js:139-141 | after `updateMany`, the pending slot holds exactly the key filter of the last record that still had a truthy key, or nothing |
| `Mongo.KeyFilterReplaced` | src/model/mongo.js:123 | a later key filter replaces an earlier one in the pending slot |
| `Mongo.AddCount` | src/model/mongo.js:143 | succeeds exactly when both counts did, with their sum; otherwise the earlier failure |
| `Mongo.SumCounts` | src/model/mongo.js:142-143 | the reduction of the settled counts; without a seed, a single count is returned as it is |
| `Mongo.SumCountsFails` | src/model/mongo.js:142-144 | the reduction succeeds exactly when every count does; on failure it is the first failing count in list order |
| `Mongo.SumCountsAppend` | src/model/mongo.js:143 | reducing one more count adds it to the reduction so far |
| `Mongo.SumCountsIsTotal` | src/model/mongo.js:142-144 | when no update failed, the reduction equals the plain sum of the counts |
| `Mongo.Model.Select` | src/model/mongo.js:150-154 | the pending options are consumed; exactly one select with the resolved options, whose rows are returned |
| `Mongo.Model.Find` | src/model/mongo.js:160-164 | one select whose options carry `limit` 1 and otherwise follow the resolution with extra options `{limit: 1}`; the result is the first row, or `{}` |
| `Mongo.FirstRowOrEmpty` | src/model/mongo.js:163 | always truthy: the first row when it is truthy, otherwise an empty object |
| `Mongo.Model.Increment` | src/model/mongo.js:171-178 | one driver update of `{$inc: {field: step}}`, step 1 when omitted, with options resolved without caller options |
| `Mongo.Model.Decrement` | src/model/mongo.js:185-192 | one driver update of `{$inc: {field: 0 - step}}`, step 1 when omitted, with options resolved without caller options |
| `Mongo.IncDelta` | src/model/mongo.js:173-177 | the delta has only `$inc`, which names only the field, with the given amount |
| `Mongo.StepOrOne` | src/model/mongo.js:171 | an omitted step is 1 and a given step is kept |
| `Mongo.Model.Count` | src/model/mongo.js:198-202 | the field selection goes into the pending slot and is consumed by the resolution; exactly one count call, whose options carry a truthy field |
| `Mongo.Model.Sum` | src/model/mongo.js:208-212 | the field selection goes into the pending slot and is consumed by the resolution; exactly one sum call, whose options carry a truthy field |

## Left out

- `collection`, `aggregate` and `createIndex` (mongo.js:53-56, :219-229) only pass through to the adapter. `thenAdd` (:85-87) is an empty stub.
- The adapter (`think.adapter`, `this.db()`) is not part of this model. Each of its methods returns an arbitrary reply and is logged. Driver replies carry integer counts.
- Adapter calls never reject in this model: a reply may lack its `result`, but no promise fails. In the code a rejected driver promise ends the operation where it is awaited, so `add` would stop before `getLastInsertId` (mongo.js:74-76), and `updateMany` could reject with a driver error rather than a TypeError.
- `Mongo.Model.UpdateMany` takes a `BulkInput` in which every array, the empty one included, is given as a list of records. An array wrapped as a non-array value is excluded by its precondition, because it would encode the same call twice.
- The lifecycle hooks `_beforeAdd`, `_afterAdd`, `_afterUpdate`, `_afterDelete`, `_afterSelect`, `_afterFind` and `_optionsFilter` live in `src/model/_base.js`, which is not part of this model. They are modelled as the identity or as doing nothing.
- `getTableName`, `getModelName` and the `tablePrefix` property also come from `_base.js`. They enter as the fixed `Naming` value of the instance.
- `where` and `field` come from `_base.js` too. `where` merges a filter's clauses into the pending `where` option, and `field` sets the pending `field` option when the field is truthy. Both are assumptions about that file.
- `JsValues.Extend` models one level of `think.extend`, which is not part of this model. The helper merges two plain objects found on the same key recursively, where the model lets the later one replace the earlier. So a pending `where: {a: 1}` resolved with caller options `{where: {b: 2}}` is sent as `{b: 2}` here, not `{a: 1, b: 2}`.
- `Mongo.WhereAdded` inherits this: a later clause `{age: {$lt: 5}}` replaces an earlier `{age: {$gt: 1}}` instead of being combined with it.
- `JsValues.Entries` gives nothing for an array or a string source, where the helper's `for...in` loop copies their index properties. So the model rejects `add("ab")` with DataEmpty, while the code builds and inserts `{0: "a", 1: "b"}`.
- Locale message text is left out: an error kind stands for each rejection.
- Numbers are integers only. Floating point and non-numeric counts are not modelled.
- The self-reference `parseOptions(options)` in `increment`/`decrement` (mongo.js:172, :186) is modelled as a call without caller options. The temporal-dead-zone error is not modelled.
- `Mongo.Model.UpdateMany` fixes one schedule of the `async` code. All `parseOptions` calls run first. Then the key filters and driver calls run in list order, because every update waits the same number of turns. Other adapters' timing, and concurrent calls on the same instance, are not modelled.
- `Mongo.Model.UpdateMany` returns the first failing count in list order, whereas `Promise.all` rejects with the first failure in time. Since the adapter never rejects here, every such failure is the same TypeError, so the result is the same.
- `Mongo.Model.Update` and `Mongo.Model.UpdateByKey` take a record object, or `null` for a missing one (`null` or `undefined`), which consumes the pending options and then fails with a TypeError. A string, number or array passed as the record, which the code hands to the driver unchanged, is not modelled.
- `Mongo.Model.UpdateMany` takes a list of records. Non-object elements of the array, on which `data[pk]` would throw or do nothing, are not modelled.
- The `step = 1` default applies only when the step is omitted (`None`). An explicit `undefined` is the same thing in JavaScript and is not a separate case here.
- An `update` is evidently meant to be narrowed by its own key, but the code adds the key filter to the pending slot after its options were resolved; the model follows the code (see Findings). `updateMany` checks only that its input is an array, not the shape of its elements; the model checks the same, but its list can only hold record objects (see the line on non-object elements above).

## Findings

| source | as written | input that shows it | evidently intended | confidence | as-written member | corrected member |
|---|---|---|---|---|---|---|
| src/model/mongo.js:120-126 | `where({_id})` runs after `parseOptions` has already resolved this call's options, so the driver update carries no key filter, and the filter stays pending for the next operation on the instance | `update({_id: "x", name: "y"})` with nothing pending: the update is sent without a `where`, and the next `select()` is filtered by `{_id: "x"}` | the key filter narrows this very update, and nothing is left pending | not executed | `Mongo.Model.Update` (with `Mongo.UpdateFilterIsDeferred`) | `Mongo.Model.UpdateByKey` |
