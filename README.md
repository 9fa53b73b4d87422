# cherry3-lite key-value facade in Dafny

This project models the facade of cherry3-lite (`index.js`): a thin key-value
API over an external document store. Each call checks its arguments, reads the
current value for the key, branches on JavaScript truthiness and on the
run-time type of that value, and writes a new value back.

The model's choices:

- **Store.** The external document store is one mutable map
  `store: map<string, Value>`, a field of the class `Facade.Database`. A record
  exists for a key exactly when the key is in the map. The store's `$set`
  update with upsert replaces the key's entry or adds it. Its delete removes the
  entry. The source sends each pulled item `x` wrapped in a one-element array,
  as `$pull: {value: [x]}` (index.js:458, index.js:465). That update is assumed
  to remove every array element structurally equal to `x`.
- **Values.** `Values.Value` is a JSON-like payload: string, number, boolean,
  `null`, array or object. `Values.Arg` is an argument as a caller passes it.
  It may be omitted (`undefined`), so a missing key or operand can be written.
  `Values.Truthy` is JavaScript truthiness. `Values.TypeName` is `typeof`.
- **Errors.** Every failure is re-raised with the same error kind and the same
  message, so a failure is `Err(message)`. The messages are the source's own
  strings.
- **Read-only operations.** `get`, `fetch`, `has` and `type`, and the argument
  checks of `all`/`fetchAll`, are functions of the store map.
- **Writing operations.** `set`, `delete`, `add`, `sub`, `inc`, `dec`, `push`
  and `pull` are methods of `Database`. They follow the source's control flow.
  `add`, `sub` and `push` write through `Set`. `push` appends to the fetched array one
  element at a time in a loop. `pull` issues one `$pull` store update per item
  in a loop. Each method's `ensures` says that its result and the new store are
  those given by an effect function (`SetEffect`, `DeleteEffect`,
  `AccumulateEffect`, `PushEffect`, `PullEffect`) applied to the old store. The
  lemmas in `Properties` state what the facade promises over those functions.
- **Array rewrites.** These are in `Arrays`. `Without` is one `$pull` and
  `PullAll` is the sequence of pulls. `Keep` is an independent one-pass filter,
  and `PullAllIsKeep` proves that `PullAll` and `Keep` agree.

Behaviour that follows from the code and is easy to miss:

- `has` is false for a stored `0`, `""`, `false` or `null`, because the code
  tests the value's truthiness (index.js:167). This disagrees with the
  function's own doc comment, "checks if a key exists" (index.js:155); the
  model follows the code.
- `type` returns `null` for a falsy stored value as well as for an absent one
  (index.js:190).
- `add`/`sub` reject the operand `0` with "Value is required" (index.js:216,
  index.js:255), although the typings accept any number for it
  (typings/index.d.ts:75); the model follows the code.
- `add`/`sub`/`push` treat a falsy stored value like a missing record and
  overwrite it (index.js:222, index.js:260, index.js:404).
- `all`/`fetchAll` accept a falsy non-number `$limit`/`$skip` such as `""`,
  because the type test is only made on a truthy argument (index.js:341-342).

## Model

| member | source | states |
|---|---|---|
| `Facade.CheckKey` | index.js:40-41 | The key passes exactly when it is a non-empty string. A falsy key (omitted, `""`, `0`, `false`, `null`) fails with "key is required". A truthy key that is not a string fails with "key must be a string". |
| `Facade.Get` | index.js:69-80 | Fails with the key error for a bad key. Otherwise returns the stored value when a record exists, falsy values included, and `null` when it does not. A non-null answer implies a record exists. |
| `Facade.Fetch` | index.js:100-110 | `fetch` returns exactly what `get` returns, errors included. |
| `Facade.Has` | index.js:161-172 | Fails with the key error for a bad key. Otherwise true if and only if a record exists and its value is truthy. |
| `Facade.TypeOf` | index.js:184-196 | Fails with the key error for a bad key. Otherwise returns `null` exactly when `has` is false. Else returns the `typeof` name of the stored value, one of "string", "number", "boolean", "object", and "object" exactly for arrays and objects. |
| `Facade.AllArgs` | index.js:340-342 | Fails if and only if a truthy `$limit` or a truthy `$skip` is not a number. The `$limit` message takes precedence. |
| `Facade.FetchAllArgs` | index.js:368-370 | `fetchAll`'s argument checks accept and reject exactly what `all`'s do, with the same messages. |
| `Facade.Database.Set` | index.js:39-50 | The result and new store are `SetEffect` of the old store: a bad key leaves the store unchanged; otherwise the value is upserted under the key and returned. |
| `Facade.Database.Delete` | index.js:129-142 | The result and new store are `DeleteEffect`: false with the store unchanged when `has` is false; otherwise true, with the key's record removed and nothing else changed. |
| `Facade.Database.Add` | index.js:213-232 | The result and new store are `AccumulateEffect` with `Plus`: operand checks, then either the operand stored, `d + value` stored, or a failure that leaves the store unchanged. |
| `Facade.Database.Sub` | index.js:252-269 | The result and new store are `AccumulateEffect` with `Minus`. The operand itself (not its negation) is stored on an absent or falsy value. |
| `Facade.Database.Inc` | index.js:284-291 | Result and new store are exactly those of `add`. |
| `Facade.Database.Dec` | index.js:312-319 | Result and new store are exactly those of `sub`. |
| `Facade.Database.Push` | index.js:397-422 | The result and new store are `PushEffect`. The loop appends the operand's elements one by one to the fetched array. Its invariant says the array is the old elements followed by the first `i` operand elements. |
| `Facade.Database.Pull` | index.js:443-474 | The result and new store are `PullEffect`. The loop issues one `$pull` per item. Its invariant says the stored array is the old one with the first `i` items pulled. |
| `Facade.Database.PullOne` | index.js:458 | The store's `$pull: {value: [x]}` update, under the stated assumption: the record's array loses every element equal to `x`. Every other key, and a record that is absent or not an array, is unchanged. |
| `Arrays.Appended` | index.js:407-415 | The old array is a prefix of the result. What follows it is the operand's elements for an array operand, else the operand alone. |
| `Arrays.Without` | index.js:458 | One `$pull`: the result holds exactly the elements of the input that differ from the item. Every other element keeps its multiplicity. The result is no longer than the input. |
| `Arrays.Keep` | index.js:455-459 | Reference filter: the result holds exactly the input elements that equal no pulled item, and is no longer than the input. |
| `Arrays.WithoutConcat` | index.js:458 | One `$pull` acts piecewise on a concatenation, so the survivors keep their order. |
| `Arrays.KeepConcat` | index.js:455-459 | The reference filter acts piecewise on a concatenation, so it keeps the survivors' order. |
| `Arrays.KeepThenWithout` | index.js:457-459 | One more `$pull` after filtering by some items is the filter by those items plus one. |
| `Arrays.PullAllIsKeep` | index.js:455-467 | The item-by-item `$pull` updates give exactly the one-pass reference filter. |
| `Arrays.PullAllMembers` | index.js:455-467 | After the pulls, no element equals a pulled item, and every element equal to no item survives. |
| `Arrays.KeepIdempotent` | index.js:455-467 | Filtering twice by the same items equals filtering once. |
| `Properties.SetThenGet` | index.js:44-46 | After a successful `set(k, v)`, the call returns `v` and `get(k)` and `fetch(k)` return `v`. Every other key's record is unchanged. |
| `Properties.SetThenHas` | index.js:166-168 | After `set(k, v)`, `has(k)` is the truthiness of `v`. |
| `Properties.BadKeyRejected` | index.js:40-41 | The same two key checks open every keyed operation (also index.js:70-71, 101-102, 130-131, 162-163, 185-186, 214-215, 253-254, 398-399 and 444-445). A bad key makes `get`, `fetch`, `has`, `type`, `set`, `delete`, `add`/`sub`, `push` and `pull` fail with the key message and leaves the store unchanged. |
| `Properties.GetNull` | index.js:74-76 | `get` answers `null` exactly when no record exists or the record holds `null`. |
| `Properties.DeleteWhenAbsent` | index.js:134-135 | `delete` on a key that `has` denies returns false and leaves the store unchanged. |
| `Properties.DeleteKeepsZero` | index.js:134-135 | `delete` on a record holding `0` returns false and keeps the record. |
| `Properties.DeleteWhenPresent` | index.js:134-137 | `delete` on a key that `has` confirms returns true and removes exactly that key. Afterwards `has` is false and `get` is `null`. |
| `Properties.AccumulateRejectsOperand` | index.js:216-217 | A falsy operand fails `add`/`sub` with "Value is required". A truthy non-number operand fails with "Value must be a number". The store is unchanged either way, and `add(k, 0)` is rejected. |
| `Properties.AccumulateFresh` | index.js:221-222 | On an absent or falsy value, `add`/`sub` store and return the operand itself (for `sub` too, not its negation). |
| `Properties.AccumulateOnNumber` | index.js:223-226 | On a truthy number `d`, `add` stores and returns `d + n` and `sub` stores and returns `d - n`. |
| `Properties.AccumulateOnNonNumber` | index.js:223 | On a truthy non-number value, `add`/`sub` fail with "Value must be a number" and leave the store unchanged. |
| `Properties.AddThenSubRestores` | index.js:221-226 | `sub(k, n)` after `add(k, n)` returns and restores the original truthy number `d` when `d + n` is not 0. |
| `Properties.AddThenSubThroughZero` | index.js:260-264 | When `add(k, n)` brings the value to 0, the next `sub(k, n)` stores `n`, not the original `-n`. |
| `Properties.PushRejectsFalsy` | index.js:400 | `push` with a falsy operand fails with "Value is required" and leaves the store unchanged. |
| `Properties.PullRejectsFalsy` | index.js:446 | `pull` with a falsy operand fails with "Value is required" and leaves the store unchanged. |
| `Properties.PushFresh` | index.js:403-404 | `push` on an absent or falsy value stores and returns `[v]`. An array operand becomes a single element. |
| `Properties.PushOnNonArray` | index.js:405 | `push` on a truthy non-array value fails with "Value must be an array" and leaves the store unchanged. |
| `Properties.PushOnArray` | index.js:407-417 | `push` on a stored array keeps the old contents as a prefix. It appends the operand's elements (or the operand itself), stores the new array and returns it. |
| `Properties.PullAbsent` | index.js:449-450 | `pull` on an absent or falsy value returns `null` and leaves the store unchanged. |
| `Properties.PullOnNonArray` | index.js:451 | `pull` on a truthy non-array value fails with "Value must be an array" and leaves the store unchanged. |
| `Properties.PullOnArray` | index.js:453-467 | `pull` on a stored array stores and returns exactly the elements equal to no pulled item, in their original order. |
| `Properties.PullTwice` | index.js:453-467 | Repeating a `pull` with the same operand returns the same array and leaves the store unchanged. |
| `Properties.PushThenPull` | index.js:407-417 | Pushing a non-array `x` onto an array and then pulling `x` leaves the old array without any copy of `x`. |

## Left out

- Listing in `all`/`fetchAll` (index.js:345, index.js:373) is left out: pagination and ordering are done by the external store's `allRows`. Only the `$limit`/`$skip` argument checks are modelled.
- Store failures are left out. The external store is assumed never to fail, so the catch-and-rethrow blocks change nothing. The same goes for partial progress of `pull` when a store update fails midway.
- Concurrency is left out. Each call is one atomic sequential step, so lost updates between interleaved `add`, `push` or `pull` calls are not modelled.
- Numbers are unbounded integers. Floating point (fractions, NaN, infinities, rounding of `+`/`-`) is not modelled, and NaN, which is falsy in JavaScript, is not a value here.
- `Facade.Database.Set`: an omitted (`undefined`) value argument is not modelled, because what the store then records depends on its schema default (src/service.js is not part of this model).
- Record timestamps (`createdAt`, `updatedAt`) are not modelled; they are kept by the store.
- The exact semantics of the store's `$set`, `$upsert` and `$pull` operators are assumed. Upsert replaces or adds the key's entry. `$pull: {value: [x]}` (index.js:458, index.js:465) is assumed to remove every element equal to `x`, not elements equal to the array `[x]`, and objects are compared by structural equality.
- Calls are assumed to go through the module object (`db.set(...)`), so `this` is the facade whenever one operation calls another (index.js:45, index.js:134, index.js:221-225 and the like). A destructured call, as in the module's header example (index.js:12), fails in the source at its first `this.` call and is not modelled.
- `CherryError` formatting and the error kind tag `'error'` are not modelled: only the message is.
- `version`, read from package.json (index.js:3, index.js:24), is left out.
- Values of type `bigint`, `symbol`, `function` or `undefined` inside a stored value are not modelled.
- Aliasing is not modelled. In the source, `push` appends to the array object returned by the store's `findOne`; here that array is a local sequence.
