/**
 * The key-value facade (index.js). The external document store is abstracted
 * as one map from key to value: a record exists for `k` exactly when `k` is in
 * the map. Read-only operations are functions of that map; operations that
 * write are methods of `Database`, each specified by an effect function that
 * gives its result and the new map from the old one.
 */
module Facade {
  import opened Values
  import opened Arrays

  /** One record per key; upsert replaces, delete removes. */
  type Store = map<string, Value>

  /** The result of one call together with the store it leaves behind. */
  datatype Step<T> = Step(result: Result<T>, store: Store)

  /** `add`/`inc` versus `sub`/`dec`. */
  datatype Sign = Plus | Minus

  /** The argument check every keyed operation starts with: a truthy key, then a string key. */
  function CheckKey(key: Arg): (r: Result<string>)
    ensures r.Ok? <==> key.Given? && key.v.Str? && key.v.s != ""
    ensures r.Ok? ==> key == Given(Str(r.value))
    ensures r.Err? ==> (r.msg == KeyRequired <==> !ArgTruthy(key))
    ensures r.Err? ==> (r.msg == KeyNotString <==> ArgTruthy(key))
  {
    if !ArgTruthy(key) then Err(KeyRequired)
    else if !key.v.Str? then Err(KeyNotString)
    else Ok(key.v.s)
  }

  /** `get`: the stored value, or `null` when no record exists. */
  function Get(store: Store, key: Arg): (r: Result<Value>)
    ensures r.Err? <==> CheckKey(key).Err?
    ensures r.Err? ==> r.msg == CheckKey(key).msg
    ensures r.Ok? && key.v.s in store ==> r.value == store[key.v.s]
    ensures r.Ok? && r.value != Null ==> key.v.s in store
  {
    var k :- CheckKey(key);
    Ok(if k in store then store[k] else Null)
  }

  /** `fetch`: checks the key itself, then answers exactly as `get`. */
  function Fetch(store: Store, key: Arg): (r: Result<Value>)
    ensures r == Get(store, key)
  {
    var _ :- CheckKey(key);
    Get(store, key)
  }

  /** `has`: a record exists and its value is truthy. */
  function Has(store: Store, key: Arg): (r: Result<bool>)
    ensures r.Err? <==> CheckKey(key).Err?
    ensures r.Err? ==> r.msg == CheckKey(key).msg
    ensures r.Ok? ==> (r.value <==> key.v.s in store && Truthy(store[key.v.s]))
  {
    var _ :- CheckKey(key);
    var data := Get(store, key).value;
    Ok(Truthy(data))
  }

  /** `type`: `null` for an absent or falsy value, otherwise the `typeof` name of the stored value. */
  function TypeOf(store: Store, key: Arg): (r: Result<Option<string>>)
    ensures r.Err? <==> CheckKey(key).Err?
    ensures r.Err? ==> r.msg == CheckKey(key).msg
    ensures r.Ok? ==> (r.value.None? <==> Has(store, key) == Ok(false))
    ensures r.Ok? && r.value.Some? ==>
              r.value.value == TypeName(store[key.v.s]) &&
              r.value.value in {"string", "number", "boolean", "object"} &&
              (r.value.value == "object" <==> store[key.v.s].Arr? || store[key.v.s].Obj?)
  {
    var _ :- CheckKey(key);
    var data := Get(store, key).value;
    if !Truthy(data) then Ok(None) else Ok(Some(TypeName(data)))
  }

  /** The argument checks of `all`: a truthy `$limit` or `$skip` must be a number. */
  function AllArgs(limit: Arg, skip: Arg): (r: Result<()>)
    ensures r.Err? <==> (ArgTruthy(limit) && !limit.v.Num?) || (ArgTruthy(skip) && !skip.v.Num?)
    ensures r.Err? ==> (r.msg == LimitNotNumber <==> ArgTruthy(limit) && !limit.v.Num?)
    ensures r.Err? ==> r.msg in {LimitNotNumber, SkipNotNumber}
  {
    if ArgTruthy(limit) && !limit.v.Num? then Err(LimitNotNumber)
    else if ArgTruthy(skip) && !skip.v.Num? then Err(SkipNotNumber)
    else Ok(())
  }

  /** The argument checks of `fetchAll`, which repeats them and then calls `all`. */
  function FetchAllArgs(limit: Arg, skip: Arg): (r: Result<()>)
    ensures r == AllArgs(limit, skip)
  {
    if ArgTruthy(limit) && !limit.v.Num? then Err(LimitNotNumber)
    else if ArgTruthy(skip) && !skip.v.Num? then Err(SkipNotNumber)
    else AllArgs(limit, skip)
  }

  /** Effect of `set`: upsert the value under the key and return it. */
  function SetEffect(store: Store, key: Arg, value: Value): Step<Value>
  {
    match CheckKey(key)
    case Err(m) => Step(Err(m), store)
    case Ok(k) => Step(Ok(value), store[k := value])
  }

  /** Effect of `delete`: a key that `has` denies is left alone; otherwise its record is removed. */
  function DeleteEffect(store: Store, key: Arg): Step<bool>
  {
    match CheckKey(key)
    case Err(m) => Step(Err(m), store)
    case Ok(k) =>
      if k in store && Truthy(store[k]) then Step(Ok(true), store - {k})
      else Step(Ok(false), store)
  }

  /**
   * Effect of `add` (Plus) and `sub` (Minus). An absent or falsy current value
   * is replaced by the operand itself, for `sub` as well.
   */
  function AccumulateEffect(store: Store, key: Arg, value: Arg, sign: Sign): Step<int>
  {
    match CheckKey(key)
    case Err(m) => Step(Err(m), store)
    case Ok(k) =>
      if !ArgTruthy(value) then Step(Err(ValueRequired), store)
      else if !value.v.Num? then Step(Err(ValueNotNumber), store)
      else if k !in store || !Truthy(store[k]) then Step(Ok(value.v.n), store[k := value.v])
      else if !store[k].Num? then Step(Err(ValueNotNumber), store)
      else
        var n := if sign == Plus then store[k].n + value.v.n else store[k].n - value.v.n;
        Step(Ok(n), store[k := Num(n)])
  }

  /**
   * Effect of `push`: an absent or falsy current value becomes `[value]`; an
   * array current value is extended by `Appended`.
   */
  function PushEffect(store: Store, key: Arg, value: Arg): Step<seq<Value>>
  {
    match CheckKey(key)
    case Err(m) => Step(Err(m), store)
    case Ok(k) =>
      if !ArgTruthy(value) then Step(Err(ValueRequired), store)
      else if k !in store || !Truthy(store[k]) then Step(Ok([value.v]), store[k := Arr([value.v])])
      else if !store[k].Arr? then Step(Err(ValueNotArray), store)
      else
        var a := Appended(store[k].elems, value.v);
        Step(Ok(a), store[k := Arr(a)])
  }

  /** The items `pull` removes: the elements of an array operand, or the operand itself. */
  function PulledItems(v: Value): seq<Value> {
    if v.Arr? then v.elems else [v]
  }

  /**
   * Effect of `pull`: `null` for an absent or falsy current value; otherwise
   * every element equal to a pulled item is removed, item by item.
   */
  function PullEffect(store: Store, key: Arg, value: Arg): Step<Value>
  {
    match CheckKey(key)
    case Err(m) => Step(Err(m), store)
    case Ok(k) =>
      if !ArgTruthy(value) then Step(Err(ValueRequired), store)
      else if k !in store || !Truthy(store[k]) then Step(Ok(Null), store)
      else if !store[k].Arr? then Step(Err(ValueNotArray), store)
      else
        var a := PullAll(store[k].elems, PulledItems(value.v));
        Step(Ok(Arr(a)), store[k := Arr(a)])
  }

  /** The facade over one store handle. Each call is one atomic sequential step. */
  class Database {
    var store: Store

    constructor ()
      ensures store == map[]
    {
      store := map[];
    }

    /** `set` (index.js:39-50): upsert with `$set`, then read the value back with `get`. */
    method Set(key: Arg, value: Value) returns (r: Result<Value>)
      modifies this
      ensures Step(r, store) == SetEffect(old(store), key, value)
    {
      var k :- CheckKey(key);
      store := store[k := value];
      r := Get(store, key);
    }

    /** `delete` (index.js:129-142): ask `has`, and only then delete the record. */
    method Delete(key: Arg) returns (r: Result<bool>)
      modifies this
      ensures Step(r, store) == DeleteEffect(old(store), key)
    {
      var k :- CheckKey(key);
      var present := Has(store, key).value;
      if !present {
        return Ok(false);
      }
      store := store - {k};
      r := Ok(true);
    }

    /** `add` (index.js:213-232). */
    method Add(key: Arg, value: Arg) returns (r: Result<int>)
      modifies this
      ensures Step(r, store) == AccumulateEffect(old(store), key, value, Plus)
    {
      var _ :- CheckKey(key);
      if !ArgTruthy(value) {
        return Err(ValueRequired);
      }
      if !value.v.Num? {
        return Err(ValueNotNumber);
      }
      var data := Get(store, key).value;
      if !Truthy(data) {
        var stored := Set(key, value.v);
        return Ok(stored.value.n);
      }
      if !data.Num? {
        return Err(ValueNotNumber);
      }
      var newValue := data.n + value.v.n;
      var _ := Set(key, Num(newValue));
      r := Ok(newValue);
    }

    /** `sub` (index.js:252-269): like `add`, but an absent or falsy value is replaced by `value`, not `-value`. */
    method Sub(key: Arg, value: Arg) returns (r: Result<int>)
      modifies this
      ensures Step(r, store) == AccumulateEffect(old(store), key, value, Minus)
    {
      var _ :- CheckKey(key);
      if !ArgTruthy(value) {
        return Err(ValueRequired);
      }
      if !value.v.Num? {
        return Err(ValueNotNumber);
      }
      var data := Get(store, key).value;
      if !Truthy(data) {
        var stored := Set(key, value.v);
        return Ok(stored.value.n);
      }
      if !data.Num? {
        return Err(ValueNotNumber);
      }
      var newValue := data.n - value.v.n;
      var _ := Set(key, Num(newValue));
      r := Ok(newValue);
    }

    /** `inc` (index.js:284-291): `add`, with any failure re-raised under its own message. */
    method Inc(key: Arg, value: Arg) returns (r: Result<int>)
      modifies this
      ensures Step(r, store) == AccumulateEffect(old(store), key, value, Plus)
    {
      r := Add(key, value);
    }

    /** `dec` (index.js:312-319): `sub`, with any failure re-raised under its own message. */
    method Dec(key: Arg, value: Arg) returns (r: Result<int>)
      modifies this
      ensures Step(r, store) == AccumulateEffect(old(store), key, value, Minus)
    {
      r := Sub(key, value);
    }

    /** `push` (index.js:397-422): the fetched array grows one element at a time, then is written back. */
    method Push(key: Arg, value: Arg) returns (r: Result<seq<Value>>)
      modifies this
      ensures Step(r, store) == PushEffect(old(store), key, value)
    {
      var _ :- CheckKey(key);
      if !ArgTruthy(value) {
        return Err(ValueRequired);
      }
      var data := Get(store, key).value;
      if !Truthy(data) {
        var stored := Set(key, Arr([value.v]));
        return Ok(stored.value.elems);
      }
      if !data.Arr? {
        return Err(ValueNotArray);
      }
      var items := data.elems;
      if value.v.Arr? {
        for i := 0 to |value.v.elems|
          invariant items == data.elems + value.v.elems[..i]
        {
          items := items + [value.v.elems[i]];
        }
        assert value.v.elems[..|value.v.elems|] == value.v.elems;
      } else {
        items := items + [value.v];
      }
      var _ := Set(key, Arr(items));
      r := Ok(items);
    }

    /** `pull` (index.js:443-474): one `$pull` update per pulled item, then read the value back with `get`. */
    method Pull(key: Arg, value: Arg) returns (r: Result<Value>)
      modifies this
      ensures Step(r, store) == PullEffect(old(store), key, value)
    {
      var k :- CheckKey(key);
      if !ArgTruthy(value) {
        return Err(ValueRequired);
      }
      var data := Get(store, key).value;
      if !Truthy(data) {
        return Ok(Null);
      }
      if !data.Arr? {
        return Err(ValueNotArray);
      }
      if value.v.Arr? {
        var items := value.v.elems;
        for i := 0 to |items|
          invariant store == old(store)[k := Arr(PullAll(data.elems, items[..i]))]
        {
          assert items[..i + 1][..i] == items[..i];
          PullOne(k, items[i]);
        }
        assert items[..|items|] == items;
      } else {
        assert PullAll(data.elems, [value.v]) == Without(PullAll(data.elems, []), value.v);
        PullOne(k, value.v);
      }
      r := Get(store, key);
    }

    /** The store's update `$pull: {value: [x]}` on one record, assumed to remove every element equal to `x`. */
    method PullOne(k: string, x: Value)
      modifies this
      ensures store == if k in old(store) && old(store)[k].Arr?
                       then old(store)[k := Arr(Without(old(store)[k].elems, x))]
                       else old(store)
    {
      if k in store && store[k].Arr? {
        store := store[k := Arr(Without(store[k].elems, x))];
      }
    }
  }
}
