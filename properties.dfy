/**
 * What the facade promises across calls, stated over the effect functions that
 * the `Database` methods are proved to implement.
 */
module Properties {
  import opened Values
  import opened Arrays
  import opened Facade

  /** After `set(k, v)`, `get(k)` and `fetch(k)` answer `v`, and every other key's record is untouched. */
  lemma SetThenGet(store: Store, key: Arg, value: Value)
    requires CheckKey(key).Ok?
    ensures SetEffect(store, key, value).result == Ok(value)
    ensures Get(SetEffect(store, key, value).store, key) == Ok(value)
    ensures Fetch(SetEffect(store, key, value).store, key) == Ok(value)
    ensures forall k :: k != key.v.s ==>
              (k in SetEffect(store, key, value).store <==> k in store) &&
              (k in store ==> SetEffect(store, key, value).store[k] == store[k])
  {
  }

  /** `has` after `set(k, v)` is the truthiness of `v`: storing `0`, `""`, `false` or `null` looks absent. */
  lemma SetThenHas(store: Store, key: Arg, value: Value)
    requires CheckKey(key).Ok?
    ensures Has(SetEffect(store, key, value).store, key) == Ok(Truthy(value))
  {
  }

  /** A missing, falsy or non-string key fails every keyed operation with the key error, leaving the store alone. */
  lemma BadKeyRejected(store: Store, key: Arg, value: Value, operand: Arg, sign: Sign)
    requires CheckKey(key).Err?
    ensures CheckKey(key).msg == (if ArgTruthy(key) then KeyNotString else KeyRequired)
    ensures Get(store, key) == Err(CheckKey(key).msg)
    ensures Fetch(store, key) == Err(CheckKey(key).msg)
    ensures Has(store, key) == Err(CheckKey(key).msg)
    ensures TypeOf(store, key) == Err(CheckKey(key).msg)
    ensures SetEffect(store, key, value) == Step(Err(CheckKey(key).msg), store)
    ensures DeleteEffect(store, key) == Step(Err(CheckKey(key).msg), store)
    ensures AccumulateEffect(store, key, operand, sign) == Step(Err(CheckKey(key).msg), store)
    ensures PushEffect(store, key, operand) == Step(Err(CheckKey(key).msg), store)
    ensures PullEffect(store, key, operand) == Step(Err(CheckKey(key).msg), store)
  {
  }

  /** `get` answers `null` exactly when there is no record or the record holds `null`. */
  lemma GetNull(store: Store, key: Arg)
    requires CheckKey(key).Ok?
    ensures Get(store, key) == Ok(Null) <==> key.v.s !in store || store[key.v.s] == Null
  {
  }

  /** `delete` on a key that `has` denies returns false and changes nothing. */
  lemma DeleteWhenAbsent(store: Store, key: Arg)
    requires Has(store, key) == Ok(false)
    ensures DeleteEffect(store, key) == Step(Ok(false), store)
  {
  }

  /** A record holding `0` survives `delete`, which returns false. */
  lemma DeleteKeepsZero(store: Store, key: Arg)
    requires CheckKey(key).Ok? && key.v.s in store && store[key.v.s] == Num(0)
    ensures DeleteEffect(store, key).result == Ok(false)
    ensures key.v.s in DeleteEffect(store, key).store
  {
  }

  /** `delete` on a key that `has` confirms removes exactly that record; afterwards `has` is false and `get` is null. */
  lemma DeleteWhenPresent(store: Store, key: Arg)
    requires Has(store, key) == Ok(true)
    ensures DeleteEffect(store, key) == Step(Ok(true), store - {key.v.s})
    ensures Has(DeleteEffect(store, key).store, key) == Ok(false)
    ensures Get(DeleteEffect(store, key).store, key) == Ok(Null)
  {
  }

  /** A falsy or non-number operand of `add`/`sub` is rejected with the store unchanged; `add(k, 0)` among them. */
  lemma AccumulateRejectsOperand(store: Store, key: Arg, value: Arg, sign: Sign)
    requires CheckKey(key).Ok?
    requires !(ArgTruthy(value) && value.v.Num?)
    ensures AccumulateEffect(store, key, value, sign) ==
            Step(Err(if ArgTruthy(value) then ValueNotNumber else ValueRequired), store)
    ensures value == Given(Num(0)) ==> AccumulateEffect(store, key, value, sign).result == Err(ValueRequired)
  {
  }

  /** On an absent or falsy current value `add` and `sub` both store and return the operand itself, not its negation. */
  lemma AccumulateFresh(store: Store, key: Arg, n: int, sign: Sign)
    requires Has(store, key) == Ok(false) && n != 0
    ensures AccumulateEffect(store, key, Given(Num(n)), sign) == Step(Ok(n), store[key.v.s := Num(n)])
  {
  }

  /** On a truthy number `d`, `add` stores and returns `d + n`, `sub` stores and returns `d - n`. */
  lemma AccumulateOnNumber(store: Store, key: Arg, d: int, n: int, sign: Sign)
    requires CheckKey(key).Ok? && key.v.s in store && store[key.v.s] == Num(d) && d != 0 && n != 0
    ensures var m := if sign == Plus then d + n else d - n;
            AccumulateEffect(store, key, Given(Num(n)), sign) == Step(Ok(m), store[key.v.s := Num(m)])
  {
  }

  /** On a truthy value that is not a number, `add`/`sub` fail with "Value must be a number" and change nothing. */
  lemma AccumulateOnNonNumber(store: Store, key: Arg, n: int, sign: Sign)
    requires Has(store, key) == Ok(true) && !store[key.v.s].Num? && n != 0
    ensures AccumulateEffect(store, key, Given(Num(n)), sign) == Step(Err(ValueNotNumber), store)
  {
  }

  /** `sub(k, n)` after `add(k, n)` restores a truthy number `d`, provided the sum `d + n` is not 0. */
  lemma AddThenSubRestores(store: Store, key: Arg, d: int, n: int)
    requires CheckKey(key).Ok? && key.v.s in store && store[key.v.s] == Num(d) && d != 0 && n != 0
    requires d + n != 0
    ensures var added := AccumulateEffect(store, key, Given(Num(n)), Plus);
            AccumulateEffect(added.store, key, Given(Num(n)), Minus) == Step(Ok(d), store)
  {
  }

  /** When `d + n` is 0 the stored 0 is falsy, so the following `sub(k, n)` stores `n` instead of `d`. */
  lemma AddThenSubThroughZero(store: Store, key: Arg, n: int)
    requires CheckKey(key).Ok? && key.v.s in store && store[key.v.s] == Num(-n) && n != 0
    ensures var added := AccumulateEffect(store, key, Given(Num(n)), Plus);
            added.result == Ok(0) &&
            AccumulateEffect(added.store, key, Given(Num(n)), Minus) == Step(Ok(n), store[key.v.s := Num(n)])
  {
  }

  /** `push` with a falsy operand is rejected with the store unchanged. */
  lemma PushRejectsFalsy(store: Store, key: Arg, value: Arg)
    requires CheckKey(key).Ok? && !ArgTruthy(value)
    ensures PushEffect(store, key, value) == Step(Err(ValueRequired), store)
  {
  }

  /** `pull` with a falsy operand is rejected with the store unchanged. */
  lemma PullRejectsFalsy(store: Store, key: Arg, value: Arg)
    requires CheckKey(key).Ok? && !ArgTruthy(value)
    ensures PullEffect(store, key, value) == Step(Err(ValueRequired), store)
  {
  }

  /** `push` on an absent or falsy value stores `[v]`, wrapping an array operand whole. */
  lemma PushFresh(store: Store, key: Arg, v: Value)
    requires Has(store, key) == Ok(false) && Truthy(v)
    ensures PushEffect(store, key, Given(v)) == Step(Ok([v]), store[key.v.s := Arr([v])])
    ensures v.Arr? ==> |PushEffect(store, key, Given(v)).result.value| == 1
  {
  }

  /** `push` on a truthy value that is not an array fails and changes nothing. */
  lemma PushOnNonArray(store: Store, key: Arg, v: Value)
    requires Has(store, key) == Ok(true) && !store[key.v.s].Arr? && Truthy(v)
    ensures PushEffect(store, key, Given(v)) == Step(Err(ValueNotArray), store)
  {
  }

  /**
   * `push` on a stored array keeps the old elements as a prefix and appends the
   * operand's elements one by one (or the operand itself); the result is what
   * `get` reads back.
   */
  lemma PushOnArray(store: Store, key: Arg, a: seq<Value>, v: Value)
    requires CheckKey(key).Ok? && key.v.s in store && store[key.v.s] == Arr(a) && Truthy(v)
    ensures var st := PushEffect(store, key, Given(v));
            && st.result.Ok?
            && a <= st.result.value
            && st.result.value[|a|..] == (if v.Arr? then v.elems else [v])
            && Get(st.store, key) == Ok(Arr(st.result.value))
            && st.store == store[key.v.s := Arr(st.result.value)]
  {
  }

  /** `pull` on an absent or falsy value returns `null` and changes nothing. */
  lemma PullAbsent(store: Store, key: Arg, value: Arg)
    requires Has(store, key) == Ok(false) && ArgTruthy(value)
    ensures PullEffect(store, key, value) == Step(Ok(Null), store)
  {
  }

  /** `pull` on a truthy value that is not an array fails and changes nothing. */
  lemma PullOnNonArray(store: Store, key: Arg, value: Arg)
    requires Has(store, key) == Ok(true) && !store[key.v.s].Arr? && ArgTruthy(value)
    ensures PullEffect(store, key, value) == Step(Err(ValueNotArray), store)
  {
  }

  /**
   * `pull` on a stored array leaves, in their original order, exactly the
   * elements equal to no pulled item, and stores that array.
   */
  lemma PullOnArray(store: Store, key: Arg, a: seq<Value>, value: Arg)
    requires CheckKey(key).Ok? && key.v.s in store && store[key.v.s] == Arr(a) && ArgTruthy(value)
    ensures var st := PullEffect(store, key, value);
            var r := Keep(a, PulledItems(value.v));
            && st == Step(Ok(Arr(r)), store[key.v.s := Arr(r)])
            && (forall y :: y in r <==> y in a && y !in PulledItems(value.v))
  {
    PullAllIsKeep(a, PulledItems(value.v));
  }

  /** Pulling the same operand twice leaves the array as one pull did. */
  lemma PullTwice(store: Store, key: Arg, a: seq<Value>, value: Arg)
    requires CheckKey(key).Ok? && key.v.s in store && store[key.v.s] == Arr(a) && ArgTruthy(value)
    ensures var once := PullEffect(store, key, value);
            PullEffect(once.store, key, value) == once
  {
    var items := PulledItems(value.v);
    PullAllIsKeep(a, items);
    var r := Keep(a, items);
    PullAllIsKeep(r, items);
    KeepIdempotent(a, items);
    assert store[key.v.s := Arr(r)][key.v.s := Arr(r)] == store[key.v.s := Arr(r)];
  }

  /** Pushing a non-array `x` onto an array and then pulling `x` removes every copy of `x`, old ones included. */
  lemma PushThenPull(store: Store, key: Arg, a: seq<Value>, x: Value)
    requires CheckKey(key).Ok? && key.v.s in store && store[key.v.s] == Arr(a) && Truthy(x) && !x.Arr?
    ensures var pushed := PushEffect(store, key, Given(x));
            PullEffect(pushed.store, key, Given(x)) ==
              Step(Ok(Arr(Without(a, x))), store[key.v.s := Arr(Without(a, x))])
  {
    var pushed := PushEffect(store, key, Given(x));
    assert pushed.store[key.v.s] == Arr(a + [x]);
    assert PullAll(a + [x], [x]) == Without(PullAll(a + [x], []), x);
    WithoutConcat(a, [x], x);
    assert Without([x], x) == [];
    assert Without(a, x) + [] == Without(a, x);
    assert pushed.store[key.v.s := Arr(Without(a, x))] == store[key.v.s := Arr(Without(a, x))];
  }

  /** Worked examples of `add`/`sub`, stated as assertions over calls of the `Database` methods. */
  method AccumulateExamples()
  {
    var db := new Database();
    var n := db.Add(Given(Str("n")), Given(Num(5)));
    assert n == Ok(5);
    n := db.Add(Given(Str("n")), Given(Num(10)));
    assert n == Ok(15) && db.store["n"] == Num(15);
    var m := db.Sub(Given(Str("m")), Given(Num(3)));
    assert m == Ok(3);
    var zero := db.Inc(Given(Str("n")), Given(Num(0)));
    assert zero == Err(ValueRequired);
  }

  /** Worked examples of `push`: a new key wraps the operand, an existing array is extended. */
  method PushExamples()
  {
    var db := new Database();
    var list := db.Push(Given(Str("list")), Given(Str("a")));
    assert list == Ok([Str("a")]);
    list := db.Push(Given(Str("list")), Given(Arr([Str("b"), Str("c")])));
    assert [Str("a")] + [Str("b"), Str("c")] == [Str("a"), Str("b"), Str("c")];
    assert list == Ok([Str("a"), Str("b"), Str("c")]);
    var list2 := db.Push(Given(Str("list2")), Given(Arr([Str("x"), Str("y")])));
    assert list2 == Ok([Arr([Str("x"), Str("y")])]);
  }

  /** Worked examples of `pull` and `delete`, stated as assertions over calls of the `Database` methods. */
  method PullDeleteExamples()
  {
    var db := new Database();
    var _ := db.Set(Given(Str("p")), Arr([Str("a"), Str("b"), Str("a")]));
    var pulled := db.Pull(Given(Str("p")), Given(Str("a")));
    assert Without([Str("b"), Str("a")], Str("a")) == [Str("b")];
    assert pulled == Ok(Arr([Str("b")]));
    var gone := db.Delete(Given(Str("p")));
    assert gone == Ok(true) && Has(db.store, Given(Str("p"))) == Ok(false);
    var _ := db.Set(Given(Str("z")), Num(0));
    gone := db.Delete(Given(Str("z")));
    assert gone == Ok(false) && "z" in db.store;
  }
}
