/** Clients of the model that replay the scenarios the library's test suite
    describes; every assertion here follows from the contracts alone. */
module Scenarios {
  import opened Hashes
  import opened Raising
  import opened OperaticData
  import opened OperaticResult
  import opened Lifecycle
  import opened Operatic

  /** Ruby truthiness: everything but nil and false. */
  predicate Truthy(v: Value) {
    v != Nil && v != Bool(false)
  }

  /** A keyed payload: what `[]=` writes, `[]` reads back; missing keys read as nil. */
  method KeyedAccess() {
    var base := new DataClass.Base();
    var data := new Data(base, []);
    var _ := data.Set("a", Int(1));
    ghost var first := data.hash;
    var _ := data.Set("b", Int(2));
    FetchStore([], "a", Int(1), "a");
    FetchStore(first, "b", Int(2), "a");
    FetchStore(first, "b", Int(2), "b");
    assert data.Get("a") == Int(1) && data.Get("b") == Int(2);
    assert data.Get("c") == Nil;
    ToMapStore([], "a", Int(1));
    ToMapStore(first, "b", Int(2));
    assert ToMap(data.ToH()) == map["a" := Int(1), "b" := Int(2)];
    data.Freeze();
    var err := data.Set("a", Int(3));
    assert err == Some(FrozenError) && data.Get("a") == Int(1);
  }

  /** `Data.define(:stuff, :nonsense)`: named and keyed access share one payload. */
  method DefinedAccessors(stuff: Symbol, nonsense: Symbol)
    requires stuff != nonsense
  {
    var base := new DataClass.Base();
    var klass := new DataClass.Define(base, [stuff, nonsense]);
    var data := new Data(klass, []);
    var _ := data.SetAttr(stuff, Int(1));
    ghost var first := data.hash;
    var _ := data.SetAttr(nonsense, Int(2));
    FetchStore([], stuff, Int(1), stuff);
    FetchStore(first, nonsense, Int(2), stuff);
    FetchStore(first, nonsense, Int(2), nonsense);
    assert data.GetAttr(nonsense) == Ok(Int(2)) && data.GetAttr(stuff) == Ok(Int(1));
    assert data.Get(stuff) == Int(1);
  }

  /** An undeclared key has no accessor, yet `[]=` and `[]` still reach it. */
  method UndeclaredKey(stuff: Symbol, foo: Symbol)
    requires stuff != foo
  {
    var base := new DataClass.Base();
    var klass := new DataClass.Define(base, [stuff]);
    var data := new Data(klass, [(stuff, Int(1))]);
    assert data.GetAttr(foo).Raised?;
    var _ := data.Set(foo, Int(3));
    ToMapStore([(stuff, Int(1))], foo, Int(3));
    assert ToMap(data.ToH()) == map[stuff := Int(1), foo := Int(3)];
  }

  /** `merge`: a new object of the receiver's class, the argument winning on
      shared keys, the receiver's other keys kept. */
  method MergeKeepsShape(a: Symbol, b: Symbol, c: Symbol)
    requires a != b && b != c && a != c
  {
    var base := new DataClass.Base();
    var klass := new DataClass.Define(base, [b]);
    var data := new Data(klass, [(a, Int(1))]);
    var _ := data.SetAttr(b, Int(2));
    ghost var before := data.hash;
    var overrides: Hash := [(b, Int(3)), (c, Int(4))];
    var other := data.Merge(overrides);
    assert other != data && other.klass == klass && data.hash == before;
    FetchStore([(a, Int(1))], b, Int(2), a);
    assert Keys(overrides) == [b, c];
    FetchStoreAll(before, overrides, a);
    FetchStoreAll(before, overrides, b);
    FetchStoreAll(before, overrides, c);
    assert Fetch(other.hash, a) == Int(1) && Fetch(other.hash, b) == Int(3) && Fetch(other.hash, c) == Int(4);
    assert other.GetAttr(b) == Ok(Int(3));
  }

  /** `merge` leaves its receiver as it was. */
  method MergeLeavesReceiver(a: Symbol, b: Symbol, c: Symbol)
    requires a != b && b != c && a != c
  {
    var base := new DataClass.Base();
    var klass := new DataClass.Define(base, [b]);
    var data := new Data(klass, [(a, Int(1))]);
    var _ := data.SetAttr(b, Int(2));
    FetchStore([(a, Int(1))], b, Int(2), b);
    assert c !in Keys(data.hash);
    ghost var before := data.hash;
    var other := data.Merge([(b, Int(3)), (c, Int(4))]);
    assert data.hash == before;
    assert data.GetAttr(b) == Ok(Int(2)) && data.Get(c) == Nil;
  }

  /** A result over `Data.define(:a).new(a: 1, b: 2)`: `a` resolves by name, `b`
      only by key. Deconstructing gives the result and its payload. */
  method ResultLookup() {
    var base := new DataClass.Base();
    var klass := new DataClass.Define(base, ["a"]);
    var data := new Data(klass, [("a", Int(1)), ("b", Int(2))]);
    var result := new Result(Success, data);
    assert result.RespondsTo("a") && result.Send("a") == Ok(Int(1));
    assert !result.RespondsTo("b") && result.Send("b") == Raised(NoMethodError("b"));
    assert result.Get("b") == Int(2);
    assert result.Deconstruct() == (result, [("a", Int(1)), ("b", Int(2))]);
    assert result.IsSuccess() && !result.IsFailure();
  }

  /** An operation whose body does nothing: `call` gives a frozen Success over {}. */
  method EmptyBody() {
    var base := new DataClass.Base();
    var klass := new OperationClass(base, (inputs: Hash) => []);
    var r := klass.Call([]);
    AutoSuccess([], []);
    assert r.Ok? && r.value.IsSuccess() && r.value.ToH() == [];
    assert r.value.frozen && r.value.data.frozen;
    var err := r.value.SetKey("x", Int(1));
    assert err == Some(FrozenError) && r.value.ToH() == [];
    var copy := r.value.MergeData([("x", Int(1))]);
    assert !copy.frozen && r.value.ToH() == [];
  }

  /** `data_attr :a, :b`; the body sets `data.a = 1` and calls `success!(b: 2, c: 3)`:
      `a` and `b` resolve by name, `c` only by key. */
  method DeclaredShape(a: Symbol, b: Symbol, c: Symbol)
    requires a != b && b != c && a != c
  {
    var overrides: Hash := [(b, Int(2)), (c, Int(3))];
    var before := [Assign(a, Int(1))];
    var steps := before + [Step.Finalize(Success, overrides)];
    var base := new DataClass.Base();
    var klass := new OperationClass(base, (inputs: Hash) => steps);
    klass.DataAttr([a, b]);
    var r := klass.Call([]);
    assert klass.ResolvedDataClass().accessors == [a, b];
    assert klass.body([]) == steps;
    FinalizeMerges([a, b], before, Success, overrides, []);
    assert before + [Step.Finalize(Success, overrides)] + [] == steps;
    ghost var written := Written([], before);
    assert written == Store([], a, Int(1)) by {
      assert before[..0] == [];
      assert Written([], before[..0]) == [];
      assert before[0] == Assign(a, Int(1));
    }
    ghost var payload := StoreAll(written, overrides);
    assert r.Ok? && r.value.IsSuccess() && r.value.frozen && r.value.data.hash == payload;
    assert Keys(overrides) == [b, c];
    FetchStore([], a, Int(1), a);
    FetchStoreAll(written, overrides, a);
    FetchStoreAll(written, overrides, b);
    FetchStoreAll(written, overrides, c);
    assert Fetch(payload, a) == Int(1) && Fetch(payload, b) == Int(2) && Fetch(payload, c) == Int(3);
    assert r.value.Send(a) == Ok(Int(1));
    assert r.value.Send(b) == Ok(Int(2));
    assert r.value.Get(c) == Int(3) && r.value.Send(c).Raised?;
  }

  /** Declaring a shape on one operation class gives no accessor to another's results. */
  method ShapesAreIsolated() {
    var base := new DataClass.Base();
    var shaped := new OperationClass(base, (inputs: Hash) => []);
    var plain := new OperationClass(base, (inputs: Hash) => []);
    shaped.DataAttr(["a"]);
    var r := plain.Call([]);
    AutoSuccess([], []);
    assert r.Ok? && !r.value.RespondsTo("a") && r.value.Send("a").Raised?;
    var later := new OperationClass(base, (inputs: Hash) => []);
    var r2 := later.Call([]);
    assert r2.Ok? && !r2.value.RespondsTo("a");
  }

  /** `failure!` twice, or `success!` then `failure!`: the second raises FrozenError. */
  method FinalizeTwice() {
    var base := new DataClass.Base();
    var twice := [Step.Finalize(Failure, []), Step.Finalize(Failure, [])];
    var klass := new OperationClass(base, (inputs: Hash) => twice);
    var r := klass.Call([]);
    SecondFinalizeRaises([], twice, 0, 1);
    assert r == Raised(FrozenError);
    var mixed := [Step.Finalize(Success, []), Step.Finalize(Failure, [])];
    var klass2 := new OperationClass(base, (inputs: Hash) => mixed);
    var r2 := klass2.Call([]);
    SecondFinalizeRaises([], mixed, 0, 1);
    assert r2 == Raised(FrozenError);
  }

  /** A write to the operation's data after `success!` does not raise, and the
      result does not see it. */
  method WriteAfterSuccess() {
    var base := new DataClass.Base();
    var steps := [Step.Finalize(Success, []), Write("x", Int(1))];
    var klass := new OperationClass(base, (inputs: Hash) => steps);
    var r := klass.Call([]);
    FinalizeMerges([], [], Success, [], [Write("x", Int(1))]);
    assert [] + [Step.Finalize(Success, [])] + [Write("x", Int(1))] == steps;
    assert r.Ok? && r.value.ToH() == [];
  }

  /** `failure! if oh_no`: `call!` returns the Success, or raises FailureError. */
  method StrictCall() {
    var base := new DataClass.Base();
    var klass := new OperationClass(base,
      (inputs: Hash) => if Truthy(Fetch(inputs, "oh_no")) then [Step.Finalize(Failure, [])] else []);
    var ok := klass.CallStrict([]);
    AutoSuccess([], []);
    assert ok.Ok? && ok.value.IsSuccess();
    var failed := klass.CallStrict([("oh_no", Bool(true))]);
    FinalizeMerges([], [], Failure, [], []);
    assert [] + [Step.Finalize(Failure, [])] + [] == [Step.Finalize(Failure, [])];
    assert failed == Raised(FailureError);
  }
}
