/** The `Operatic` mixin: the class-level entry points `call` and `call!`, the
    per-class data shape, and an operation instance's lifecycle from binding its
    inputs through its body to its frozen result. */
module Operatic {
  import opened Hashes
  import opened Raising
  import opened OperaticData
  import opened OperaticResult
  import opened Lifecycle

  /** What `call` hands back for a finished operation: a frozen result whose
      frozen data holds the status and payload of the outcome. */
  ghost predicate Delivers(res: Result, o: Outcome)
    reads res, res.data
  {
    res.status == o.status && res.data.hash == o.payload && res.frozen && res.data.frozen
  }

  /** A class that includes `Operatic`. */
  class OperationClass {
    const base: DataClass           // `Operatic::Data`
    var declared: DataClass?        // the class-level `@data_class`, set by `data_attr`
    const body: Hash -> seq<Step>   // the class's `call`: what it does, given the bound inputs

    constructor (base: DataClass, body: Hash -> seq<Step>)
      requires base.accessors == []
      ensures this.base == base && this.base.accessors == [] && this.body == body && declared == null
    {
      this.base := base;
      this.body := body;
      declared := null;
    }

    /** `data_attr(*attrs)`: a fresh subclass of `Data` with those accessors becomes
        this class's data class. No other class is touched. */
    method DataAttr(attrs: seq<Symbol>)
      modifies this
      ensures declared != null && fresh(declared)
      ensures declared.accessors == base.accessors + attrs
    {
      declared := new DataClass.Define(base, attrs);
    }

    /** `data_class`: the class `data_attr` last declared, or plain `Data`. */
    function ResolvedDataClass(): (c: DataClass)
      reads this
      ensures declared != null ==> c == declared
      ensures declared == null ==> c == base && c.accessors == base.accessors
    {
      if declared != null then declared else base
    }

    /** `call(**attrs)`: a new operation binds the inputs and runs its body. The
        result is the one the body finalized, or else a frozen `Success` over the
        data gathered; an exception the body raises propagates. */
    method Call(attrs: Hash) returns (r: Attempt<Result>)
      ensures var spec := Execute(ResolvedDataClass().accessors, body(attrs));
        && (spec.Raised? ==> r == Raised(spec.error))
        && (spec.Ok? ==> r.Ok? && Delivers(r.value, spec.value))
      ensures r.Ok? ==> fresh(r.value) && fresh(r.value.data) && r.value.data.klass == ResolvedDataClass()
    {
      var op := new Operation(this, attrs);
      var err := op.CallBody();
      if err.Some? {
        return Raised(err.value);
      }
      if op.result != null {
        return Ok(op.result);
      }
      var d := op.EnsureData();
      var res := new Result(Success, d);
      res.Freeze();
      return Ok(res);
    }

    /** `call!(**attrs)`: as `call`, except that a `Failure` result raises
        FailureError instead of being returned. */
    method CallStrict(attrs: Hash) returns (r: Attempt<Result>)
      ensures var spec := Execute(ResolvedDataClass().accessors, body(attrs));
        && (spec.Raised? ==> r == Raised(spec.error))
        && (spec.Ok? && spec.value.status == Failure ==> r == Raised(FailureError))
        && (spec.Ok? && spec.value.status == Success ==> r.Ok? && Delivers(r.value, spec.value))
      ensures r.Ok? ==> fresh(r.value) && fresh(r.value.data) && r.value.data.klass == ResolvedDataClass()
    {
      r := Call(attrs);
      if r.Ok? && r.value.IsFailure() {
        r := Raised(FailureError);
      }
    }
  }

  /** An instance of a class that includes `Operatic`. */
  class Operation {
    const klass: OperationClass
    var inputs: Hash       // the instance variables `initialize` binds
    var data: Data?        // `@data`, created on first use
    var result: Result?    // `@result`, set by finalizing
    var frozen: bool

    /** The operation's own data is of its class's data class and never frozen
        while the operation runs; finalizing freezes the operation together with a
        result whose data is a separate, frozen copy. */
    ghost predicate Valid()
      reads this, klass, data, result
      reads if result != null then {result.data} else {}
    {
      && frozen == (result != null)
      && (data != null ==> data.klass == klass.ResolvedDataClass() && !data.frozen)
      && (result != null ==>
            data != null && result.data != data && result.data.klass == data.klass &&
            result.frozen && result.data.frozen)
    }

    /** The operation's state, as the lifecycle specification sees it. */
    ghost function View(): Progress
      reads this, data, result
      reads if result != null then {result.data} else {}
    {
      Progress(
        if data == null then [] else data.hash,
        if result == null then None else Some(Outcome(result.status, result.data.hash)))
    }

    /** `initialize(**attrs)`: binds each input to the instance variable of the same name. */
    constructor (klass: OperationClass, attrs: Hash)
      ensures this.klass == klass && inputs == attrs
      ensures data == null && result == null && !frozen
      ensures Valid() && View() == Start
    {
      this.klass := klass;
      inputs := [];
      data := null;
      result := null;
      frozen := false;
      new;
      var i := 0;
      while i < |attrs|
        invariant 0 <= i <= |attrs|
        invariant inputs == StoreAll([], attrs[..i])
        invariant data == null && result == null && !frozen
      {
        assert attrs[..i + 1][..i] == attrs[..i];
        inputs := Store(inputs, attrs[i].0, attrs[i].1);
        i := i + 1;
      }
      assert attrs[..i] == attrs;
      StoreAllIntoEmpty(attrs);
    }

    /** `data`: created empty, of the class's data class, on the first call; every
        later call returns that same object. */
    method EnsureData() returns (d: Data)
      requires Valid()
      modifies this
      ensures Valid() && View() == old(View())
      ensures d == data && d.klass == klass.ResolvedDataClass() && !d.frozen
      ensures old(data) != null ==> d == old(data)
      ensures old(data) == null ==> fresh(d) && d.hash == []
      ensures result == old(result) && frozen == old(frozen) && inputs == old(inputs)
    {
      if data == null {
        data := new Data(klass.ResolvedDataClass(), []);
      }
      d := data;
    }

    /** `freeze`: freezes the result, when there is one, and then the operation. */
    method Freeze()
      modifies this, result
      modifies if result != null then {result.data} else {}
      ensures frozen && result == old(result) && data == old(data) && inputs == old(inputs)
      ensures result != null ==> result.frozen && result.data.frozen && result.data.hash == old(result.data.hash)
    {
      if result != null {
        result.Freeze();
      }
      frozen := true;
    }

    /** `success!(**overrides)` when `status` is `Success`, `failure!(**overrides)`
        when it is `Failure`: a result over the data merged with the overrides, and
        the operation frozen. On a frozen operation, raises FrozenError. */
    method Finish(status: Status, overrides: Hash) returns (err: Option<Error>)
      requires Valid()
      modifies this
      ensures Valid() && data != null && inputs == old(inputs)
      ensures old(frozen) ==> err == Some(FrozenError) && result == old(result)
      ensures !old(frozen) ==> err == None && fresh(result) && fresh(result.data)
      ensures old(data) != null ==> data == old(data)
      ensures old(data) == null ==> fresh(data)
      ensures Perform(klass.ResolvedDataClass().accessors, old(View()), Step.Finalize(status, overrides))
           == if err.Some? then Raised(err.value) else Ok(View())
    {
      var d := EnsureData();
      var merged := d.Merge(overrides);
      if frozen {
        return Some(FrozenError);
      }
      result := new Result(status, merged);
      Freeze();
      return None;
    }

    /** One statement of the body: `data[key] = value`, a generated writer, or a finalize. */
    method PerformStep(s: Step) returns (err: Option<Error>)
      requires Valid()
      modifies this, data
      ensures Valid() && inputs == old(inputs)
      ensures Perform(klass.ResolvedDataClass().accessors, old(View()), s)
           == if err.Some? then Raised(err.value) else Ok(View())
      ensures old(data) == null ==> fresh(data)
      ensures old(data) != null ==> data == old(data)
      ensures old(result) == null && result != null ==> fresh(result) && fresh(result.data)
      ensures old(result) != null ==> result == old(result)
    {
      match s {
        case Write(k, v) =>
          var d := EnsureData();
          err := d.Set(k, v);
        case Assign(n, v) =>
          var d := EnsureData();
          err := d.SetAttr(n, v);
        case Finalize(st, kw) =>
          err := Finish(st, kw);
      }
    }

    /** Statement `i` of the body, after statements `0..i` have run as the
        lifecycle specifies: afterwards statements `0..i+1` have. */
    method PerformAt(ghost accessors: seq<Symbol>, ghost start: Progress, steps: seq<Step>, i: nat)
      returns (err: Option<Error>)
      requires Valid() && i < |steps|
      requires accessors == klass.ResolvedDataClass().accessors
      requires Run(accessors, start, steps[..i]) == Ok(View())
      modifies this, data
      ensures Valid() && inputs == old(inputs)
      ensures var run := Run(accessors, start, steps[..i + 1]);
        && (run.Raised? ==> err == Some(run.error))
        && (run.Ok? ==> err == None && View() == run.value)
      ensures old(data) == null ==> fresh(data)
      ensures old(data) != null ==> data == old(data)
      ensures old(result) == null && result != null ==> fresh(result) && fresh(result.data)
      ensures old(result) != null ==> result == old(result)
    {
      err := PerformStep(steps[i]);
      RunStep(accessors, start, steps, i);
    }

    /** The instance `call`: runs the class's body against the bound inputs, one
        statement after another; the first exception stops it. */
    method CallBody() returns (err: Option<Error>)
      requires Valid()
      modifies this, data
      ensures Valid() && inputs == old(inputs)
      ensures var run := Run(klass.ResolvedDataClass().accessors, old(View()), klass.body(old(inputs)));
        && (run.Raised? ==> err == Some(run.error))
        && (run.Ok? ==> err == None && View() == run.value)
      ensures old(data) == null && data != null ==> fresh(data)
      ensures old(result) == null && result != null ==> fresh(result) && fresh(result.data)
    {
      var steps := klass.body(inputs);
      ghost var accessors := klass.ResolvedDataClass().accessors;
      ghost var start := View();
      var i := 0;
      err := None;
      while i < |steps|
        invariant 0 <= i <= |steps|
        invariant err == None
        invariant Valid() && inputs == old(inputs)
        invariant Run(accessors, start, steps[..i]) == Ok(View())
        invariant old(data) == null && data != null ==> fresh(data)
        invariant old(data) != null ==> data == old(data)
        invariant old(result) == null && result != null ==> fresh(result) && fresh(result.data)
      {
        err := PerformAt(accessors, start, steps, i);
        if err.Some? {
          RaisedPrefix(accessors, start, steps, i + 1);
          assert Run(accessors, start, steps) == Raised(err.value);
          return;
        }
        i := i + 1;
      }
      assert steps[..i] == steps;
      assert Run(accessors, start, steps) == Ok(View());
    }
  }
}
