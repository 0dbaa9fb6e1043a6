/** `Operatic::Result` and its two subclasses `Success` and `Failure`: a status
    tag over a `Data` payload. */
module OperaticResult {
  import opened Hashes
  import opened Raising
  import opened OperaticData

  /** Which of the two subclasses a result is an instance of. */
  datatype Status = Success | Failure

  class Result {
    const status: Status
    const data: Data
    var frozen: bool

    /** `Success.new(data)` / `Failure.new(data)`. */
    constructor (status: Status, data: Data)
      ensures this.status == status && this.data == data && !frozen
    {
      this.status := status;
      this.data := data;
      frozen := false;
    }

    /** `result[key]`: reads the key from the result's data object. */
    function Get(key: Symbol): (v: Value)
      reads data
      ensures v == data.Get(key)
      ensures key !in Keys(data.hash) ==> v == Nil
    {
      data.Get(key)
    }

    /** `to_h`: the data object's payload. */
    function ToH(): (h: Hash)
      reads data
      ensures h == data.ToH()
      ensures forall k :: Fetch(h, k) == Get(k)
    {
      data.ToH()
    }

    /** `success?`: true for a `Success`, false for a `Failure`. */
    predicate IsSuccess() {
      status == Success
    }

    /** `failure?`: the opposite of `success?`, so a result is exactly one of the two. */
    function IsFailure(): (r: bool)
      ensures r == !IsSuccess()
      ensures r <==> status == Failure
    {
      match status
      case Success => false
      case Failure => true
    }

    /** `deconstruct`: the pair of the result itself and its payload. */
    function Deconstruct(): (pair: (Result, Hash))
      reads data
      ensures pair.0 == this && pair.0.IsSuccess() == IsSuccess()
      ensures pair.1 == ToH()
    {
      (this, ToH())
    }

    /** `deconstruct_keys(keys)`: the whole payload, whichever keys are asked for. */
    function DeconstructKeys(keys: Option<seq<Symbol>>): (h: Hash)
      reads data
      ensures h == ToH()
    {
      ToH()
    }

    /** `freeze`: freezes the data object first, then the result. */
    method Freeze()
      modifies this, data
      ensures frozen && data.frozen
      ensures data.hash == old(data.hash)
    {
      data.Freeze();
      frozen := true;
    }

    /** `respond_to?` for a name the result does not define itself: the result
        answers for it exactly when its data class declares that accessor. */
    predicate RespondsTo(name: Symbol)
      reads data
    {
      data.klass.Declares(name)
    }

    /** `method_missing` for a reader: a declared accessor reads through to the
        data; any other name raises, even when the payload holds that key. */
    function Send(name: Symbol): (r: Attempt<Value>)
      reads data
      ensures r.Ok? <==> RespondsTo(name)
      ensures r.Ok? ==> r.value == Get(name)
      ensures r.Raised? ==> r.error == NoMethodError(name)
    {
      data.GetAttr(name)
    }

    /** `method_missing` for a writer `name=`: forwarded to the data's generated
        writer when the accessor is declared, which raises once the data is frozen. */
    method SendAssign(name: Symbol, value: Value) returns (err: Option<Error>)
      modifies data
      ensures !RespondsTo(name) ==> err == Some(NoMethodError(name + "=")) && data.hash == old(data.hash)
      ensures RespondsTo(name) && old(data.frozen) ==> err == Some(FrozenError) && data.hash == old(data.hash)
      ensures RespondsTo(name) && !old(data.frozen) ==> err == None && data.hash == Store(old(data.hash), name, value)
      ensures data.frozen == old(data.frozen)
    {
      err := data.SetAttr(name, value);
    }

    /** `result[key] = value`: `Result` defines no `[]=`, so `method_missing`
        forwards it to the data's `[]=`, which writes any key, declared or not,
        and raises FrozenError once the data is frozen. */
    method SetKey(key: Symbol, value: Value) returns (err: Option<Error>)
      modifies data
      ensures data.frozen == old(data.frozen)
      ensures old(data.frozen) ==> err == Some(FrozenError) && data.hash == old(data.hash)
      ensures !old(data.frozen) ==> err == None && data.hash == Store(old(data.hash), key, value)
    {
      err := data.Set(key, value);
    }

    /** `result.merge(hash)`: forwarded to the data's `merge`, giving a new, unfrozen
        data object of the same class (not a result); allowed on a frozen result. */
    method MergeData(other: Hash) returns (d: Data)
      ensures fresh(d) && d.klass == data.klass && !d.frozen
      ensures d.hash == StoreAll(data.hash, other)
    {
      d := data.Merge(other);
    }
  }
}
