/** `Operatic::Data`: a mutable symbol-keyed payload, and the subclasses
    `Data.define` makes to give some of its keys named accessors. */
module OperaticData {
  import opened Hashes
  import opened Raising

  /** `Operatic::Data` or one of the subclasses `Data.define` generates. Two
      classes are the same class exactly when they are the same object; what a
      class adds is the list of names that get a reader and a writer. */
  class DataClass {
    const accessors: seq<Symbol>

    /** `Operatic::Data` itself, which declares no accessors. */
    constructor Base()
      ensures accessors == []
    {
      accessors := [];
    }

    /** `parent.define(*attrs)`: a new subclass of `parent` that adds a reader and
        a writer for each name of `attrs` to those it inherits. */
    constructor Define(parent: DataClass, attrs: seq<Symbol>)
      ensures accessors == parent.accessors + attrs
    {
      accessors := parent.accessors + attrs;
    }

    /** Whether instances of this class respond to the reader `name` (and the writer `name=`). */
    predicate Declares(name: Symbol) {
      name in accessors
    }
  }

  class Data {
    const klass: DataClass
    var hash: Hash
    var frozen: bool   // `freeze` freezes the object and the hash it holds, together

    /** `klass.new(**kwargs)`: the payload is the keyword arguments. */
    constructor (klass: DataClass, kwargs: Hash)
      ensures this.klass == klass && hash == kwargs && !frozen
    {
      this.klass := klass;
      hash := kwargs;
      frozen := false;
    }

    /** `data[key]`: never raises; a key that was never written reads as nil. */
    function Get(key: Symbol): (v: Value)
      reads this
      ensures key !in Keys(hash) ==> v == Nil
      ensures key in Keys(hash) ==> v == ToMap(hash)[key]
    {
      if key in Keys(hash) then Fetch(hash, key)
      else FetchMissing(hash, key); Fetch(hash, key)
    }

    /** `data[key] = value`: stores into the payload, or raises FrozenError once frozen. */
    method Set(key: Symbol, value: Value) returns (err: Option<Error>)
      modifies this
      ensures frozen == old(frozen)
      ensures old(frozen) ==> err == Some(FrozenError) && hash == old(hash)
      ensures !old(frozen) ==> err == None && hash == Store(old(hash), key, value)
    {
      if frozen {
        return Some(FrozenError);
      }
      hash := Store(hash, key, value);
      return None;
    }

    /** `freeze`: every later write raises; the payload stays as it is. */
    method Freeze()
      modifies this
      ensures frozen && hash == old(hash)
    {
      frozen := true;
    }

    /** `to_h`: the payload itself, entries in insertion order. */
    function ToH(): (h: Hash)
      reads this
      ensures forall k :: Fetch(h, k) == Get(k)
      ensures Keys(h) == Keys(hash)
    {
      hash
    }

    /** `set_data(src)`: writes the entries of `src` one by one, in order. The
        first write into a frozen payload raises, so an empty `src` never does. */
    method SetData(src: Hash) returns (err: Option<Error>)
      modifies this
      ensures frozen == old(frozen)
      ensures old(frozen) && src != [] ==> err == Some(FrozenError) && hash == old(hash)
      ensures !(old(frozen) && src != []) ==> err == None && hash == StoreAll(old(hash), src)
    {
      var i := 0;
      while i < |src|
        invariant 0 <= i <= |src|
        invariant frozen == old(frozen)
        invariant old(frozen) ==> i == 0 && hash == old(hash)
        invariant hash == StoreAll(old(hash), src[..i])
      {
        if frozen {
          return Some(FrozenError);
        }
        assert src[..i + 1][..i] == src[..i];
        hash := Store(hash, src[i].0, src[i].1);
        i := i + 1;
      }
      assert src[..i] == src;
      return None;
    }

    /** `merge(other)`: a new, unfrozen object of the same class whose payload is
        this payload overridden by `other`; the receiver is not changed. */
    method Merge(other: Hash) returns (d: Data)
      ensures fresh(d) && d.klass == klass && !d.frozen
      ensures d.hash == StoreAll(hash, other)
    {
      d := new Data(klass, []);
      var _ := d.SetData(hash);
      var _ := d.SetData(other);
      StoreAllIntoEmpty(hash);
    }

    /** The reader `name` that `Data.define` generates: `self[name]`, for a declared
        name only; any other name is not a method of this object. */
    function GetAttr(name: Symbol): (r: Attempt<Value>)
      reads this
      ensures r.Ok? <==> klass.Declares(name)
      ensures r.Ok? ==> r.value == Get(name)
      ensures r.Raised? ==> r.error == NoMethodError(name)
    {
      if klass.Declares(name) then Ok(Get(name)) else Raised(NoMethodError(name))
    }

    /** The writer `name=` that `Data.define` generates: `self[name] = value`, for a
        declared name only. */
    method SetAttr(name: Symbol, value: Value) returns (err: Option<Error>)
      modifies this
      ensures frozen == old(frozen)
      ensures !klass.Declares(name) ==> err == Some(NoMethodError(name + "=")) && hash == old(hash)
      ensures klass.Declares(name) && old(frozen) ==> err == Some(FrozenError) && hash == old(hash)
      ensures klass.Declares(name) && !old(frozen) ==> err == None && hash == Store(old(hash), name, value)
    {
      if !klass.Declares(name) {
        return Some(NoMethodError(name + "="));
      }
      err := Set(name, value);
    }
  }
}
