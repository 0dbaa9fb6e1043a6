# Operatic, modelled in Dafny

Operatic is a small Ruby library for "operations". A class that includes
`Operatic` is called with keyword arguments, which are bound to instance
variables. Its `call` method does the work and reports through a
`Success` or `Failure` result. The result wraps a `Data` object: a
symbol-keyed payload. `data_attr` can give that payload named readers and
writers, which the result forwards. `success!` and `failure!` fix the
result from the data gathered so far, merged with their keyword arguments,
and freeze the operation. Finalizing a second time raises `FrozenError`. A
body that finalizes nothing still yields a frozen `Success`.

The model has these modules:

- `Hashes`: Ruby's `Hash` as Operatic uses it. The payload is an association
  list with unique symbol keys that keeps insertion order. `h[k]` reads nil
  for a missing key, and `h[k] = v` replaces an entry in place or appends one.
  `ToMap` gives the order-free view that Ruby's hash equality compares.
- `Raising`: the three exceptions the core raises, `FrozenError`,
  `NoMethodError` and `FailureError`. An operation either completes or
  raises one of them (`Attempt`).
- `OperaticData`: `Operatic::Data` as a class whose `hash` and `frozen` fields
  change in place. A subclass made by `Data.define` is a `DataClass` object,
  and the object's identity stands for the generated Ruby class. Ruby has one
  `Operatic::Data`; every `DataClass.Base()` object stands for it, and no
  contract tells two of them apart.
- `OperaticResult`: `Result` and its `Success`/`Failure` subclasses, as one
  class with a `Status` tag.
- `Lifecycle`: a value-level specification of what an operation body does.
  The body is a sequence of steps. In `Lifecycle.Perform`, `Write` is
  `data[key] = value` (lib/operatic/data.rb:40-42), `Assign` is a generated
  writer (lib/operatic/data.rb:15-17), and `Finalize` is `failure!` or
  `success!` (lib/operatic.rb:140-143 and 157-160). `Lifecycle.Run` runs the
  steps in order until the first exception. `Lifecycle.Execute` is the class
  method `call` (lib/operatic.rb:20-24): the finalized result, or else a
  `Success` over the data. The lemmas state the library's promises about
  whole runs.
- `Operatic`: the class methods `call`, `call!`, `data_attr` and
  `data_class`, and the operation instance (inputs, `data`, `result`, frozen
  flag). The instance's methods are proved against `Lifecycle`.
- `Scenarios`: client code that replays the test suite's examples from the
  contracts alone.

The model follows the code in one place where the code is easy to misread.
`success!` and `failure!` freeze the merged copy that the result holds. They
do not freeze the operation's own `data` object. A write to `data` after
finalizing therefore succeeds, and the result does not see it
(`Lifecycle.Perform`, `Scenarios.WriteAfterSuccess`). The model also has no
requirement that inputs match a declared list exactly: the default
`initialize` accepts any keyword arguments and binds each of them.

## Model

| member | source | states |
|---|---|---|
| Hashes.Store | lib/operatic/data.rb:40-42 | `h[k] = v` keeps the key order of `h`; a new key goes last, and keys stay unique |
| Hashes.FetchStore | lib/operatic/data.rb:40-42 | after `h[k] = v`, `h[k]` reads `v` and every other key reads what it read before |
| Hashes.ToMapStore | lib/operatic/data.rb:40-42 | as an order-free hash, `h[k] = v` is a map update |
| Hashes.StoreKeys | lib/operatic/data.rb:40-42 | after `h[k] = v` the hash holds exactly its old keys and `k` |
| Hashes.StoreNew | lib/operatic/data.rb:40-42 | storing a key the hash does not hold appends exactly that entry |
| Hashes.FetchMissing | lib/operatic/data.rb:32-34 | reading a key that was never stored gives nil rather than failing |
| Hashes.StoreAllKeys | lib/operatic/data.rb:66-70 | writing `src` entry by entry keeps the target's keys in front, in place, and the keys are those of both |
| Hashes.StoreAllIntoEmpty | lib/operatic/data.rb:53-55 | copying a payload entry by entry into an empty one reproduces it, order included |
| Hashes.FetchStoreAll | lib/operatic/data.rb:53-58 | after the merge, a key of the argument reads from the argument; any other key reads from the receiver |
| Hashes.ToMapStoreAll | lib/operatic/data.rb:53-58 | as an order-free hash, the merge is the map union in which the argument wins |
| OperaticData.DataClass.Base | lib/operatic/data.rb:2 | plain `Data` declares no accessors |
| OperaticData.DataClass.Define | lib/operatic/data.rb:8-20 | a generated subclass has its parent's accessors followed by the new names |
| OperaticData.Data.constructor | lib/operatic/data.rb:23-25 | a new data object holds exactly its keyword arguments, unfrozen, in the given class |
| OperaticData.Data.Get | lib/operatic/data.rb:32-34 | `data[key]` is the payload's value for a stored key and nil for any other |
| OperaticData.Data.Set | lib/operatic/data.rb:40-42 | `data[key] = value` stores into the payload, or raises FrozenError and changes nothing once frozen |
| OperaticData.Data.Freeze | lib/operatic/data.rb:45-48 | `freeze` freezes the object together with its payload and keeps the payload's contents |
| OperaticData.Data.ToH | lib/operatic/data.rb:61-63 | `to_h` has the object's keys in order and reads every key as `data[key]` |
| OperaticData.Data.SetData | lib/operatic/data.rb:66-70 | on an unfrozen object, the payload is the old one with each entry of `src` stored in order; on a frozen one, the first write raises FrozenError, so only an empty `src` passes |
| OperaticData.Data.Merge | lib/operatic/data.rb:53-58 | `merge` makes a new unfrozen object of the receiver's class: the receiver's payload overridden by the argument, with the receiver unchanged |
| OperaticData.Data.GetAttr | lib/operatic/data.rb:11-13 | a generated reader exists exactly for declared names and reads `self[name]`; any other name raises NoMethodError |
| OperaticData.Data.SetAttr | lib/operatic/data.rb:15-17 | a generated writer exists exactly for declared names and behaves as `self[name] = value`; any other name raises NoMethodError for `name=` |
| OperaticResult.Result.constructor | lib/operatic/result.rb:7-9 | a new result wraps the given data object with the given status, unfrozen |
| OperaticResult.Result.Get | lib/operatic/result.rb:16-18 | `result[key]` reads the key from the result's data, nil when missing |
| OperaticResult.Result.ToH | lib/operatic/result.rb:88-90 | `to_h` is the data object's `to_h` and agrees with `result[key]` on every key |
| OperaticResult.Result.IsFailure | lib/operatic/result.rb:93-115 | `failure?` is the negation of `success?` and holds exactly for a `Failure` |
| OperaticResult.Result.Deconstruct | lib/operatic/result.rb:40-42 | `deconstruct` pairs the result itself, whose status it keeps, with its payload |
| OperaticResult.Result.DeconstructKeys | lib/operatic/result.rb:63-65 | `deconstruct_keys` gives the whole payload, whatever keys are asked for |
| OperaticResult.Result.Freeze | lib/operatic/result.rb:68-71 | `freeze` freezes the data object and the result and keeps the payload |
| OperaticResult.Result.Send | lib/operatic/result.rb:76-83 | `method_missing` for a reader name `Result` does not define itself: it answers exactly when the data class declares it, reading the data; otherwise it raises NoMethodError, even for a key the payload holds |
| OperaticResult.Result.SendAssign | lib/operatic/result.rb:76-79 | `method_missing` for a writer `name=`: a writer called on the result reaches the data's generated writer: NoMethodError when undeclared, FrozenError once the data is frozen, and a store otherwise |
| OperaticResult.Result.SetKey | lib/operatic/result.rb:76-79 | `result[key] = value` is forwarded to the data's `[]=`: it stores any key, declared or not, and raises FrozenError once the data is frozen, as it is on every result `call` returns |
| OperaticResult.Result.MergeData | lib/operatic/result.rb:76-79 | `result.merge(hash)` is forwarded to the data's `merge`: a new unfrozen data object of the data's class, the argument winning, with the result and its data unchanged |
| Lifecycle.AutoSuccess | lib/operatic.rb:20-24 | a body that neither finalizes nor raises gives a `Success` over exactly the data it wrote, and `{}` when it wrote nothing |
| Lifecycle.FinalizeMerges | lib/operatic.rb:140-143 | after `success!`/`failure!`, the outcome has that status and the data written before it merged with the keyword arguments; writes after it do not reach the outcome |
| Lifecycle.FinalizeOverridesWin | lib/operatic.rb:157-160 | each key of the finalized payload reads from the keyword arguments when they hold it, and from the data written before otherwise |
| Lifecycle.RunKeepsResult | lib/operatic.rb:146-149 | once finalized, an operation stays finalized; with no undeclared writer, the only exception is FrozenError |
| Lifecycle.SecondFinalizeRaises | lib/operatic.rb:134-143 | finalizing twice raises, in any order of `success!`/`failure!`; it raises FrozenError when no undeclared writer comes before the second |
| Operatic.OperationClass.constructor | lib/operatic.rb:8-10 | a class that includes `Operatic` starts with no declared data class |
| Operatic.OperationClass.DataAttr | lib/operatic.rb:63-65 | `data_attr` installs a fresh `Data` subclass with exactly the named accessors for this class, leaving other classes untouched |
| Operatic.OperationClass.ResolvedDataClass | lib/operatic.rb:68-70 | `data_class` is the declared class when there is one, plain `Data` otherwise |
| Operatic.OperationClass.Call | lib/operatic.rb:20-24 | `call` raises what the body's run raises; otherwise it returns a fresh, frozen result over frozen data of the class's data class, with the status and payload `Lifecycle.Execute` specifies |
| Operatic.OperationClass.CallStrict | lib/operatic.rb:35-39 | `call!` is `call`, except that a `Failure` outcome raises FailureError |
| Operatic.Operation.constructor | lib/operatic.rb:77-81 | `initialize` binds every input under its own name, with no data and no result yet |
| Operatic.Operation.EnsureData | lib/operatic.rb:130-132 | `data` is created empty, of the class's data class, on first use, and is the same object on every later use |
| Operatic.Operation.Freeze | lib/operatic.rb:146-149 | `freeze` freezes the result and its data, when there is a result, and then the operation |
| Operatic.Operation.Finish | lib/operatic.rb:157-160 | `success!`/`failure!` performs the `Finalize` step of `Lifecycle.Perform`: a new frozen result over a merged copy, or FrozenError when already frozen |
| Operatic.Operation.PerformStep | lib/operatic.rb:108-109 | each statement of the body changes the operation's state as `Lifecycle.Perform` specifies, or raises the same exception |
| Operatic.Operation.CallBody | lib/operatic.rb:108-109 | running the body leaves the operation in the state `Lifecycle.Run` specifies, or returns the exception the run raises |

## Left out

- OperaticData.DataClass.Define: a declared name that `Data` itself defines (`[]`, `[]=`, `freeze`, `merge`, `to_h`) replaces that method in the generated subclass in Ruby. With `data_attr :freeze`, for example, the data of a finished result is never frozen, and with `data_attr :merge`, `success!`/`failure!` raise ArgumentError. The model keeps `Data`'s own methods, so `Call`, `Finish`, `Result.Freeze` and `Result.SetKey` state the behaviour for names that do not clash.
- Ruby metaprogramming in general is not modelled. `Data.define` is modelled only as the list of names that get a reader `name` and a writer `name=`.
- OperaticResult.Result.Send: it models `method_missing` only. A declared accessor whose name `Result` or `Object` already defines (for example `data`, `to_h`, `freeze` or `class`) is answered by that method in Ruby and never reaches `method_missing`; the model does not capture this.
- Of `Data`'s own public methods, `Result` lacks only `[]=` and `merge`, so only those two reach `method_missing`; they are modelled as `OperaticResult.Result.SetKey` and `OperaticResult.Result.MergeData`. `respond_to?` answering true for them is not modelled.
- A bare `Operatic::Result.new(data)`, which has neither `success?` nor `failure?`, is not represented: every model result is a `Success` or a `Failure`. The library itself only ever builds those two (lib/operatic.rb:23, 141, 158).
- Blocks, positional arguments and extra keyword arguments passed to a forwarded method are not modelled.
- A non-keyword argument to `call` (Ruby's ArgumentError) is not modelled; inputs are always a symbol-keyed hash.
- An operation class that overrides `initialize` is not modelled, and neither is an input key that is not a valid instance-variable name (Ruby's NameError).
- Inputs named `data` or `result` would overwrite `@data`/`@result` in Ruby. The model keeps inputs apart from those two fields.
- The body is modelled as a script of steps chosen from the bound inputs (`Hash -> seq<Step>`). A body that reads its data back in the middle of its run and branches on it is not modelled.
- Exceptions that the body raises itself, and any exception other than FrozenError, NoMethodError and FailureError, are not modelled.
- OperaticData.Data.ToH: Ruby's `to_h` returns the live payload hash. Later mutation through that alias is not modelled, because the model returns the payload as a value.
- A body that calls `freeze` on the operation directly, outside `success!`/`failure!`, is not modelled.
- Values stored in a payload are modelled as nil, booleans, integers, strings and symbols; arbitrary Ruby objects are not.
- `lib/operatic/errors.rb` and `lib/operatic/version.rb` are not part of this model. `FailureError` appears only as an exception tag.
