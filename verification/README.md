# GenericDispatcher in Dafny

A model of `svh::AnyDispatcher`, a first-match-wins dispatcher over an ordered
list of implementation providers, and of the `MyLogger` example built on it.

In C++ the whole mechanism runs inside the compiler: `svh::has_impl` probes
whether `Impl<T, Args...>::Run(const T&, Args...)` is well formed, and
`AnyDispatcher<First, Rest...>::Run` uses `First` when the probe succeeds and
recurses on `Rest...` otherwise. The empty dispatcher `AnyDispatcher<>` turns
any call into a build error. The model keeps the selection rule and drops the
compiler. "Does not compile" becomes the `None` of an `Option`.

Files and modules:

- `wrappers.dfy` (`Wrappers`): the `Option` type.
- `impl_probe.dfy` (`ImplProbe`): signatures (`Sig`: a value type and the list
  of auxiliary argument types), provider templates (`Template`: an empty or a
  forwarding primary body, plus explicit specializations mapped to the
  parameter types of the `Run` they declare), and the probe `HasImpl`.
- `any_dispatcher.dfy` (`AnyDispatcher`): `Resolve` (which provider the chain
  collapses to) and `Dispatch` (what the call returns), with the first-match,
  failure and overriding lemmas. Providers are names of a type `P`. `decl`
  gives each name's template. `run` gives what that provider's `Run` returns
  on the call's value and arguments, and it is only defined where the probe
  succeeds.
- `decimal.dfy` (`Decimal`): `std::to_string(int)` as `IntToString`, with a
  parser `ParseInt` as its partner and round trips in both directions.
- `my_logger.dfy` (`MyLogger`): the three tiers `user_impl`, `library_impl`
  and `fallback_impl`, their specializations, `LoggerDispatcher` and `Log`,
  including the user's `bool` override and the composite `MyStruct` whose
  `Run` logs each field through `Log` again.

## Model

| member | source | states |
|---|---|---|
| `ImplProbe.HasImplSignatureExact` | svh/GenericDispatcher.hpp:12-35 | The probe at a signature depends only on the primary body and on the specialization written for exactly that signature. Two templates that agree on those give the same answer there, whatever else they declare. |
| `ImplProbe.Specialize` | solution/GenericDispatcher/Main.cpp:34-47 | The signature must not be specialized yet, since a second specialization would be a redefinition. The new specialization makes the probe succeed at its own signature iff its `Run` has the call's shape. The probe at every other signature is unchanged. |
| `ImplProbe.UnspecializedHasNoImpl` | svh/GenericDispatcher.hpp:26-31 | An unspecialized template with an empty primary body fails the probe at every signature. |
| `ImplProbe.WrongShapeHasNoImpl` | svh/GenericDispatcher.hpp:16-28 | A specialization whose `Run` has another arity or other parameter types makes the probe false, not an error. |
| `ImplProbe.ForwardingIsUniversal` | solution/GenericDispatcher/Main.cpp:13-20 | A forwarding primary template, with every specialization keeping the forwarding shape, passes the probe at every signature. |
| `AnyDispatcher.Resolve` | svh/GenericDispatcher.hpp:52-66 | The result is the lowest position whose provider passes the probe, with every earlier provider failing it. It is `None` exactly when no provider passes. |
| `AnyDispatcher.Dispatch` | svh/GenericDispatcher.hpp:42-67 | Dispatch fails exactly when no provider of the list has an implementation. Otherwise it returns the `Run` of the provider `Resolve` selects, on the same value and arguments. |
| `AnyDispatcher.FirstMatchUnique` | svh/GenericDispatcher.hpp:52-66 | At most one position is the highest-priority match, so the selection is unique. |
| `AnyDispatcher.DispatchEmptyFails` | svh/GenericDispatcher.hpp:42-49 | The empty dispatcher fails for every signature. |
| `AnyDispatcher.DispatchIgnoresLater` | svh/GenericDispatcher.hpp:52-66 | Take the first match at position i. Any list with the same first i+1 providers dispatches to that provider's result, whatever follows. |
| `AnyDispatcher.DispatchPrependMatching` | svh/GenericDispatcher.hpp:59-61 | A provider put in front that matches the signature wins: the result is its `Run`. |
| `AnyDispatcher.DispatchPrependNonMatching` | svh/GenericDispatcher.hpp:62-64 | A provider put in front that does not match leaves the result of the rest unchanged. |
| `AnyDispatcher.DispatchAppend` | svh/GenericDispatcher.hpp:52-66 | For a concatenated list `front + back`, `front` decides whenever it succeeds. Otherwise `back` decides. |
| `AnyDispatcher.UniversalLastNeverFails` | svh/GenericDispatcher.hpp:42-67 | A list whose last provider matches every signature never reaches the empty-list failure. |
| `Decimal.NatToString` | solution/GenericDispatcher/Main.cpp:37-39 | The digits of a natural number have no leading zero, and they parse back to the number. |
| `Decimal.IntToString` | solution/GenericDispatcher/Main.cpp:37-39 | `std::to_string(int)` parses back to the same integer. It starts with '-' iff the value is negative, and the digits are canonical. |
| `Decimal.NatToStringOfParse` | solution/GenericDispatcher/Main.cpp:37-39 | Printing the number a canonical digit string denotes gives that string back. |
| `Decimal.IntToStringOfParse` | solution/GenericDispatcher/Main.cpp:37-39 | Every canonical decimal text is `IntToString` of the integer it denotes. With `IntToString`'s own contract this is a bijection. |
| `MyLogger.Rank` | solution/GenericDispatcher/Main.cpp:22-26 | Each tier sits at its position in `LoggerDispatcher`: user, then library, then fallback. |
| `MyLogger.Selected` | solution/GenericDispatcher/Main.cpp:22-26 | The chosen tier has an implementation for the signature, and no higher-priority tier has one. |
| `MyLogger.ResolveLogger` | solution/GenericDispatcher/Main.cpp:22-26 | For every signature, the dispatcher over `LoggerDispatcher` picks exactly the tier `Selected` names, so it never fails. |
| `MyLogger.LogWith` | solution/GenericDispatcher/Main.cpp:22-30 | The logger's templates dispatched over any tier list compile iff some tier of that list has an implementation. |
| `MyLogger.Log` | solution/GenericDispatcher/Main.cpp:28-31 | `Log` always resolves, and it returns the `Run` of the tier `Selected` picks for the call's signature. |
| `MyLogger.UserSignatures` | solution/GenericDispatcher/Main.cpp:50-78 | `user_impl` has an implementation exactly for `bool` and `MyStruct` with no auxiliary arguments. |
| `MyLogger.LibrarySignatures` | solution/GenericDispatcher/Main.cpp:34-47 | `library_impl` has an implementation exactly for `int` and `bool` with no auxiliary arguments. |
| `MyLogger.FallbackIsUniversal` | solution/GenericDispatcher/Main.cpp:13-20 | `fallback_impl` has an implementation for every type and argument list. |
| `MyLogger.LogInt` | solution/GenericDispatcher/Main.cpp:35-40 | `Log(int)` is served by the library. Its output is canonical decimal text that parses back to the value. |
| `MyLogger.LogIntExample` | solution/GenericDispatcher/Main.cpp:82-83 | `Log(42)` is "42". |
| `MyLogger.LogBool` | solution/GenericDispatcher/Main.cpp:42-58 | `Log(bool)` is served by the user's override and prints "yes"/"no". The library's specialization still exists, and without the user tier in front it would print "true"/"false". |
| `MyLogger.LogBoolExample` | solution/GenericDispatcher/Main.cpp:85-86 | `Log(true)` is "yes". |
| `MyLogger.LogFloat` | solution/GenericDispatcher/Main.cpp:13-16 | `Log(float)` is served by the fallback and prints "{Uknow Type}". |
| `MyLogger.LogOther` | solution/GenericDispatcher/Main.cpp:7-20 | A value of any type neither `user_impl` nor `library_impl` specializes (a `double`, a `char`, a `std::string`, ...) is served by the fallback and prints "{Uknow Type}". |
| `MyLogger.LogFloatExample` | solution/GenericDispatcher/Main.cpp:88-89 | `Log(3.14f)` is "{Uknow Type}". |
| `MyLogger.LogMyStruct` | solution/GenericDispatcher/Main.cpp:69-78 | `Log(MyStruct)` is served by the user and is "MyStruct(" + `Log` of each field, separated by ", ", + ")". |
| `MyLogger.LogMyStructFields` | solution/GenericDispatcher/Main.cpp:72-76 | Each field resolves on its own: the `int` through the library's decimal text, the `bool` through the user's "yes"/"no", the `float` through the fallback. |
| `MyLogger.LogMyStructExample` | solution/GenericDispatcher/Main.cpp:91-92 | `Log(MyStruct{1, false, 2.718f})` is "MyStruct(1, no, {Uknow Type})". |
| `MyLogger.ExtraArgsUseFallback` | solution/GenericDispatcher/Main.cpp:35-58 | The library and user specializations take no auxiliary arguments. A call with extra arguments skips them and prints the fallback's "{Uknow Type}". |

## Left out

- The console I/O of `main` (printing and waiting for Enter) is not modelled. It has no behaviour to verify. Each of its four `Log` calls appears as a `Log...Example` lemma: `Log(42)`, `Log(true)`, `Log(3.14f)` and `Log(myStruct)`.
- The C++ mechanics of the probe are not modelled: SFINAE, `decltype`/`std::declval`, `if constexpr`, template instantiation and the `always_false` trick. The probe is computed from each template's declarations, and a build failure is `None`.
- The probe does not model implicit conversions or overload resolution. A `Run` parameter accepts exactly its own type, and a class declares at most one `Run`. Partial specializations, a primary body with a fixed-arity `Run`, a `Run` with default arguments and a templated `Run` cannot be expressed either. None of these occurs in the program.
- The probe does not model value categories and `std::forward`. In C++, an lvalue auxiliary argument is deduced as a reference type. In the model, auxiliary arguments are plain values whose types are their type tags.
- Floats are not formatted. A `float` is kept as a real number and only ever reaches the fallback's constant text.
- The commented-out `static_assert` alternative in `fallback_impl` is not modelled, because it is not compiled.
- The serializer example of the repository is not part of this model.
