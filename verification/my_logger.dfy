/** The example logger `MyLogger`: a dispatcher over three provider tiers,
    user overrides first, then the library's implementations, then a fallback
    that accepts every type. The user overrides `bool` and adds a composite
    type whose `Run` logs each field through the same dispatcher. */
module MyLogger {

  import opened Wrappers
  import opened ImplProbe
  import opened AnyDispatcher
  import opened Decimal

  /** C++ `int` (32 bits). */
  newtype Int32 = x: int | -0x8000_0000 <= x < 0x8000_0000

  /** The types the example logs, and `OtherT` for any other C++ type (a
      `double`, a `char`, a `std::string`, ...), named by its spelling. */
  datatype TypeTag = IntT | BoolT | FloatT | MyStructT | OtherT(name: string)

  /** `struct MyStruct { int a; bool b; float c; }`; a float's value is kept as
      a real and is never formatted. */
  datatype MyStruct = MyStruct(a: Int32, b: bool, c: real)

  /** A value handed to `Log`, tagged with its static type. */
  datatype Value =
    | IntV(i: Int32) | BoolV(b: bool) | FloatV(f: real) | MyStructV(s: MyStruct)
    | OtherV(typeName: string)  // a value of a type no template specializes; its contents are never read

  function TypeOf(v: Value): TypeTag
  {
    match v
    case IntV(_) => IntT
    case BoolV(_) => BoolT
    case FloatV(_) => FloatT
    case MyStructV(_) => MyStructT
    case OtherV(name) => OtherT(name)
  }

  /** The signature `Log(value, args...)` is resolved against. */
  function SigOf(v: Value, args: seq<Value>): Sig<TypeTag>
  {
    Sig(TypeOf(v), seq(|args|, i requires 0 <= i < |args| => TypeOf(args[i])))
  }

  /** The provider templates `user_impl`, `library_impl` and `fallback_impl`. */
  datatype Tier = User | Library | Fallback

  /** `LoggerDispatcher = AnyDispatcher<user_impl, library_impl, fallback_impl>`. */
  const LoggerDispatcher: seq<Tier> := [User, Library, Fallback]

  /** The position of each tier in `LoggerDispatcher`. */
  function Rank(t: Tier): (k: nat)
    ensures k < |LoggerDispatcher| && LoggerDispatcher[k] == t
  {
    match t
    case User => 0
    case Library => 1
    case Fallback => 2
  }

  /** What each template declares: `user_impl` and `library_impl` have empty
      primary bodies and one-parameter specializations, `fallback_impl` has a
      forwarding `Run` for every type and argument list. */
  function Decl(t: Tier): Template<TypeTag>
  {
    var none := Template(NoRun, map[]);
    match t
    case User => Specialize(Specialize(none, Sig(BoolT, []), [BoolT]), Sig(MyStructT, []), [MyStructT])
    case Library => Specialize(Specialize(none, Sig(IntT, []), [IntT]), Sig(BoolT, []), [BoolT])
    case Fallback => Template(ForwardingRun, map[])
  }

  /** `library_impl<int>::Run`. */
  function LibraryIntRun(value: Int32): string
  {
    IntToString(value as int)
  }

  /** `library_impl<bool>::Run`. */
  function LibraryBoolRun(value: bool): string
  {
    if value then "true" else "false"
  }

  /** `user_impl<bool>::Run`, the user's override of the library's `bool`. */
  function UserBoolRun(value: bool): string
  {
    if value then "yes" else "no"
  }

  /** `fallback_impl<T, Args...>::Run` (the misspelling is the program's). */
  function FallbackRun(value: Value, args: seq<Value>): string
  {
    "{Uknow Type}"
  }

  /** Nesting depth of a value, which bounds the recursion of `Log` through
      `user_impl<MyStruct>::Run`. */
  function Depth(v: Value): nat
  {
    if v.MyStructV? then 1 else 0
  }

  /** `user_impl<MyStruct>::Run`: each field is logged by `Log` itself. */
  function UserMyStructRun(value: MyStruct): string
    decreases 1, 0
  {
    "MyStruct(" + Log(IntV(value.a), []) + ", " + Log(BoolV(value.b), []) + ", "
      + Log(FloatV(value.c), []) + ")"
  }

  /** The `Run` of the specialization of tier `t` that the signature of
      `(v, args)` selects; only defined where that specialization exists. */
  function Run(t: Tier, v: Value, args: seq<Value>): string
    requires HasImpl(Decl(t), SigOf(v, args))
    decreases Depth(v), 1
  {
    match t
    case User =>
      (match v
       case BoolV(b) => UserBoolRun(b)
       case MyStructV(s) => UserMyStructRun(s))
    case Library =>
      (match v
       case IntV(n) => LibraryIntRun(n)
       case BoolV(b) => LibraryBoolRun(b))
    case Fallback => FallbackRun(v, args)
  }

  /** The tier the comments of `LoggerDispatcher` describe: the user's if it
      has an implementation, else the library's if it has one, else the
      fallback. */
  function Selected(sig: Sig<TypeTag>): (t: Tier)
    ensures HasImpl(Decl(t), sig)
    ensures forall u :: Rank(u) < Rank(t) ==> !HasImpl(Decl(u), sig)
  {
    if HasImpl(Decl(User), sig) then User
    else if HasImpl(Decl(Library), sig) then Library
    else Fallback
  }

  /** The dispatcher picks exactly the tier `Selected` names, for every
      signature; in particular it never reaches the empty-list failure. */
  lemma ResolveLogger(sig: Sig<TypeTag>)
    ensures Resolve(LoggerDispatcher, Decl, sig) == Some(Rank(Selected(sig)))
  {
  }

  /** `AnyDispatcher<tiers...>::Run(v, args...)` over the logger's templates:
      `None` when the call would not compile. */
  function LogWith(tiers: seq<Tier>, v: Value, args: seq<Value>): (r: Option<string>)
    ensures r.Some? <==> exists i :: 0 <= i < |tiers| && HasImpl(Decl(tiers[i]), SigOf(v, args))
    decreases Depth(v), 2
  {
    var sig := SigOf(v, args);
    Dispatch(tiers, Decl, sig, t requires HasImpl(Decl(t), sig) => Run(t, v, args))
  }

  /** `MyLogger::Log(value, args...)`: dispatch over `LoggerDispatcher`, which
      always compiles and runs the tier `Selected` names. */
  function Log(v: Value, args: seq<Value>): (s: string)
    ensures s == Run(Selected(SigOf(v, args)), v, args)
    decreases Depth(v), 3
  {
    var sig := SigOf(v, args);
    var r := LogWith(LoggerDispatcher, v, args);
    assert r == Some(Run(Selected(sig), v, args)) by {
      ResolveLogger(sig);
    }
    r.value
  }

  /** `user_impl` has an implementation exactly for `bool` and `MyStruct`,
      each without auxiliary arguments. */
  lemma UserSignatures(sig: Sig<TypeTag>)
    ensures HasImpl(Decl(User), sig) <==> sig == Sig(BoolT, []) || sig == Sig(MyStructT, [])
  {
  }

  /** `library_impl` has an implementation exactly for `int` and `bool`, each
      without auxiliary arguments. */
  lemma LibrarySignatures(sig: Sig<TypeTag>)
    ensures HasImpl(Decl(Library), sig) <==> sig == Sig(IntT, []) || sig == Sig(BoolT, [])
  {
  }

  /** `fallback_impl` has a `Run` for every type and argument list. */
  lemma FallbackIsUniversal()
    ensures Universal(Decl(Fallback))
  {
  }

  /** `Log(int)` resolves to `library_impl<int>` and prints the value in
      decimal, exactly as `std::to_string` would. */
  lemma LogInt(n: Int32)
    ensures Selected(SigOf(IntV(n), [])) == Library
    ensures ParseInt(Log(IntV(n), [])) == Some(n as int)
    ensures IsCanonicalInt(Log(IntV(n), []))
    ensures Log(IntV(n), []) == IntToString(n as int)
  {
    UserSignatures(SigOf(IntV(n), []));
    LibrarySignatures(SigOf(IntV(n), []));
  }

  lemma LogIntExample()
    ensures Log(IntV(42), []) == "42"
  {
    LogInt(42);
    assert IntToString(42) == NatToString(4) + ['2'];
  }

  /** `Log(bool)` resolves to the user's override and prints "yes"/"no"; the
      library's specialization still exists and, without the user tier in
      front, would print "true"/"false". */
  lemma LogBool(b: bool)
    ensures Selected(SigOf(BoolV(b), [])) == User
    ensures Log(BoolV(b), []) == (if b then "yes" else "no")
    ensures HasImpl(Decl(Library), SigOf(BoolV(b), []))
    ensures LogWith([Library, Fallback], BoolV(b), []) == Some(if b then "true" else "false")
  {
    UserSignatures(SigOf(BoolV(b), []));
    LibrarySignatures(SigOf(BoolV(b), []));
  }

  lemma LogBoolExample()
    ensures Log(BoolV(true), []) == "yes"
  {
    LogBool(true);
  }

  /** `Log(float)` matches only the fallback. */
  lemma LogFloat(x: real)
    ensures Selected(SigOf(FloatV(x), [])) == Fallback
    ensures Log(FloatV(x), []) == "{Uknow Type}"
  {
  }

  lemma LogFloatExample()
    ensures Log(FloatV(3.14), []) == "{Uknow Type}"
  {
    LogFloat(3.14);
  }

  /** A value of any type neither `user_impl` nor `library_impl` specializes
      is logged by the fallback. */
  lemma LogOther(name: string)
    ensures Selected(SigOf(OtherV(name), [])) == Fallback
    ensures Log(OtherV(name), []) == "{Uknow Type}"
  {
    UserSignatures(SigOf(OtherV(name), []));
    LibrarySignatures(SigOf(OtherV(name), []));
  }

  /** `Log(MyStruct)` resolves to the user's implementation, which logs each
      field through the dispatcher again. */
  lemma LogMyStruct(m: MyStruct)
    ensures Selected(SigOf(MyStructV(m), [])) == User
    ensures Log(MyStructV(m), []) ==
            "MyStruct(" + Log(IntV(m.a), []) + ", " + Log(BoolV(m.b), []) + ", " + Log(FloatV(m.c), []) + ")"
  {
    UserSignatures(SigOf(MyStructV(m), []));
    assert Selected(SigOf(MyStructV(m), [])) == User;
    assert Log(MyStructV(m), []) == UserMyStructRun(m);
  }

  /** Each field of a `MyStruct` is resolved on its own: the `int` by the
      library, the `bool` by the user's override, the `float` by the fallback. */
  lemma LogMyStructFields(m: MyStruct)
    ensures Log(MyStructV(m), []) ==
            "MyStruct(" + IntToString(m.a as int) + ", " + (if m.b then "yes" else "no") + ", " + "{Uknow Type}" + ")"
  {
    LogMyStruct(m);
    LogInt(m.a);
    LogBool(m.b);
    LogFloat(m.c);
  }

  lemma LogMyStructExample()
    ensures Log(MyStructV(MyStruct(1, false, 2.718)), []) == "MyStruct(1, no, {Uknow Type})"
  {
    var m := MyStruct(1, false, 2.718);
    assert Log(MyStructV(m), []) == "MyStruct(" + "1" + ", " + "no" + ", " + "{Uknow Type}" + ")" by {
      LogMyStructFields(m);
      assert IntToString(1) == "1";
    }
    ExampleText();
  }

  /** Helper for `LogMyStructExample`: joins the literal pieces in a lemma of
      its own, which keeps that proof within the resource limit. */
  lemma ExampleText()
    ensures "MyStruct(" + "1" + ", " + "no" + ", " + "{Uknow Type}" + ")" == "MyStruct(1, no, {Uknow Type})"
  {
  }

  /** The library and user specializations take no auxiliary arguments, so a
      call with extra arguments skips them and ends at the fallback. */
  lemma ExtraArgsUseFallback(v: Value, args: seq<Value>)
    requires |args| > 0
    ensures Selected(SigOf(v, args)) == Fallback
    ensures Log(v, args) == "{Uknow Type}"
  {
  }
}
