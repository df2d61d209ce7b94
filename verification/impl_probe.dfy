/** The capability probe `svh::has_impl`: does the provider template `Impl`,
    instantiated at a signature (T, Args...), declare a static `Run` that accepts
    `(const T&, Args&&...)`?  The answer is a plain boolean; a missing
    specialization or a `Run` of the wrong shape gives `false`, never an error. */
module ImplProbe {

  import opened Wrappers

  /** The signature a call is resolved against: the value's type and the types
      of the auxiliary arguments, in order. */
  datatype Sig<Ty> = Sig(value: Ty, aux: seq<Ty>)

  /** The body of a provider's primary template: either empty (`struct X {};`,
      as `user_impl` and `library_impl`) or one whose `Run(const T&, Args&&...)`
      follows the template arguments (as `fallback_impl`). */
  datatype Primary = NoRun | ForwardingRun

  /** A provider template: its primary body and its explicit specializations,
      each mapping the template arguments it is written for to the parameter
      types of the `Run` it declares. */
  datatype Template<Ty(==)> = Template(primary: Primary, specializations: map<Sig<Ty>, seq<Ty>>)

  /** The argument types of the probing call `Run(declval<const T&>(), declval<Args>()...)`. */
  function CallTypes<Ty>(sig: Sig<Ty>): seq<Ty>
  {
    [sig.value] + sig.aux
  }

  /** The parameter types of `Run` in the class `Impl<T, Args...>`, or `None`
      when that class declares no `Run`. An explicit specialization for exactly
      these template arguments is chosen over the primary template. */
  function RunParams<Ty(==)>(t: Template<Ty>, sig: Sig<Ty>): Option<seq<Ty>>
  {
    if sig in t.specializations then Some(t.specializations[sig])
    else if t.primary == ForwardingRun then Some(CallTypes(sig))
    else None
  }

  /** `has_impl_v<Impl, T, Args...>`: the probing call is well formed. */
  predicate HasImpl<Ty(==)>(t: Template<Ty>, sig: Sig<Ty>)
  {
    RunParams(t, sig) == Some(CallTypes(sig))
  }

  /** The probe is signature-exact: two templates with the same primary body
      that agree on the specialization written for exactly `sig` (both lack
      one, or both declare the same `Run` parameters) give the same answer at
      `sig`, whatever they declare for any other signature. */
  lemma HasImplSignatureExact<Ty>(t: Template<Ty>, t': Template<Ty>, sig: Sig<Ty>)
    requires t.primary == t'.primary
    requires sig in t.specializations <==> sig in t'.specializations
    requires sig in t.specializations ==> t.specializations[sig] == t'.specializations[sig]
    ensures HasImpl(t, sig) <==> HasImpl(t', sig)
  {
  }

  /** A template whose probe succeeds at every signature. */
  ghost predicate Universal<Ty(!new)>(t: Template<Ty>)
  {
    forall sig :: HasImpl(t, sig)
  }

  /** Declaring `template<> struct Impl<T, Args...> { static R Run(params); };`.
      A second explicit specialization for the same arguments would be a
      redefinition, so the signature must not be specialized yet. */
  function Specialize<Ty(==,!new)>(t: Template<Ty>, sig: Sig<Ty>, params: seq<Ty>): (t': Template<Ty>)
    requires sig !in t.specializations
    ensures t'.primary == t.primary
    ensures HasImpl(t', sig) <==> params == CallTypes(sig)
    ensures forall s :: s != sig ==> (HasImpl(t', s) <==> HasImpl(t, s))
  {
    Template(t.primary, t.specializations[sig := params])
  }

  /** An unspecialized template with an empty primary body has no `Run` at all. */
  lemma UnspecializedHasNoImpl<Ty>(sig: Sig<Ty>)
    ensures !HasImpl(Template(NoRun, map[]), sig)
  {
  }

  /** A specialization written for the right template arguments but whose `Run`
      has another arity or other parameter types is skipped, not an error. */
  lemma WrongShapeHasNoImpl<Ty>(t: Template<Ty>, sig: Sig<Ty>)
    requires sig in t.specializations
    requires t.specializations[sig] != CallTypes(sig)
    ensures !HasImpl(t, sig)
  {
  }

  /** A forwarding primary template whose specializations all keep the
      forwarding shape matches every signature. */
  lemma ForwardingIsUniversal<Ty(!new)>(t: Template<Ty>)
    requires t.primary == ForwardingRun
    requires forall s :: s in t.specializations ==> t.specializations[s] == CallTypes(s)
    ensures Universal(t)
  {
  }
}
