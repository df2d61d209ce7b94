/** The ordered dispatcher `svh::AnyDispatcher<Impls...>`: try the providers in
    list order and hand the call to the first one whose probe succeeds; an
    exhausted list means the call does not compile.

    A provider is named by a value of type `P`; `decl` gives the declarations
    of its template (which decide the probe), and `run` gives, for the call at
    hand, what that provider's `Run` returns on the call's value and arguments.
    `run` need only be defined for providers whose probe succeeds. */
module AnyDispatcher {

  import opened Wrappers
  import opened ImplProbe

  /** Index `i` holds the highest-priority provider with an implementation. */
  ghost predicate IsFirstMatch<P, Ty>(impls: seq<P>, decl: P -> Template<Ty>, sig: Sig<Ty>, i: int)
  {
    && 0 <= i < |impls|
    && HasImpl(decl(impls[i]), sig)
    && forall j :: 0 <= j < i ==> !HasImpl(decl(impls[j]), sig)
  }

  /** `run` is defined for every provider whose probe succeeds. */
  ghost predicate RunDefined<P(!new), Ty, R>(decl: P -> Template<Ty>, sig: Sig<Ty>, run: P --> R)
  {
    forall p :: HasImpl(decl(p), sig) ==> run.requires(p)
  }

  /** There is at most one highest-priority match. */
  lemma FirstMatchUnique<P, Ty>(impls: seq<P>, decl: P -> Template<Ty>, sig: Sig<Ty>, i: int, j: int)
    requires IsFirstMatch(impls, decl, sig, i) && IsFirstMatch(impls, decl, sig, j)
    ensures i == j
  {
  }

  /** No provider of the list has an implementation for the signature. */
  ghost predicate NoneMatch<P, Ty>(impls: seq<P>, decl: P -> Template<Ty>, sig: Sig<Ty>)
  {
    forall i :: 0 <= i < |impls| ==> !HasImpl(decl(impls[i]), sig)
  }

  /** The position of the provider the chain collapses to, or `None` when the
      empty-list case is reached. */
  function Resolve<P, Ty(==)>(impls: seq<P>, decl: P -> Template<Ty>, sig: Sig<Ty>): (r: Option<nat>)
    ensures r.Some? ==> IsFirstMatch(impls, decl, sig, r.value)
    ensures r.None? <==> NoneMatch(impls, decl, sig)
  {
    if |impls| == 0 then None
    else if HasImpl(decl(impls[0]), sig) then Some(0)
    else match Resolve(impls[1..], decl, sig)
      case None => None
      case Some(k) => Some(k + 1)
  }

  /** `AnyDispatcher<Impls...>::Run(v, args...)`, with `run` already holding
      `v` and `args`: the head's `Run` when its probe succeeds, otherwise the
      tail's dispatch; `None` on the empty list. */
  function Dispatch<P(!new), Ty(==), R>(impls: seq<P>, decl: P -> Template<Ty>, sig: Sig<Ty>, run: P --> R): (r: Option<R>)
    requires RunDefined(decl, sig, run)
    ensures r.None? <==> NoneMatch(impls, decl, sig)
    ensures r == match Resolve(impls, decl, sig)
                 case Some(i) => Some(run(impls[i]))
                 case None => None
  {
    if |impls| == 0 then None
    else if HasImpl(decl(impls[0]), sig) then Some(run(impls[0]))
    else Dispatch(impls[1..], decl, sig, run)
  }

  /** The empty dispatcher fails for every signature ("No matching Impl for
      this type/args!"). */
  lemma DispatchEmptyFails<P(!new), Ty, R>(decl: P -> Template<Ty>, sig: Sig<Ty>, run: P --> R)
    requires RunDefined(decl, sig, run)
    ensures Dispatch([], decl, sig, run) == None
  {
  }

  /** Every position before the selected one fails the probe and the selected
      one passes it; nothing after it has any influence. */
  lemma DispatchIgnoresLater<P(!new), Ty, R>(
    impls: seq<P>, impls': seq<P>, decl: P -> Template<Ty>, sig: Sig<Ty>, run: P --> R, i: nat)
    requires RunDefined(decl, sig, run)
    requires IsFirstMatch(impls, decl, sig, i)
    requires i < |impls'| && impls'[..i + 1] == impls[..i + 1]
    ensures Dispatch(impls, decl, sig, run) == Some(run(impls[i]))
    ensures Dispatch(impls', decl, sig, run) == Some(run(impls[i]))
  {
    forall j | 0 <= j <= i
      ensures impls'[j] == impls[j]
    {
      assert impls'[j] == impls'[..i + 1][j];
    }
    assert IsFirstMatch(impls', decl, sig, i);
    FirstMatchUnique(impls, decl, sig, Resolve(impls, decl, sig).value, i);
    FirstMatchUnique(impls', decl, sig, Resolve(impls', decl, sig).value, i);
  }

  /** Overriding: a provider put in front that matches the signature wins. */
  lemma DispatchPrependMatching<P(!new), Ty, R>(p: P, impls: seq<P>, decl: P -> Template<Ty>, sig: Sig<Ty>, run: P --> R)
    requires RunDefined(decl, sig, run)
    requires HasImpl(decl(p), sig)
    ensures Dispatch([p] + impls, decl, sig, run) == Some(run(p))
  {
  }

  /** Overriding: a provider put in front that does not match changes nothing. */
  lemma DispatchPrependNonMatching<P(!new), Ty, R>(p: P, impls: seq<P>, decl: P -> Template<Ty>, sig: Sig<Ty>, run: P --> R)
    requires RunDefined(decl, sig, run)
    requires !HasImpl(decl(p), sig)
    ensures Dispatch([p] + impls, decl, sig, run) == Dispatch(impls, decl, sig, run)
  {
  }

  /** Putting a whole list of higher-priority providers in front: their
      dispatch decides whenever it succeeds, otherwise the rest decides. */
  lemma {:induction false} DispatchAppend<P(!new), Ty, R>(
    front: seq<P>, back: seq<P>, decl: P -> Template<Ty>, sig: Sig<Ty>, run: P --> R)
    requires RunDefined(decl, sig, run)
    ensures Dispatch(front + back, decl, sig, run) ==
            if Dispatch(front, decl, sig, run).Some? then Dispatch(front, decl, sig, run)
            else Dispatch(back, decl, sig, run)
  {
    if |front| == 0 {
      assert front + back == back;
    } else {
      assert (front + back)[0] == front[0];
      assert (front + back)[1..] == front[1..] + back;
      DispatchAppend(front[1..], back, decl, sig, run);
    }
  }

  /** A list whose last provider matches every signature never reaches the
      empty-list failure. */
  lemma UniversalLastNeverFails<P(!new), Ty(!new), R>(impls: seq<P>, decl: P -> Template<Ty>, sig: Sig<Ty>, run: P --> R)
    requires RunDefined(decl, sig, run)
    requires |impls| > 0 && Universal(decl(impls[|impls| - 1]))
    ensures Dispatch(impls, decl, sig, run).Some?
  {
  }
}
