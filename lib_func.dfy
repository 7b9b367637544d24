/** The libfunc specialization framework: the context of declared concrete
    types, the adapters that wrap a libfunc family (lookup by id, a single
    fixed id, no generic arguments) and the non-branching signature. */
module LibFunc {
  import opened Wrappers
  import opened Ids
  import opened Errors

  /** From the arguments that generate a concrete type (the generic id and its
      arguments) to the concrete id that names it. */
  type ConcreteTypeIdMap = map<(GenericTypeId, seq<GenericArg>), ConcreteTypeId>

  /** The read-only view a specialization call gets of the program's declared types. */
  datatype SpecializationContext = SpecializationContext(concreteTypeIds: ConcreteTypeIdMap) {

    /** The concrete id declared for `id` applied to `args`, or an error naming both. */
    function GetConcreteType(id: GenericTypeId, args: seq<GenericArg>): (r: Result<ConcreteTypeId, SpecializationError>)
      ensures r.Ok? <==> (id, args) in concreteTypeIds
      ensures r.Ok? ==> r.value == concreteTypeIds[(id, args)]
      ensures r.Err? ==> r.error == TypeWasNotDeclared(id, args)
    {
      if (id, args) in concreteTypeIds then Ok(concreteTypeIds[(id, args)])
      else Err(TypeWasNotDeclared(id, args))
    }

    /** The concrete id of the generic type `id` wrapping the single type `wrapped`. */
    function GetWrappedConcreteType(id: GenericTypeId, wrapped: ConcreteTypeId): (r: Result<ConcreteTypeId, SpecializationError>)
      ensures r == GetConcreteType(id, [Type(wrapped)])
      ensures r.Ok? <==> (id, [Type(wrapped)]) in concreteTypeIds
      ensures r.Err? ==> r.error == TypeWasNotDeclared(id, [Type(wrapped)])
    {
      GetConcreteType(id, [Type(wrapped)])
    }
  }

  /** One entry of the type-declaration phase that fills the map before any
      libfunc is specialized. */
  datatype TypeDeclaration = TypeDeclaration(genericId: GenericTypeId, args: seq<GenericArg>, concreteId: ConcreteTypeId)

  /** The map after inserting each declaration in turn; a later declaration of
      the same key replaces an earlier one. */
  function DeclareTypes(decls: seq<TypeDeclaration>): ConcreteTypeIdMap
  {
    if decls == [] then map[]
    else
      var last := decls[|decls| - 1];
      DeclareTypes(decls[..|decls| - 1])[(last.genericId, last.args) := last.concreteId]
  }

  /** Lookup after a sequence of declarations: it fails exactly when no
      declaration has the key, and otherwise returns the id of the last one that does. */
  lemma {:induction false} LookupAfterDeclarations(decls: seq<TypeDeclaration>, id: GenericTypeId, args: seq<GenericArg>)
    ensures var r := SpecializationContext(DeclareTypes(decls)).GetConcreteType(id, args);
      && (r.Err? <==> forall i | 0 <= i < |decls| :: decls[i].genericId != id || decls[i].args != args)
      && (r.Err? ==> r.error == TypeWasNotDeclared(id, args))
      && (r.Ok? ==> exists i | 0 <= i < |decls| ::
            && decls[i] == TypeDeclaration(id, args, r.value)
            && forall j | i < j < |decls| :: decls[j].genericId != id || decls[j].args != args)
  {
    if decls != [] {
      var init, last := decls[..|decls| - 1], decls[|decls| - 1];
      LookupAfterDeclarations(init, id, args);
      assert forall i | 0 <= i < |init| :: decls[i] == init[i];
      if last.genericId == id && last.args == args {
        assert decls[|decls| - 1] == TypeDeclaration(id, args, last.concreteId);
      } else {
        var r := SpecializationContext(DeclareTypes(init)).GetConcreteType(id, args);
        if r.Ok? {
          var i :| 0 <= i < |init| && init[i] == TypeDeclaration(id, args, r.value)
                   && forall j | i < j < |init| :: init[j].genericId != id || init[j].args != args;
          assert decls[i] == TypeDeclaration(id, args, r.value);
        }
      }
    }
  }

  /** `specialize_by_id`: find the family that owns `libfuncId`, then specialize
      it; every error is attributed to `libfuncId`. */
  function SpecializeById<G, C>(
    byId: GenericLibFuncId -> Option<G>,
    specialize: (G, SpecializationContext, seq<GenericArg>) -> Result<C, SpecializationError>,
    context: SpecializationContext,
    libfuncId: GenericLibFuncId,
    args: seq<GenericArg>
  ): (r: Result<C, ExtensionError>)
    ensures r.Err? ==> r.error.libfuncId == libfuncId
    ensures byId(libfuncId).None? ==> r == Err(LibFuncSpecialization(libfuncId, UnsupportedId))
    ensures byId(libfuncId).Some? ==>
      var inner := specialize(byId(libfuncId).value, context, args);
      && (r.Ok? <==> inner.Ok?)
      && (r.Ok? ==> r.value == inner.value)
      && (r.Err? ==> r.error.error == inner.error)
  {
    match byId(libfuncId)
    case None => Err(LibFuncSpecialization(libfuncId, UnsupportedId))
    case Some(family) =>
      match specialize(family, context, args)
      case Ok(concrete) => Ok(concrete)
      case Err(error) => Err(LibFuncSpecialization(libfuncId, error))
  }

  /** The derived `by_id` of a family with one fixed id: it claims that id and no other. */
  function NamedById<G>(familyId: GenericLibFuncId, default: G, id: GenericLibFuncId): (r: Option<G>)
    ensures r.Some? <==> id == familyId
    ensures r.Some? ==> r.value == default
  {
    if familyId == id then Some(default) else None
  }

  /** The derived `specialize` of a family that takes no generic arguments:
      any argument is rejected, otherwise the result is that of the
      zero-argument body. */
  function NoGenericArgsSpecialize<C>(noArgsResult: Result<C, SpecializationError>, args: seq<GenericArg>): (r: Result<C, SpecializationError>)
    ensures |args| > 0 ==> r == Err(WrongNumberOfGenericArgs)
    ensures |args| == 0 ==> r == noArgsResult
  {
    if args == [] then noArgsResult else Err(WrongNumberOfGenericArgs)
  }

  /** What a concrete libfunc exposes: the input types, the output types of
      each branch, and the fallthrough branch if there is one. */
  datatype ConcreteSignature = ConcreteSignature(
    inputTypes: seq<ConcreteTypeId>,
    outputTypes: seq<seq<ConcreteTypeId>>,
    fallthrough: Option<nat>)
  {
    /** A fallthrough, when there is one, is the index of a branch. */
    predicate Valid() {
      fallthrough.Some? ==> fallthrough.value < |outputTypes|
    }

    /** One branch, which is also the fallthrough. */
    predicate IsNonBranch() {
      |outputTypes| == 1 && fallthrough == Some(0)
    }
  }

  /** A libfunc with a single outcome gives flat output types. */
  datatype NonBranchSignature = NonBranchSignature(inputTypes: seq<ConcreteTypeId>, outputTypes: seq<ConcreteTypeId>) {

    /** The signature as a concrete libfunc sees it: the inputs unchanged, the
        outputs as the only branch, and that branch as the fallthrough. */
    function AsConcrete(): (s: ConcreteSignature)
      ensures s.Valid() && s.IsNonBranch()
      ensures s.inputTypes == inputTypes && s.outputTypes[0] == outputTypes
    {
      ConcreteSignature(inputTypes, [outputTypes], Some(0))
    }
  }

  /** Every non-branching concrete signature comes from exactly one flat one. */
  lemma NonBranchSignatureRoundTrip(s: ConcreteSignature, nb: NonBranchSignature)
    requires s.IsNonBranch()
    ensures nb.AsConcrete() == s <==> nb == NonBranchSignature(s.inputTypes, s.outputTypes[0])
  {
  }
}

/** What the hierarchy macros generate, for a closed list of families given in
    declaration order: the aggregate generic libfunc records which member
    claimed the id (its variant, counted from 0) and the member's own value;
    the aggregate concrete libfunc does the same for the member's concrete value. */
module Hierarchy {
  import opened Wrappers
  import opened Ids
  import opened Errors
  import opened LibFunc

  datatype Tagged<+T> = Tagged(variant: nat, inner: T)

  /** The aggregate `by_id`: the first member, in declaration order, whose own
      `by_id` claims the id; none when no member does. */
  function ById<G>(members: seq<GenericLibFuncId -> Option<G>>, id: GenericLibFuncId): (r: Option<Tagged<G>>)
    ensures r.Some? ==> r.value.variant < |members| && members[r.value.variant](id) == Some(r.value.inner)
    ensures r.Some? ==> forall j | 0 <= j < r.value.variant :: members[j](id).None?
    ensures r.None? <==> forall j | 0 <= j < |members| :: members[j](id).None?
  {
    if members == [] then None
    else
      match members[0](id)
      case Some(g) => Some(Tagged(0, g))
      case None =>
        match ById(members[1..], id)
        case None => None
        case Some(t) => Some(Tagged(t.variant + 1, t.inner))
  }

  /** At most one member claims `id`. */
  ghost predicate Unambiguous<G>(members: seq<GenericLibFuncId -> Option<G>>, id: GenericLibFuncId) {
    forall i, j | 0 <= i < j < |members| :: members[i](id).None? || members[j](id).None?
  }

  /** When at most one member claims the id, first-match dispatch finds a member
      exactly when that member claims the id. */
  lemma ByIdFindsSoleOwner<G>(members: seq<GenericLibFuncId -> Option<G>>, id: GenericLibFuncId, i: nat)
    requires Unambiguous(members, id)
    requires i < |members|
    ensures members[i](id).Some? <==> (ById(members, id).Some? && ById(members, id).value.variant == i)
  {
  }

  /** The member at `k` claims the id and no earlier member does: dispatch
      reports variant `k` with that member's value. */
  lemma ByIdAt<G>(members: seq<GenericLibFuncId -> Option<G>>, id: GenericLibFuncId, k: nat)
    requires k < |members| && members[k](id).Some?
    requires forall j | 0 <= j < k :: members[j](id).None?
    ensures ById(members, id) == Some(Tagged(k, members[k](id).value))
  {
  }

  /** The aggregate `specialize`: the claimed member specializes, and its
      concrete value is tagged with the same variant; a member error passes
      through unchanged. */
  function Specialize<G, C>(
    specializers: seq<(G, SpecializationContext, seq<GenericArg>) -> Result<C, SpecializationError>>,
    g: Tagged<G>,
    context: SpecializationContext,
    args: seq<GenericArg>
  ): (r: Result<Tagged<C>, SpecializationError>)
    requires g.variant < |specializers|
    ensures var inner := specializers[g.variant](g.inner, context, args);
      && (r.Ok? <==> inner.Ok?)
      && (r.Ok? ==> r.value.variant == g.variant && r.value.inner == inner.value)
      && (r.Err? ==> r.error == inner.error)
  {
    var inner :- specializers[g.variant](g.inner, context, args);
    Ok(Tagged(g.variant, inner))
  }

  /** The aggregate concrete libfunc's accessors, forwarded to the active variant. */
  function Signature<C>(signatures: seq<C -> ConcreteSignature>, c: Tagged<C>): (s: ConcreteSignature)
    requires c.variant < |signatures|
    ensures s == signatures[c.variant](c.inner)
  {
    signatures[c.variant](c.inner)
  }

  /** An aggregate of non-branching members is itself non-branching, whichever
      variant is active. */
  lemma NonBranchMembersGiveNonBranchAggregate<C>(signatures: seq<C -> ConcreteSignature>, c: Tagged<C>)
    requires c.variant < |signatures|
    requires forall i, x | 0 <= i < |signatures| :: signatures[i](x).IsNonBranch()
    ensures Signature(signatures, c).IsNonBranch() && Signature(signatures, c).Valid()
  {
  }

  /** Dispatch, specialization and the accessors chained: when member `k` alone
      claims the id, the aggregate lands on variant `k`, specializes exactly
      when member `k` does, and its concrete value answers the accessors as
      member `k`'s concrete value does. */
  lemma DispatchThenSignature<G, C>(
    members: seq<GenericLibFuncId -> Option<G>>,
    specializers: seq<(G, SpecializationContext, seq<GenericArg>) -> Result<C, SpecializationError>>,
    signatures: seq<C -> ConcreteSignature>,
    id: GenericLibFuncId,
    context: SpecializationContext,
    args: seq<GenericArg>,
    k: nat)
    requires |specializers| == |members| && |signatures| == |members|
    requires Unambiguous(members, id)
    requires k < |members| && members[k](id).Some?
    ensures ById(members, id) == Some(Tagged(k, members[k](id).value))
    ensures var r := Specialize(specializers, Tagged(k, members[k](id).value), context, args);
      var inner := specializers[k](members[k](id).value, context, args);
      && (r.Ok? <==> inner.Ok?)
      && (r.Ok? ==> r.value.variant == k && Signature(signatures, r.value) == signatures[k](inner.value))
      && (r.Err? ==> r.error == inner.error)
  {
    ByIdFindsSoleOwner(members, id, k);
  }
}
