/** The memory-management libfunc family: storing a value to the temporary
    or the local region, aligning the temporaries at a control-flow merge,
    allocating the locals, renaming a variable and moving a value. The six
    families are composed, in this order, into `MemExtension`, whose concrete
    counterpart is `MemConcrete`. */
module Mem {
  import opened Wrappers
  import opened Ids
  import opened Errors
  import opened LibFunc
  import Hierarchy
  import opened CoreHelpers

  /** The only argument list a single-type family accepts is one type argument. */
  function AsSingleType(args: seq<GenericArg>): (r: Result<ConcreteTypeId, SpecializationError>)
    ensures r.Ok? <==> |args| == 1 && args[0].Type?
    ensures r.Ok? ==> args == [Type(r.value)]
    ensures r.Err? ==> r.error == UnsupportedGenericArg
  {
    if |args| == 1 && args[0].Type? then Ok(args[0].ty) else Err(UnsupportedGenericArg)
  }

  // store_temp

  datatype StoreTempGeneric = StoreTempGeneric {
    static const ID := GenericLibFuncId("store_temp")

    static function ById(id: GenericLibFuncId): (r: Option<StoreTempGeneric>)
      ensures r.Some? <==> id == ID
    {
      NamedById(ID, StoreTempGeneric, id)
    }

    function Specialize(args: seq<GenericArg>): (r: Result<StoreTempConcrete, SpecializationError>)
      ensures r.Ok? <==> AsSingleType(args).Ok?
      ensures r.Ok? ==> args == [Type(r.value.ty)]
      ensures r.Err? ==> r.error == UnsupportedGenericArg
    {
      var ty :- AsSingleType(args);
      Ok(StoreTempConcrete(ty))
    }
  }

  datatype StoreTempConcrete = StoreTempConcrete(ty: ConcreteTypeId) {
    /** The one single-cell input comes out unchanged. */
    function NonBranchSimulate(inputs: seq<seq<MemCell>>): (r: Result<seq<seq<MemCell>>, InputError>)
      ensures r.Ok? <==> |inputs| == 1 && |inputs[0]| == 1
      ensures r.Ok? ==> r.value == inputs
    {
      SingleCellIdentity(1, inputs)
    }
  }

  // align_temps

  datatype AlignTempsGeneric = AlignTempsGeneric {
    static const ID := GenericLibFuncId("align_temps")

    static function ById(id: GenericLibFuncId): (r: Option<AlignTempsGeneric>)
      ensures r.Some? <==> id == ID
    {
      NamedById(ID, AlignTempsGeneric, id)
    }

    /** Takes one type argument, although the simulation has no inputs. */
    function Specialize(args: seq<GenericArg>): (r: Result<AlignTempsConcrete, SpecializationError>)
      ensures r.Ok? <==> AsSingleType(args).Ok?
      ensures r.Ok? ==> args == [Type(r.value.ty)]
      ensures r.Err? ==> r.error == UnsupportedGenericArg
    {
      var ty :- AsSingleType(args);
      Ok(AlignTempsConcrete(ty))
    }
  }

  datatype AlignTempsConcrete = AlignTempsConcrete(ty: ConcreteTypeId) {
    /** No inputs and no outputs. */
    function NonBranchSimulate(inputs: seq<seq<MemCell>>): (r: Result<seq<seq<MemCell>>, InputError>)
      ensures r.Ok? <==> inputs == []
      ensures r.Ok? ==> r.value == []
    {
      var _ :- UnpackInputs(0, inputs);
      Ok([])
    }
  }

  // store_local

  datatype StoreLocalGeneric = StoreLocalGeneric {
    static const ID := GenericLibFuncId("store_local")

    static function ById(id: GenericLibFuncId): (r: Option<StoreLocalGeneric>)
      ensures r.Some? <==> id == ID
    {
      NamedById(ID, StoreLocalGeneric, id)
    }

    function Specialize(args: seq<GenericArg>): (r: Result<StoreLocalConcrete, SpecializationError>)
      ensures r.Ok? <==> AsSingleType(args).Ok?
      ensures r.Ok? ==> args == [Type(r.value.ty)]
      ensures r.Err? ==> r.error == UnsupportedGenericArg
    {
      var ty :- AsSingleType(args);
      Ok(StoreLocalConcrete(ty))
    }
  }

  datatype StoreLocalConcrete = StoreLocalConcrete(ty: ConcreteTypeId) {
    /** The one single-cell input comes out unchanged. */
    function NonBranchSimulate(inputs: seq<seq<MemCell>>): (r: Result<seq<seq<MemCell>>, InputError>)
      ensures r.Ok? <==> |inputs| == 1 && |inputs[0]| == 1
      ensures r.Ok? ==> r.value == inputs
    {
      SingleCellIdentity(1, inputs)
    }
  }

  // alloc_locals

  datatype AllocLocalsGeneric = AllocLocalsGeneric {
    static const ID := GenericLibFuncId("alloc_locals")

    static function ById(id: GenericLibFuncId): (r: Option<AllocLocalsGeneric>)
      ensures r.Some? <==> id == ID
    {
      NamedById(ID, AllocLocalsGeneric, id)
    }

    /** The zero-argument body; it cannot fail. */
    function SpecializeNoArgs(): (c: AllocLocalsConcrete)
      ensures c == AllocLocalsConcrete
    {
      AllocLocalsConcrete
    }

    /** Through the zero-argument adapter: any generic argument is rejected. */
    function Specialize(args: seq<GenericArg>): (r: Result<AllocLocalsConcrete, SpecializationError>)
      ensures r.Ok? <==> args == []
      ensures r.Ok? ==> r.value == SpecializeNoArgs()
      ensures r.Err? ==> r.error == WrongNumberOfGenericArgs
    {
      NoGenericArgsSpecialize(Ok(SpecializeNoArgs()), args)
    }
  }

  datatype AllocLocalsConcrete = AllocLocalsConcrete {
    /** No inputs and no outputs. */
    function NonBranchSimulate(inputs: seq<seq<MemCell>>): (r: Result<seq<seq<MemCell>>, InputError>)
      ensures r.Ok? <==> inputs == []
      ensures r.Ok? ==> r.value == []
    {
      var _ :- UnpackInputs(0, inputs);
      Ok([])
    }
  }

  // rename

  datatype RenameGeneric = RenameGeneric {
    static const ID := GenericLibFuncId("rename")

    static function ById(id: GenericLibFuncId): (r: Option<RenameGeneric>)
      ensures r.Some? <==> id == ID
    {
      NamedById(ID, RenameGeneric, id)
    }

    function Specialize(args: seq<GenericArg>): (r: Result<RenameConcrete, SpecializationError>)
      ensures r.Ok? <==> AsSingleType(args).Ok?
      ensures r.Ok? ==> args == [Type(r.value.ty)]
      ensures r.Err? ==> r.error == UnsupportedGenericArg
    {
      var ty :- AsSingleType(args);
      Ok(RenameConcrete(ty))
    }
  }

  datatype RenameConcrete = RenameConcrete(ty: ConcreteTypeId) {
    /** The one single-cell input comes out unchanged. */
    function NonBranchSimulate(inputs: seq<seq<MemCell>>): (r: Result<seq<seq<MemCell>>, InputError>)
      ensures r.Ok? <==> |inputs| == 1 && |inputs[0]| == 1
      ensures r.Ok? ==> r.value == inputs
    {
      SingleCellIdentity(1, inputs)
    }
  }

  // move

  datatype MoveGeneric = MoveGeneric {
    static const ID := GenericLibFuncId("move")

    static function ById(id: GenericLibFuncId): (r: Option<MoveGeneric>)
      ensures r.Some? <==> id == ID
    {
      NamedById(ID, MoveGeneric, id)
    }

    function Specialize(args: seq<GenericArg>): (r: Result<MoveConcrete, SpecializationError>)
      ensures r.Ok? <==> AsSingleType(args).Ok?
      ensures r.Ok? ==> args == [Type(r.value.ty)]
      ensures r.Err? ==> r.error == UnsupportedGenericArg
    {
      var ty :- AsSingleType(args);
      Ok(MoveConcrete(ty))
    }
  }

  datatype MoveConcrete = MoveConcrete(ty: ConcreteTypeId) {
    /** The one single-cell input comes out unchanged. */
    function NonBranchSimulate(inputs: seq<seq<MemCell>>): (r: Result<seq<seq<MemCell>>, InputError>)
      ensures r.Ok? <==> |inputs| == 1 && |inputs[0]| == 1
      ensures r.Ok? ==> r.value == inputs
    {
      SingleCellIdentity(1, inputs)
    }
  }

  // The composition

  /** The family ids in declaration order. */
  const FamilyIds: seq<GenericLibFuncId> := [
    StoreTempGeneric.ID, AlignTempsGeneric.ID, StoreLocalGeneric.ID,
    AllocLocalsGeneric.ID, RenameGeneric.ID, MoveGeneric.ID
  ]

  lemma FamilyIdsDistinct()
    ensures forall i, j | 0 <= i < j < |FamilyIds| :: FamilyIds[i] != FamilyIds[j]
  {
  }

  datatype MemExtension =
    | StoreTemp(StoreTempGeneric)
    | AlignTemps(AlignTempsGeneric)
    | StoreLocal(StoreLocalGeneric)
    | AllocLocals(AllocLocalsGeneric)
    | Rename(RenameGeneric)
    | Move(MoveGeneric)
  {
    /** The position of the variant in the declaration. */
    function Index(): nat {
      match this
      case StoreTemp(_) => 0
      case AlignTemps(_) => 1
      case StoreLocal(_) => 2
      case AllocLocals(_) => 3
      case Rename(_) => 4
      case Move(_) => 5
    }

    /** The id the active family is named by. */
    function Id(): GenericLibFuncId {
      match this
      case StoreTemp(_) => StoreTempGeneric.ID
      case AlignTemps(_) => AlignTempsGeneric.ID
      case StoreLocal(_) => StoreLocalGeneric.ID
      case AllocLocals(_) => AllocLocalsGeneric.ID
      case Rename(_) => RenameGeneric.ID
      case Move(_) => MoveGeneric.ID
    }

    /** Each family asked in declaration order; the first that claims the id wins. */
    static function ById(id: GenericLibFuncId): (r: Option<MemExtension>)
      ensures r.Some? <==> id in FamilyIds
      ensures r.Some? ==> r.value.Id() == id
    {
      match StoreTempGeneric.ById(id)
      case Some(g) => Some(MemExtension.StoreTemp(g))
      case None =>
      match AlignTempsGeneric.ById(id)
      case Some(g) => Some(MemExtension.AlignTemps(g))
      case None =>
      match StoreLocalGeneric.ById(id)
      case Some(g) => Some(MemExtension.StoreLocal(g))
      case None =>
      match AllocLocalsGeneric.ById(id)
      case Some(g) => Some(MemExtension.AllocLocals(g))
      case None =>
      match RenameGeneric.ById(id)
      case Some(g) => Some(MemExtension.Rename(g))
      case None =>
      match MoveGeneric.ById(id)
      case Some(g) => Some(MemExtension.Move(g))
      case None => None
    }

    /** The active family specializes; its concrete value keeps the variant, and
        its error is passed on unchanged. */
    function Specialize(args: seq<GenericArg>): (r: Result<MemConcrete, SpecializationError>)
      ensures r.Ok? ==> r.value.Index() == Index()
      ensures r.Ok? <==> if AllocLocals? then args == [] else AsSingleType(args).Ok?
      ensures r.Err? ==> r.error == if AllocLocals? then WrongNumberOfGenericArgs else UnsupportedGenericArg
      ensures r.Ok? && !AllocLocals? ==> !r.value.AllocLocals? && args == [Type(r.value.Ty())]
    {
      match this
      case StoreTemp(g) =>
        var inner :- g.Specialize(args);
        Ok(MemConcrete.StoreTemp(inner))
      case AlignTemps(g) =>
        var inner :- g.Specialize(args);
        Ok(MemConcrete.AlignTemps(inner))
      case StoreLocal(g) =>
        var inner :- g.Specialize(args);
        Ok(MemConcrete.StoreLocal(inner))
      case AllocLocals(g) =>
        var inner :- g.Specialize(args);
        Ok(MemConcrete.AllocLocals(inner))
      case Rename(g) =>
        var inner :- g.Specialize(args);
        Ok(MemConcrete.Rename(inner))
      case Move(g) =>
        var inner :- g.Specialize(args);
        Ok(MemConcrete.Move(inner))
    }

    /** `specialize_by_id` of the composed family. Memory families do not read
        the context. */
    static function SpecializeById(context: SpecializationContext, libfuncId: GenericLibFuncId, args: seq<GenericArg>): (r: Result<MemConcrete, ExtensionError>)
      ensures r.Err? ==> r.error.libfuncId == libfuncId
      ensures libfuncId !in FamilyIds ==> r == Err(LibFuncSpecialization(libfuncId, UnsupportedId))
      ensures r.Ok? ==> r.value.Index() < |FamilyIds| && FamilyIds[r.value.Index()] == libfuncId
    {
      LibFunc.SpecializeById(
        MemExtension.ById,
        (g: MemExtension, _: SpecializationContext, a: seq<GenericArg>) => g.Specialize(a),
        context, libfuncId, args)
    }
  }

  datatype MemConcrete =
    | StoreTemp(StoreTempConcrete)
    | AlignTemps(AlignTempsConcrete)
    | StoreLocal(StoreLocalConcrete)
    | AllocLocals(AllocLocalsConcrete)
    | Rename(RenameConcrete)
    | Move(MoveConcrete)
  {
    /** The position of the variant in the declaration. */
    function Index(): nat {
      match this
      case StoreTemp(_) => 0
      case AlignTemps(_) => 1
      case StoreLocal(_) => 2
      case AllocLocals(_) => 3
      case Rename(_) => 4
      case Move(_) => 5
    }

    /** The variants whose simulation passes the value through. */
    predicate IsIdentity() {
      StoreTemp? || StoreLocal? || Rename? || Move?
    }

    /** The type recorded at specialization. */
    function Ty(): ConcreteTypeId
      requires !AllocLocals?
    {
      match this
      case StoreTemp(c) => c.ty
      case AlignTemps(c) => c.ty
      case StoreLocal(c) => c.ty
      case Rename(c) => c.ty
      case Move(c) => c.ty
    }

    /** Simulation forwarded to the active variant. */
    function Simulate(inputs: seq<seq<MemCell>>): (r: Result<seq<seq<MemCell>>, InputError>)
      ensures IsIdentity() ==> (r.Ok? <==> |inputs| == 1 && |inputs[0]| == 1)
      ensures IsIdentity() && r.Ok? ==> r.value == inputs
      ensures !IsIdentity() ==> (r.Ok? <==> inputs == [])
      ensures !IsIdentity() && r.Ok? ==> r.value == []
    {
      match this
      case StoreTemp(c) => c.NonBranchSimulate(inputs)
      case AlignTemps(c) => c.NonBranchSimulate(inputs)
      case StoreLocal(c) => c.NonBranchSimulate(inputs)
      case AllocLocals(c) => c.NonBranchSimulate(inputs)
      case Rename(c) => c.NonBranchSimulate(inputs)
      case Move(c) => c.NonBranchSimulate(inputs)
    }
  }

  /** The four pass-through variants simulate alike, whatever type they recorded. */
  lemma IdentitySimulationIgnoresType(c: MemConcrete, d: MemConcrete, inputs: seq<seq<MemCell>>)
    requires c.IsIdentity() && d.IsIdentity()
    ensures c.Simulate(inputs) == d.Simulate(inputs) == SingleCellIdentity(1, inputs)
  {
  }

  /** The members of the composition, each lifting its family's `by_id` into
      the aggregate, in declaration order. */
  function Members(): seq<GenericLibFuncId -> Option<MemExtension>> {
    [StoreTempMember, AlignTempsMember, StoreLocalMember, AllocLocalsMember, RenameMember, MoveMember]
  }

  function StoreTempMember(id: GenericLibFuncId): Option<MemExtension> {
    NamedById(StoreTempGeneric.ID, MemExtension.StoreTemp(StoreTempGeneric), id)
  }

  function AlignTempsMember(id: GenericLibFuncId): Option<MemExtension> {
    NamedById(AlignTempsGeneric.ID, MemExtension.AlignTemps(AlignTempsGeneric), id)
  }

  function StoreLocalMember(id: GenericLibFuncId): Option<MemExtension> {
    NamedById(StoreLocalGeneric.ID, MemExtension.StoreLocal(StoreLocalGeneric), id)
  }

  function AllocLocalsMember(id: GenericLibFuncId): Option<MemExtension> {
    NamedById(AllocLocalsGeneric.ID, MemExtension.AllocLocals(AllocLocalsGeneric), id)
  }

  function RenameMember(id: GenericLibFuncId): Option<MemExtension> {
    NamedById(RenameGeneric.ID, MemExtension.Rename(RenameGeneric), id)
  }

  function MoveMember(id: GenericLibFuncId): Option<MemExtension> {
    NamedById(MoveGeneric.ID, MemExtension.Move(MoveGeneric), id)
  }

  /** Member `k` claims exactly the `k`-th family id, and lifts it to the `k`-th variant. */
  lemma MemberClaims(k: nat, id: GenericLibFuncId)
    requires k < |Members()|
    ensures Members()[k](id).Some? <==> id == FamilyIds[k]
    ensures Members()[k](id).Some? ==> Members()[k](id).value.Index() == k
  {
  }

  /** The written-out `by_id` is the generic first-match dispatch over the
      members, and the variant it reports is the family's position. */
  lemma ByIdIsFirstMatch(id: GenericLibFuncId)
    ensures var r := Hierarchy.ById(Members(), id);
      && MemExtension.ById(id) == (if r.Some? then Some(r.value.inner) else None)
      && (r.Some? ==> r.value.variant == r.value.inner.Index())
  {
    var ms := Members();
    forall k | 0 <= k < |ms|
      ensures ms[k](id).Some? <==> id == FamilyIds[k]
      ensures ms[k](id).Some? ==> ms[k](id).value.Index() == k
    {
      MemberClaims(k, id);
    }
    FamilyIdsDistinct();
    var r := Hierarchy.ById(ms, id);
    if r.Some? {
      var k := r.value.variant;
      assert id == FamilyIds[k];
      assert r.value.inner.Index() == k;
    } else {
      assert forall k | 0 <= k < |ms| :: id != FamilyIds[k];
    }
  }

  /** The composed `by_id` finds a family exactly for the id it is named by. */
  lemma ByIdExact(id: GenericLibFuncId, m: MemExtension)
    ensures MemExtension.ById(id) == Some(m) <==> m.Id() == id
    ensures MemExtension.ById(id).None? <==> id !in FamilyIds
  {
    ByIdIsFirstMatch(id);
    var ms := Members();
    forall k | 0 <= k < |ms|
      ensures ms[k](id).Some? <==> id == FamilyIds[k]
    {
      MemberClaims(k, id);
    }
    FamilyIdsDistinct();
    assert m.Id() == FamilyIds[m.Index()];
    var r := Hierarchy.ById(ms, id);
    if m.Id() == id {
      assert Hierarchy.Unambiguous(ms, id);
      Hierarchy.ByIdFindsSoleOwner(ms, id, m.Index());
      IndexDeterminesFamily(r.value.inner, m);
    }
  }

  /** A family carries no data, so its position identifies it. */
  lemma IndexDeterminesFamily(a: MemExtension, b: MemExtension)
    requires a.Index() == b.Index()
    ensures a == b
  {
  }

  /** The whole of specialization by id for the memory family: which ids are
      known, which argument lists each family accepts, which error it raises,
      and that a result belongs to the family the id names. */
  lemma SpecializeByIdOutcome(context: SpecializationContext, libfuncId: GenericLibFuncId, args: seq<GenericArg>)
    ensures var r := MemExtension.SpecializeById(context, libfuncId, args);
      && (r.Err? ==> r.error.libfuncId == libfuncId)
      && (libfuncId !in FamilyIds ==> r == Err(LibFuncSpecialization(libfuncId, UnsupportedId)))
      && (r.Ok? ==> FamilyIds[r.value.Index()] == libfuncId)
      && (libfuncId == AllocLocalsGeneric.ID ==>
            && (r.Ok? <==> args == [])
            && (r.Err? ==> r.error.error == WrongNumberOfGenericArgs))
      && (libfuncId in FamilyIds && libfuncId != AllocLocalsGeneric.ID ==>
            && (r.Ok? <==> AsSingleType(args).Ok?)
            && (r.Ok? ==> args == [Type(r.value.Ty())])
            && (r.Err? ==> r.error.error == UnsupportedGenericArg))
  {
  }

  /** Specializing `store_temp` on one type and simulating it on one cell. */
  lemma StoreTempScenario(context: SpecializationContext, felt: ConcreteTypeId, cell: MemCell)
    ensures MemExtension.SpecializeById(context, StoreTempGeneric.ID, [Type(felt)])
            == Ok(MemConcrete.StoreTemp(StoreTempConcrete(felt)))
    ensures MemConcrete.StoreTemp(StoreTempConcrete(felt)).Simulate([[cell]]) == Ok([[cell]])
  {
  }

  /** `alloc_locals` takes no generic argument, not even a type. */
  lemma AllocLocalsRejectsArgs(context: SpecializationContext, felt: ConcreteTypeId)
    ensures MemExtension.SpecializeById(context, AllocLocalsGeneric.ID, [Type(felt)])
            == Err(LibFuncSpecialization(AllocLocalsGeneric.ID, WrongNumberOfGenericArgs))
  {
  }
}
