/** Identifiers and generic arguments of the Sierra program representation.
    Identifiers are compared by value; here each one is its name. */
module Ids {

  datatype GenericTypeId = GenericTypeId(name: string)

  datatype ConcreteTypeId = ConcreteTypeId(name: string)

  datatype GenericLibFuncId = GenericLibFuncId(name: string)

  /** An argument given when a generic type or libfunc is instantiated:
      a reference to a concrete type, or a literal value. */
  datatype GenericArg = Type(ty: ConcreteTypeId) | Value(value: int)
}

/** The error values of specialization and simulation. */
module Errors {
  import opened Ids

  datatype SpecializationError =
    | UnsupportedId
    | UnsupportedGenericArg
    | WrongNumberOfGenericArgs
    | TypeWasNotDeclared(genericId: GenericTypeId, args: seq<GenericArg>)

  /** A specialization error attributed to the libfunc id it was raised for. */
  datatype ExtensionError = LibFuncSpecialization(libfuncId: GenericLibFuncId, error: SpecializationError)

  /** Raised by simulation when the shape of the inputs does not fit the libfunc:
      the wrong number of variables, or a variable of the wrong number of cells. */
  datatype InputError = WrongNumberOfArgs | MemoryLayoutMismatch
}
