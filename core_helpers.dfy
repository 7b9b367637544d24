/** Simulation helpers shared by the core libfunc families.

    ASSUMED: the module that defines `unpack_inputs`, `single_cell_identity`
    and `MemCell` is not part of this model. The bodies below, and hence the
    contracts proved of them, are inferred from the helpers' names and from
    how the memory family calls them: every input variable must occupy
    exactly one cell, the number of variables must be the one asked for, and
    the identity helper returns each cell as its own variable again. Which
    error variant is raised for each mismatch is an assumption as well. */
module CoreHelpers {
  import opened Wrappers
  import opened Errors

  /** The atomic unit of simulated memory; only its equality is used. */
  type MemCell(==)

  /** Every variable occupies exactly one cell. */
  predicate SingleCells(inputs: seq<seq<MemCell>>) {
    forall i | 0 <= i < |inputs| :: |inputs[i]| == 1
  }

  /** The cell of each single-cell variable, in order (ASSUMED). */
  function CellsOf(inputs: seq<seq<MemCell>>): (r: Result<seq<MemCell>, InputError>)
    ensures r.Ok? <==> SingleCells(inputs)
    ensures r.Ok? ==> |r.value| == |inputs| && forall i | 0 <= i < |inputs| :: inputs[i] == [r.value[i]]
    ensures r.Err? ==> r.error == MemoryLayoutMismatch
  {
    if inputs == [] then Ok([])
    else if |inputs[0]| != 1 then Err(MemoryLayoutMismatch)
    else
      var rest :- CellsOf(inputs[1..]);
      Ok([inputs[0][0]] + rest)
  }

  /** `unpack_inputs::<n>` (ASSUMED): the cells of exactly `n` single-cell variables. */
  function UnpackInputs(n: nat, inputs: seq<seq<MemCell>>): (r: Result<seq<MemCell>, InputError>)
    ensures r.Ok? <==> |inputs| == n && SingleCells(inputs)
    ensures r.Ok? ==> |r.value| == n && forall i | 0 <= i < n :: inputs[i] == [r.value[i]]
  {
    var cells :- CellsOf(inputs);
    if |cells| == n then Ok(cells) else Err(WrongNumberOfArgs)
  }

  /** `single_cell_identity::<n>` (ASSUMED): `n` single-cell variables come out as they went in. */
  function SingleCellIdentity(n: nat, inputs: seq<seq<MemCell>>): (r: Result<seq<seq<MemCell>>, InputError>)
    ensures r.Ok? <==> |inputs| == n && SingleCells(inputs)
    ensures r.Ok? ==> r.value == inputs
  {
    var cells :- UnpackInputs(n, inputs);
    Ok(seq(|cells|, i requires 0 <= i < |cells| => [cells[i]]))
  }
}
