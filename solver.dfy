/**
 * The MILP solver as the variable tables see it: an allocator whose
 * `NumVar`, `IntVar` and `BoolVar` each return a new variable with fixed
 * bounds. A variable is a handle, its position in the allocation log;
 * names, constraints and solving are not modelled.
 */
module MipSolver {

  /** `NumVar` (continuous), `IntVar` (integer) or `BoolVar` (0/1). */
  datatype VarKind = Continuous | Integer | Boolean

  /** What the solver records for a variable: its kind and its bounds. */
  datatype VarInfo = VarInfo(kind: VarKind, lo: int, hi: int)

  /** A solver variable, identified by the order of its creation. */
  type Handle = nat

  /** `BoolVar` is an integer variable in `[0, 1]`. */
  const BoolInfo := VarInfo(Boolean, 0, 1)

  /** `h` is a variable of the log `vs`, created as `info`. */
  ghost predicate Holds(vs: seq<VarInfo>, h: Handle, info: VarInfo) {
    h < |vs| && vs[h] == info
  }

  /** A log that grew by appending keeps every variable it had. */
  lemma HoldsGrows(vs: seq<VarInfo>, ws: seq<VarInfo>, h: Handle, info: VarInfo)
    requires Holds(vs, h, info) && vs <= ws
    ensures Holds(ws, h, info)
  {
    assert ws[h] == ws[..|vs|][h];
  }

  /** The shared `pywraplp.Solver`: the log of every variable created so far. */
  class Solver {
    var vars: seq<VarInfo>

    constructor ()
      ensures vars == []
    {
      vars := [];
    }

    /** Creates one variable: a fresh handle, recorded with its kind and bounds. */
    method NewVar(kind: VarKind, lo: int, hi: int) returns (h: Handle)
      modifies this
      ensures h == |old(vars)|
      ensures vars == old(vars) + [VarInfo(kind, lo, hi)]
      ensures Holds(vars, h, VarInfo(kind, lo, hi))
    {
      h := |vars|;
      vars := vars + [VarInfo(kind, lo, hi)];
    }
  }
}
