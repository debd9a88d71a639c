/**
 Shared vocabulary of the lifecycle-and-visibility runtime: visibility levels,
 the errors the runtime raises, the values a member slot or a call can carry,
 and the two-part outcome every state transition returns.
 */
module Base {

  /** Identity of a runtime-managed object (Python's `is`). */
  type ObjId = nat

  /** Class, member, method and function names. */
  type Name = string

  /** The three visibility levels (lib/cpp.py:15-18). */
  datatype Access = Private | Public | Protected

  /** The visibility a class body starts with and the fallback of a lookup
      in a class that never issued a directive (lib/cpp.py:20). */
  const DefaultAccess: Access := Private

  /** The exceptions the runtime raises.
      - AccessError: the access gate denied an access (lib/cpp.py:204-211).
      - AttributeError: a missing attribute was read.
      - ValueError: `list.remove` found no identical entry.
      - IndexError: a stack was indexed past its depth.
      - RecursionError: teardown nested deeper than the interpreter allows. */
  datatype Error = AccessError | AttributeError | ValueError | IndexError | RecursionError

  datatype Option<+T> = None | Some(value: T)

  datatype Result<+T> = Ok(value: T) | Err(error: Error)

  /** How a transition ended: normally, or by raising. */
  datatype Status = Done | Raised(error: Error)

  /** A state after a transition together with how the transition ended.
      Python's runtime state is global and mutated in place, so a raise keeps
      whatever changes happened before it: the state is returned either way. */
  datatype Step<+S> = Step(st: S, status: Status)

  /** A value held by a member slot or returned by a call.  `Ref` values are
      the tracked ones: handles of runtime-managed objects (`is_cpp_class`,
      lib/cpp.py:260-261); everything else is a plain Python value. */
  datatype Value = NoneValue | Prim(n: int) | Ref(id: ObjId)

  /** Python's `str.startswith("__")`: such names never receive a visibility
      and are never wrapped (lib/cpp.py:72, 251). */
  predicate IsDunder(n: Name)
  {
    |n| >= 2 && n[0] == '_' && n[1] == '_'
  }
}
