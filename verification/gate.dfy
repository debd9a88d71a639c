/**
 The access gate (`may_access`, lib/cpp.py:101-115): a pure decision over the
 caller recorded by the innermost call wrapper, the class of the object being
 accessed and the visibility the member or method was registered with.
 */
module Gate {
  import opened Base

  /** What a call wrapper records as the caller: the wrapped free function
      itself (lib/cpp.py:182), or the receiving object of a wrapped method or
      of a teardown (lib/cpp.py:194, 283), together with its class. */
  datatype Caller = FunctionCaller(fn: Name) | InstanceCaller(id: ObjId, cls: Name)

  /** The subclass relation of the program, as pairs (subclass, ancestor).
      It is a given of the program, not something the runtime computes. */
  type Hierarchy = set<(Name, Name)>

  /** `isinstance` for an object of class `cls` against class `target`. */
  predicate IsInstanceOf(h: Hierarchy, cls: Name, target: Name)
  {
    cls == target || (cls, target) in h
  }

  /** `type(caller) == type(target)`: only an object of exactly the target's
      class has the target's type; a function never does. */
  predicate SameType(caller: Caller, targetCls: Name)
  {
    caller.InstanceCaller? && caller.cls == targetCls
  }

  /** The gate as written.  For Protected it reads `caller.instance`, an
      attribute the runtime never gives a function or an object, so the read
      raises AttributeError whenever there is a caller.  This assumes the
      caller has no attribute of that name of its own: a caller whose class
      declares a member or method `instance`, or a function given one, is not
      modelled. */
  function MayAccessAsWritten(caller: Option<Caller>, targetCls: Name, required: Access): (r: Result<bool>)
    ensures caller.None? ==> r == Ok(true)
    ensures caller.Some? && required == Public ==> r == Ok(true)
    ensures caller.Some? && required == Protected ==> r == Err(AttributeError)
    ensures caller.Some? && required == Private ==> r == Ok(SameType(caller.value, targetCls))
  {
    if caller.None? then Ok(true)
    else match required
      case Public => Ok(true)
      case Protected => Err(AttributeError)
      case Private => Ok(SameType(caller.value, targetCls))
  }

  /** The gate with Protected meaning "the caller is an object of the target's
      class or of a subclass of it".  No caller (unmanaged code) is trusted
      with everything. */
  function MayAccess(h: Hierarchy, caller: Option<Caller>, targetCls: Name, required: Access): (ok: bool)
    ensures ok && caller.Some? && caller.value.FunctionCaller? ==> required == Public
    ensures ok && caller.Some? && required == Private ==> caller.value.cls == targetCls
    ensures caller.Some? && caller.value.InstanceCaller? && caller.value.cls == targetCls ==> ok
  {
    if caller.None? then true
    else match required
      case Public => true
      case Protected => caller.value.InstanceCaller? && IsInstanceOf(h, caller.value.cls, targetCls)
      case Private => SameType(caller.value, targetCls)
  }

  /** The rule the runtime is meant to enforce, stated per visibility level
      rather than per branch of the decision procedure. */
  ghost predicate Permitted(h: Hierarchy, caller: Option<Caller>, targetCls: Name, required: Access)
  {
    || caller.None?
    || required == Public
    || (required == Protected && exists id: ObjId, c: Name ::
          caller.value == InstanceCaller(id, c) && IsInstanceOf(h, c, targetCls))
    || (required == Private && exists id: ObjId ::
          caller.value == InstanceCaller(id, targetCls))
  }

  /** The decision procedure grants exactly what the rule permits. */
  lemma MayAccessIsPermitted(h: Hierarchy, caller: Option<Caller>, targetCls: Name, required: Access)
    ensures MayAccess(h, caller, targetCls, required) <==> Permitted(h, caller, targetCls, required)
  {
    if caller.Some? && caller.value.InstanceCaller? {
      var c := caller.value;
      assert c == InstanceCaller(c.id, c.cls);
    }
  }

  /** A plain-function caller is denied everything but Public members. */
  lemma FunctionCallerDenied(h: Hierarchy, fn: Name, targetCls: Name, required: Access)
    ensures MayAccess(h, Some(FunctionCaller(fn)), targetCls, required) <==> required == Public
  {
  }

  /** Private is the strictest level and Public the loosest: whatever a
      caller may do at one level it may do at every looser level. */
  lemma LevelsAreNested(h: Hierarchy, caller: Option<Caller>, targetCls: Name)
    ensures MayAccess(h, caller, targetCls, Private) ==> MayAccess(h, caller, targetCls, Protected)
    ensures MayAccess(h, caller, targetCls, Protected) ==> MayAccess(h, caller, targetCls, Public)
  {
  }

  /** An object may touch every member and method of its own class: this is
      why teardown, which runs with the torn-down object as caller, never
      fails on the reads of its own members. */
  lemma SelfMayAccess(h: Hierarchy, id: ObjId, cls: Name, required: Access)
    ensures MayAccess(h, Some(InstanceCaller(id, cls)), cls, required)
  {
  }

  /** A subclass object may reach Protected members of its ancestors but not
      their Private ones. */
  lemma SubclassSeesProtectedOnly(h: Hierarchy, id: ObjId, sub: Name, base: Name)
    requires (sub, base) in h && sub != base
    ensures MayAccess(h, Some(InstanceCaller(id, sub)), base, Protected)
    ensures !MayAccess(h, Some(InstanceCaller(id, sub)), base, Private)
  {
  }

  /** The discrepancy of the code as written: an object calling a Protected
      method of its own class, which the corrected gate allows, raises
      AttributeError (for a class that declares nothing named `instance`). */
  lemma ProtectedAsWrittenRaises(h: Hierarchy, id: ObjId, cls: Name)
    ensures MayAccessAsWritten(Some(InstanceCaller(id, cls)), cls, Protected) == Err(AttributeError)
    ensures MayAccess(h, Some(InstanceCaller(id, cls)), cls, Protected)
  {
  }

  /** Apart from Protected, the corrected gate decides exactly as written. */
  lemma AgreesOutsideProtected(h: Hierarchy, caller: Option<Caller>, targetCls: Name, required: Access)
    requires caller.None? || required != Protected
    ensures MayAccessAsWritten(caller, targetCls, required) == Ok(MayAccess(h, caller, targetCls, required))
  {
  }
}
