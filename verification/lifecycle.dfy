/**
 Construction, member slots and the call wrappers (lib/cpp.py:180-246,
 269-273).  Each operation is a transition of `Runtime.State`.
 */
module Lifecycle {
  import opened Base
  import opened Gate
  import opened Frames
  import opened Runtime

  // ---------------------------------------------------------------------
  // Construction
  // ---------------------------------------------------------------------

  /** The generated `__init__` up to the constructor call (lib/cpp.py:269-270):
      the new object joins the innermost frame.  The object's identity comes
      from the interpreter's allocator, here the fresh `id`. */
  function New(s: State, cls: Name, id: ObjId): (r: Step<State>)
    requires Wf(s) && cls in s.classes && id !in s.heap
    ensures r.st.heap == s.heap[id := Obj(cls, map[])]
    ensures r.st.trace == s.trace + [Constructed(id)]
    ensures r.st.callers == s.callers && r.st.selves == s.selves
    ensures r.st.classes == s.classes && r.st.hier == s.hier
    ensures |s.frames| == 0 ==> r.status == Raised(IndexError) && r.st.frames == s.frames
    ensures |s.frames| > 0 ==> r.status == Done && |r.st.frames| == |s.frames|
    ensures |s.frames| > 0 ==> r.st.frames[..|s.frames| - 1] == s.frames[..|s.frames| - 1]
    ensures |s.frames| > 0 ==> Top(r.st.frames) == Top(s.frames) + [id]
    ensures Wf(r.st)
  {
    var heap := s.heap[id := Obj(cls, map[])];
    WithinGrows(s.frames, s.heap.Keys, heap.Keys);
    PushKeepsWithin(s.frames, id, heap.Keys);
    var p := PushDtor(s.frames, id);
    Step(State(s.classes, s.hier, heap, p.st, s.callers, s.selves, s.trace + [Constructed(id)]), p.status)
  }

  // ---------------------------------------------------------------------
  // Call wrappers
  // ---------------------------------------------------------------------

  /** Entry of a `cpp_function` wrapper (lib/cpp.py:181-183): the function
      becomes the caller and a fresh frame opens. */
  function EnterFunction(s: State, fn: Name): (r: State)
    requires Wf(s)
    ensures r.callers == s.callers + [FunctionCaller(fn)]
    ensures r.frames == s.frames + [[]]
    ensures r.heap == s.heap && r.selves == s.selves && r.trace == s.trace
    ensures r.classes == s.classes && r.hier == s.hier
    ensures Wf(r)
  {
    OpenKeepsWithin(s.frames, s.heap.Keys);
    s.(callers := s.callers + [FunctionCaller(fn)], frames := s.frames + [[]])
  }

  /** Entry of a `cpp_method` wrapper (lib/cpp.py:192-196): the access check
      runs against the caller *outside* the call, before anything is pushed;
      then the receiver becomes caller and `this`, and a fresh frame opens. */
  function EnterMethod(s: State, id: ObjId, meth: Name): (r: Step<State>)
    requires Wf(s) && id in s.heap && meth in ClassOf(s, id).methodAccess
    ensures CheckAccess(s, s.callers, id, ClassOf(s, id).methodAccess[meth]).Raised? ==>
              r == Step(s, CheckAccess(s, s.callers, id, ClassOf(s, id).methodAccess[meth]))
    ensures CheckAccess(s, s.callers, id, ClassOf(s, id).methodAccess[meth]) == Done ==> r.status == Done
    ensures r.status == Done ==>
              && r.st.callers == s.callers + [InstanceCaller(id, s.heap[id].cls)]
              && r.st.selves == s.selves + [id]
              && r.st.frames == s.frames + [[]]
              && r.st.trace == s.trace + [MethodEntered(id, meth)]
              && r.st.heap == s.heap && r.st.classes == s.classes && r.st.hier == s.hier
    ensures Wf(r.st)
  {
    var gate := CheckAccess(s, s.callers, id, ClassOf(s, id).methodAccess[meth]);
    if gate.Raised? then Step(s, gate)
    else
      OpenKeepsWithin(s.frames, s.heap.Keys);
      Step(s.(callers := s.callers + [InstanceCaller(id, s.heap[id].cls)],
              selves := s.selves + [id],
              frames := s.frames + [[]],
              trace := s.trace + [MethodEntered(id, meth)]), Done)
  }

  /** Exit of either wrapper (lib/cpp.py:184-187, 197-200).  `out` is what
      the body returned, or the exception it raised.  A returned value is
      rebound to the next-outer frame; then the frame exits (popped, then
      torn down), then `this` (for a method) and the caller are popped.  The
      scopes are left on every path; a teardown failure replaces whatever the
      call would have produced. */
  function Leave(s: State, kind: CallKind, out: Result<Value>, fuel: nat): (r: Return)
    requires Wf(s) && |s.frames| > 0 && |s.callers| > 0
    requires kind == MethodCall ==> |s.selves| > 0
    requires out.Ok? && out.value.Ref? ==> out.value.id in s.heap
    ensures r.st.callers == s.callers[..|s.callers| - 1]
    ensures kind == MethodCall ==> r.st.selves == s.selves[..|s.selves| - 1]
    ensures kind == FunctionCall ==> r.st.selves == s.selves
    ensures |r.st.frames| == |s.frames| - 1
    ensures r.st.heap == s.heap && r.st.classes == s.classes && r.st.hier == s.hier
    ensures s.trace <= r.st.trace
    ensures out.Err? ==> r.out.Err?
    ensures r.out.Ok? ==> r.out == out
    ensures Wf(r.st)
  {
    var rb := RebindOut(s, out);
    var ex := CloseCall(rb.st, kind, fuel);
    var res := if ex.status.Raised? then Err(ex.status.error)
               else if rb.status.Raised? then Err(rb.status.error)
               else out;
    Return(ex.st, res)
  }

  /** The closing half of a wrapper's exit: the frame exits, then the scopes
      are popped whether or not the teardown raised. */
  function CloseCall(s: State, kind: CallKind, fuel: nat): (r: Step<State>)
    requires Wf(s) && |s.frames| > 0 && |s.callers| > 0
    requires kind == MethodCall ==> |s.selves| > 0
    ensures r.st.callers == s.callers[..|s.callers| - 1]
    ensures kind == MethodCall ==> r.st.selves == s.selves[..|s.selves| - 1]
    ensures kind == FunctionCall ==> r.st.selves == s.selves
    ensures r.st.frames == s.frames[..|s.frames| - 1]
    ensures r.st.heap == s.heap && r.st.classes == s.classes && r.st.hier == s.hier
    ensures s.trace <= r.st.trace
    ensures Wf(r.st)
  {
    var ex := ExitFrame(s, fuel);
    Step(PopScopes(ex.st, kind), ex.status)
  }

  /** The rebinding step of a wrapper's exit: a returned value moves to the
      next-outer frame; a raised exception leaves the frames alone. */
  function RebindOut(s: State, out: Result<Value>): (r: Step<State>)
    requires Wf(s)
    requires out.Ok? && out.value.Ref? ==> out.value.id in s.heap
    ensures out.Ok? ==> r == Step(s.(frames := Rebind(s.frames, out.value).st), Rebind(s.frames, out.value).status)
    ensures out.Err? ==> r == Step(s, Raised(out.error))
    ensures |r.st.frames| == |s.frames| && r.st.callers == s.callers && r.st.selves == s.selves
    ensures r.st.heap == s.heap && r.st.classes == s.classes && r.st.hier == s.hier && r.st.trace == s.trace
    ensures Wf(r.st)
  {
    if out.Ok? then
      var rb := Rebind(s.frames, out.value);
      RebindKeepsWithin(s.frames, out.value, s.heap.Keys);
      WfWithFrames(s, rb.st);
      Step(s.(frames := rb.st), rb.status)
    else Step(s, Raised(out.error))
  }

  /** The scope pops of a wrapper's exit: the caller, and for a method the
      `this` entry (lib/cpp.py:187, 200). */
  function PopScopes(s: State, kind: CallKind): (r: State)
    requires Wf(s) && |s.callers| > 0
    requires kind == MethodCall ==> |s.selves| > 0
    ensures r.callers == s.callers[..|s.callers| - 1]
    ensures kind == MethodCall ==> r.selves == s.selves[..|s.selves| - 1]
    ensures kind == FunctionCall ==> r.selves == s.selves
    ensures r == s.(callers := r.callers, selves := r.selves)
    ensures Wf(r)
  {
    var selves := if kind == MethodCall then s.selves[..|s.selves| - 1] else s.selves;
    s.(callers := s.callers[..|s.callers| - 1], selves := selves)
  }

  // ---------------------------------------------------------------------
  // Member slots
  // ---------------------------------------------------------------------

  /** `CppMember.__get__` (lib/cpp.py:221-223): through the gate, then the
      slot; an unwritten slot raises AttributeError. */
  function ReadMember(s: State, id: ObjId, name: Name): (r: Result<Value>)
    requires Wf(s) && id in s.heap && name in ClassOf(s, id).memberAccess
    ensures CheckAccess(s, s.callers, id, ClassOf(s, id).memberAccess[name]).Raised? ==>
              r == Err(CheckAccess(s, s.callers, id, ClassOf(s, id).memberAccess[name]).error)
    ensures CheckAccess(s, s.callers, id, ClassOf(s, id).memberAccess[name]) == Done ==>
              && (name in s.heap[id].slots ==> r == Ok(s.heap[id].slots[name]))
              && (name !in s.heap[id].slots ==> r == Err(AttributeError))
  {
    var gate := CheckAccess(s, s.callers, id, ClassOf(s, id).memberAccess[name]);
    if gate.Raised? then Err(gate.error)
    else if name in s.heap[id].slots then Ok(s.heap[id].slots[name])
    else Err(AttributeError)
  }

  /** `CppMember.__set__` (lib/cpp.py:225-235): through the gate; a tracked
      previous value is torn down on the spot; a tracked new value is
      detached from the innermost frame; then the slot is written.  A raise
      at any step leaves the slot as it was. */
  function WriteMember(s: State, id: ObjId, name: Name, v: Value, fuel: nat): (r: Step<State>)
    requires Wf(s) && id in s.heap && name in ClassOf(s, id).memberAccess
    requires v.Ref? ==> v.id in s.heap
    ensures CheckAccess(s, s.callers, id, ClassOf(s, id).memberAccess[name]).Raised? ==>
              r == Step(s, CheckAccess(s, s.callers, id, ClassOf(s, id).memberAccess[name]))
    ensures r.st.callers == s.callers && r.st.selves == s.selves
    ensures r.st.classes == s.classes && r.st.hier == s.hier
    ensures s.trace <= r.st.trace
    ensures r.status.Raised? ==> r.st.heap == s.heap
    ensures r.status == Done ==> r.st.heap.Keys == s.heap.Keys
    ensures r.status == Done ==> r.st.heap[id].cls == s.heap[id].cls
    ensures r.status == Done ==> name in r.st.heap[id].slots && r.st.heap[id].slots[name] == v
    ensures r.status == Done ==>
              forall n :: n != name ==> SlotValue(r.st.heap[id], n) == SlotValue(s.heap[id], n)
    ensures r.status == Done ==> forall o :: o in s.heap && o != id ==> r.st.heap[o] == s.heap[o]
    ensures r.status == Done && SlotValue(s.heap[id], name).Ref? ==>
              |r.st.trace| > |s.trace| && r.st.trace[|s.trace|] == Destroy(SlotValue(s.heap[id], name).id)
    ensures r.status == Done ==>
              r.st.trace == s.trace + (if SlotValue(s.heap[id], name).Ref?
                                       then Tear(s, s.callers, SlotValue(s.heap[id], name).id, fuel).events
                                       else [])
    ensures r.status == Done && v.Ref? ==>
              |s.frames| > 0 && v.id in Top(s.frames) && r.st.frames == RemoveDtor(s.frames, v.id).st
    ensures r.status == Done && !v.Ref? ==> r.st.frames == s.frames
    ensures Wf(r.st)
  {
    var gate := CheckAccess(s, s.callers, id, ClassOf(s, id).memberAccess[name]);
    if gate.Raised? then Step(s, gate)
    else
      var prev := SlotValue(s.heap[id], name);
      var t := if prev.Ref? then Tear(s, s.callers, prev.id, fuel) else Trail([], Done);
      var s1 := s.(trace := s.trace + t.events);
      if t.status.Raised? then Step(s1, t.status)
      else
        var rm := Detach(s1, v);
        if rm.status.Raised? then rm
        else Step(StoreSlot(rm.st, id, name, v), Done)
  }

  /** The frame side of a member write: a tracked value is detached from the
      innermost frame (lib/cpp.py:232-233). */
  function Detach(s: State, v: Value): (r: Step<State>)
    requires Wf(s) && (v.Ref? ==> v.id in s.heap)
    ensures r.st == s.(frames := r.st.frames)
    ensures v.Ref? ==> r == Step(s.(frames := RemoveDtor(s.frames, v.id).st), RemoveDtor(s.frames, v.id).status)
    ensures !v.Ref? ==> r == Step(s, Done)
    ensures Wf(r.st)
  {
    if v.Ref? then
      var rm := RemoveDtor(s.frames, v.id);
      RemoveKeepsWithin(s.frames, v.id, s.heap.Keys);
      WfWithFrames(s, rm.st);
      Step(s.(frames := rm.st), rm.status)
    else Step(s, Done)
  }

  /** The slot side of a member write (lib/cpp.py:234): only that slot of
      that object changes. */
  function StoreSlot(s: State, id: ObjId, name: Name, v: Value): (r: State)
    requires Wf(s) && id in s.heap && (v.Ref? ==> v.id in s.heap)
    ensures r == s.(heap := r.heap)
    ensures r.heap.Keys == s.heap.Keys && r.heap[id].cls == s.heap[id].cls
    ensures name in r.heap[id].slots && r.heap[id].slots[name] == v
    ensures forall n :: n != name ==> SlotValue(r.heap[id], n) == SlotValue(s.heap[id], n)
    ensures forall o :: o in s.heap && o != id ==> r.heap[o] == s.heap[o]
    ensures Wf(r)
  {
    var o := s.heap[id];
    s.(heap := s.heap[id := o.(slots := o.slots[name := v])])
  }

  /** A wrapped call returning a plain value leaves the outer frames as
      they were. */
  lemma LeavePlainValue(s: State, kind: CallKind, v: Value, fuel: nat)
    requires Wf(s) && |s.frames| > 0 && |s.callers| > 0
    requires kind == MethodCall ==> |s.selves| > 0
    requires !v.Ref?
    ensures Leave(s, kind, Ok(v), fuel).st.frames == s.frames[..|s.frames| - 1]
  {
  }

  /** A tracked value the call's own frame does not own (an argument, or a
      member's value) makes the return raise. */
  lemma LeaveUnownedValue(s: State, kind: CallKind, id: ObjId, fuel: nat)
    requires Wf(s) && |s.frames| > 0 && |s.callers| > 0
    requires kind == MethodCall ==> |s.selves| > 0
    requires id in s.heap && id !in Top(s.frames)
    ensures Leave(s, kind, Ok(Ref(id)), fuel).out.Err?
  {
  }

  /** A tracked value owned by the call's own frame ends up last in the
      caller's frame: a factory does not destroy what it built. */
  lemma LeaveOwnedValue(s: State, kind: CallKind, id: ObjId, fuel: nat)
    requires Wf(s) && |s.frames| >= 2 && |s.callers| > 0
    requires kind == MethodCall ==> |s.selves| > 0
    requires id in s.heap && id in Top(s.frames)
    ensures Leave(s, kind, Ok(Ref(id)), fuel).st.frames ==
              s.frames[..|s.frames| - 2] + [s.frames[|s.frames| - 2] + [id]]
  {
    var n := |s.frames|;
    var rb := Rebind(s.frames, Ref(id));
    assert rb.st[..n - 1] == s.frames[..n - 2] + [s.frames[n - 2] + [id]];
  }

  /** Construction registers the object in the frame that is innermost at
      that moment before the constructor runs: the constructor's own frame
      opens above it, so the object outlives the constructor call. */
  lemma ConstructorRunsAfterRegistration(s: State, cls: Name, id: ObjId)
    requires Wf(s) && cls in s.classes && id !in s.heap && |s.frames| > 0
    requires CtorName(cls) in s.classes[cls].methodAccess
    ensures var n := New(s, cls, id);
            var e := EnterMethod(n.st, id, CtorName(cls));
            e.status == Done ==>
              && |e.st.frames| == |s.frames| + 1
              && e.st.frames[|s.frames| - 1] == Top(s.frames) + [id]
              && Top(e.st.frames) == []
              && e.st.trace == s.trace + [Constructed(id), MethodEntered(id, cls)]
  {
  }

  /** Storing a tracked value the innermost frame does not own (say, an
      argument of the setter) raises, after any previous value was already
      torn down. */
  lemma WriteUnownedRaises(s: State, id: ObjId, name: Name, v: Value, fuel: nat)
    requires Wf(s) && id in s.heap && name in ClassOf(s, id).memberAccess
    requires v.Ref? && v.id in s.heap && (|s.frames| == 0 || v.id !in Top(s.frames))
    ensures WriteMember(s, id, name, v, fuel).status.Raised?
    ensures WriteMember(s, id, name, v, fuel).st.heap == s.heap
  {
  }

  /** A member read after a successful write of it gives back the written
      value (`CppMember.__set__` then `__get__`), provided the reader may
      access the member. */
  lemma ReadAfterWrite(s: State, id: ObjId, name: Name, v: Value, fuel: nat)
    requires Wf(s) && id in s.heap && name in ClassOf(s, id).memberAccess
    requires v.Ref? ==> v.id in s.heap
    requires WriteMember(s, id, name, v, fuel).status == Done
    ensures var w := WriteMember(s, id, name, v, fuel).st;
            ReadMember(w, id, name) == Ok(v)
  {
    var w := WriteMember(s, id, name, v, fuel).st;
    var level := ClassOf(s, id).memberAccess[name];
    assert ClassOf(w, id) == ClassOf(s, id);
    assert CheckAccess(w, w.callers, id, level) == CheckAccess(s, s.callers, id, level);
  }

  /** A method call whose body does nothing and returns None changes the
      state only by recording the entry (the `cpp_method` counterpart of
      `EmptyCallIsInvisible`). */
  lemma EmptyMethodCallIsInvisible(s: State, id: ObjId, meth: Name, fuel: nat)
    requires Wf(s) && id in s.heap && meth in ClassOf(s, id).methodAccess
    requires EnterMethod(s, id, meth).status == Done
    ensures var r := Leave(EnterMethod(s, id, meth).st, MethodCall, Ok(NoneValue), fuel);
            r.out == Ok(NoneValue) && r.st == s.(trace := s.trace + [MethodEntered(id, meth)])
  {
    var e := EnterMethod(s, id, meth).st;
    assert e.frames[..|e.frames| - 1] == s.frames;
    assert e.callers[..|e.callers| - 1] == s.callers;
    assert e.selves[..|e.selves| - 1] == s.selves;
  }

  /** A wrapped call whose body does nothing and returns None leaves no trace
      and restores every stack. */
  lemma EmptyCallIsInvisible(s: State, fn: Name, fuel: nat)
    requires Wf(s)
    ensures var r := Leave(EnterFunction(s, fn), FunctionCall, Ok(NoneValue), fuel);
            r.out == Ok(NoneValue) && r.st == s
  {
    var e := EnterFunction(s, fn);
    assert e.frames[..|e.frames| - 1] == s.frames;
    assert e.callers[..|e.callers| - 1] == s.callers;
  }
}
