/**
 The runtime proper (lib/cpp.py:165-298): the caller, `this` and frame stacks,
 the object heap, member slots, construction and teardown, and the wrappers
 every managed call goes through.

 The state is one immutable value; each operation returns the next state and
 how it ended.  User code (constructor, destructor and method bodies) is not
 part of the runtime: a managed call is `EnterFunction`/`EnterMethod`, then
 whatever operations the body performs, then `Leave`.  A destructor's body is
 represented by the `DtorCalled` event it leaves in the trace.
 */
module Runtime {
  import opened Base
  import opened Registry
  import opened Gate
  import opened Frames

  /** A wrapped class: its annotated members in declaration order, and the
      visibility fixed for each member and method when it was wrapped. */
  datatype ClassDef = ClassDef(members: seq<Name>, memberAccess: map<Name, Access>,
                               methodAccess: map<Name, Access>)

  /** A runtime-managed object: its class and the slots of its members that
      have been written (an unwritten slot has no entry). */
  datatype Obj = Obj(cls: Name, slots: map<Name, Value>)

  /** The append-only record of lifecycle steps.  `Destroy` marks the start of
      an object's `__exit__`; `DtorCalled` the call of its destructor. */
  datatype Event =
    | Constructed(id: ObjId)
    | MethodEntered(id: ObjId, meth: Name)
    | Destroy(id: ObjId)
    | DtorCalled(id: ObjId)

  /** The global state of lib/cpp.py:22-26 plus the heap and the trace. */
  datatype State = State(
    classes: map<Name, ClassDef>,
    hier: Hierarchy,
    heap: map<ObjId, Obj>,
    frames: Frames,
    callers: seq<Caller>,
    selves: seq<ObjId>,
    trace: seq<Event>)

  /** The events and outcome of a teardown. */
  datatype Trail = Trail(events: seq<Event>, status: Status)

  /** The state after a managed call returned, and what the call returned. */
  datatype Return = Return(st: State, out: Result<Value>)

  datatype CallKind = FunctionCall | MethodCall

  // ---------------------------------------------------------------------
  // Classes
  // ---------------------------------------------------------------------

  /** The constructor is the method named after the class (lib/cpp.py:271). */
  function CtorName(cls: Name): Name { cls }

  /** The destructor is the class name prefixed with `_` (lib/cpp.py:279). */
  function DtorName(cls: Name): Name { "_" + cls }

  /** `cpp_class` (lib/cpp.py:238-257, 264-298): every annotated member and
      every non-dunder method gets the visibility the body's registry gives
      it; the registry itself is dropped afterwards (lib/cpp.py:296), so these
      levels never change again. */
  function WrapClass(body: seq<Item>, annotations: seq<Name>, methods: seq<Name>): (cd: ClassDef)
    ensures cd.members == annotations
    ensures forall m :: m in cd.memberAccess <==> m in annotations
    ensures forall m :: m in cd.methodAccess <==> m in methods && !IsDunder(m)
    ensures forall m :: m in cd.memberAccess ==> cd.memberAccess[m] == Lookup(Register(body), m)
    ensures forall m :: m in cd.methodAccess ==> cd.methodAccess[m] == Lookup(Register(body), m)
  {
    var ca := Register(body);
    ClassDef(annotations,
             map m | m in annotations :: Lookup(ca, m),
             map m | m in methods && !IsDunder(m) :: Lookup(ca, m))
  }

  /** A class body without directives wraps every member and method as
      Private, its destructor included. */
  lemma WrapWithoutDirectives(body: seq<Item>, annotations: seq<Name>, methods: seq<Name>, m: Name)
    requires forall i :: 0 <= i < |body| ==> body[i].Decl?
    ensures m in annotations ==> WrapClass(body, annotations, methods).memberAccess[m] == Private
    ensures m in methods && !IsDunder(m) ==> WrapClass(body, annotations, methods).methodAccess[m] == Private
  {
    NoDirectivesAllPrivate(body, m);
  }

  // ---------------------------------------------------------------------
  // Well-formedness
  // ---------------------------------------------------------------------

  /** Every object's class is wrapped and every tracked slot value is a live
      object. */
  ghost predicate HeapOk(s: State)
  {
    && (forall id :: id in s.heap ==> s.heap[id].cls in s.classes)
    && (forall id, n :: id in s.heap && n in s.heap[id].slots && s.heap[id].slots[n].Ref? ==>
          s.heap[id].slots[n].id in s.heap)
  }

  /** Besides the heap, every frame entry and every `this` is a live object. */
  ghost predicate Wf(s: State)
  {
    && HeapOk(s)
    && Within(s.frames, s.heap.Keys)
    && (forall i :: 0 <= i < |s.selves| ==> s.selves[i] in s.heap)
  }

  /** Replacing the frames by frames of live objects keeps the state
      well-formed. */
  lemma WfWithFrames(s: State, fs: Frames)
    requires Wf(s) && Within(fs, s.heap.Keys)
    ensures Wf(s.(frames := fs))
  {
    var t := s.(frames := fs);
    assert t.heap == s.heap && t.classes == s.classes && t.selves == s.selves;
  }

  function ClassOf(s: State, id: ObjId): ClassDef
    requires HeapOk(s) && id in s.heap
  {
    s.classes[s.heap[id].cls]
  }

  predicate HasDtor(s: State, id: ObjId)
    requires HeapOk(s) && id in s.heap
  {
    DtorName(s.heap[id].cls) in ClassOf(s, id).methodAccess
  }

  /** The visibility the destructor was wrapped with. */
  function DtorAccess(s: State, id: ObjId): Access
    requires HeapOk(s) && id in s.heap && HasDtor(s, id)
  {
    ClassOf(s, id).methodAccess[DtorName(s.heap[id].cls)]
  }

  /** `getattr(instance, name, None)`: an unwritten slot reads as None. */
  function SlotValue(o: Obj, name: Name): Value
  {
    if name in o.slots then o.slots[name] else NoneValue
  }

  // ---------------------------------------------------------------------
  // Caller and access checks
  // ---------------------------------------------------------------------

  /** `get_caller` (lib/cpp.py:176-177). */
  function GetCaller(callers: seq<Caller>): (r: Result<Caller>)
    ensures |callers| == 0 <==> r == Err(IndexError)
    ensures r.Ok? ==> r.value == callers[|callers| - 1]
  {
    if |callers| == 0 then Err(IndexError) else Ok(callers[|callers| - 1])
  }

  /** `check_access` (lib/cpp.py:208-211) for a target object. */
  function CheckAccess(s: State, callers: seq<Caller>, target: ObjId, required: Access): (r: Status)
    requires target in s.heap
    ensures |callers| == 0 ==> r == Raised(IndexError)
    ensures |callers| > 0 ==>
              (r == Done <==> MayAccess(s.hier, Some(callers[|callers| - 1]), s.heap[target].cls, required))
    ensures r.Raised? && |callers| > 0 ==> r.error == AccessError
  {
    match GetCaller(callers)
    case Err(e) => Raised(e)
    case Ok(c) => if MayAccess(s.hier, Some(c), s.heap[target].cls, required) then Done else Raised(AccessError)
  }

  // ---------------------------------------------------------------------
  // Teardown
  // ---------------------------------------------------------------------

  /** The generated `__exit__` of a wrapped class (lib/cpp.py:278-288): call
      the destructor (through the gate, with the caller of the moment), then,
      with the object itself as caller, tear down each member holding a
      tracked value, last-declared first.  `fuel` is the nesting depth the
      interpreter allows; running out raises RecursionError.  A failing step
      abandons the rest. */
  function Tear(s: State, callers: seq<Caller>, id: ObjId, fuel: nat): (t: Trail)
    requires HeapOk(s) && id in s.heap
    ensures fuel == 0 ==> t == Trail([], Raised(RecursionError))
    ensures fuel > 0 ==> |t.events| > 0 && t.events[0] == Destroy(id)
    ensures fuel > 0 && HasDtor(s, id) && CheckAccess(s, callers, id, DtorAccess(s, id)).Raised? ==>
              t == Trail([Destroy(id)], CheckAccess(s, callers, id, DtorAccess(s, id)))
    ensures fuel > 0 && HasDtor(s, id) && CheckAccess(s, callers, id, DtorAccess(s, id)) == Done ==>
              |t.events| > 1 && t.events[1] == DtorCalled(id)
    decreases fuel, 0, 0
  {
    if fuel == 0 then Trail([], Raised(RecursionError))
    else
      var cls := s.heap[id].cls;
      var cd := s.classes[cls];
      var gate := if DtorName(cls) in cd.methodAccess
                  then CheckAccess(s, callers, id, cd.methodAccess[DtorName(cls)]) else Done;
      if gate.Raised? then Trail([Destroy(id)], gate)
      else
        var head := if DtorName(cls) in cd.methodAccess then [Destroy(id), DtorCalled(id)] else [Destroy(id)];
        var rest := TearMembers(s, callers + [InstanceCaller(id, cls)], id, cd.members, fuel - 1);
        Trail(head + rest.events, rest.status)
  }

  /** The member loop of `__exit__`: `names` is processed from its end. */
  function TearMembers(s: State, callers: seq<Caller>, id: ObjId, names: seq<Name>, fuel: nat): (t: Trail)
    requires HeapOk(s) && id in s.heap
    ensures t.status == Done ==>
              forall i :: 0 <= i < |names| && SlotValue(s.heap[id], names[i]).Ref? ==>
                Destroy(SlotValue(s.heap[id], names[i]).id) in t.events
    ensures (forall i :: 0 <= i < |names| ==> !SlotValue(s.heap[id], names[i]).Ref?) ==> t == Trail([], Done)
    decreases fuel, 1, |names|
  {
    if |names| == 0 then Trail([], Done)
    else
      var v := SlotValue(s.heap[id], names[|names| - 1]);
      var earlier := names[..|names| - 1];
      if v.Ref? then
        var t := Tear(s, callers, v.id, fuel);
        if t.status.Raised? then t
        else
          var r := TearMembers(s, callers, id, earlier, fuel);
          Trail(t.events + r.events, r.status)
      else TearMembers(s, callers, id, earlier, fuel)
  }

  /** The loop of `DtorScope.__exit__` (lib/cpp.py:141-142): pop the last
      handle and tear it down, until the frame is empty. */
  function TearStack(s: State, callers: seq<Caller>, xs: Frame, fuel: nat): (t: Trail)
    requires HeapOk(s) && forall i :: 0 <= i < |xs| ==> xs[i] in s.heap
    ensures |xs| == 0 ==> t == Trail([], Done)
    ensures |xs| > 0 && fuel > 0 ==> |t.events| > 0 && t.events[0] == Destroy(xs[|xs| - 1])
    ensures t.status == Done ==> forall i :: 0 <= i < |xs| ==> Destroy(xs[i]) in t.events
    decreases |xs|
  {
    if |xs| == 0 then Trail([], Done)
    else
      var t := Tear(s, callers, xs[|xs| - 1], fuel);
      if t.status.Raised? then t
      else
        var earlier := xs[..|xs| - 1];
        var r := TearStack(s, callers, earlier, fuel);
        assert r.status == Done ==> forall i :: 0 <= i < |xs| ==> Destroy(xs[i]) in t.events + r.events by {
          if r.status == Done {
            forall i | 0 <= i < |xs|
              ensures Destroy(xs[i]) in t.events + r.events
            {
              if i < |earlier| {
                assert xs[i] == earlier[i];
              } else {
                assert (t.events + r.events)[0] == Destroy(xs[i]);
              }
            }
          }
        }
        Trail(t.events + r.events, r.status)
  }

  /** Teardown of a list of handles front to back: the reference order. */
  function ForwardTear(s: State, callers: seq<Caller>, ys: Frame, fuel: nat): Trail
    requires HeapOk(s) && forall i :: 0 <= i < |ys| ==> ys[i] in s.heap
    decreases |ys|
  {
    if |ys| == 0 then Trail([], Done)
    else
      var t := Tear(s, callers, ys[0], fuel);
      if t.status.Raised? then t
      else
        var r := ForwardTear(s, callers, ys[1..], fuel);
        Trail(t.events + r.events, r.status)
  }

  function Reverse(xs: Frame): Frame
  {
    if |xs| == 0 then [] else Reverse(xs[1..]) + [xs[0]]
  }

  /** The tracked values held by the given members, in declaration order. */
  function TrackedMembers(o: Obj, names: seq<Name>): Frame
  {
    if |names| == 0 then []
    else
      var v := SlotValue(o, names[|names| - 1]);
      TrackedMembers(o, names[..|names| - 1]) + (if v.Ref? then [v.id] else [])
  }

  lemma {:induction false} ReverseLast(xs: Frame)
    requires |xs| > 0
    ensures Reverse(xs) == [xs[|xs| - 1]] + Reverse(xs[..|xs| - 1])
  {
    if |xs| > 1 {
      ReverseLast(xs[1..]);
      assert xs[1..][..|xs[1..]| - 1] == xs[..|xs| - 1][1..];
    }
  }

  lemma {:induction false} ReverseElements(xs: Frame)
    ensures |Reverse(xs)| == |xs|
    ensures forall y :: y in Reverse(xs) <==> y in xs
  {
    if |xs| > 0 {
      ReverseElements(xs[1..]);
      assert xs == [xs[0]] + xs[1..];
    }
  }

  lemma {:induction false} TrackedMembersLive(s: State, id: ObjId, names: seq<Name>)
    requires HeapOk(s) && id in s.heap
    ensures forall i :: 0 <= i < |TrackedMembers(s.heap[id], names)| ==> TrackedMembers(s.heap[id], names)[i] in s.heap
  {
    if |names| > 0 {
      TrackedMembersLive(s, id, names[..|names| - 1]);
    }
  }

  /** Frame exit tears its handles down in exactly the reverse of their
      acquisition order, stopping at the first failure. */
  lemma {:induction false} TearStackReverses(s: State, callers: seq<Caller>, xs: Frame, fuel: nat)
    requires HeapOk(s) && forall i :: 0 <= i < |xs| ==> xs[i] in s.heap
    ensures forall i :: 0 <= i < |Reverse(xs)| ==> Reverse(xs)[i] in s.heap
    ensures TearStack(s, callers, xs, fuel) == ForwardTear(s, callers, Reverse(xs), fuel)
  {
    ReverseElements(xs);
    if |xs| > 0 {
      var prefix := xs[..|xs| - 1];
      ReverseLast(xs);
      TearStackReverses(s, callers, prefix, fuel);
      assert Reverse(xs)[1..] == Reverse(prefix);
    }
  }

  /** The member loop is a frame exit over the tracked member values in
      declaration order. */
  lemma {:induction false} MembersTearLikeAFrame(s: State, callers: seq<Caller>, id: ObjId, names: seq<Name>, fuel: nat)
    requires HeapOk(s) && id in s.heap
    ensures forall i :: 0 <= i < |TrackedMembers(s.heap[id], names)| ==> TrackedMembers(s.heap[id], names)[i] in s.heap
    ensures TearMembers(s, callers, id, names, fuel) == TearStack(s, callers, TrackedMembers(s.heap[id], names), fuel)
  {
    TrackedMembersLive(s, id, names);
    if |names| > 0 {
      var earlier := names[..|names| - 1];
      var xs := TrackedMembers(s.heap[id], names);
      MembersTearLikeAFrame(s, callers, id, earlier, fuel);
      var v := SlotValue(s.heap[id], names[|names| - 1]);
      if v.Ref? {
        assert xs[..|xs| - 1] == TrackedMembers(s.heap[id], earlier);
      } else {
        assert xs == TrackedMembers(s.heap[id], earlier);
      }
    }
  }

  /** Object teardown, stated against the reference order: the object's
      `Destroy`, its destructor call if it has one, then its tracked members
      in reverse declaration order, torn down with the object as caller. */
  lemma TeardownOrder(s: State, callers: seq<Caller>, id: ObjId, fuel: nat)
    requires HeapOk(s) && id in s.heap && fuel > 0
    requires HasDtor(s, id) ==>
               CheckAccess(s, callers, id, DtorAccess(s, id)) == Done
    ensures var o := s.heap[id];
            var order := Reverse(TrackedMembers(o, ClassOf(s, id).members));
            var head := if HasDtor(s, id) then [Destroy(id), DtorCalled(id)] else [Destroy(id)];
            (forall i :: 0 <= i < |order| ==> order[i] in s.heap) &&
            var rest := ForwardTear(s, callers + [InstanceCaller(id, o.cls)], order, fuel - 1);
            Tear(s, callers, id, fuel) == Trail(head + rest.events, rest.status)
  {
    var o := s.heap[id];
    var inner := callers + [InstanceCaller(id, o.cls)];
    MembersTearLikeAFrame(s, inner, id, ClassOf(s, id).members, fuel - 1);
    TearStackReverses(s, inner, TrackedMembers(o, ClassOf(s, id).members), fuel - 1);
  }

  /** An object with no tracked member values tears down to its own
      `Destroy` and destructor call. */
  lemma TearLeaf(s: State, callers: seq<Caller>, id: ObjId, fuel: nat)
    requires HeapOk(s) && id in s.heap && fuel > 0
    requires TrackedMembers(s.heap[id], ClassOf(s, id).members) == []
    requires HasDtor(s, id) ==> CheckAccess(s, callers, id, DtorAccess(s, id)) == Done
    ensures Tear(s, callers, id, fuel) ==
              Trail(if HasDtor(s, id) then [Destroy(id), DtorCalled(id)] else [Destroy(id)], Done)
  {
    TeardownOrder(s, callers, id, fuel);
    assert Reverse([]) == [];
  }

  /** A Private destructor cannot be called by a plain function: tearing
      such an object down from a function's frame exit stops with
      AccessError right after the `Destroy`, and its members are never torn
      down. */
  lemma PrivateDtorBlocksFunctionTeardown(s: State, callers: seq<Caller>, id: ObjId, fuel: nat)
    requires HeapOk(s) && id in s.heap && fuel > 0
    requires HasDtor(s, id) && DtorAccess(s, id) == Private
    requires |callers| > 0 && callers[|callers| - 1].FunctionCaller?
    ensures Tear(s, callers, id, fuel) == Trail([Destroy(id)], Raised(AccessError))
  {
    FunctionCallerDenied(s.hier, callers[|callers| - 1].fn, s.heap[id].cls, Private);
  }

  // ---------------------------------------------------------------------
  // Frames in the state
  // ---------------------------------------------------------------------

  /** `DtorScope.__exit__` (lib/cpp.py:138-142): pop the frame first, then
      tear its handles down, newest first. */
  function ExitFrame(s: State, fuel: nat): (r: Step<State>)
    requires Wf(s)
    ensures |s.frames| == 0 ==> r == Step(s, Raised(IndexError))
    ensures |s.frames| > 0 ==> r.st.frames == s.frames[..|s.frames| - 1]
    ensures r.st.heap == s.heap && r.st.classes == s.classes && r.st.hier == s.hier
    ensures r.st.callers == s.callers && r.st.selves == s.selves
    ensures s.trace <= r.st.trace
    ensures Wf(r.st)
  {
    if |s.frames| == 0 then Step(s, Raised(IndexError))
    else
      var top := Top(s.frames);
      var popped := s.(frames := s.frames[..|s.frames| - 1]);
      var t := TearStack(popped, s.callers, top, fuel);
      Step(popped.(trace := s.trace + t.events), t.status)
  }

  /** What a frame exit adds to the trace is the teardown of the frame's
      handles in reverse acquisition order. */
  lemma ExitFrameOrder(s: State, fuel: nat)
    requires Wf(s) && |s.frames| > 0
    ensures var order := Reverse(Top(s.frames));
            (forall i :: 0 <= i < |order| ==> order[i] in s.heap) &&
            var t := ForwardTear(s, s.callers, order, fuel);
            ExitFrame(s, fuel) == Step(s.(frames := s.frames[..|s.frames| - 1], trace := s.trace + t.events), t.status)
  {
    var popped := s.(frames := s.frames[..|s.frames| - 1]);
    TearStackReverses(popped, s.callers, Top(s.frames), fuel);
    TearStackReverses(s, s.callers, Top(s.frames), fuel);
    TearAgreesOnHeap(popped, s, s.callers, Reverse(Top(s.frames)), fuel);
  }

  /** Closing a frame that holds a single object with no tracked members and
      no destructor destroys exactly that object. */
  lemma ExitLeafFrame(s: State, x: ObjId, fuel: nat)
    requires Wf(s) && |s.frames| > 0 && Top(s.frames) == [x] && fuel > 0
    requires x in s.heap && TrackedMembers(s.heap[x], ClassOf(s, x).members) == [] && !HasDtor(s, x)
    ensures ExitFrame(s, fuel) ==
              Step(s.(frames := s.frames[..|s.frames| - 1], trace := s.trace + [Destroy(x)]), Done)
  {
    var popped := s.(frames := s.frames[..|s.frames| - 1]);
    TearLeaf(popped, s.callers, x, fuel);
    assert [x][..0] == [];
    assert TearStack(popped, s.callers, [x], fuel) == Trail([Destroy(x)], Done);
  }

  /** Teardown depends on the classes, hierarchy and heap only. */
  lemma {:induction false} TearAgreesOnHeap(a: State, b: State, callers: seq<Caller>, ys: Frame, fuel: nat)
    requires a.classes == b.classes && a.hier == b.hier && a.heap == b.heap
    requires HeapOk(a) && forall i :: 0 <= i < |ys| ==> ys[i] in a.heap
    ensures HeapOk(b)
    ensures ForwardTear(a, callers, ys, fuel) == ForwardTear(b, callers, ys, fuel)
    decreases |ys|
  {
    if |ys| > 0 {
      TearSame(a, b, callers, ys[0], fuel);
      TearAgreesOnHeap(a, b, callers, ys[1..], fuel);
    }
  }

  lemma {:induction false} TearSame(a: State, b: State, callers: seq<Caller>, id: ObjId, fuel: nat)
    requires a.classes == b.classes && a.hier == b.hier && a.heap == b.heap
    requires HeapOk(a) && id in a.heap
    ensures HeapOk(b)
    ensures Tear(a, callers, id, fuel) == Tear(b, callers, id, fuel)
    decreases fuel, 0, 0
  {
    if fuel > 0 {
      var cls := a.heap[id].cls;
      MembersSame(a, b, callers + [InstanceCaller(id, cls)], id, a.classes[cls].members, fuel - 1);
    }
  }

  lemma {:induction false} MembersSame(a: State, b: State, callers: seq<Caller>, id: ObjId, names: seq<Name>, fuel: nat)
    requires a.classes == b.classes && a.hier == b.hier && a.heap == b.heap
    requires HeapOk(a) && id in a.heap
    ensures HeapOk(b)
    ensures TearMembers(a, callers, id, names, fuel) == TearMembers(b, callers, id, names, fuel)
    decreases fuel, 1, |names|
  {
    if |names| > 0 {
      var v := SlotValue(a.heap[id], names[|names| - 1]);
      if v.Ref? {
        TearSame(a, b, callers, v.id, fuel);
      }
      MembersSame(a, b, callers, id, names[..|names| - 1], fuel);
    }
  }
}
