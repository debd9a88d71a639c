/**
 Concrete runs of the runtime: a `Box` whose private member is reached only
 through its public methods, a factory function returning one of the objects
 it built, and the `Greeter` demo (examples/greeter.py).  Object handles and
 stored values are parameters, so each run is shown for every choice of them.
 */
module Scenarios {
  import opened Base
  import opened Registry
  import opened Gate
  import opened Frames
  import opened Runtime
  import opened Lifecycle

  /** Nesting allowance used by the scenarios; none of them nests deeper. */
  const Depth: nat := 10

  /** An object of a class with no tracked members and no destructor tears
      down to its own `Destroy` alone. */
  lemma PlainLeaf(s: State, x: ObjId, callers: seq<Caller>, fuel: nat)
    requires HeapOk(s) && x in s.heap
    requires ClassOf(s, x).members == [] && ClassOf(s, x).methodAccess == map[]
    ensures TrackedMembers(s.heap[x], ClassOf(s, x).members) == [] && !HasDtor(s, x)
    ensures fuel > 0 ==> Tear(s, callers, x, fuel) == Trail([Destroy(x)], Done)
  {
    if fuel > 0 {
      TearLeaf(s, callers, x, fuel);
    }
  }

  // ---------------------------------------------------------------------
  // Box: a private member behind public accessors
  // ---------------------------------------------------------------------

  function BoxClass(): ClassDef
  {
    ClassDef(["value"], map["value" := Private], map["setValue" := Public, "getValue" := Public])
  }

  /** External code (the wrapped `main`) holds box `b` in its frame. */
  function BoxStart(b: ObjId): (s: State)
    ensures Wf(s)
  {
    State(map["Box" := BoxClass()], {}, map[b := Obj("Box", map[])],
          [[b]], [FunctionCaller("main")], [], [])
  }

  /** Outside code may neither read nor write the private member. */
  lemma BoxDirectAccessDenied(b: ObjId, n: int)
    ensures ReadMember(BoxStart(b), b, "value") == Err(AccessError)
    ensures WriteMember(BoxStart(b), b, "value", Prim(n), Depth) == Step(BoxStart(b), Raised(AccessError))
  {
    var s := BoxStart(b);
    assert CheckAccess(s, s.callers, b, Private) == Raised(AccessError);
  }

  /** The state after `box.setValue(n)` returned to `main`. */
  function BoxAfterSet(b: ObjId, n: int): (s: State)
    ensures Wf(s) && b in s.heap && s.heap[b].cls == "Box" && s.classes == BoxStart(b).classes
  {
    var e := EnterMethod(BoxStart(b), b, "setValue");
    if e.status.Raised? then BoxStart(b)
    else
      var w := WriteMember(e.st, b, "value", Prim(n), Depth);
      if w.status.Raised? || |w.st.frames| == 0 || |w.st.callers| == 0 || |w.st.selves| == 0 then BoxStart(b)
      else Leave(w.st, MethodCall, Ok(NoneValue), Depth).st
  }

  /** `setValue(n)` from outside is let through, stores `n` in the private
      slot, and leaves `main`'s scopes as they were. */
  lemma BoxSetValue(b: ObjId, n: int)
    ensures BoxAfterSet(b, n).heap[b].slots == map["value" := Prim(n)]
    ensures BoxAfterSet(b, n).callers == [FunctionCaller("main")]
    ensures BoxAfterSet(b, n).frames == [[b]]
  {
    var s := BoxStart(b);
    assert CheckAccess(s, s.callers, b, Public) == Done;
    var e := EnterMethod(s, b, "setValue");
    assert e.st.callers == [FunctionCaller("main"), InstanceCaller(b, "Box")];
    assert CheckAccess(e.st, e.st.callers, b, Private) == Done;
    var w := WriteMember(e.st, b, "value", Prim(n), Depth);
    assert w.status == Done;
    assert w.st.heap[b].slots == map["value" := Prim(n)];
    LeavePlainValue(w.st, MethodCall, NoneValue, Depth);
  }

  /** Then `getValue()` from outside is let through and reads `n` back. */
  lemma BoxGetValue(b: ObjId, n: int)
    ensures var g := EnterMethod(BoxAfterSet(b, n), b, "getValue");
            g.status == Done && ReadMember(g.st, b, "value") == Ok(Prim(n))
  {
    BoxSetValue(b, n);
    var s := BoxAfterSet(b, n);
    assert CheckAccess(s, s.callers, b, Public) == Done;
    var g := EnterMethod(s, b, "getValue");
    assert CheckAccess(g.st, g.st.callers, b, Private) == Done;
  }

  // ---------------------------------------------------------------------
  // A factory: build() constructs A then B and returns A
  // ---------------------------------------------------------------------

  function Plain(): ClassDef { ClassDef([], map[], map[]) }

  /** `main` is running with an empty frame. */
  function FactoryStart(): (s: State)
    ensures Wf(s)
  {
    State(map["A" := Plain(), "B" := Plain()], {}, map[], [[]], [FunctionCaller("main")], [], [])
  }

  /** The state just before `build()` returns: A (`a`) and B (`b`) in its
      frame. */
  function FactoryBuilt(a: ObjId, b: ObjId): (s: State)
    requires a != b
    ensures Wf(s)
  {
    State(map["A" := Plain(), "B" := Plain()], {}, map[a := Obj("A", map[]), b := Obj("B", map[])],
          [[], [a, b]], [FunctionCaller("main"), FunctionCaller("build")], [], [Constructed(a), Constructed(b)])
  }

  /** `build()` called from `main` constructs A then B: both land in the
      call's own frame, in construction order. */
  lemma FactoryBuilds(a: ObjId, b: ObjId)
    requires a != b
    ensures var x := New(EnterFunction(FactoryStart(), "build"), "A", a);
            && x.status == Done && b !in x.st.heap
            && New(x.st, "B", b) == Step(FactoryBuilt(a, b), Done)
  {
    var s1 := EnterFunction(FactoryStart(), "build");
    assert s1.frames == [[], []];
    var x := New(s1, "A", a);
    assert Top(s1.frames) == [];
    assert Top(x.st.frames) == [a];
    assert x.st.frames[..1] == [[]];
    assert x.st.frames == x.st.frames[..1] + [Top(x.st.frames)];
    var y := New(x.st, "B", b);
    assert Top(y.st.frames) == [a, b];
    assert y.st.frames[..1] == [[]];
    assert y.st.frames == y.st.frames[..1] + [Top(y.st.frames)];
    assert y.st.heap == map[a := Obj("A", map[]), b := Obj("B", map[])];
    assert y.st.callers == [FunctionCaller("main"), FunctionCaller("build")];
    assert y.st.trace == [Constructed(a), Constructed(b)];
    assert y.st == FactoryBuilt(a, b);
  }

  /** A call returning the first of the two objects its frame holds: that
      one moves to the end of the caller's frame, the other is destroyed as
      the call's frame closes, and the call's result is the returned handle. */
  lemma ReturnFirstOfTwo(s: State, a: ObjId, b: ObjId, fuel: nat)
    requires Wf(s) && |s.frames| == 2 && |s.callers| > 0 && fuel > 0
    requires Top(s.frames) == [a, b] && a != b
    requires a in s.heap && b in s.heap
    requires TrackedMembers(s.heap[b], ClassOf(s, b).members) == [] && !HasDtor(s, b)
    ensures var r := Leave(s, FunctionCall, Ok(Ref(a)), fuel);
            && r.out == Ok(Ref(a))
            && r.st.frames == [s.frames[0] + [a]]
            && r.st.trace == s.trace + [Destroy(b)]
  {
    assert RemoveFirst([a, b], a) == Ok([b]);
    var rb := Rebind(s.frames, Ref(a));
    assert rb.status == Done;
    assert rb.st == [s.frames[0] + [a], [b]];
    var inner := s.(frames := rb.st);
    ExitLeafFrame(inner, b, fuel);
    assert inner.frames[..1] == [s.frames[0] + [a]];
  }

  /** `build()` returning A: B is destroyed as the call's frame closes; A
      moves to `main`'s frame. */
  lemma FactoryReturn(a: ObjId, b: ObjId)
    requires a != b
    ensures var r := Leave(FactoryBuilt(a, b), FunctionCall, Ok(Ref(a)), Depth);
            && r.out == Ok(Ref(a))
            && r.st.frames == [[a]]
            && r.st.trace == [Constructed(a), Constructed(b), Destroy(b)]
  {
    var s := FactoryBuilt(a, b);
    PlainLeaf(s, b, s.callers, Depth);
    ReturnFirstOfTwo(s, a, b, Depth);
    assert s.frames[0] + [a] == [a];
  }

  /** Back in `main`, A is destroyed only when `main`'s own frame closes. */
  lemma FactoryOuterExit(a: ObjId, b: ObjId)
    requires a != b
    ensures var r := Leave(FactoryBuilt(a, b), FunctionCall, Ok(Ref(a)), Depth);
            ExitFrame(r.st, Depth).st.trace == [Constructed(a), Constructed(b), Destroy(b), Destroy(a)]
  {
    FactoryReturn(a, b);
    var r := Leave(FactoryBuilt(a, b), FunctionCall, Ok(Ref(a)), Depth);
    assert Top(r.st.frames) == [a];
    PlainLeaf(r.st, a, r.st.callers, Depth);
    ExitLeafFrame(r.st, a, Depth);
  }

  // ---------------------------------------------------------------------
  // Greeter (examples/greeter.py)
  // ---------------------------------------------------------------------

  /** `Greeter` as wrapped: `name` Private, constructor and destructor Public. */
  function GreeterClass(): ClassDef
  {
    ClassDef(["name"], map["name" := Private], map["Greeter" := Public, "_Greeter" := Public])
  }

  /** Wrapping the demo's class body gives exactly that class. */
  lemma GreeterWrapped(body: seq<Item>)
    requires body == GreeterBody()
    ensures WrapClass(body, ["name"], ["Greeter", "_Greeter"]) == GreeterClass()
  {
    GreeterVisibility();
    var cd := WrapClass(body, ["name"], ["Greeter", "_Greeter"]);
    GreeterMembersWrapped(body, cd);
    GreeterMethodsWrapped(body, cd);
  }

  lemma GreeterMembersWrapped(body: seq<Item>, cd: ClassDef)
    requires Lookup(Register(body), "name") == Private
    requires cd == WrapClass(body, ["name"], ["Greeter", "_Greeter"])
    ensures cd.memberAccess == map["name" := Private]
  {
    assert cd.memberAccess.Keys == {"name"};
  }

  lemma GreeterMethodsWrapped(body: seq<Item>, cd: ClassDef)
    requires Lookup(Register(body), "Greeter") == Public && Lookup(Register(body), "_Greeter") == Public
    requires cd == WrapClass(body, ["name"], ["Greeter", "_Greeter"])
    ensures cd.methodAccess == map["Greeter" := Public, "_Greeter" := Public]
  {
    GreeterMethodNames();
    TwoPublicMethods(body, ["name"], "Greeter", "_Greeter");
  }

  /** Two distinct plain method names that the body leaves Public wrap to a
      two-entry method table. */
  lemma TwoPublicMethods(body: seq<Item>, annotations: seq<Name>, a: Name, b: Name)
    requires a != b && !IsDunder(a) && !IsDunder(b)
    requires Lookup(Register(body), a) == Public && Lookup(Register(body), b) == Public
    ensures WrapClass(body, annotations, [a, b]).methodAccess == map[a := Public, b := Public]
  {
    var m := WrapClass(body, annotations, [a, b]).methodAccess;
    TwoMethodKeys(body, annotations, a, b);
    assert m[a] == Public && m[b] == Public;
  }

  lemma TwoMethodKeys(body: seq<Item>, annotations: seq<Name>, a: Name, b: Name)
    requires !IsDunder(a) && !IsDunder(b)
    ensures WrapClass(body, annotations, [a, b]).methodAccess.Keys == {a, b}
  {
    var m := WrapClass(body, annotations, [a, b]).methodAccess;
    forall k | k in m
      ensures k == a || k == b
    {
      assert k in [a, b];
    }
  }

  lemma GreeterMethodNames()
    ensures !IsDunder("Greeter") && !IsDunder("_Greeter")
  {
  }

  /** `main` holding two greeters, `g1` built before `g2`, each with its name
      set. */
  function GreetersBuilt(g1: ObjId, g2: ObjId): (s: State)
    requires g1 != g2
    ensures Wf(s)
  {
    State(map["Greeter" := GreeterClass()], {},
          map[g1 := Obj("Greeter", map["name" := Prim(1)]), g2 := Obj("Greeter", map["name" := Prim(2)])],
          [[g1, g2]], [FunctionCaller("main")], [], [])
  }

  /** A greeter has no tracked member and a public destructor, so `main`
      may destroy it. */
  lemma GreeterLeaf(s: State, g: ObjId)
    requires HeapOk(s) && g in s.heap && s.classes == map["Greeter" := GreeterClass()]
    requires s.heap[g].cls == "Greeter" && s.heap[g].slots.Keys == {"name"} && !s.heap[g].slots["name"].Ref?
    requires s.callers == [FunctionCaller("main")]
    ensures TrackedMembers(s.heap[g], ClassOf(s, g).members) == []
    ensures HasDtor(s, g) && CheckAccess(s, s.callers, g, DtorAccess(s, g)) == Done
  {
    assert DtorName("Greeter") == "_Greeter";
    assert ["name"][..0] == [];
  }

  /** Tearing down `main`'s frame destroys `g2` and then `g1`, each running
      its destructor. */
  lemma GreetersTornDown(s: State, g1: ObjId, g2: ObjId)
    requires g1 != g2 && s == GreetersBuilt(g1, g2).(frames := [])
    ensures TearStack(s, s.callers, [g1, g2], Depth) ==
              Trail([Destroy(g2), DtorCalled(g2), Destroy(g1), DtorCalled(g1)], Done)
  {
    GreeterLeaf(s, g1);
    GreeterLeaf(s, g2);
    TearLeaf(s, s.callers, g2, Depth);
    TearLeaf(s, s.callers, g1, Depth);
    assert [g1, g2][..1] == [g1] && [g1][..0] == [];
    assert TearStack(s, s.callers, [g1], Depth) == Trail([Destroy(g1), DtorCalled(g1)], Done);
  }

  /** When `main` returns, the greeters say goodbye in reverse order of
      construction: each destructor runs as its object is torn down. */
  lemma GreetersSayGoodbyeInReverse(g1: ObjId, g2: ObjId)
    requires g1 != g2
    ensures var r := Leave(GreetersBuilt(g1, g2), FunctionCall, Ok(NoneValue), Depth);
            && r.out == Ok(NoneValue)
            && r.st.trace == [Destroy(g2), DtorCalled(g2), Destroy(g1), DtorCalled(g1)]
  {
    var s := GreetersBuilt(g1, g2);
    GreetersTornDown(s.(frames := []), g1, g2);
  }
}
