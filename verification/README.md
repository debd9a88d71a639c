# cpppy runtime: lifecycle and visibility, in Dafny

This project models the runtime of `lib/cpp.py`. That runtime retrofits two
C++ disciplines onto Python classes and functions:

- **Deterministic destruction.** Every wrapped call opens a destructor frame
  (`DtorScope`). Every constructed object is pushed onto the innermost frame.
  When the call ends, the frame is popped and its objects are torn down
  last-first. A returned object moves to the caller's frame instead. An
  object stored into a member slot leaves its frame, and is torn down when the
  slot is overwritten or when its owner is torn down.
- **Visibility.** `public()`, `private()` and `protected()` directives in a
  class body give members and methods a level. Every member read, member
  write and method call checks the caller recorded by the innermost wrapper
  against that level.

The model is a functional state machine. The runtime's process-wide stacks
and tables are fields of an immutable `State`:

- the wrapped classes;
- the subclass relation;
- the heap of runtime-managed objects and their slots;
- the frame stack;
- the caller stack;
- the `this` stack;
- an append-only event trace.

Transitions are pure functions. A transition returns the state reached and
how it ended (`Done` or `Raised(error)`). A Python raise keeps the mutations
made before it, so a raised step still carries a state.

Modules:

- `Base` holds the shared vocabulary: levels, errors, values and steps.
- `Registry` covers `set_access` and `get_member_access` over a class body,
  given as an ordered sequence of declarations and directives.
- `Gate` covers `may_access`, in two versions: as written and corrected (see
  Findings).
- `Frames` covers `DtorScope`, `push_dtor`, `remove_dtor` and
  `rebind_to_parent_dtor`, with removal by identity.
- `Runtime` holds the state, class wrapping (`cpp_class` with
  `create_class_members` and `decorate_class_methods`), `get_caller`,
  `check_access`, and recursive teardown (`__exit__`). It also covers frame
  exit.
- `Lifecycle` covers construction (`__init__`), the call wrappers
  (`cpp_function`, `cpp_method`) and member slots (`CppMember.__get__` and
  `__set__`).
- `Scenarios` holds concrete runs:
  - a box whose private member is reachable only through its public
    methods;
  - a factory that returns one of the objects it built;
  - the `Greeter` demo.

User code is opaque. A constructor, destructor or method body is not
modelled. A call is its entry transition, then whatever transitions the
caller composes for the body, then the exit transition. A destructor call
appears as its access check plus a `DtorCalled` event.

The model follows the code, with one exception: the access check. Protected
is meant to allow an object of the target's class or of a subclass of it, but
the code raises AttributeError instead (see "## Findings"). The runtime model decides with the
corrected gate instead (`Gate.MayAccess`), and the code's gate is modelled
beside it (`Gate.MayAccessAsWritten`). In the other cases it follows the code:

- `get_caller` indexes the caller stack. On an empty stack it raises
  IndexError instead of yielding "no caller". So the gate's "no caller is
  trusted" branch is modelled (`Gate.MayAccess`), but the runtime never
  reaches it.
- `remove_dtor` and `rebind_to_parent_dtor` look only at the innermost frame,
  not at "whatever frame owns the object". Two cases therefore raise
  ValueError:
  - storing an argument into a member (`Lifecycle.WriteUnownedRaises`);
  - returning an argument (`Lifecycle.LeaveUnownedValue`).

  The model keeps this behaviour.
- Teardown reads each member with the torn-down object as caller. That read
  goes through the member's access check. With the corrected gate, an object
  may access all of its own members (`Gate.SelfMayAccess`), so the model's
  member loop does not repeat the check.

## Model

| member | source | states |
|---|---|---|
| Registry.SetAccess | lib/cpp.py:64-78 | A directive moves the cursor to its level. It never changes an existing stamp. Every non-dunder name seen so far without a stamp gets the cursor's previous level. No other name gains a stamp. |
| Registry.Register | lib/cpp.py:64-78 | Running a class body's directives in order stamps only names that are declared in the body and are not dunder names. |
| Registry.Lookup | lib/cpp.py:81-86 | `get_member_access`: a stamped name reads its stamp, any other name the table's final cursor. |
| Registry.CursorIsCurrent | lib/cpp.py:64-78 | After a class body, the table's cursor is the level of the body's last directive, or Private when there is none. |
| Registry.StampedNames | lib/cpp.py:71-76 | A name has a stamp if and only if it is not a dunder name and some directive comes after a declaration of it. |
| Registry.StampedLookup | lib/cpp.py:81-86 | A stamped name looks up to the cursor just before the first directive that follows a declaration of it. |
| Registry.StampedByLast | lib/cpp.py:71-78 | A directive that is the first to see a declared name stamps it with the cursor before that directive. |
| Registry.KeepsStamp | lib/cpp.py:75-76 | An item appended to a body leaves an existing stamp's lookup unchanged. |
| Registry.FallbackLookup | lib/cpp.py:81-86 | A dunder name, or a name no directive follows, looks up to the body's final cursor. |
| Registry.StampsAreFinal | lib/cpp.py:75-76 | Extending a body with more declarations and directives never changes or drops an existing stamp. |
| Registry.NoDirectivesUnregistered | lib/cpp.py:81-86 | A body without directives leaves the table in its initial state: cursor Private, no stamps. |
| Registry.NoDirectivesAllPrivate | lib/cpp.py:81-86 | In a class without directives, every name is Private. |
| Registry.DunderUnstamped | lib/cpp.py:71-73 | A dunder name is never stamped. |
| Registry.DeclsKeepRegister | lib/cpp.py:64-78 | Declarations after the last directive leave the table unchanged. Only a directive call stamps names or moves the cursor. |
| Registry.OneDirective | lib/cpp.py:64-86 | In a body with exactly one directive, a non-dunder name declared before it gets the initial Private. Every other name, including one declared after it and any dunder name, reads as that directive's level. |
| Registry.GreeterVisibility | examples/greeter.py:4-20 | In `Greeter`, `name` is Private. `Greeter`, `_Greeter` and `__module__` fall back to the final cursor, which is Public. |
| Gate.MayAccessAsWritten | lib/cpp.py:101-115 | The gate as written. No caller is allowed. Public is allowed. Private is allowed if and only if the caller is an object of exactly the target's class. Protected with a caller raises AttributeError, assuming the caller has no attribute named `instance`. |
| Gate.MayAccessIsPermitted | lib/cpp.py:101-115 | The corrected gate grants exactly the per-level rule: no caller; or Public; or Protected from an object of the target's class or a subclass; or Private from an object of exactly the target's class. |
| Gate.MayAccess | lib/cpp.py:101-115 | The corrected gate the runtime uses: a plain function is let through only at Public; at Private only an object of exactly the target's class passes; an object of the target's own class passes at every level. |
| Gate.FunctionCallerDenied | lib/cpp.py:106-113 | A plain-function caller is allowed if and only if the level is Public. |
| Gate.LevelsAreNested | lib/cpp.py:106-113 | Whatever a caller may reach at Private it may reach at Protected, and whatever it may reach at Protected it may reach at Public. |
| Gate.SelfMayAccess | lib/cpp.py:283-285 | An object may access every level of its own class. This covers teardown's reads of the object's own members. |
| Gate.SubclassSeesProtectedOnly | lib/cpp.py:109-113 | An object of a proper subclass may reach the base class's Protected members but not its Private ones. |
| Gate.ProtectedAsWrittenRaises | lib/cpp.py:109-110 | An object calling a Protected method of its own class raises AttributeError as written. The corrected gate allows it. The class is assumed to declare nothing named `instance`. |
| Gate.AgreesOutsideProtected | lib/cpp.py:101-115 | Apart from Protected with a caller, the corrected gate decides exactly as the code does. |
| Frames.RemoveFirst | lib/cpp.py:147-148 | Removal by identity fails with ValueError if and only if the object is absent. Otherwise the frame shrinks by one. |
| Frames.RemoveFirstSplits | lib/cpp.py:147-148 | When the first identical entry sits between `pre` and `post`, removal yields exactly `pre + post`: only that entry goes, and the others keep their order. Entries before it that are different objects are kept. |
| Frames.RemoveFirstUndone | lib/cpp.py:147-148 | Reinserting the removed object at its old position restores the frame. |
| Frames.RemoveFirstOwnership | lib/cpp.py:147-148 | Removal takes away exactly one occurrence of the object, as a multiset. |
| Frames.PushDtor | lib/cpp.py:151-152 | Pushing appends to the innermost frame only. The outer frames and the depth stay the same. With no frame, it raises IndexError and changes nothing. |
| Frames.PushDtorAcquires | lib/cpp.py:151-152 | A push adds exactly one claim on the object across all frames. |
| Frames.RemoveDtor | lib/cpp.py:155-156 | Detaching removes the object from the innermost frame only. An object absent there raises ValueError and changes nothing. With no frame, it raises IndexError. |
| Frames.RemoveDtorReleases | lib/cpp.py:155-156 | A successful detach gives up exactly one claim on the object. |
| Frames.PushThenRemove | lib/cpp.py:151-156 | Detaching an object straight after pushing it (when the innermost frame did not already hold it) restores the frames exactly: `remove_dtor` undoes `push_dtor`. |
| Frames.Rebind | lib/cpp.py:159-162 | A plain value changes nothing. A tracked value moves from the innermost frame to the end of the next-outer frame, and the other frames are unchanged. It raises when the innermost frame does not hold the value. With a single frame, the removal happens and then IndexError is raised. |
| Frames.RebindConservesOwnership | lib/cpp.py:159-162 | A successful rebind neither gains nor loses a claim on any object. |
| Frames.PushKeepsWithin | lib/cpp.py:151-152 | A push puts no object into the frames other than the one pushed. |
| Frames.RemoveKeepsWithin | lib/cpp.py:155-156 | A detach puts no object into the frames. |
| Frames.RebindKeepsWithin | lib/cpp.py:159-162 | A rebind puts no object into the frames other than the one rebound. |
| Runtime.WrapClass | lib/cpp.py:238-257 | Wrapping keeps the annotated members in declaration order. It gives a level to each annotated member and to each non-dunder method, and only to those. Each level is the class body's registry lookup. |
| Runtime.WrapWithoutDirectives | lib/cpp.py:238-257 | In a class body without directives, every wrapped member and method is Private, including the destructor. |
| Runtime.GetCaller | lib/cpp.py:176-177 | The caller is the top of the caller stack. An empty stack raises IndexError. |
| Runtime.CheckAccess | lib/cpp.py:208-211 | The check passes if and only if the corrected gate allows the top caller. A denial is AccessError. An empty caller stack raises IndexError. |
| Runtime.Tear | lib/cpp.py:278-288 | Teardown of an object first records its `Destroy`. If the destructor's access check fails, nothing else happens and that error is raised. Otherwise the destructor call comes next. Without fuel it raises RecursionError. |
| Runtime.TeardownOrder | lib/cpp.py:278-288 | Teardown is `Destroy`, then the destructor call if one exists, then the tracked member values in reverse declaration order, each torn down with the object pushed as caller. |
| Runtime.MembersTearLikeAFrame | lib/cpp.py:283-288 | The member loop tears down the tracked member values exactly as a frame exit would, if the frame held them in declaration order. |
| Runtime.TearStackReverses | lib/cpp.py:138-142 | A frame's handles are torn down in exactly the reverse of their push order. |
| Runtime.TearStack | lib/cpp.py:141-142 | The `DtorScope` drain loop: an empty frame adds nothing; the last-pushed handle is destroyed first; a drain that completes destroys every handle in the frame. |
| Runtime.TearMembers | lib/cpp.py:283-288 | The member loop: when it completes, every tracked member value has been destroyed; a member list with no tracked value adds nothing. |
| Runtime.TearLeaf | lib/cpp.py:278-288 | An object with no tracked member values tears down to its `Destroy` and, if it has one, its destructor call. |
| Runtime.PrivateDtorBlocksFunctionTeardown | lib/cpp.py:278-281 | Under a plain-function caller, teardown of an object whose destructor is Private records only its `Destroy` and raises AccessError. Its members are not torn down. As in C++, a private destructor keeps outside code from destroying the object. |
| Runtime.ExitFrame | lib/cpp.py:138-142 | Frame exit pops the frame first and then tears down what it held. The heap, classes and scope stacks are unchanged. The trace only grows. An empty frame stack raises IndexError. |
| Runtime.ExitFrameOrder | lib/cpp.py:138-142 | What a frame exit appends to the trace is the teardown of its handles in reverse push order. The frame is gone afterwards. |
| Runtime.ExitLeafFrame | lib/cpp.py:138-142 | Closing a frame that holds one leaf object without a destructor appends exactly that object's `Destroy`. |
| Runtime.TearAgreesOnHeap | lib/cpp.py:138-142 | In the model, teardown depends only on classes, subclass relation and heap, so popping the frame before teardown makes no difference here. This is a property of the model, because destructor bodies are opaque. In the program the order matters: a destructor that returns an object it built rebinds it to the next-outer frame only because lib/cpp.py:139 popped the frame first. |
| Lifecycle.New | lib/cpp.py:269-270 | Construction allocates the object with empty slots and records `Constructed`. It pushes the object onto the innermost frame and leaves every other frame unchanged. With no frame it raises IndexError. |
| Lifecycle.ConstructorRunsAfterRegistration | lib/cpp.py:269-273 | The object is already in the frame that was innermost when the constructor's own call opens a fresh frame above it. |
| Lifecycle.EnterFunction | lib/cpp.py:180-183 | A wrapped function's entry pushes the function as caller and opens an empty frame. Nothing else changes. |
| Lifecycle.EnterMethod | lib/cpp.py:191-196 | A wrapped method checks access against the outer caller before pushing anything. A denial returns the state unchanged with the error. Otherwise it pushes the receiver as caller and as `this`, and opens an empty frame. |
| Lifecycle.Leave | lib/cpp.py:180-201 | A wrapper's exit restores the caller, `this` and frame stacks to their pre-call depth on every path. The heap is unchanged and the trace only grows. A raised body stays raised. A successful result is the body's own value. |
| Lifecycle.RebindOut | lib/cpp.py:184-185 | A returned value goes through the rebind. A raised body leaves the frames alone. |
| Lifecycle.PopScopes | lib/cpp.py:165-173 | A wrapper's exit pops exactly its caller entry, and for a method its `this` entry. |
| Lifecycle.CloseCall | lib/cpp.py:183-187 | The closing half of a wrapper's exit: the frame is popped and the caller (and `this` for a method) are popped, whether or not the teardown raised; the heap is kept and the trace only grows. |
| Lifecycle.LeavePlainValue | lib/cpp.py:180-188 | Returning a plain value leaves the outer frames exactly as they were. |
| Lifecycle.LeaveUnownedValue | lib/cpp.py:159-162 | Returning a tracked object that the call's own frame does not hold makes the return raise. |
| Lifecycle.LeaveOwnedValue | lib/cpp.py:180-188 | Returning a tracked object built in the call puts it last in the caller's frame. |
| Lifecycle.EmptyCallIsInvisible | lib/cpp.py:180-188 | A wrapped call whose body does nothing and returns None gives back exactly the state before the call. |
| Lifecycle.EmptyMethodCallIsInvisible | lib/cpp.py:191-201 | A permitted method call whose body does nothing and returns None changes the state only by recording the method's entry. |
| Lifecycle.ReadAfterWrite | lib/cpp.py:221-235 | Reading a member right after a successful write of it returns the written value. |
| Lifecycle.ReadMember | lib/cpp.py:221-223 | A read checks access first. A denial gives the check's error. Otherwise it returns the slot's value, or AttributeError for an unwritten slot. |
| Lifecycle.WriteMember | lib/cpp.py:225-235 | A write checks access first; a denial changes nothing. On any raise the heap is unchanged. On success, the new events are exactly the full teardown of a tracked previous value, starting with its `Destroy`. An untracked previous value adds no events. A tracked new value is detached from the innermost frame. On success the slot holds the new value, and no other slot or object changes. |
| Lifecycle.Detach | lib/cpp.py:232-233 | The frame side of a write is a detach from the innermost frame for a tracked value, and nothing for a plain one. |
| Lifecycle.StoreSlot | lib/cpp.py:235 | The slot side of a write changes only that slot of that object. |
| Lifecycle.WriteUnownedRaises | lib/cpp.py:232-233 | Storing a tracked object that the innermost frame does not hold raises and leaves the heap unchanged. |
| Scenarios.BoxDirectAccessDenied | lib/cpp.py:221-226 | Outside code reading or writing a Private member gets AccessError, and the state is unchanged. |
| Scenarios.BoxSetValue | lib/cpp.py:191-235 | An outside call to a Public setter passes the gate. Inside, the object writes its own Private member. After the return, `main`'s stacks are as before. |
| Scenarios.BoxGetValue | lib/cpp.py:191-223 | An outside call to a Public getter then reads back the stored value. |
| Scenarios.FactoryBuilds | lib/cpp.py:269-270 | Two constructions inside a call land in that call's frame in construction order. |
| Scenarios.ReturnFirstOfTwo | lib/cpp.py:138-186 | When a call returns the first of two objects it built, that object moves to the caller's frame and the second is destroyed as the frame closes. |
| Scenarios.FactoryReturn | lib/cpp.py:138-186 | `build()` returning A destroys B and hands A to `main`. |
| Scenarios.FactoryOuterExit | lib/cpp.py:138-142 | A is destroyed only when `main`'s own frame closes, after B. |
| Scenarios.PlainLeaf | lib/cpp.py:278-288 | An object of a class with no members and no methods tears down with no destructor call. |
| Scenarios.GreeterWrapped | examples/greeter.py:4-20 | Wrapping the `Greeter` body gives `name` Private and both methods Public. |
| Scenarios.GreeterLeaf | lib/cpp.py:278-281 | A greeter has no tracked member, and its Public destructor passes the check from `main`. |
| Scenarios.GreetersSayGoodbyeInReverse | examples/greeter.py:25-27 | When `main` returns, greeter 2 is destroyed and says goodbye before greeter 1. |

## Left out

- Module-import machinery (lib/cpp.py:301-374) is left out. It is reflection and I/O plumbing: finding the calling module, importing by path, decorating a module's functions and classes, injecting the directive keywords, and `sys.exit`.
- Frame introspection in `set_access` is left out. The names in the class body's namespace are given as an explicit ordered sequence of declarations.
- Descriptor mechanics are left out: `__set_name__` with its `_name` private slot, and `inspect.getmembers` with its ordering and inherited methods. A slot is a map entry. A method is a name with a level.
- The `ThisProxy` forwarding is left out. A method's receiver is explicit, and the `this` stack is kept only as a stack.
- User code is left out. Constructor, destructor and method bodies, and printing, are opaque. The demo's `print` output appears only as the `DtorCalled` events.
- The `__qualname__` versus `__name__` keying of the registry (lib/cpp.py:58, 67, 82) is left out. Classes are identified by one name, so nested classes are not modelled.
- Class objects as values are left out. `is_cpp_class` also holds for the wrapped class itself. The model's tracked values are object handles only.
- A user-defined `__eq__` on a wrapped class is left out. `list.remove` asks the frame entry's own `__eq__` before the identity comparator's, so such a class could make removal pick an entry that is not the object. The model removes by identity only.
- The gate's final `return False` (lib/cpp.py:115) is left out. It is unreachable with three levels.
- Runtime.CheckAccess: it decides with the corrected gate, not the gate as written. In the code (lib/cpp.py:109-110), a Protected check with a caller raises AttributeError at `caller.instance`. So in the code, calling a Protected method or touching a Protected member from a managed caller raises, even from the object itself, unless the caller happens to have an attribute named `instance` (see `Gate.MayAccessAsWritten` below). In the model, `Lifecycle.EnterMethod`, `Lifecycle.ReadMember`, `Lifecycle.WriteMember` and `Runtime.Tear` allow it for an object of the target's class or a subclass. The code's behaviour is `Gate.MayAccessAsWritten`. `Gate.AgreesOutsideProtected` proves that the two gates agree on every other input.
- Gate.MayAccessAsWritten: it assumes the caller has no attribute named `instance`. If the caller's class declares an annotated member `instance`, the code at lib/cpp.py:110 reads it through the member's own access check and then tests `isinstance` on the value, so access may be allowed. If the class declares a method `instance`, the bound method fails `isinstance` and the result is AccessError. A function given such an attribute behaves alike. The model returns AttributeError in all these cases, and `Gate.ProtectedAsWrittenRaises` shares the assumption.
- Inheritance of members and destructors is left out. `create_class_members` reads the class's `__annotations__` (lib/cpp.py:238-243). `__exit__` looks up only `"_" +` the object's own class name and that class's `__member_names__` (lib/cpp.py:279, 284). So a base class's destructor is not called for a subclass object. The model takes each class's member list and destructor as given. The class hierarchy is used only by the access gate.
- Runtime.Tear: the interpreter's recursion limit is a `fuel` parameter. Running out raises RecursionError. The actual limit is not modelled.
- Runtime.Tear: member reads in the teardown loop skip the access check. With the object itself as caller, the corrected gate always allows them (`Gate.SelfMayAccess`). Under the gate as written, a Protected member's read would raise AttributeError, which `getattr` swallows, so the member would be skipped.
- A class whose name starts with `_` is left out. Its destructor name would be a dunder name, which the wrapping never decorates.
- Threads and concurrency are left out. The runtime is single-threaded.

## Findings

| source | as written | input that shows it | evidently intended | confidence | as-written member | corrected member |
|---|---|---|---|---|---|---|
| lib/cpp.py:109-110 | For Protected, the gate evaluates `isinstance(caller.instance, target.__class__)`. The caller is a function or an object, and nothing in the runtime sets an `instance` attribute on it, so the access raises AttributeError. This holds when the caller has no attribute of that name of its own, for example when its class declares no member or method `instance`. | An object calls a Protected method of its own class, so the caller is that object. | Protected is allowed when the caller is an object of the target's class or of a subclass of it. | high, not executed | Gate.MayAccessAsWritten (shown by Gate.ProtectedAsWrittenRaises) | Gate.MayAccess (proved by Gate.MayAccessIsPermitted; used by Runtime.CheckAccess) |
