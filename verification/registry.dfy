/**
 The visibility registry of one class body (lib/cpp.py:26-98).

 A class body is an ordered sequence of declarations interleaved with the
 `public()` / `private()` / `protected()` directives.  A cursor starts at
 Private.  Each directive stamps every name declared so far that has no level
 yet with the cursor's value *before* the directive, and then moves the
 cursor.  A lookup of a name that was never stamped falls back to the cursor's
 *final* value.
 */
module Registry {
  import opened Base

  /** One element of a class body: a name entering the body's namespace
      (a method, a class attribute or an annotated member), or a directive. */
  datatype Item = Decl(name: Name) | Directive(level: Access)

  /** Per-class table (`ClassAccess`, lib/cpp.py:29-32). */
  datatype ClassAccess = ClassAccess(current: Access, members: map<Name, Access>)

  /** The table of a class that never issued a directive. */
  const Unregistered: ClassAccess := ClassAccess(DefaultAccess, map[])

  /** The names declared in a body prefix. */
  function DeclNames(items: seq<Item>): (names: set<Name>)
    ensures forall n :: n in names <==> Decl(n) in items
  {
    set it | it in items && it.Decl? :: it.name
  }

  /** One directive (`set_access`, lib/cpp.py:64-78): `seen` are the names in
      the body's namespace at the time of the call. */
  function SetAccess(ca: ClassAccess, seen: set<Name>, level: Access): (r: ClassAccess)
    ensures r.current == level
    ensures forall n :: n in ca.members ==> n in r.members && r.members[n] == ca.members[n]
    ensures forall n :: n in seen && !IsDunder(n) && n !in ca.members ==>
              n in r.members && r.members[n] == ca.current
    ensures forall n :: n in r.members ==> n in ca.members || (n in seen && !IsDunder(n))
  {
    ClassAccess(level, ca.members + map n | n in seen && !IsDunder(n) && n !in ca.members :: ca.current)
  }

  /** The table after running a whole class body: each directive sees every
      name declared before it. */
  function Register(items: seq<Item>): (ca: ClassAccess)
    ensures forall n :: n in ca.members ==> !IsDunder(n) && Decl(n) in items
  {
    if |items| == 0 then Unregistered
    else
      var prefix := items[..|items| - 1];
      match items[|items| - 1]
      case Decl(_) => Register(prefix)
      case Directive(level) => SetAccess(Register(prefix), DeclNames(prefix), level)
  }

  /** `get_member_access` (lib/cpp.py:81-86): the stamp, or the final cursor. */
  function Lookup(ca: ClassAccess, name: Name): (a: Access)
    ensures name in ca.members ==> a == ca.members[name]
    ensures name !in ca.members ==> a == ca.current
  {
    if name in ca.members then ca.members[name] else ca.current
  }

  // ---------------------------------------------------------------------
  // Reference semantics, stated over positions in the body.
  // ---------------------------------------------------------------------

  /** The level of the last directive in the body, Private if there is none. */
  function Cursor(items: seq<Item>): Access
  {
    if |items| == 0 then DefaultAccess
    else if items[|items| - 1].Directive? then items[|items| - 1].level
    else Cursor(items[..|items| - 1])
  }

  /** The directive at position `j` sees a declaration of `n`. */
  ghost predicate StampedAt(items: seq<Item>, n: Name, j: int)
  {
    0 <= j < |items| && items[j].Directive? && Decl(n) in items[..j]
  }

  /** `j` is the first directive that sees a declaration of `n`. */
  ghost predicate FirstStamp(items: seq<Item>, n: Name, j: int)
  {
    StampedAt(items, n, j) && forall k :: 0 <= k < j ==> !StampedAt(items, n, k)
  }

  lemma PrefixStamps(items: seq<Item>, n: Name)
    requires |items| > 0
    ensures forall j :: 0 <= j < |items| - 1 ==>
              (StampedAt(items, n, j) <==> StampedAt(items[..|items| - 1], n, j))
  {
    var p := items[..|items| - 1];
    forall j | 0 <= j < |p|
      ensures StampedAt(items, n, j) <==> StampedAt(p, n, j)
    {
      assert items[..j] == p[..j];
    }
  }

  /** The table's cursor is the level of the last directive. */
  lemma {:induction false} CursorIsCurrent(items: seq<Item>)
    ensures Register(items).current == Cursor(items)
  {
    if |items| > 0 {
      CursorIsCurrent(items[..|items| - 1]);
    }
  }

  /** Some directive of the body sees a declaration of `n`. */
  function Seen(items: seq<Item>, n: Name): bool
  {
    if |items| == 0 then false
    else
      var p := items[..|items| - 1];
      Seen(p, n) || (items[|items| - 1].Directive? && Decl(n) in p)
  }

  lemma {:induction false} SeenIff(items: seq<Item>, n: Name)
    ensures Seen(items, n) <==> exists j :: StampedAt(items, n, j)
  {
    if |items| > 0 {
      var p := items[..|items| - 1];
      SeenIff(p, n);
      PrefixStamps(items, n);
      if Seen(items, n) {
        if Seen(p, n) {
          var j :| StampedAt(p, n, j);
          assert StampedAt(items, n, j);
        } else {
          assert items[..|p|] == p;
          assert StampedAt(items, n, |p|);
        }
      }
      if exists j :: StampedAt(items, n, j) {
        var j :| StampedAt(items, n, j);
        if j < |p| {
          assert StampedAt(p, n, j);
        } else {
          assert items[..j] == p;
        }
      }
    }
  }

  /** Exactly the names (other than dunder names) that some directive saw
      are stamped. */
  lemma {:induction false} StampedNames(items: seq<Item>, n: Name)
    ensures n in Register(items).members <==> !IsDunder(n) && Seen(items, n)
  {
    if |items| > 0 {
      StampedNames(items[..|items| - 1], n);
    }
  }

  /** A name seen by some directive gets the cursor's value just before the
      first such directive. */
  lemma {:induction false} StampedLookup(items: seq<Item>, n: Name, j: int)
    requires !IsDunder(n) && FirstStamp(items, n, j)
    ensures Lookup(Register(items), n) == Cursor(items[..j])
  {
    var p := items[..|items| - 1];
    PrefixStamps(items, n);
    if j < |p| {
      assert StampedAt(p, n, j);
      forall k | 0 <= k < j
        ensures !StampedAt(p, n, k)
      {
        assert !StampedAt(items, n, k);
      }
      assert p[..j] == items[..j];
      StampedLookup(p, n, j);
      SeenIff(p, n);
      StampedNames(p, n);
      KeepsStamp(items, n);
    } else {
      forall k | 0 <= k < |p|
        ensures !StampedAt(p, n, k)
      {
        assert !StampedAt(items, n, k);
      }
      SeenIff(p, n);
      assert items[..j] == p;
      StampedByLast(items, n);
    }
  }

  /** The last item never changes an existing stamp. */
  lemma KeepsStamp(items: seq<Item>, n: Name)
    requires |items| > 0 && n in Register(items[..|items| - 1]).members
    ensures n in Register(items).members
    ensures Lookup(Register(items), n) == Lookup(Register(items[..|items| - 1]), n)
  {
  }

  /** A directive that is the first to see `n` stamps it with the cursor
      before it. */
  lemma StampedByLast(items: seq<Item>, n: Name)
    requires |items| > 0 && !IsDunder(n)
    requires items[|items| - 1].Directive?
    requires Decl(n) in items[..|items| - 1] && !Seen(items[..|items| - 1], n)
    ensures Lookup(Register(items), n) == Cursor(items[..|items| - 1])
  {
    var p := items[..|items| - 1];
    StampedNames(p, n);
    CursorIsCurrent(p);
  }

  /** A name no directive saw (or a dunder name) falls back to the final
      cursor. */
  lemma FallbackLookup(items: seq<Item>, n: Name)
    requires IsDunder(n) || forall j :: !StampedAt(items, n, j)
    ensures Lookup(Register(items), n) == Cursor(items)
  {
    SeenIff(items, n);
    StampedNames(items, n);
    CursorIsCurrent(items);
  }

  /** Once stamped, a name keeps its level whatever the rest of the body
      declares or directs. */
  lemma {:induction false} StampsAreFinal(items: seq<Item>, more: seq<Item>, n: Name)
    requires n in Register(items).members
    ensures n in Register(items + more).members
    ensures Register(items + more).members[n] == Register(items).members[n]
  {
    if |more| == 0 {
      assert items + more == items;
    } else {
      var shorter := more[..|more| - 1];
      var all := items + more;
      StampsAreFinal(items, shorter, n);
      assert all[..|all| - 1] == items + shorter;
      KeepsStamp(all, n);
    }
  }

  lemma {:induction false} NoDirectivesUnregistered(items: seq<Item>)
    requires forall i :: 0 <= i < |items| ==> items[i].Decl?
    ensures Register(items) == Unregistered
  {
    if |items| > 0 {
      NoDirectivesUnregistered(items[..|items| - 1]);
    }
  }

  /** A body without directives gives every name Private. */
  lemma {:induction false} NoDirectivesAllPrivate(items: seq<Item>, n: Name)
    requires forall i :: 0 <= i < |items| ==> items[i].Decl?
    ensures Lookup(Register(items), n) == Private
  {
    if |items| > 0 {
      NoDirectivesAllPrivate(items[..|items| - 1], n);
    }
  }

  /** Declarations after the last directive leave the table alone. */
  lemma {:induction false} DeclsKeepRegister(items: seq<Item>, post: seq<Item>)
    requires forall i :: 0 <= i < |post| ==> post[i].Decl?
    ensures Register(items + post) == Register(items)
  {
    if |post| == 0 {
      assert items + post == items;
    } else {
      var shorter := post[..|post| - 1];
      DeclsKeepRegister(items, shorter);
      var all := items + post;
      assert all[..|all| - 1] == items + shorter;
      assert all[|all| - 1] == post[|post| - 1];
    }
  }

  /** A body with a single directive: a name declared before it (not a dunder
      name) is stamped with the initial Private; every other name falls back
      to the directive's level. */
  lemma OneDirective(pre: seq<Item>, level: Access, post: seq<Item>, n: Name)
    requires forall i :: 0 <= i < |pre| ==> pre[i].Decl?
    requires forall i :: 0 <= i < |post| ==> post[i].Decl?
    ensures Lookup(Register(pre + [Directive(level)] + post), n) ==
              if Decl(n) in pre && !IsDunder(n) then Private else level
  {
    var upTo := pre + [Directive(level)];
    DeclsKeepRegister(upTo, post);
    NoDirectivesUnregistered(pre);
    assert upTo[..|upTo| - 1] == pre;
    assert Register(upTo) == SetAccess(Unregistered, DeclNames(pre), level);
  }

  /** The namespace of the `Greeter` class body (examples/greeter.py:4-20)
      up to its `public()` directive: the interpreter's own dunder entries and
      the annotated member `name`. */
  function GreeterPrologue(): seq<Item>
  {
    [Decl("__module__"), Decl("__qualname__"), Decl("__annotations__"), Decl("name")]
  }

  /** The whole `Greeter` body: the directive, then constructor and
      destructor. */
  function GreeterBody(): seq<Item>
  {
    GreeterPrologue() + [Directive(Public), Decl("Greeter"), Decl("_Greeter")]
  }

  lemma DunderUnstamped(items: seq<Item>, n: Name)
    requires IsDunder(n)
    ensures n !in Register(items).members
  {
    StampedNames(items, n);
  }

  /** The pieces of `Greeter`'s body around its one directive. */
  lemma GreeterShape()
    ensures GreeterBody() == GreeterPrologue() + [Directive(Public)] + [Decl("Greeter"), Decl("_Greeter")]
  {
  }

  lemma GreeterMemberPrivate()
    ensures Lookup(Register(GreeterBody()), "name") == Private
  {
    GreeterShape();
    OneDirective(GreeterPrologue(), Public, [Decl("Greeter"), Decl("_Greeter")], "name");
  }

  lemma GreeterMethodsPublic(m: Name)
    requires m == "Greeter" || m == "_Greeter"
    ensures Lookup(Register(GreeterBody()), m) == Public
  {
    GreeterShape();
    assert Decl(m) !in GreeterPrologue() by {
      assert |m| == 7 || |m| == 8;
    }
    OneDirective(GreeterPrologue(), Public, [Decl("Greeter"), Decl("_Greeter")], m);
  }

  lemma GreeterDunderPublic()
    ensures Lookup(Register(GreeterBody()), "__module__") == Public
  {
    GreeterShape();
    assert IsDunder("__module__");
    OneDirective(GreeterPrologue(), Public, [Decl("Greeter"), Decl("_Greeter")], "__module__");
  }

  /** In `Greeter` the member declared before `public()` is Private, while
      the two methods after it fall back to the final cursor, Public. */
  lemma GreeterVisibility()
    ensures Lookup(Register(GreeterBody()), "name") == Private
    ensures Lookup(Register(GreeterBody()), "Greeter") == Public
    ensures Lookup(Register(GreeterBody()), "_Greeter") == Public
    ensures Lookup(Register(GreeterBody()), "__module__") == Public
  {
    GreeterMemberPrivate();
    GreeterMethodsPublic("Greeter");
    GreeterMethodsPublic("_Greeter");
    GreeterDunderPublic();
  }
}
