/**
 The destructor-frame stack (`DtorScope`, `push_dtor`, `remove_dtor`,
 `rebind_to_parent_dtor`; lib/cpp.py:118-162).

 Every wrapped call opens a frame; a frame is the ordered list of the
 runtime-managed objects it owns, in acquisition order.  The innermost frame
 is the last one.  Removal is by identity: it deletes the first entry that is
 the very object, never one that merely compares equal.
 */
module Frames {
  import opened Base

  type Frame = seq<ObjId>
  type Frames = seq<Frame>

  /** Position of the first entry identical to `x`. */
  function IndexOf(xs: Frame, x: ObjId): (i: nat)
    requires x in xs
    ensures i < |xs| && xs[i] == x && x !in xs[..i]
  {
    if xs[0] == x then 0 else 1 + IndexOf(xs[1..], x)
  }

  /** `list.remove(IdentityComparator(x))` (lib/cpp.py:118-123, 147-148):
      deletes the first identical entry, or raises ValueError. */
  function RemoveFirst(xs: Frame, x: ObjId): (r: Result<Frame>)
    ensures x !in xs <==> r.Err?
    ensures r.Err? ==> r.error == ValueError
    ensures r.Ok? ==> |r.value| == |xs| - 1
  {
    if |xs| == 0 then Err(ValueError)
    else if xs[0] == x then Ok(xs[1..])
    else match RemoveFirst(xs[1..], x)
      case Ok(rest) => Ok([xs[0]] + rest)
      case Err(e) =>
        assert xs == [xs[0]] + xs[1..];
        Err(e)
  }

  /** What is left is everything before the first identical entry followed
      by everything after it. */
  lemma {:induction false} RemoveFirstSplits(pre: Frame, x: ObjId, post: Frame)
    requires x !in pre
    ensures RemoveFirst(pre + [x] + post, x) == Ok(pre + post)
  {
    var xs := pre + [x] + post;
    if pre == [] {
      assert RemoveFirst(xs, x) == Ok(post) by {
        assert xs[0] == x && xs[1..] == post;
      }
      assert pre + post == post;
    } else {
      var tail := pre[1..];
      assert x !in tail by { assert pre == [pre[0]] + tail; }
      RemoveFirstSplits(tail, x, post);
      assert RemoveFirst(xs, x) == Ok([pre[0]] + (tail + post)) by {
        assert xs[1..] == tail + [x] + post;
        assert xs[0] == pre[0] != x;
      }
      assert pre + post == [pre[0]] + (tail + post) by {
        assert pre == [pre[0]] + tail;
      }
    }
  }

  /** Putting the removed object back where it was restores the frame, so
      removal loses nothing else and keeps the others in their order. */
  lemma RemoveFirstUndone(xs: Frame, x: ObjId)
    requires x in xs
    ensures var i := IndexOf(xs, x);
            RemoveFirst(xs, x).Ok? &&
            xs == RemoveFirst(xs, x).value[..i] + [x] + RemoveFirst(xs, x).value[i..]
  {
    var i := IndexOf(xs, x);
    var pre, post := xs[..i], xs[i + 1..];
    assert xs == pre + [x] + post;
    RemoveFirstSplits(pre, x, post);
    var r := RemoveFirst(xs, x).value;
    assert r[..i] == pre && r[i..] == post;
  }

  lemma RemoveFirstSubset(xs: Frame, x: ObjId, y: ObjId)
    requires x in xs && y in RemoveFirst(xs, x).value
    ensures y in xs
  {
    var i := IndexOf(xs, x);
    var pre, post := xs[..i], xs[i + 1..];
    assert xs == pre + [x] + post;
    RemoveFirstSplits(pre, x, post);
  }

  /** Removal takes away exactly one occurrence of the object. */
  lemma RemoveFirstOwnership(xs: Frame, x: ObjId)
    requires x in xs
    ensures multiset(RemoveFirst(xs, x).value) + multiset{x} == multiset(xs)
  {
    var i := IndexOf(xs, x);
    var pre, post := xs[..i], xs[i + 1..];
    assert xs == pre + [x] + post;
    RemoveFirstSplits(pre, x, post);
  }

  /** Every entry of every frame is in `live`. */
  ghost predicate Within(fs: Frames, live: set<ObjId>)
  {
    forall i, j :: 0 <= i < |fs| && 0 <= j < |fs[i]| ==> fs[i][j] in live
  }

  /** The innermost frame. */
  function Top(fs: Frames): Frame
    requires |fs| > 0
  {
    fs[|fs| - 1]
  }

  /** Every handle owned by some frame, with multiplicity. */
  function Owned(fs: Frames): multiset<ObjId>
  {
    if |fs| == 0 then multiset{} else Owned(fs[..|fs| - 1]) + multiset(Top(fs))
  }

  /** `push_dtor` (lib/cpp.py:151-152): append to the innermost frame. */
  function PushDtor(fs: Frames, x: ObjId): (r: Step<Frames>)
    ensures |fs| == 0 ==> r == Step(fs, Raised(IndexError))
    ensures |fs| > 0 ==> r.status == Done && |r.st| == |fs| && r.st[..|fs| - 1] == fs[..|fs| - 1]
    ensures |fs| > 0 ==> Top(r.st) == Top(fs) + [x]
  {
    if |fs| == 0 then Step(fs, Raised(IndexError))
    else Step(fs[..|fs| - 1] + [Top(fs) + [x]], Done)
  }

  /** `remove_dtor` (lib/cpp.py:155-156): detach from the innermost frame
      only; an object owned by an outer frame is absent there. */
  function RemoveDtor(fs: Frames, x: ObjId): (r: Step<Frames>)
    ensures |fs| == 0 ==> r == Step(fs, Raised(IndexError))
    ensures |fs| > 0 && x !in Top(fs) ==> r == Step(fs, Raised(ValueError))
    ensures |fs| > 0 && x in Top(fs) ==>
              && r.status == Done && |r.st| == |fs| && r.st[..|fs| - 1] == fs[..|fs| - 1]
              && Top(r.st) == RemoveFirst(Top(fs), x).value
  {
    if |fs| == 0 then Step(fs, Raised(IndexError))
    else match RemoveFirst(Top(fs), x)
      case Err(e) => Step(fs, Raised(e))
      case Ok(rest) => Step(fs[..|fs| - 1] + [rest], Done)
  }

  /** `rebind_to_parent_dtor` (lib/cpp.py:159-162): a tracked value leaves the
      innermost frame and joins the end of the next-outer one.  With no outer
      frame the removal has already happened when the IndexError is raised. */
  function Rebind(fs: Frames, v: Value): (r: Step<Frames>)
    ensures |r.st| == |fs|
    ensures !v.Ref? ==> r == Step(fs, Done)
    ensures v.Ref? && (|fs| == 0 || v.id !in Top(fs)) ==> r.st == fs && r.status.Raised?
    ensures v.Ref? && |fs| == 1 && v.id in Top(fs) ==>
              r == Step([RemoveFirst(Top(fs), v.id).value], Raised(IndexError))
    ensures v.Ref? && |fs| >= 2 && v.id in Top(fs) ==>
              && r.status == Done
              && r.st == fs[..|fs| - 2] + [fs[|fs| - 2] + [v.id], RemoveFirst(Top(fs), v.id).value]
  {
    if !v.Ref? then Step(fs, Done)
    else
      var removed := RemoveDtor(fs, v.id);
      if removed.status.Raised? then removed
      else if |fs| < 2 then Step(removed.st, Raised(IndexError))
      else
        var outer := removed.st[..|fs| - 1];
        Step(outer[..|fs| - 2] + [outer[|fs| - 2] + [v.id]] + [Top(removed.st)], Done)
  }

  lemma OwnedAppend(fs: Frames, f: Frame)
    ensures Owned(fs + [f]) == Owned(fs) + multiset(f)
  {
    assert (fs + [f])[..|fs|] == fs;
  }

  /** A successful rebind moves the object between frames: no handle is
      gained or lost. */
  lemma RebindConservesOwnership(fs: Frames, v: Value)
    requires Rebind(fs, v).status == Done
    ensures Owned(Rebind(fs, v).st) == Owned(fs)
  {
    if v.Ref? {
      var n := |fs|;
      var rest := RemoveFirst(Top(fs), v.id).value;
      RemoveFirstOwnership(Top(fs), v.id);
      var base := fs[..n - 2];
      assert fs == base + [fs[n - 2]] + [Top(fs)];
      OwnedAppend(base + [fs[n - 2]], Top(fs));
      OwnedAppend(base, fs[n - 2]);
      OwnedAppend(base + [fs[n - 2] + [v.id]], rest);
      OwnedAppend(base, fs[n - 2] + [v.id]);
      assert Rebind(fs, v).st == base + [fs[n - 2] + [v.id]] + [rest];
    }
  }

  /** A successful detach gives up exactly one claim on the object. */
  lemma RemoveDtorReleases(fs: Frames, x: ObjId)
    requires RemoveDtor(fs, x).status == Done
    ensures Owned(RemoveDtor(fs, x).st) + multiset{x} == Owned(fs)
  {
    var n := |fs|;
    RemoveFirstOwnership(Top(fs), x);
    assert fs == fs[..n - 1] + [Top(fs)];
    OwnedAppend(fs[..n - 1], Top(fs));
    OwnedAppend(fs[..n - 1], RemoveFirst(Top(fs), x).value);
  }

  /** A successful push adds exactly one claim on the object. */
  lemma PushDtorAcquires(fs: Frames, x: ObjId)
    requires |fs| > 0
    ensures Owned(PushDtor(fs, x).st) == Owned(fs) + multiset{x}
  {
    var pushed := PushDtor(fs, x).st;
    assert pushed[..|pushed| - 1] == fs[..|fs| - 1];
    assert Owned(pushed) == Owned(fs[..|fs| - 1]) + multiset(Top(fs) + [x]);
  }

  /** Detaching an object right after pushing it, when the innermost frame
      did not already hold it, gives back the frames as they were. */
  lemma PushThenRemove(fs: Frames, x: ObjId)
    requires |fs| > 0 && x !in Top(fs)
    ensures RemoveDtor(PushDtor(fs, x).st, x) == Step(fs, Done)
  {
    var n := |fs|;
    var pushed := PushDtor(fs, x).st;
    var t := Top(fs);
    RemoveFirstSplits(t, x, []);
    assert t + [x] + [] == t + [x] && t + [] == t;
    var r := RemoveDtor(pushed, x);
    assert Top(r.st) == t;
    assert r.st == r.st[..n - 1] + [Top(r.st)];
    assert fs == fs[..n - 1] + [t];
  }

  /** The frame operations never introduce a handle other than the one they
      are given. */
  lemma PushKeepsWithin(fs: Frames, x: ObjId, live: set<ObjId>)
    requires Within(fs, live) && x in live
    ensures Within(PushDtor(fs, x).st, live)
  {
    var r := PushDtor(fs, x).st;
    if |fs| > 0 {
      forall i, j | 0 <= i < |r| && 0 <= j < |r[i]|
        ensures r[i][j] in live
      {
        if i < |fs| - 1 {
          assert r[i] == r[..|fs| - 1][i];
        } else if j < |Top(fs)| {
          assert r[i][j] == Top(fs)[j];
        }
      }
    }
  }

  lemma RemoveKeepsWithin(fs: Frames, x: ObjId, live: set<ObjId>)
    requires Within(fs, live)
    ensures Within(RemoveDtor(fs, x).st, live)
  {
    var r := RemoveDtor(fs, x).st;
    if |fs| > 0 && x in Top(fs) {
      forall i, j | 0 <= i < |r| && 0 <= j < |r[i]|
        ensures r[i][j] in live
      {
        if i < |fs| - 1 {
          assert r[i] == r[..|fs| - 1][i];
        } else {
          RemoveFirstSubset(Top(fs), x, r[i][j]);
        }
      }
    }
  }

  lemma RebindKeepsWithin(fs: Frames, v: Value, live: set<ObjId>)
    requires Within(fs, live) && (v.Ref? ==> v.id in live)
    ensures Within(Rebind(fs, v).st, live)
  {
    var r := Rebind(fs, v).st;
    if v.Ref? && |fs| > 0 && v.id in Top(fs) {
      var rest := RemoveFirst(Top(fs), v.id).value;
      forall i, j | 0 <= i < |r| && 0 <= j < |r[i]|
        ensures r[i][j] in live
      {
        if i == |r| - 1 {
          assert r[i] == rest;
          RemoveFirstSubset(Top(fs), v.id, r[i][j]);
        } else if i == |r| - 2 {
          assert r[i] == fs[i] + [v.id];
        } else {
          assert r[i] == fs[i];
        }
      }
    }
  }

  lemma OpenKeepsWithin(fs: Frames, live: set<ObjId>)
    requires Within(fs, live)
    ensures Within(fs + [[]], live)
  {
  }

  lemma WithinGrows(fs: Frames, live: set<ObjId>, more: set<ObjId>)
    requires Within(fs, live) && live <= more
    ensures Within(fs, more)
  {
  }
}
