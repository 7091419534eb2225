/** The category tree: parent links, the ancestor walk that guards them, and why they stay a forest. */
module Categories {
  import opened Common

  /** A category's id is its row. A parent link may, in arbitrary data, be cyclic or name a row that is not there. */
  datatype Category = Category(parent: Option<nat>, deleted: bool)

  datatype ParentChange = KeepParent | ClearParent | SetParent(parent: nat)
  datatype Answer = Accepted | CategoryNotFound | InvalidParent | CircularParent

  // ------------------------------------------------------------------------------------------
  // Ancestors

  /** `findUnique(...)?.parentId ?? null`. */
  function ParentOf(cats: seq<Category>, id: nat): Option<nat> {
    if id < |cats| then cats[id].parent else None
  }

  /** The n-th ancestor, counting the starting point as the 0-th. */
  function Ancestor(cats: seq<Category>, start: nat, n: nat): Option<nat> {
    if n == 0 then Some(start)
    else
      match Ancestor(cats, start, n - 1)
      case None => None
      case Some(id) => ParentOf(cats, id)
  }

  /** `target` is `start` or one of its ancestors. */
  ghost predicate Reaches(cats: seq<Category>, start: nat, target: nat) {
    exists n: nat :: Ancestor(cats, start, n) == Some(target)
  }

  /** The ancestor chain of `start` ends at a root. */
  ghost predicate Ends(cats: seq<Category>, start: nat) {
    exists n: nat :: Ancestor(cats, start, n) == None
  }

  /** No category is its own proper ancestor: from every one of them the parent links lead to a root. */
  ghost predicate Forest(cats: seq<Category>) {
    forall c: nat :: c < |cats| ==> Ends(cats, c)
  }

  lemma {:induction false} AncestorSplit(cats: seq<Category>, start: nat, a: nat, b: nat)
    ensures Ancestor(cats, start, a + b) ==
            match Ancestor(cats, start, a) case Some(mid) => Ancestor(cats, mid, b) case None => None
  {
    if b > 0 {
      AncestorSplit(cats, start, a, b - 1);
    }
  }

  /** Once a walk repeats, it stays among what it has visited. */
  lemma {:induction false} RepeatingWalkIsClosed(cats: seq<Category>, start: nat, j: nat, n: nat, m: nat)
    requires j < n && Ancestor(cats, start, j) == Ancestor(cats, start, n)
    ensures exists i: nat :: i < n && Ancestor(cats, start, m) == Ancestor(cats, start, i)
    decreases m
  {
    if m >= n {
      AncestorSplit(cats, start, n, m - n);
      AncestorSplit(cats, start, j, m - n);
      RepeatingWalkIsClosed(cats, start, j, n, m - (n - j));
    }
  }

  function Unvisited(cats: seq<Category>, visited: set<nat>): set<nat> {
    set v: nat | v < |cats| && v !in visited
  }

  /**
   * The walk up from a proposed parent. It ends on any parent links, cyclic ones included, and accepts exactly
   * when the category being moved is not the proposed parent or one of its ancestors.
   */
  method AssertNoCycle(cats: seq<Category>, category: nat, proposedParent: nat) returns (ok: bool)
    ensures ok <==> !Reaches(cats, proposedParent, category)
  {
    var current := Some(proposedParent);
    var visited: set<nat> := {};
    ghost var n: nat := 0;
    while current.Some?
      invariant current == Ancestor(cats, proposedParent, n)
      invariant forall i: nat :: i < n ==> Ancestor(cats, proposedParent, i) != Some(category)
      invariant forall v :: v in visited ==> exists i: nat :: i < n && Ancestor(cats, proposedParent, i) == Some(v)
      decreases Unvisited(cats, visited), current.Some?
    {
      var id := current.value;
      if id == category {
        return false;
      }
      if id in visited {
        ghost var j: nat :| j < n && Ancestor(cats, proposedParent, j) == Some(id);
        forall m: nat ensures Ancestor(cats, proposedParent, m) != Some(category) {
          RepeatingWalkIsClosed(cats, proposedParent, j, n, m);
        }
        return true;
      }
      ghost var unvisited := Unvisited(cats, visited);
      visited := visited + {id};
      current := ParentOf(cats, id);
      n := n + 1;
      assert Ancestor(cats, proposedParent, n - 1) == Some(id);
      assert id < |cats| ==> id in unvisited && id !in Unvisited(cats, visited);
    }
    forall m: nat ensures Ancestor(cats, proposedParent, m) != Some(category) {
      if m >= n {
        AncestorSplit(cats, proposedParent, n, m - n);
      }
    }
    ok := true;
  }

  // ------------------------------------------------------------------------------------------
  // Create and update

  predicate Exists(cats: seq<Category>, id: nat) {
    id < |cats| && !cats[id].deleted
  }

  function CreateSpec(cats: seq<Category>, parent: Option<nat>): (seq<Category>, Answer) {
    if parent.Some? && !Exists(cats, parent.value) then (cats, InvalidParent)
    else (cats + [Category(parent, false)], Accepted)
  }

  /** The write of an update that sets a parent. */
  function Moved(cats: seq<Category>, category: nat, parent: Option<nat>): seq<Category>
    requires category < |cats|
  {
    cats[category := cats[category].(parent := parent)]
  }

  ghost function UpdateSpec(cats: seq<Category>, category: nat, change: ParentChange): (seq<Category>, Answer) {
    if !Exists(cats, category) then (cats, CategoryNotFound)
    else
      match change
      case KeepParent => (cats, Accepted)
      case ClearParent => (Moved(cats, category, None), Accepted)
      case SetParent(p) =>
        if !Exists(cats, p) then (cats, InvalidParent)
        else if Reaches(cats, p, category) then (cats, CircularParent)
        else (Moved(cats, category, Some(p)), Accepted)
  }

  class CategoryStore {
    var categories: seq<Category>

    constructor ()
      ensures categories == []
    {
      categories := [];
    }

    method Create(parent: Option<nat>) returns (answer: Answer)
      modifies this
      ensures (categories, answer) == CreateSpec(old(categories), parent)
    {
      if parent.Some? {
        var found := AssertParentExists(parent.value);
        if !found {
          return InvalidParent;
        }
      }
      categories := categories + [Category(parent, false)];
      answer := Accepted;
    }

    method AssertParentExists(parent: nat) returns (found: bool)
      ensures found <==> Exists(categories, parent)
    {
      found := parent < |categories| && !categories[parent].deleted;
    }

    method Update(category: nat, change: ParentChange) returns (answer: Answer)
      modifies this
      ensures (categories, answer) == UpdateSpec(old(categories), category, change)
    {
      if !Exists(categories, category) {
        return CategoryNotFound;
      }
      match change {
        case KeepParent =>
        case ClearParent =>
          categories := categories[category := categories[category].(parent := None)];
        case SetParent(p) =>
          var found := AssertParentExists(p);
          if !found {
            return InvalidParent;
          }
          var ok := AssertNoCycle(categories, category, p);
          if !ok {
            return CircularParent;
          }
          categories := categories[category := categories[category].(parent := Some(p))];
      }
      answer := Accepted;
    }
  }

  // ------------------------------------------------------------------------------------------
  // The links stay a forest

  /** Changing the parent of `c` changes no walk that has not yet met `c`. */
  lemma {:induction false} WalkBeforeMove(cats: seq<Category>, c: nat, parent: Option<nat>, start: nat, n: nat)
    requires c < |cats| && forall i: nat :: i < n ==> Ancestor(cats, start, i) != Some(c)
    ensures Ancestor(Moved(cats, c, parent), start, n) == Ancestor(cats, start, n)
  {
    if n > 0 {
      WalkBeforeMove(cats, c, parent, start, n - 1);
      assert Ancestor(cats, start, n - 1) != Some(c);
    }
  }

  lemma {:induction false} FirstMeeting(cats: seq<Category>, start: nat, c: nat, n: nat) returns (k: nat)
    requires Ancestor(cats, start, n) == Some(c)
    ensures k <= n && Ancestor(cats, start, k) == Some(c)
    ensures forall i: nat :: i < k ==> Ancestor(cats, start, i) != Some(c)
  {
    if i: nat :| i < n && Ancestor(cats, start, i) == Some(c) {
      k := FirstMeeting(cats, start, c, i);
    } else {
      k := n;
    }
  }

  /** A walk that avoids `c`, or meets it and continues from a parent whose walk ends, ends after the move. */
  lemma WalkEndsAfterMove(cats: seq<Category>, c: nat, parent: Option<nat>, start: nat)
    requires c < |cats| && Ends(cats, start)
    requires parent.Some? ==> Ends(cats, parent.value) && !Reaches(cats, parent.value, c)
    ensures Ends(Moved(cats, c, parent), start)
  {
    var after := Moved(cats, c, parent);
    if Reaches(cats, start, c) {
      var hit: nat :| Ancestor(cats, start, hit) == Some(c);
      var k := FirstMeeting(cats, start, c, hit);
      WalkBeforeMove(cats, c, parent, start, k);
      assert Ancestor(after, start, k + 1) == parent;
      if parent.Some? {
        var m: nat :| Ancestor(cats, parent.value, m) == None;
        WalkBeforeMove(cats, c, parent, parent.value, m);
        AncestorSplit(after, start, k + 1, m);
        assert Ancestor(after, start, k + 1 + m) == None;
      }
    } else {
      var m: nat :| Ancestor(cats, start, m) == None;
      WalkBeforeMove(cats, c, parent, start, m);
    }
  }

  lemma {:induction false} LoopNeverEnds(cats: seq<Category>, c: nat, length: nat, m: nat)
    requires length > 0 && Ancestor(cats, c, length) == Some(c)
    ensures Ancestor(cats, c, m) != None
  {
    if m < length {
      AncestorSplit(cats, c, m, length - m);
    } else {
      AncestorSplit(cats, c, length, m - length);
      LoopNeverEnds(cats, c, length, m - length);
    }
  }

  /** Moving under one's own descendant closes a loop. */
  lemma MoveUnderDescendantLoops(cats: seq<Category>, c: nat, p: nat)
    requires c < |cats| && Reaches(cats, p, c)
    ensures !Ends(Moved(cats, c, Some(p)), c)
  {
    var after := Moved(cats, c, Some(p));
    var hit: nat :| Ancestor(cats, p, hit) == Some(c);
    var k := FirstMeeting(cats, p, c, hit);
    WalkBeforeMove(cats, c, Some(p), p, k);
    assert Ancestor(after, c, 0) == Some(c) && Ancestor(after, c, 1) == Some(p);
    AncestorSplit(after, c, 1, k);
    forall m: nat ensures Ancestor(after, c, m) != None {
      LoopNeverEnds(after, c, 1 + k, m);
    }
  }

  /** At the moment of the write, a move keeps the forest exactly when the walk's condition holds at that moment. */
  lemma MoveKeepsForestIff(cats: seq<Category>, c: nat, p: nat)
    requires Forest(cats) && c < |cats| && p < |cats|
    ensures Forest(Moved(cats, c, Some(p))) <==> !Reaches(cats, p, c)
  {
    if Reaches(cats, p, c) {
      MoveUnderDescendantLoops(cats, c, p);
    } else {
      forall x: nat | x < |cats| ensures Ends(Moved(cats, c, Some(p)), x) {
        WalkEndsAfterMove(cats, c, Some(p), x);
      }
    }
  }

  lemma UpdateKeepsForest(cats: seq<Category>, category: nat, change: ParentChange)
    requires Forest(cats)
    ensures Forest(UpdateSpec(cats, category, change).0)
  {
    if UpdateSpec(cats, category, change).1 == Accepted {
      match change
      case KeepParent =>
      case ClearParent =>
        forall x: nat | x < |cats| ensures Ends(Moved(cats, category, None), x) {
          WalkEndsAfterMove(cats, category, None, x);
        }
      case SetParent(p) => MoveKeepsForestIff(cats, category, p);
    }
  }

  /** Parent links name rows that exist (the foreign key). */
  ghost predicate LinksOk(cats: seq<Category>) {
    forall i :: 0 <= i < |cats| && cats[i].parent.Some? ==> cats[i].parent.value < |cats|
  }

  lemma {:induction false} WalkUnaffectedByCreate(cats: seq<Category>, created: Category, start: nat, n: nat)
    requires start < |cats| && LinksOk(cats)
    ensures Ancestor(cats + [created], start, n) == Ancestor(cats, start, n)
    ensures Ancestor(cats, start, n).Some? ==> Ancestor(cats, start, n).value < |cats|
  {
    if n > 0 {
      WalkUnaffectedByCreate(cats, created, start, n - 1);
    }
  }

  lemma CreateKeepsForest(cats: seq<Category>, parent: Option<nat>)
    requires Forest(cats) && LinksOk(cats)
    ensures Forest(CreateSpec(cats, parent).0) && LinksOk(CreateSpec(cats, parent).0)
  {
    if CreateSpec(cats, parent).1 == Accepted {
      var created := Category(parent, false);
      var after := cats + [created];
      forall x: nat | x < |cats| ensures Ends(after, x) {
        assert Ends(cats, x);
        var m: nat :| Ancestor(cats, x, m) == None;
        WalkUnaffectedByCreate(cats, created, x, m);
      }
      assert Ancestor(after, |cats|, 0) == Some(|cats|) && Ancestor(after, |cats|, 1) == parent;
      if parent.Some? {
        assert Ends(after, parent.value);
        var m: nat :| Ancestor(after, parent.value, m) == None;
        AncestorSplit(after, |cats|, 1, m);
        assert Ancestor(after, |cats|, 1 + m) == None;
      }
    }
  }

  datatype Step = CreateCategory(parent: Option<nat>) | UpdateCategory(category: nat, change: ParentChange)

  ghost function Run(cats: seq<Category>, steps: seq<Step>): seq<Category>
    decreases |steps|
  {
    if steps == [] then cats
    else
      match steps[0]
      case CreateCategory(p) => Run(CreateSpec(cats, p).0, steps[1..])
      case UpdateCategory(c, change) => Run(UpdateSpec(cats, c, change).0, steps[1..])
  }

  /** Through any run of creates and updates, each one atomic, the categories stay a forest. */
  lemma {:induction false} EveryRunKeepsForest(cats: seq<Category>, steps: seq<Step>)
    requires Forest(cats) && LinksOk(cats)
    ensures Forest(Run(cats, steps)) && LinksOk(Run(cats, steps))
    decreases |steps|
  {
    if steps != [] {
      match steps[0]
      case CreateCategory(p) =>
        CreateKeepsForest(cats, p);
        EveryRunKeepsForest(CreateSpec(cats, p).0, steps[1..]);
      case UpdateCategory(c, change) =>
        UpdateKeepsForest(cats, c, change);
        EveryRunKeepsForest(UpdateSpec(cats, c, change).0, steps[1..]);
    }
  }

  /**
   * The walk is outside the write: two updates that both walk first, moving `a` under `b` and `b` under `a`, are
   * both accepted and close a loop whenever neither is an ancestor of the other.
   */
  lemma ConcurrentMovesMakeALoop(cats: seq<Category>, a: nat, b: nat)
    requires Forest(cats) && Exists(cats, a) && Exists(cats, b)
    requires !Reaches(cats, a, b) && !Reaches(cats, b, a)
    ensures UpdateSpec(cats, a, SetParent(b)).1 == Accepted && UpdateSpec(cats, b, SetParent(a)).1 == Accepted
    ensures !Forest(Moved(Moved(cats, a, Some(b)), b, Some(a)))
  {
    var mid := Moved(cats, a, Some(b));
    MoveKeepsForestIff(cats, a, b);
    assert Ancestor(mid, a, 0) == Some(a) && Ancestor(mid, a, 1) == Some(b);
    MoveKeepsForestIff(mid, b, a);
  }

  // ------------------------------------------------------------------------------------------
  // When the calls accept, and what they leave

  /** `parent` is the category itself or below it: the category is met on the way up from it. */
  ghost predicate IsUnder(cats: seq<Category>, parent: nat, category: nat) {
    parent == category || exists n: nat :: n >= 1 && Ancestor(cats, parent, n) == Some(category)
  }

  /** The parent that a change asks for. */
  function Requested(before: Option<nat>, change: ParentChange): Option<nat> {
    match change
    case KeepParent => before
    case ClearParent => None
    case SetParent(p) => Some(p)
  }

  /** Accepted exactly when the category exists and a new parent exists and is not under it; then linked as asked. */
  lemma UpdateIff(cats: seq<Category>, category: nat, change: ParentChange)
    ensures var (after, answer) := UpdateSpec(cats, category, change);
            && (answer == Accepted <==>
                  && category < |cats| && !cats[category].deleted
                  && (change.SetParent? ==>
                        && change.parent < |cats| && !cats[change.parent].deleted
                        && !IsUnder(cats, change.parent, category)))
            && (answer == CategoryNotFound <==> category >= |cats| || cats[category].deleted)
            && (answer == InvalidParent ==>
                  change.SetParent? && (change.parent >= |cats| || cats[change.parent].deleted))
            && (answer == CircularParent ==>
                  && change.SetParent? && IsUnder(cats, change.parent, category)
                  && change.parent < |cats| && !cats[change.parent].deleted)
            && (answer != Accepted ==> after == cats)
            && (answer == Accepted ==>
                  && |after| == |cats|
                  && ParentOf(after, category) == Requested(ParentOf(cats, category), change)
                  && after[category].deleted == cats[category].deleted
                  && (forall c :: 0 <= c < |cats| && c != category ==> after[c] == cats[c]))
  {
    if change.SetParent? {
      assert Ancestor(cats, change.parent, 0) == Some(change.parent);
      if Reaches(cats, change.parent, category) {
        var n: nat :| Ancestor(cats, change.parent, n) == Some(category);
        assert n == 0 ==> change.parent == category;
      }
    }
  }

  /** After an accepted move the category hangs below its new parent and below everything above that. */
  lemma MovedUnderParent(cats: seq<Category>, category: nat, p: nat, n: nat)
    requires UpdateSpec(cats, category, SetParent(p)).1 == Accepted
    ensures var after := UpdateSpec(cats, category, SetParent(p)).0;
            Ancestor(after, category, n + 1) == Ancestor(cats, p, n)
  {
    UpdateIff(cats, category, SetParent(p));
    var after := UpdateSpec(cats, category, SetParent(p)).0;
    assert Ancestor(after, category, 0) == Some(category) && Ancestor(after, category, 1) == Some(p);
    AncestorSplit(after, category, 1, n);
    WalkBeforeMove(cats, category, Some(p), p, n);
  }

  /** A create is accepted exactly when its parent, if any, exists; the new row is last and has just that parent. */
  lemma CreateIff(cats: seq<Category>, parent: Option<nat>)
    ensures var (after, answer) := CreateSpec(cats, parent);
            && (answer == Accepted <==> parent.None? || (parent.value < |cats| && !cats[parent.value].deleted))
            && (answer != Accepted ==> after == cats && answer == InvalidParent)
            && (answer == Accepted ==>
                  && |after| == |cats| + 1 && after[..|cats|] == cats
                  && ParentOf(after, |cats|) == parent && !after[|cats|].deleted)
  {
  }
}
