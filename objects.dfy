/**
 * `animation_qol/utils/objects.py`: walking a collection tree, removing
 * repeated objects, gathering the objects a flip works on, mirroring an
 * object's scale, and the visibility and lighting tests of scene cleanup.
 */
module Objects {
  import opened Common
  import opened HostData

  // ---------------------------------------------------------------------------
  // iter_collection_objects
  // ---------------------------------------------------------------------------

  /** The objects of the collections `cs` and of all their descendants, each collection's own objects before its children's. */
  function TreeObjects(cs: seq<Collection>): seq<SceneObject>
    decreases cs
  {
    if cs == [] then []
    else cs[0].objects + TreeObjects(cs[0].children) + TreeObjects(cs[1..])
  }

  /** `iter_collection_objects`: nothing for `None`; otherwise the own objects, then (when asked) each child collection in turn. */
  function CollectionObjects(collection: Option<Collection>, includeChildren: bool): seq<SceneObject>
  {
    match collection
    case None => []
    case Some(c) => c.objects + (if includeChildren then TreeObjects(c.children) else [])
  }

  /** The own objects come first; without children they are all there is. */
  lemma CollectionObjectsOwnFirst(c: Collection, includeChildren: bool)
    ensures var r := CollectionObjects(Some(c), includeChildren);
      && |c.objects| <= |r| && r[..|c.objects|] == c.objects
      && (!includeChildren ==> r == c.objects)
  {
  }

  /** A child collection is walked with its own children, so all its objects appear. */
  lemma {:induction false} TreeObjectsChild(cs: seq<Collection>, i: nat)
    requires i < |cs|
    ensures forall x :: x in CollectionObjects(Some(cs[i]), true) ==> x in TreeObjects(cs)
    decreases cs
  {
    if i > 0 {
      TreeObjectsChild(cs[1..], i - 1);
      assert cs[1..][i - 1] == cs[i];
    }
  }

  /** Every object yielded belongs to one of the collections or to a descendant. */
  lemma {:induction false} TreeObjectsOrigin(cs: seq<Collection>, x: SceneObject)
    requires x in TreeObjects(cs)
    ensures exists i :: 0 <= i < |cs| && (x in cs[i].objects || x in TreeObjects(cs[i].children))
    decreases cs
  {
    if x !in cs[0].objects && x !in TreeObjects(cs[0].children) {
      TreeObjectsOrigin(cs[1..], x);
      var i :| 0 <= i < |cs[1..]| && (x in cs[1..][i].objects || x in TreeObjects(cs[1..][i].children));
      assert cs[1..][i] == cs[i + 1];
    }
  }

  // ---------------------------------------------------------------------------
  // _dedupe_objects
  // ---------------------------------------------------------------------------

  /** The specification of `_dedupe_objects`: `None` dropped, each object kept at its first occurrence. */
  function Dedupe(objs: seq<SceneObject?>): (r: seq<SceneObject>)
    ensures Distinct(r)
    ensures forall i :: 0 <= i < |r| ==> r[i] in objs
    ensures forall j :: 0 <= j < |objs| && objs[j] != null ==> objs[j] in r
  {
    if objs == [] then []
    else
      var prev := Dedupe(objs[..|objs| - 1]);
      var x := objs[|objs| - 1];
      assert objs == objs[..|objs| - 1] + [x];
      if x == null || x in prev then prev else prev + [x]
  }

  /** Position of the first occurrence of `x` in `s`. */
  function IndexOf(s: seq<SceneObject?>, x: SceneObject?): (i: nat)
    requires x in s
    ensures i < |s| && s[i] == x && x !in s[..i]
  {
    if s[0] == x then 0 else 1 + IndexOf(s[1..], x)
  }

  lemma IndexOfPrefix(s: seq<SceneObject?>, n: nat, x: SceneObject?)
    requires n <= |s| && x in s[..n]
    ensures IndexOf(s, x) == IndexOf(s[..n], x)
  {
    var j := IndexOf(s[..n], x);
    assert s[..n][..j] == s[..j];
  }

  /** Membership in the de-duplicated list, for one object. */
  lemma DedupeMember(objs: seq<SceneObject?>, x: SceneObject)
    ensures x in Dedupe(objs) <==> x in objs
  {
    var r := Dedupe(objs);
    if x in objs {
      var j :| 0 <= j < |objs| && objs[j] == x;
    }
  }

  /** The objects of `r` all come from `s`, in the order of their first occurrences there. */
  ghost predicate InFirstOrder(r: seq<SceneObject>, s: seq<SceneObject?>)
  {
    (forall k :: 0 <= k < |r| ==> r[k] in s)
    && forall i, j :: 0 <= i < j < |r| ==> IndexOf(s, r[i]) < IndexOf(s, r[j])
  }

  /** Extending `s` keeps the order of objects already there. */
  lemma InFirstOrderExtend(r: seq<SceneObject>, s: seq<SceneObject?>, x: SceneObject?)
    requires InFirstOrder(r, s)
    ensures InFirstOrder(r, s + [x])
    ensures forall k :: 0 <= k < |r| ==> IndexOf(s + [x], r[k]) < |s|
  {
    assert (s + [x])[..|s|] == s;
    forall k | 0 <= k < |r| ensures IndexOf(s + [x], r[k]) == IndexOf(s, r[k]) < |s| {
      IndexOfPrefix(s + [x], |s|, r[k]);
    }
  }

  /** The kept objects are in the order of their first occurrences. */
  lemma {:induction false} DedupeOrder(objs: seq<SceneObject?>)
    ensures InFirstOrder(Dedupe(objs), objs)
  {
    if objs != [] {
      var n := |objs| - 1;
      var prev := Dedupe(objs[..n]);
      var x := objs[n];
      assert objs == objs[..n] + [x];
      DedupeOrder(objs[..n]);
      InFirstOrderExtend(prev, objs[..n], x);
      if x != null && x !in prev {
        DedupeMember(objs[..n], x);
        var r := prev + [x];
        assert Dedupe(objs) == r;
        forall i, j | 0 <= i < j < |r| ensures IndexOf(objs, r[i]) < IndexOf(objs, r[j]) {
          if j < |prev| {
            assert r[i] == prev[i] && r[j] == prev[j];
          } else {
            assert r[i] == prev[i];
          }
        }
        assert forall k :: 0 <= k < |r| ==> r[k] in objs;
      } else {
        assert Dedupe(objs) == prev;
      }
    }
  }

  /** The objects kept from a first part come first when more objects follow. */
  lemma {:induction false} DedupePrefix(a: seq<SceneObject?>, b: seq<SceneObject?>)
    ensures var r := Dedupe(a + b); |Dedupe(a)| <= |r| && r[..|Dedupe(a)|] == Dedupe(a)
  {
    if b != [] {
      var n := |b| - 1;
      assert (a + b)[..|a + b| - 1] == a + b[..n];
      DedupePrefix(a, b[..n]);
    } else {
      assert a + b == a;
    }
  }

  /** `_dedupe_objects`: a loop with a `seen` set and a growing list. */
  method DedupeObjects(objects: seq<SceneObject?>) returns (unique: seq<SceneObject>)
    ensures unique == Dedupe(objects)
  {
    var seen: set<SceneObject> := {};
    unique := [];
    var i := 0;
    while i < |objects|
      invariant 0 <= i <= |objects|
      invariant unique == Dedupe(objects[..i])
      invariant forall x: SceneObject :: x in seen <==> x in unique
    {
      var obj := objects[i];
      assert objects[..i + 1][..i] == objects[..i];
      if obj != null && obj !in seen {
        seen := seen + {obj};
        unique := unique + [obj];
      }
      i := i + 1;
    }
    assert objects[..i] == objects;
  }

  // ---------------------------------------------------------------------------
  // gather_scope_objects
  // ---------------------------------------------------------------------------

  /** `flip_scope`: the selection, or a chosen collection. */
  datatype Scope = SelectionScope | CollectionScope

  /** The `children_recursive` of every object of `objs`, in order. */
  function FlatChildren(objs: seq<SceneObject?>): seq<SceneObject?>
  {
    if objs == [] then []
    else FlatChildren(objs[..|objs| - 1]) + (if objs[|objs| - 1] == null then [] else objs[|objs| - 1].childrenRecursive)
  }

  lemma {:induction false} FlatChildrenMember(objs: seq<SceneObject?>, x: SceneObject)
    ensures x in FlatChildren(objs) <==> exists o: SceneObject :: o in objs && x in o.childrenRecursive
  {
    if objs != [] {
      var n := |objs| - 1;
      FlatChildrenMember(objs[..n], x);
      assert objs == objs[..n] + [objs[n]];
      if objs[n] != null && x in objs[n].childrenRecursive {
        assert objs[n] in objs;
      }
    }
  }

  /** The objects of the scope before children are added. */
  function ScopeBase(selected: seq<SceneObject>, scope: Scope, collection: Option<Collection>,
                     includeSubcollections: bool): seq<SceneObject?>
  {
    if scope == CollectionScope then CollectionObjects(collection, includeSubcollections) else selected
  }

  /** The specification of `gather_scope_objects`. */
  function ScopeObjects(selected: seq<SceneObject>, includeChildren: bool, scope: Scope,
                        collection: Option<Collection>, includeSubcollections: bool): seq<SceneObject>
  {
    var base := ScopeBase(selected, scope, collection, includeSubcollections);
    Dedupe(base + (if includeChildren && base != [] then FlatChildren(base) else []))
  }

  /** The scope holds exactly the base objects and, with children, their recursive children. */
  lemma ScopeObjectsMember(selected: seq<SceneObject>, includeChildren: bool, scope: Scope,
                           collection: Option<Collection>, includeSubcollections: bool, x: SceneObject)
    ensures x in ScopeObjects(selected, includeChildren, scope, collection, includeSubcollections) <==>
      (x in ScopeBase(selected, scope, collection, includeSubcollections)
       || (includeChildren && exists o: SceneObject :: o in ScopeBase(selected, scope, collection, includeSubcollections)
                                                     && x in o.childrenRecursive))
  {
    var base := ScopeBase(selected, scope, collection, includeSubcollections);
    var extra := if includeChildren && base != [] then FlatChildren(base) else [];
    FlatChildrenMember(base, x);
    DedupeMember(base + extra, x);
  }

  /**
   * The scope holds no repeats; the base objects (de-duplicated) come first;
   * a collection scope without a collection is empty.
   */
  lemma ScopeObjectsShape(selected: seq<SceneObject>, includeChildren: bool, scope: Scope,
                          collection: Option<Collection>, includeSubcollections: bool)
    ensures var base := ScopeBase(selected, scope, collection, includeSubcollections);
      var r := ScopeObjects(selected, includeChildren, scope, collection, includeSubcollections);
      && Distinct(r)
      && |Dedupe(base)| <= |r| && r[..|Dedupe(base)|] == Dedupe(base)
      && (scope == CollectionScope && collection == None ==> r == [])
  {
    var base := ScopeBase(selected, scope, collection, includeSubcollections);
    var extra := if includeChildren && base != [] then FlatChildren(base) else [];
    DedupePrefix(base, extra);
  }

  /** `gather_scope_objects`: the base list, extended in place with the children, then de-duplicated. */
  method GatherScopeObjects(selected: seq<SceneObject>, includeChildren: bool, scope: Scope,
                            collection: Option<Collection>, includeSubcollections: bool)
    returns (result: seq<SceneObject>)
    ensures result == ScopeObjects(selected, includeChildren, scope, collection, includeSubcollections)
  {
    var objects: seq<SceneObject?>;
    if scope == CollectionScope {
      if collection == None {
        objects := [];
      } else {
        objects := CollectionObjects(collection, includeSubcollections);
      }
    } else {
      objects := selected;
    }
    ghost var base := objects;
    assert base == ScopeBase(selected, scope, collection, includeSubcollections);
    if includeChildren && objects != [] {
      var expanded: seq<SceneObject?> := [];
      var i := 0;
      while i < |objects|
        invariant 0 <= i <= |objects|
        invariant expanded == FlatChildren(objects[..i])
      {
        assert objects[..i + 1][..i] == objects[..i];
        expanded := expanded + objects[i].childrenRecursive;
        i := i + 1;
      }
      assert objects[..i] == objects;
      objects := objects + expanded;
    }
    assert objects == base + (if includeChildren && base != [] then FlatChildren(base) else []);
    result := DedupeObjects(objects);
  }

  // ---------------------------------------------------------------------------
  // object_flip
  // ---------------------------------------------------------------------------

  /** The scale with the component on `axis` negated. */
  function Flipped(v: Vec3, axis: nat): (w: Vec3)
    requires axis < 3
    ensures w.Get(axis) == -v.Get(axis)
    ensures forall b :: 0 <= b < 3 && b != axis ==> w.Get(b) == v.Get(b)
  {
    v.Set(axis, -v.Get(axis))
  }

  /** Flipping twice on the same axis restores the scale. */
  lemma FlippedTwice(v: Vec3, axis: nat)
    requires axis < 3
    ensures Flipped(Flipped(v, axis), axis) == v
  {
  }

  /** `object_flip` leaves linked and hidden objects alone. */
  predicate Flippable(obj: SceneObject)
  {
    !obj.linked && !obj.hidden
  }

  /** `object_flip`: negate `scale[axis_index]` of a local, unhidden object; nothing else changes. */
  method ObjectFlip(obj: SceneObject?, axis: nat)
    requires axis < 3
    modifies obj
    ensures obj != null ==> obj.scale == (if Flippable(obj) then Flipped(old(obj.scale), axis) else old(obj.scale))
    ensures obj != null ==> obj.location == old(obj.location) && obj.selected == old(obj.selected)
  {
    if obj == null || obj.linked || obj.hidden {
      return;
    }
    var newScale := obj.scale;
    newScale := newScale.Set(axis, -newScale.Get(axis));
    obj.scale := newScale;
  }

  // ---------------------------------------------------------------------------
  // object_is_visible / object_affects_lighting
  // ---------------------------------------------------------------------------

  /**
   * `object_is_visible`: visible when no criterion is considered, when render
   * is considered and the object renders, or when the viewport is considered
   * and the object shows there.
   */
  predicate IsVisible(obj: SceneObject, considerViewport: bool, considerRender: bool)
  {
    if !considerRender && !considerViewport then true
    else if considerRender && !obj.hideRender then true
    else if considerViewport && obj.viewportVisible then true
    else false
  }

  /** The three ways to be visible, as one disjunction, and what makes an object invisible. */
  lemma IsVisibleCases(obj: SceneObject, considerViewport: bool, considerRender: bool)
    ensures IsVisible(obj, considerViewport, considerRender) <==>
      ((!considerRender && !considerViewport)
       || (considerRender && !obj.hideRender)
       || (considerViewport && obj.viewportVisible))
    ensures !IsVisible(obj, considerViewport, considerRender) <==>
      ((considerRender || considerViewport)
       && (considerRender ==> obj.hideRender)
       && (considerViewport ==> !obj.viewportVisible))
  {
  }

  /** `object_affects_lighting`: lights and light probes. */
  predicate AffectsLighting(obj: SceneObject)
  {
    obj.kind == Light || obj.kind == LightProbe
  }
}
