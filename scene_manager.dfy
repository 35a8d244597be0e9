/**
 * The scene manager: every object on the build plate keyed by uid (kept in
 * insertion order, as a Python dict is), one selected uid, the undo/redo
 * history, the build plate and the recent-files list. Every command changes
 * this state in place.
 */
module SceneManagement {
  import opened Wrappers
  import opened Numeric
  import opened Geometry
  import opened Transforms
  import opened Models
  import opened UndoRedo
  import opened SceneObjects

  const DefaultMaxDepth := 50

  /** A Python truth test on an optional uid: present and not empty. */
  predicate Truthy(u: Option<Uid>)
  {
    u.Some? && u.value != ""
  }

  /** `order` without `x`; in a list without repeats this is `del`. */
  function Without(order: seq<Uid>, x: Uid): (r: seq<Uid>)
    ensures forall k :: k in r <==> k in order && k != x
    ensures NoDup(order) ==> NoDup(r)
    ensures x !in order ==> r == order
  {
    if order == [] then []
    else
      var prefix := order[..|order| - 1];
      var init := Without(prefix, x);
      var k := order[|order| - 1];
      assert order == prefix + [k];
      assert forall y :: y in prefix ==> y in order;
      assert forall y :: y in order ==> y in prefix || y == k;
      assert NoDup(order) ==> NoDup(prefix) && k !in prefix;
      if k == x then init
      else
        assert NoDup(order) ==> k !in init;
        init + [k]
  }

  /** The object `duplicate` makes from `src`: named `<name>_copy`, sharing
      the mesh and the path, moved by `offset` (by default 1.2 times the X
      extent of the mesh along X), visible and selected. */
  function CopyOf(src: SceneObject, offset: Option<Vec3>, newUid: Uid): (c: SceneObject)
    ensures c.uid == newUid && c.name == src.name + "_copy"
    ensures c.mesh == src.mesh && c.sourcePath == src.sourcePath && c.visible && c.selected
    ensures c.transform.rotationDeg == src.transform.rotationDeg && c.transform.scale == src.transform.scale
    ensures offset.Some? ==> c.transform.translation == src.transform.translation.Plus(offset.value)
    ensures offset.None? ==>
      c.transform.translation.x == src.transform.translation.x + 1.2 * (Hi(src.mesh).x - Lo(src.mesh).x)
    ensures offset.None? ==>
      c.transform.translation.y == src.transform.translation.y && c.transform.translation.z == src.transform.translation.z
  {
    var off := if offset.Some? then offset.value else Vec3(Extents(src.mesh).x * 1.2, 0.0, 0.0);
    SceneObject(newUid, src.name + "_copy", src.mesh,
                src.transform.(translation := src.transform.translation.Plus(off)), true, true, src.sourcePath)
  }

  /** Every object with its selected flag set exactly when it is `uid`. */
  function Reflagged(objects: map<Uid, SceneObject>, uid: Option<Uid>): (m: map<Uid, SceneObject>)
    ensures m.Keys == objects.Keys
    ensures forall k :: k in m ==> m[k] == objects[k].(selected := uid == Some(k))
  {
    map k | k in objects :: objects[k].(selected := uid == Some(k))
  }

  /** The objects of `order`, in that order. */
  function ObjectsOf(order: seq<Uid>, objects: map<Uid, SceneObject>): (l: seq<SceneObject>)
    requires forall k :: k in order ==> k in objects
    ensures |l| == |order| && forall i :: 0 <= i < |order| ==> l[i] == objects[order[i]]
  {
    seq(|order|, i requires 0 <= i < |order| => objects[order[i]])
  }

  /** The distance between neighbouring grid slots: 0.6 plate radii. */
  function GridSpacing(plate: BuildPlate): real
  {
    plate.Radius() * 0.6
  }

  /** `after` is `before` with the first `i` of the visible objects `vis`
      moved to their grid slots and every other object as it was. */
  ghost predicate ArrangedUpTo(before: map<Uid, SceneObject>, after: map<Uid, SceneObject>, vis: seq<Uid>,
                               i: nat, spacing: real)
  {
    && after.Keys == before.Keys
    && i <= |vis|
    && (forall j :: 0 <= j < |vis| ==> vis[j] in before)
    && (forall j :: 0 <= j < i ==>
          after[vis[j]] == before[vis[j]].(transform :=
            ArrangedAt(before[vis[j]].transform, Slot(j, |vis|, Columns(|vis|), spacing))))
    && (forall j :: i <= j < |vis| ==> after[vis[j]] == before[vis[j]])
    && (forall k :: k in after && k !in vis ==> after[k] == before[k])
  }

  /** Moving the next visible object to its slot extends the arrangement. */
  lemma ArrangeStep(before: map<Uid, SceneObject>, after: map<Uid, SceneObject>, vis: seq<Uid>, i: nat, spacing: real)
    requires ArrangedUpTo(before, after, vis, i, spacing) && i < |vis| && NoDup(vis)
    ensures var o := before[vis[i]];
      ArrangedUpTo(before, after[vis[i] := o.(transform := ArrangedAt(o.transform, Slot(i, |vis|, Columns(|vis|), spacing)))],
                   vis, i + 1, spacing)
  {
    assert forall j :: 0 <= j < |vis| && j != i ==> vis[j] != vis[i];
  }

  /** `after` is `before` with every one of the visible objects `vis` moved to
      its slot on a grid of `Columns(|vis|)` columns `spacing` apart. */
  ghost predicate Arranged(before: map<Uid, SceneObject>, after: map<Uid, SceneObject>, vis: seq<Uid>, spacing: real)
  {
    ArrangedUpTo(before, after, vis, |vis|, spacing)
  }

  /** The entries `auto_arrange` pushes, one per visible object, in scene order. */
  function ArrangeEntries(objects: map<Uid, SceneObject>, vis: seq<Uid>, spacing: real): (es: seq<UndoEntry>)
    requires forall k :: k in vis ==> k in objects
    ensures |es| == |vis|
    ensures forall j :: 0 <= j < |vis| ==> es[j] == UndoEntry(vis[j], "Auto-arrange", objects[vis[j]].transform,
      ArrangedAt(objects[vis[j]].transform, Slot(j, |vis|, Columns(|vis|), spacing)))
  {
    seq(|vis|, j requires 0 <= j < |vis| =>
      UndoEntry(vis[j], "Auto-arrange", objects[vis[j]].transform,
        ArrangedAt(objects[vis[j]].transform, Slot(j, |vis|, Columns(|vis|), spacing))))
  }

  class SceneManager {
    var plate: BuildPlate
    var objects: map<Uid, SceneObject>
    /** The keys of `objects` in insertion order. */
    var order: seq<Uid>
    var selection: Option<Uid>
    const history: UndoRedoManager
    var recentFiles: seq<string>

    /** The bookkeeping every command keeps: `order` lists each key once, every
        object is stored under its own uid, no uid is empty. */
    ghost predicate Structured()
      reads this
    {
      && NoDup(order)
      && (forall k :: k in objects <==> k in order)
      && (forall k :: k in objects ==> objects[k].uid == k)
      && "" !in objects
      && NoDup(recentFiles) && |recentFiles| <= RecentLimit
    }

    /** Only the selected object may carry the selected flag. */
    ghost predicate FlagsWithin()
      reads this
    {
      forall k :: k in objects && objects[k].selected ==> selection == Some(k)
    }

    /** Single selection: an object is flagged exactly when it is the selection. */
    ghost predicate Valid()
      reads this, history
    {
      && Structured()
      && history.Valid()
      && (forall k :: k in objects ==> (objects[k].selected <==> selection == Some(k)))
    }

    constructor (plate: Option<BuildPlate>)
      ensures Valid() && fresh(history)
      ensures this.plate == (if plate.Some? then plate.value else DefaultPlate)
      ensures objects == map[] && order == [] && selection == None && recentFiles == []
      ensures history.View() == EmptyHistory(DefaultMaxDepth)
    {
      this.plate := if plate.Some? then plate.value else DefaultPlate;
      objects := map[];
      order := [];
      selection := None;
      history := new UndoRedoManager(DefaultMaxDepth);
      recentFiles := [];
    }

    // ---- queries ----------------------------------------------------------

    /** `objects`: every object, in insertion order. */
    function ObjectList(): (l: seq<SceneObject>)
      reads this
      requires Structured()
      ensures |l| == |order| && forall i :: 0 <= i < |order| ==> l[i] == objects[order[i]]
    {
      ObjectsOf(order, objects)
    }

    /** `selected_object`: the selection when it names a stored object. */
    function SelectedObject(): (o: Option<SceneObject>)
      reads this, history
      requires Valid()
      ensures o.Some? <==> selection.Some? && selection.value in objects
      ensures o.Some? ==> o.value == objects[selection.value] && o.value.selected
      ensures o.None? ==> forall k :: k in objects ==> !objects[k].selected
    {
      if Truthy(selection) && selection.value in objects then Some(objects[selection.value]) else None
    }

    /** `object_count`. */
    function ObjectCount(): (n: nat)
      reads this
      requires Structured()
      ensures n == |ObjectList()|
    {
      NoDupCard(order, objects.Keys);
      |objects|
    }

    /** `get_object(uid)`. */
    function GetObject(uid: Uid): (o: Option<SceneObject>)
      reads this
      ensures o.Some? <==> uid in objects
      ensures o.Some? ==> o.value == objects[uid]
    {
      if uid in objects then Some(objects[uid]) else None
    }

    // ---- commands ---------------------------------------------------------

    /** `add_mesh`: the mesh is moved to rest centred on the plate, stored under
        `newUid` (replacing any object already there, which keeps its place in
        the order), selected, and its path recorded as recent. */
    method AddMesh(name: string, mesh: Mesh, sourcePath: string, newUid: Uid) returns (obj: SceneObject)
      requires Valid() && newUid != ""
      modifies this
      ensures Valid()
      ensures obj == SceneObject(newUid, name, RestOnPlate(mesh), IdentityTransform, true, true, sourcePath)
      ensures objects == Reflagged(old(objects), Some(newUid))[newUid := obj] && selection == Some(newUid)
      ensures order == if newUid in old(objects) then old(order) else old(order) + [newUid]
      ensures recentFiles == if sourcePath != "" then AddRecent(old(recentFiles), sourcePath) else old(recentFiles)
      ensures plate == old(plate)
    {
      var placed := RestOnPlate(mesh);
      obj := SceneObject(newUid, name, placed, IdentityTransform, true, false, sourcePath);
      ReflaggedInsert(objects, newUid, obj, Some(newUid));
      Store(obj);
      Select(Some(newUid));
      obj := objects[newUid];
      if sourcePath != "" {
        AddRecentPath(sourcePath);
      }
    }

    /** `self._objects[uid] = obj` for an unselected object: a new uid goes to
        the end of the order, a known one keeps its place. */
    method Store(obj: SceneObject)
      requires Valid() && obj.uid != "" && !obj.selected
      modifies this`objects, this`order
      ensures Structured() && FlagsWithin() && history.Valid()
      ensures objects == old(objects)[obj.uid := obj]
      ensures order == if obj.uid in old(objects) then old(order) else old(order) + [obj.uid]
    {
      if obj.uid !in objects {
        order := order + [obj.uid];
      }
      objects := objects[obj.uid := obj];
    }

    /** `_add_recent`. */
    method AddRecentPath(path: string)
      requires Valid()
      modifies this`recentFiles
      ensures Valid()
      ensures recentFiles == AddRecent(old(recentFiles), path)
    {
      AddRecentOnce(recentFiles, path);
      var files := recentFiles;
      if path in files {
        files := RemoveFirst(files, path);
      }
      files := [path] + files;
      recentFiles := if |files| > RecentLimit then files[..RecentLimit] else files;
    }

    /** `remove(uid)`: false and no change for an unknown uid; removing the
        selected object clears the selection. */
    method Remove(uid: Uid) returns (ok: bool)
      requires Valid()
      modifies this
      ensures Valid()
      ensures ok == (uid in old(objects))
      ensures objects == old(objects) - {uid} && order == Without(old(order), uid)
      ensures selection == if ok && old(selection) == Some(uid) then None else old(selection)
      ensures plate == old(plate) && recentFiles == old(recentFiles)
    {
      if uid in objects {
        objects := objects - {uid};
        order := Without(order, uid);
        if selection == Some(uid) {
          selection := None;
        }
        return true;
      }
      return false;
    }

    /** `remove_selected`. */
    method RemoveSelected() returns (ok: bool)
      requires Valid()
      modifies this
      ensures Valid()
      ensures ok == (Truthy(old(selection)) && old(selection).value in old(objects))
      ensures ok ==> && objects == old(objects) - {old(selection).value}
                     && order == Without(old(order), old(selection).value)
                     && selection == None
      ensures !ok ==> objects == old(objects) && selection == old(selection) && order == old(order)
      ensures plate == old(plate) && recentFiles == old(recentFiles)
    {
      if Truthy(selection) {
        ok := Remove(selection.value);
      } else {
        ok := false;
      }
    }

    /** `duplicate(uid, offset)`: an unknown uid changes nothing; otherwise the
        copy is stored under `newUid` and becomes the selection, and the source
        object is left as it was apart from its flag. */
    method Duplicate(uid: Uid, offset: Option<Vec3>, newUid: Uid) returns (copy: Option<SceneObject>)
      requires Valid() && newUid != ""
      modifies this
      ensures Valid()
      ensures uid !in old(objects) ==> copy == None && objects == old(objects) && order == old(order) && selection == old(selection)
      ensures uid in old(objects) ==>
        && copy == Some(CopyOf(old(objects)[uid], offset, newUid))
        && objects == Reflagged(old(objects), Some(newUid))[newUid := copy.value]
        && order == (if newUid in old(objects) then old(order) else old(order) + [newUid])
        && selection == Some(newUid)
      ensures plate == old(plate) && recentFiles == old(recentFiles)
    {
      if uid !in objects {
        return None;
      }
      var obj := CopyOf(objects[uid], offset, newUid).(selected := false);
      ReflaggedInsert(objects, newUid, obj, Some(newUid));
      Store(obj);
      Select(Some(newUid));
      copy := Some(objects[newUid]);
    }

    /** `duplicate_selected`. */
    method DuplicateSelected(offset: Option<Vec3>, newUid: Uid) returns (copy: Option<SceneObject>)
      requires Valid() && newUid != ""
      modifies this
      ensures Valid()
      ensures !(Truthy(old(selection)) && old(selection).value in old(objects)) ==>
        copy == None && objects == old(objects) && order == old(order) && selection == old(selection)
      ensures Truthy(old(selection)) && old(selection).value in old(objects) ==>
        && copy == Some(CopyOf(old(objects)[old(selection).value], offset, newUid))
        && objects == Reflagged(old(objects), Some(newUid))[newUid := copy.value]
        && order == (if newUid in old(objects) then old(order) else old(order) + [newUid])
        && selection == Some(newUid)
      ensures copy.Some? ==> SelectedObject() == copy
      ensures copy.Some? && old(selection).value != newUid ==>
        objects[old(selection).value] == old(objects)[old(selection).value].(selected := false)
      ensures plate == old(plate) && recentFiles == old(recentFiles)
    {
      if Truthy(selection) {
        copy := Duplicate(selection.value, offset, newUid);
      } else {
        copy := None;
      }
    }

    /** `select(uid)`: the old selection loses its flag, `uid` becomes the
        selection even when no object has it, and is flagged when one does. */
    method Select(uid: Option<Uid>)
      requires Structured() && FlagsWithin() && history.Valid()
      modifies this
      ensures Valid()
      ensures selection == uid && order == old(order) && objects == Reflagged(old(objects), uid)
      ensures plate == old(plate) && recentFiles == old(recentFiles)
    {
      ghost var objs0 := objects;
      ghost var sel0 := selection;
      if Truthy(selection) && selection.value in objects {
        var o := objects[selection.value];
        objects := objects[selection.value := o.(selected := false)];
      }
      ghost var objs1 := objects;
      selection := uid;
      if Truthy(uid) && uid.value in objects {
        var o := objects[uid.value];
        objects := objects[uid.value := o.(selected := true)];
      }
      ReflagSteps(objs0, sel0, objs1, uid, objects);
    }

    /** `deselect_all`. */
    method DeselectAll()
      requires Valid()
      modifies this
      ensures Valid() && selection == None
      ensures objects == Reflagged(old(objects), None) && order == old(order)
    {
      Select(None);
    }

    /** `set_transform`: only the supplied fields change; with `recordUndo` one
        entry holding the transform before and after is pushed. */
    method SetTransform(uid: Uid, translation: Option<Vec3>, rotationDeg: Option<Vec3>, scale: Option<Vec3>,
                        recordUndo: bool, labelText: string)
      requires Valid()
      modifies this, history
      ensures Valid()
      ensures uid !in old(objects) ==> objects == old(objects) && history.View() == old(history.View())
      ensures uid in old(objects) ==>
        var o := old(objects)[uid];
        var t := o.transform.Set(translation, rotationDeg, scale);
        && objects == old(objects)[uid := o.(transform := t)]
        && history.View() == (if recordUndo then old(history.View()).Push(UndoEntry(uid, labelText, o.transform, t))
                              else old(history.View()))
      ensures order == old(order) && selection == old(selection) && plate == old(plate) && recentFiles == old(recentFiles)
    {
      if uid !in objects {
        return;
      }
      var o := objects[uid];
      var before := o.transform;
      var t := before;
      if translation.Some? { t := t.(translation := translation.value); }
      if rotationDeg.Some? { t := t.(rotationDeg := rotationDeg.value); }
      if scale.Some? { t := t.(scale := scale.value); }
      Retransform(uid, t);
      if recordUndo {
        history.Push(UndoEntry(uid, labelText, before, t));
      }
    }

    /** The stored object `uid` gets the whole transform `t`. */
    method Retransform(uid: Uid, t: Transform)
      requires Valid() && uid in objects
      modifies this`objects
      ensures Valid()
      ensures objects == old(objects)[uid := old(objects)[uid].(transform := t)]
    {
      var o := objects[uid];
      objects := objects[uid := o.(transform := t)];
    }

    /** `mirror_selected(axis)`: false with no selected object; otherwise the
        scale component of `axis` (x for an unknown name) is negated and the
        change is pushed as "Mirror <AXIS>". */
    method MirrorSelected(axis: string) returns (ok: bool)
      requires Valid()
      modifies this, history
      ensures Valid()
      ensures ok == old(SelectedObject()).Some?
      ensures !ok ==> objects == old(objects) && history.View() == old(history.View())
      ensures ok ==>
        var o := old(objects)[old(selection).value];
        var t := Mirrored(o.transform, AxisIndex(axis));
        && objects == old(objects)[o.uid := o.(transform := t)]
        && history.View() == old(history.View()).Push(UndoEntry(o.uid, MirrorLabel(axis), o.transform, t))
      ensures order == old(order) && selection == old(selection) && plate == old(plate) && recentFiles == old(recentFiles)
    {
      var sel := SelectedObject();
      if sel.None? {
        return false;
      }
      var o := sel.value;
      var before := o.transform;
      var idx := AxisIndex(axis);
      var after := before.(scale := before.scale.With(idx, before.scale.Get(idx) * -1.0));
      Retransform(o.uid, after);
      history.Push(UndoEntry(o.uid, MirrorLabel(axis), before, after));
      return true;
    }

    /** `toggle_visibility(uid)`. */
    method ToggleVisibility(uid: Uid) returns (ok: bool)
      requires Valid()
      modifies this
      ensures Valid()
      ensures ok == (uid in old(objects))
      ensures objects == if ok then old(objects)[uid := old(objects)[uid].(visible := !old(objects)[uid].visible)] else old(objects)
      ensures order == old(order) && selection == old(selection) && plate == old(plate) && recentFiles == old(recentFiles)
    {
      if uid !in objects {
        return false;
      }
      var o := objects[uid];
      objects := objects[uid := o.(visible := !o.visible)];
      return true;
    }

    /** `check_build_volume`: for each visible object in scene order, one issue
        when a corner of its world footprint lies outside the plate radius and
        one when its world minimum Z is below the tolerance. */
    method CheckBuildVolume(place: Placement) returns (issues: seq<Issue>)
      requires Valid()
      ensures issues == VolumeIssues(ObjectList(), place, plate.Radius())
    {
      issues := [];
      var r := plate.Radius();
      var objs := ObjectList();
      var i := 0;
      while i < |objs|
        invariant 0 <= i <= |objs|
        invariant issues == VolumeIssues(objs[..i], place, r)
      {
        assert objs[..i + 1][..i] == objs[..i];
        var found := CheckObject(objs[i], place, r);
        issues := issues + found;
        i := i + 1;
      }
      assert objs[..i] == objs;
    }

    /** `auto_arrange`: the visible objects are laid out on a grid of
        `ceil(sqrt(n))` columns spaced 0.6 plate radii apart; only their X and
        Y translation changes, and each move is pushed as "Auto-arrange". */
    method AutoArrange()
      requires Valid()
      modifies this, history
      ensures Valid()
      ensures Arranged(old(objects), objects, VisibleUids(old(order), old(objects)), GridSpacing(old(plate)))
      ensures history.View() ==
        old(history.View()).PushAll(ArrangeEntries(old(objects), VisibleUids(old(order), old(objects)), GridSpacing(old(plate))))
      ensures order == old(order) && selection == old(selection) && plate == old(plate) && recentFiles == old(recentFiles)
    {
      var vis := VisibleUids(order, objects);
      var spacing := GridSpacing(plate);
      if |vis| == 0 {
        assert ArrangeEntries(objects, vis, spacing) == [];
        return;
      }
      var arranged := ArrangeVisible(vis, spacing);
      ArrangedKeepsIdentity(objects, arranged, vis, spacing);
      objects := arranged;
    }

    /** The loop of `auto_arrange`: the objects `vis` are moved in turn to their
        grid slots and each move is pushed; the moved objects are returned. */
    method ArrangeVisible(vis: seq<Uid>, spacing: real) returns (arranged: map<Uid, SceneObject>)
      requires history.Valid() && NoDup(vis) && forall j :: 0 <= j < |vis| ==> vis[j] in objects
      modifies history
      ensures history.Valid()
      ensures Arranged(objects, arranged, vis, spacing)
      ensures history.View() == old(history.View()).PushAll(ArrangeEntries(objects, vis, spacing))
    {
      var n := |vis|;
      var cols := Columns(n);
      var objs := objects;
      ghost var entries := ArrangeEntries(objs, vis, spacing);
      arranged := objs;
      ghost var h0 := history.View();
      assert h0.Valid();
      var i := 0;
      while i < n
        invariant 0 <= i <= n
        invariant history.Valid() && history.View() == h0.PushAll(entries[..i])
        invariant ArrangedUpTo(objs, arranged, vis, i, spacing)
      {
        var uid := vis[i];
        var o := arranged[uid];
        var before := o.transform;
        var after := ArrangedAt(before, Slot(i, n, cols, spacing));
        ArrangeStep(objs, arranged, vis, i, spacing);
        arranged := arranged[uid := o.(transform := after)];
        PushAllStep(h0, entries, i);
        history.Push(UndoEntry(uid, "Auto-arrange", before, after));
        i := i + 1;
      }
      assert entries[..n] == entries;
    }

    /** `perform_undo`: the entry at the cursor is undone; its object, if still
        present, gets back its whole transform from before. The label is
        returned even when the object is gone, and nothing when the history is
        exhausted. */
    method PerformUndo() returns (labelText: Option<string>)
      requires Valid()
      modifies this, history
      ensures Valid()
      ensures var (h, e) := old(history.View()).Undo();
        && history.View() == h
        && labelText == (if e.Some? then Some(e.value.labelText) else None)
        && objects == (if e.Some? && e.value.uid in old(objects)
                       then old(objects)[e.value.uid := old(objects)[e.value.uid].(transform := e.value.before)]
                       else old(objects))
      ensures order == old(order) && selection == old(selection) && plate == old(plate) && recentFiles == old(recentFiles)
    {
      var entry := history.Undo();
      if entry.None? {
        return None;
      }
      var e := entry.value;
      if e.uid in objects {
        Retransform(e.uid, e.before);
      }
      return Some(e.labelText);
    }

    /** `perform_redo`: the entry after the cursor is re-applied; its object, if
        still present, gets its whole transform from after. */
    method PerformRedo() returns (labelText: Option<string>)
      requires Valid()
      modifies this, history
      ensures Valid()
      ensures var (h, e) := old(history.View()).Redo();
        && history.View() == h
        && labelText == (if e.Some? then Some(e.value.labelText) else None)
        && objects == (if e.Some? && e.value.uid in old(objects)
                       then old(objects)[e.value.uid := old(objects)[e.value.uid].(transform := e.value.after)]
                       else old(objects))
      ensures order == old(order) && selection == old(selection) && plate == old(plate) && recentFiles == old(recentFiles)
    {
      var entry := history.Redo();
      if entry.None? {
        return None;
      }
      var e := entry.value;
      if e.uid in objects {
        Retransform(e.uid, e.after);
      }
      return Some(e.labelText);
    }

    /** `serialize`: the plate and one record per object in scene order; the
        history and the meshes are not part of it. */
    method Serialize() returns (doc: SceneDocument)
      requires Valid()
      ensures doc == Document(plate, ObjectList())
    {
      var objs := ObjectList();
      var records: seq<ObjectRecord> := [];
      var i := 0;
      while i < |objs|
        invariant 0 <= i <= |objs|
        invariant records == Document(plate, objs[..i]).objects
      {
        records := records + [RecordOf(objs[i])];
        i := i + 1;
      }
      assert objs[..i] == objs;
      doc := SceneDocument(SnapshotVersion, plate.diameterMm, plate.heightMm, records);
    }

    /** `collect_for_slicing`: the visible objects in scene order, each with a
        world-space copy of its mesh. */
    method CollectForSlicing(place: Placement) returns (items: seq<MeshItem>)
      requires Valid()
      ensures items == SlicingItems(ObjectList(), place)
    {
      var objs := ObjectList();
      items := [];
      var i := 0;
      while i < |objs|
        invariant 0 <= i <= |objs|
        invariant items == SlicingItems(objs[..i], place)
      {
        assert objs[..i + 1][..i] == objs[..i];
        if objs[i].visible {
          items := items + [MeshItem(objs[i].uid, objs[i].name, place(objs[i].mesh, objs[i].transform))];
        }
        i := i + 1;
      }
      assert objs[..i] == objs;
    }

    /** `collect_transformed_meshes`: the same world meshes, without ids. */
    function TransformedMeshes(place: Placement): (ms: seq<Mesh>)
      reads this
      requires Structured()
      ensures var items := SlicingItems(ObjectList(), place);
        |ms| == |items| && forall i :: 0 <= i < |ms| ==> ms[i] == items[i].mesh
    {
      var items := SlicingItems(ObjectList(), place);
      seq(|items|, i requires 0 <= i < |items| => items[i].mesh)
    }
  }

  /** The checks `check_build_volume` makes on one object: the four corners
      of its world footprint are tried in turn, stopping at the first outside
      the radius, then its world minimum Z. */
  method CheckObject(obj: SceneObject, place: Placement, r: real) returns (found: seq<Issue>)
    ensures found == ObjectIssues(obj, place, r)
  {
    found := [];
    if !obj.visible {
      return;
    }
    var w := place(obj.mesh, obj.transform);
    var lo, hi := Lo(w), Hi(w);
    var corners := Corners(lo, hi);
    var c := 0;
    var outside := false;
    while c < |corners| && !outside
      invariant 0 <= c <= |corners|
      invariant outside <==> AnyOutside(corners[..c], r)
    {
      if OutsideRadius(corners[c].0, corners[c].1, r) {
        outside := true;
      }
      assert corners[..c + 1][c] == corners[c];
      assert forall j :: 0 <= j < c ==> corners[..c + 1][j] == corners[..c][j];
      c := c + 1;
    }
    assert outside == AnyOutside(corners, r) by {
      if outside {
        var j :| 0 <= j < c && OutsideRadius(corners[..c][j].0, corners[..c][j].1, r);
        assert corners[..c][j] == corners[j];
      } else {
        assert corners[..c] == corners;
      }
    }
    if outside {
      found := found + [Issue(obj.uid, OutsidePlateRadius(obj.name))];
    }
    if lo.z < ZTolerance {
      found := found + [Issue(obj.uid, BelowPlate(obj.name, lo.z))];
    }
  }

  /** A list without repeats has as many elements as the set of its elements. */
  lemma {:induction false} NoDupCard(s: seq<Uid>, keys: set<Uid>)
    requires NoDup(s) && forall k :: k in keys <==> k in s
    ensures |keys| == |s|
    decreases |s|
  {
    if s != [] {
      var last := s[|s| - 1];
      var init := s[..|s| - 1];
      assert forall k :: k in init ==> k in s;
      assert last !in init;
      assert forall k :: k in keys - {last} <==> k in init;
      NoDupCard(init, keys - {last});
    }
  }

  /** Clearing the old selection's flag and then setting the new one's gives
      every object the flag of the new selection, when only the old selection
      was flagged before. */
  lemma ReflagSteps(objs0: map<Uid, SceneObject>, sel0: Option<Uid>, objs1: map<Uid, SceneObject>,
                    uid: Option<Uid>, objs2: map<Uid, SceneObject>)
    requires "" !in objs0
    requires forall k :: k in objs0 && objs0[k].selected ==> sel0 == Some(k)
    requires objs1 == if Truthy(sel0) && sel0.value in objs0
                      then objs0[sel0.value := objs0[sel0.value].(selected := false)] else objs0
    requires objs2 == if Truthy(uid) && uid.value in objs1
                      then objs1[uid.value := objs1[uid.value].(selected := true)] else objs1
    ensures objs2 == Reflagged(objs0, uid)
  {
    var m := Reflagged(objs0, uid);
    assert objs2.Keys == m.Keys;
    forall k | k in m
      ensures objs2[k] == m[k]
    {
      assert objs1[k] == objs0[k].(selected := false);
    }
  }

  /** Flagging after storing an object is storing it already flagged. */
  lemma ReflaggedInsert(m: map<Uid, SceneObject>, k: Uid, o: SceneObject, uid: Option<Uid>)
    ensures Reflagged(m[k := o], uid) == Reflagged(m, uid)[k := o.(selected := uid == Some(k))]
  {
    var lhs := Reflagged(m[k := o], uid);
    var rhs := Reflagged(m, uid)[k := o.(selected := uid == Some(k))];
    assert lhs.Keys == rhs.Keys;
    forall j | j in lhs
      ensures lhs[j] == rhs[j]
    {
    }
  }

  /** Arranging changes transforms only: every object keeps its uid and flags. */
  lemma ArrangedKeepsIdentity(before: map<Uid, SceneObject>, after: map<Uid, SceneObject>, vis: seq<Uid>, spacing: real)
    requires Arranged(before, after, vis, spacing)
    ensures forall k :: k in after ==>
      after[k].uid == before[k].uid && after[k].selected == before[k].selected && after[k].visible == before[k].visible
  {
    forall k | k in after
      ensures after[k].uid == before[k].uid && after[k].selected == before[k].selected && after[k].visible == before[k].visible
    {
      if k in vis {
        var j :| 0 <= j < |vis| && vis[j] == k;
      }
    }
  }
}
