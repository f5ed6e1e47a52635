/** The `.omni` importer: it reads the parsed scene description, checks
    the minimum plugin version, sets the project from the video, loads
    the video as background, merges the scans and the Alembic camera,
    renames what was merged, replaces the Alembic camera by a baked one
    carrying a scene control tag, looks through it and sets the
    viewport to lines. New objects are found by the GUIDs the merge
    added. */
module OmniscientImporter {
  import opened Wrappers
  import opened Text
  import opened OmniData
  import opened Scene
  import opened ImportCommon
  import opened CameraOperations
  import OmniscientMessage
  import PluginVersion

  // ---------------------------------------------------------------------
  // Objects by GUID

  /** Some object of `objs` has GUID `g`. */
  predicate HasGuid(objs: seq<ObjId>, nodes: map<ObjId, Node>, g: int)
    requires forall o :: o in objs ==> o in nodes
  {
    exists i :: 0 <= i < |objs| && nodes[objs[i]].guid == g
  }

  /** `objs[i]` is the last object of `objs` with its GUID. */
  predicate LastOfGuid(objs: seq<ObjId>, nodes: map<ObjId, Node>, i: int)
    requires forall o :: o in objs ==> o in nodes
  {
    0 <= i < |objs| && forall j :: i < j < |objs| ==> nodes[objs[j]].guid != nodes[objs[i]].guid
  }

  /** `get_object_dict`: GUID to object, a later object with the same
      GUID replacing an earlier one. */
  function ObjectDict(objs: seq<ObjId>, nodes: map<ObjId, Node>): map<int, ObjId>
    requires forall o :: o in objs ==> o in nodes
    decreases |objs|
  {
    if objs == [] then map[]
    else
      var n := |objs| - 1;
      assert forall o :: o in objs[..n] ==> o in objs;
      ObjectDict(objs[..n], nodes)[nodes[objs[n]].guid := objs[n]]
  }

  /** The dictionary's keys are the GUIDs of the objects. */
  lemma {:induction false} ObjectDictKeys(objs: seq<ObjId>, nodes: map<ObjId, Node>, g: int)
    requires forall o :: o in objs ==> o in nodes
    ensures g in ObjectDict(objs, nodes) <==> HasGuid(objs, nodes, g)
    decreases |objs|
  {
    if objs != [] {
      var n := |objs| - 1;
      var prefix := objs[..n];
      assert forall o :: o in prefix ==> o in objs;
      ObjectDictKeys(prefix, nodes, g);
      if HasGuid(prefix, nodes, g) {
        var i :| 0 <= i < |prefix| && nodes[prefix[i]].guid == g;
        assert objs[i] == prefix[i];
      }
      if HasGuid(objs, nodes, g) && nodes[objs[n]].guid != g {
        var i :| 0 <= i < |objs| && nodes[objs[i]].guid == g;
        assert prefix[i] == objs[i];
      }
      if nodes[objs[n]].guid == g {
        assert HasGuid(objs, nodes, g) by { assert nodes[objs[n]].guid == g; }
      }
    }
  }

  /** Each GUID maps to the last object that has it. */
  lemma {:induction false} ObjectDictLast(objs: seq<ObjId>, nodes: map<ObjId, Node>, i: int)
    requires forall o :: o in objs ==> o in nodes
    requires LastOfGuid(objs, nodes, i)
    ensures nodes[objs[i]].guid in ObjectDict(objs, nodes) && ObjectDict(objs, nodes)[nodes[objs[i]].guid] == objs[i]
    decreases |objs|
  {
    var n := |objs| - 1;
    if i < n {
      var prefix := objs[..n];
      assert forall o :: o in prefix ==> o in objs;
      assert LastOfGuid(prefix, nodes, i);
      ObjectDictLast(prefix, nodes, i);
    }
  }

  /** A GUID that occurs has a last object. */
  lemma {:induction false} HasGuidLast(objs: seq<ObjId>, nodes: map<ObjId, Node>, g: int) returns (i: int)
    requires forall o :: o in objs ==> o in nodes
    requires HasGuid(objs, nodes, g)
    ensures LastOfGuid(objs, nodes, i) && nodes[objs[i]].guid == g
    decreases |objs|
  {
    var n := |objs| - 1;
    if nodes[objs[n]].guid == g {
      i := n;
    } else {
      var prefix := objs[..n];
      assert forall o :: o in prefix ==> o in objs;
      var k :| 0 <= k < |objs| && nodes[objs[k]].guid == g;
      assert prefix[k] == objs[k];
      i := HasGuidLast(prefix, nodes, g);
    }
  }

  /** `objects_after_import.keys() - objects_before_import.keys()`, looked up in the later dictionary. */
  function NewObjectSet(before: map<int, ObjId>, after: map<int, ObjId>): set<ObjId> {
    set g | g in after && g !in before :: after[g]
  }

  /** An object counts as new exactly when it is the last of its GUID
      in the later list and no object of the earlier list has that GUID. */
  lemma {:induction false} NewObjectsMeaning(before: seq<ObjId>, after: seq<ObjId>, nodes: map<ObjId, Node>, o: ObjId)
    requires forall x :: x in before ==> x in nodes
    requires forall x :: x in after ==> x in nodes
    ensures o in NewObjectSet(ObjectDict(before, nodes), ObjectDict(after, nodes)) <==>
      (exists i :: LastOfGuid(after, nodes, i) && after[i] == o) && !HasGuid(before, nodes, nodes[o].guid)
  {
    var db, da := ObjectDict(before, nodes), ObjectDict(after, nodes);
    if o in NewObjectSet(db, da) {
      var g :| g in da && g !in db && da[g] == o;
      ObjectDictKeys(after, nodes, g);
      ObjectDictKeys(before, nodes, g);
      var i := HasGuidLast(after, nodes, g);
      ObjectDictLast(after, nodes, i);
      assert LastOfGuid(after, nodes, i) && after[i] == o;
    }
    if (exists i :: LastOfGuid(after, nodes, i) && after[i] == o) && !HasGuid(before, nodes, nodes[o].guid) {
      var i :| LastOfGuid(after, nodes, i) && after[i] == o;
      ObjectDictLast(after, nodes, i);
      ObjectDictKeys(before, nodes, nodes[o].guid);
      assert o in NewObjectSet(db, da);
    }
  }

  /** An object that shares its GUID with an object already in the
      document never counts as new, so it is neither renamed nor handled
      as a camera. */
  lemma {:induction false} SharedGuidNotNew(before: seq<ObjId>, after: seq<ObjId>, nodes: map<ObjId, Node>, o: ObjId, old_: ObjId)
    requires forall x :: x in before ==> x in nodes
    requires forall x :: x in after ==> x in nodes
    requires old_ in before && o in nodes && nodes[o].guid == nodes[old_].guid
    ensures o !in NewObjectSet(ObjectDict(before, nodes), ObjectDict(after, nodes))
  {
    NewObjectsMeaning(before, after, nodes, o);
    var k :| 0 <= k < |before| && before[k] == old_;
    assert HasGuid(before, nodes, nodes[o].guid);
  }

  /** The new objects of a merge, by GUID. */
  function NewByGuid(before: Snapshot, after: Snapshot): set<ObjId>
    requires forall o :: o in before.objects ==> o in before.nodes
    requires forall o :: o in after.objects ==> o in after.nodes
  {
    NewObjectSet(ObjectDict(before.objects, before.nodes), ObjectDict(after.objects, after.nodes))
  }

  /** The dictionary reads GUIDs only. */
  lemma {:induction false} ObjectDictSameGuids(objs: seq<ObjId>, nodes: map<ObjId, Node>, nodes': map<ObjId, Node>)
    requires forall o :: o in objs ==> o in nodes && o in nodes' && nodes'[o].guid == nodes[o].guid
    ensures ObjectDict(objs, nodes') == ObjectDict(objs, nodes)
    decreases |objs|
  {
    if objs != [] {
      var prefix := objs[..|objs| - 1];
      assert forall o :: o in prefix ==> o in objs;
      ObjectDictSameGuids(prefix, nodes, nodes');
    }
  }

  /** Where a merge puts the merged nodes. */
  lemma AfterMergeShape(s: Snapshot, added: seq<Node>)
    requires forall o :: o in s.nodes ==> o < s.nextId
    ensures var m := AfterMerge(s, added);
      && |m.objects| == |s.objects| + |added|
      && (forall i :: 0 <= i < |s.objects| ==> m.objects[i] == s.objects[i])
      && (forall i :: |s.objects| <= i < |m.objects| ==> m.objects[i] == s.nextId + (i - |s.objects|))
      && (forall k :: 0 <= k < |added| ==> s.nextId + k in m.nodes && m.nodes[s.nextId + k] == added[k])
      && (forall o :: o in s.nodes ==> o in m.nodes && m.nodes[o] == s.nodes[o])
  {
    var m := AfterMerge(s, added);
    var ids := IdRange(s.nextId, |added|);
    assert forall i :: |s.objects| <= i < |m.objects| ==> m.objects[i] == ids[i - |s.objects|];
  }

  /** When the merged nodes carry GUIDs distinct from each other and from
      every object already there, the new objects are exactly the merged ones. */
  lemma {:induction false} FreshGuidsAllNew(s: Snapshot, added: seq<Node>)
    requires forall o :: o in s.objects ==> o in s.nodes
    requires forall o :: o in s.nodes ==> o < s.nextId
    requires forall i, j :: 0 <= i < j < |added| ==> added[i].guid != added[j].guid
    requires forall i, o :: 0 <= i < |added| && o in s.objects ==> added[i].guid != s.nodes[o].guid
    ensures forall o :: o in NewByGuid(s, AfterMerge(s, added)) <==> o in IdRange(s.nextId, |added|)
  {
    forall o: ObjId ensures o in NewByGuid(s, AfterMerge(s, added)) <==> o in IdRange(s.nextId, |added|) {
      if s.nextId <= o < s.nextId + |added| {
        MergedIsNew(s, added, o);
      } else {
        NewIsMerged(s, added, o);
      }
    }
  }

  /** The dictionary before the merge, read in the merged node table. */
  lemma MergeKeepsDict(s: Snapshot, added: seq<Node>)
    requires forall o :: o in s.objects ==> o in s.nodes
    requires forall o :: o in s.nodes ==> o < s.nextId
    ensures var m := AfterMerge(s, added);
      && (forall o :: o in s.objects ==> o in m.nodes && m.nodes[o] == s.nodes[o])
      && (forall o :: o in m.objects ==> o in m.nodes)
      && ObjectDict(s.objects, m.nodes) == ObjectDict(s.objects, s.nodes)
  {
    AfterMergeShape(s, added);
    ObjectDictSameGuids(s.objects, s.nodes, AfterMerge(s, added).nodes);
  }

  lemma MergedIsNew(s: Snapshot, added: seq<Node>, o: ObjId)
    requires forall o :: o in s.objects ==> o in s.nodes
    requires forall o :: o in s.nodes ==> o < s.nextId
    requires forall i, j :: 0 <= i < j < |added| ==> added[i].guid != added[j].guid
    requires forall i, o :: 0 <= i < |added| && o in s.objects ==> added[i].guid != s.nodes[o].guid
    requires s.nextId <= o < s.nextId + |added|
    ensures o in NewByGuid(s, AfterMerge(s, added))
  {
    var m := AfterMerge(s, added);
    var k := o - s.nextId;
    MergeKeepsDict(s, added);
    AfterMergeShape(s, added);
    MergedIsLast(s, added, k);
    NewObjectsMeaning(s.objects, m.objects, m.nodes, o);
    assert m.nodes[o] == added[k];
  }

  lemma NewIsMerged(s: Snapshot, added: seq<Node>, o: ObjId)
    requires forall o :: o in s.objects ==> o in s.nodes
    requires forall o :: o in s.nodes ==> o < s.nextId
    requires !(s.nextId <= o < s.nextId + |added|)
    ensures o !in NewByGuid(s, AfterMerge(s, added))
  {
    var m := AfterMerge(s, added);
    MergeKeepsDict(s, added);
    AfterMergeShape(s, added);
    NewObjectsMeaning(s.objects, m.objects, m.nodes, o);
    if exists i :: LastOfGuid(m.objects, m.nodes, i) && m.objects[i] == o {
      var i :| LastOfGuid(m.objects, m.nodes, i) && m.objects[i] == o;
      if i < |s.objects| {
        assert s.objects[i] == o;
        assert HasGuid(s.objects, m.nodes, m.nodes[o].guid);
      }
    }
  }

  /** A merged node with a GUID no later merged node shares is the last of its GUID. */
  lemma MergedIsLast(s: Snapshot, added: seq<Node>, k: int)
    requires forall o :: o in s.objects ==> o in s.nodes
    requires forall o :: o in s.nodes ==> o < s.nextId
    requires forall i, j :: 0 <= i < j < |added| ==> added[i].guid != added[j].guid
    requires 0 <= k < |added|
    ensures var m := AfterMerge(s, added);
      (forall o :: o in m.objects ==> o in m.nodes) &&
      LastOfGuid(m.objects, m.nodes, |s.objects| + k) && m.objects[|s.objects| + k] == s.nextId + k
  {
    var m := AfterMerge(s, added);
    AfterMergeShape(s, added);
    forall j | |s.objects| + k < j < |m.objects|
      ensures m.nodes[m.objects[j]].guid != m.nodes[m.objects[|s.objects| + k]].guid
    {
      var l := j - |s.objects|;
      assert m.objects[j] == s.nextId + l;
      assert m.nodes[s.nextId + l] == added[l];
      assert added[k].guid != added[l].guid;
    }
  }

  // ---------------------------------------------------------------------
  // process_import

  /** The dialog for a file that does not exist: the scan message for an
      `.obj` path, a generic one otherwise; both name the file's base name. */
  function MissingFileDialog(path: string): Dialog {
    if EndsWithIgnoreCase(path, ".obj") then ScanMissing(BaseName(path)) else FileMissing(BaseName(path))
  }

  /** What `process_import` shows and sets before merging: a camera that
      is no `.abc` is refused, then a missing file is reported, and only
      then are both import scales set. */
  function ImportEvents(fs: FileSystem, path: string, isCamera: bool): seq<Event> {
    if isCamera && !EndsWithIgnoreCase(path, ".abc") then [MessageDialog(CameraFormatError)]
    else if !fs.IsFile(path) then [MessageDialog(MissingFileDialog(path))]
    else [ScaleAdjusted("abc"), ScaleAdjusted("obj")]
  }

  /** `process_import` reaches the merge and the merge succeeds. */
  predicate Merges(fs: FileSystem, path: string, isCamera: bool) {
    !(isCamera && !EndsWithIgnoreCase(path, ".abc")) && fs.IsFile(path) && fs.files[path].SceneFile?
  }

  /** `process_import`. A camera path without the `.abc` extension is
      refused with a dialog, a missing file is reported (scans by their
      own message), and neither touches the document. Otherwise both
      import scales are set and the file merged; after a successful
      merge every object whose GUID the merge added is renamed, and for
      a camera the camera operations run over them. */
  method ProcessImport(doc: Document, fs: FileSystem, path: string, defaultName: string, opts: ImportOptions, host: Host)
    requires doc.Valid()
    modifies doc, doc.baseDraw
    ensures doc.Valid()
    ensures doc.log == old(doc.log) + ImportEvents(fs, path, opts.isCamera)
    ensures doc.baseDraw == old(doc.baseDraw)
    ensures doc.minFrame == old(doc.minFrame) && doc.maxFrame == old(doc.maxFrame)
    ensures !Merges(fs, path, opts.isCamera) ==> unchanged(doc`objects, doc`nodes, doc`nextId)
    ensures (!Merges(fs, path, opts.isCamera) || !opts.isCamera) && doc.baseDraw != null ==>
      doc.baseDraw.sceneCamera == old(doc.baseDraw.sceneCamera)
    ensures Merges(fs, path, opts.isCamera) ==>
      var merged := AfterMerge(old(Snap(doc)), fs.files[path].objects);
      RenamedOutcome(merged, Snap(doc), NewByGuid(old(Snap(doc)), merged), defaultName, CURRENT, opts, host, doc.minFrame, doc.maxFrame)
    ensures Merges(fs, path, opts.isCamera) && doc.baseDraw != null ==>
      var merged := AfterMerge(old(Snap(doc)), fs.files[path].objects);
      RenamedView(merged, Snap(doc), NewByGuid(old(Snap(doc)), merged), defaultName, old(doc.baseDraw.sceneCamera),
                  doc.baseDraw.sceneCamera, CURRENT, opts, host, doc.minFrame, doc.maxFrame)
  {
    if opts.isCamera && !EndsWithIgnoreCase(path, ".abc") {
      doc.AddEvent(MessageDialog(CameraFormatError));
      return;
    }
    if !fs.IsFile(path) {
      doc.AddEvent(MessageDialog(MissingFileDialog(path)));
      return;
    }
    MergeAndRename(doc, fs, path, defaultName, opts, host);
    assert Merges(fs, path, opts.isCamera) == (path in fs.files && fs.files[path].SceneFile?);
  }

  /** The rest of `process_import` once the file is found: both import
      scales, the merge, and the renaming of what it added. */
  method MergeAndRename(doc: Document, fs: FileSystem, path: string, defaultName: string, opts: ImportOptions, host: Host)
    requires doc.Valid()
    modifies doc, doc.baseDraw
    ensures doc.Valid()
    ensures doc.log == old(doc.log) + [ScaleAdjusted("abc"), ScaleAdjusted("obj")] && doc.baseDraw == old(doc.baseDraw)
    ensures doc.minFrame == old(doc.minFrame) && doc.maxFrame == old(doc.maxFrame)
    ensures !(path in fs.files && fs.files[path].SceneFile?) ==> unchanged(doc`objects, doc`nodes, doc`nextId)
    ensures (!(path in fs.files && fs.files[path].SceneFile?) || !opts.isCamera) && doc.baseDraw != null ==>
      doc.baseDraw.sceneCamera == old(doc.baseDraw.sceneCamera)
    ensures path in fs.files && fs.files[path].SceneFile? ==>
      var merged := AfterMerge(old(Snap(doc)), fs.files[path].objects);
      RenamedOutcome(merged, Snap(doc), NewByGuid(old(Snap(doc)), merged), defaultName, CURRENT, opts, host, doc.minFrame, doc.maxFrame)
    ensures path in fs.files && fs.files[path].SceneFile? && doc.baseDraw != null ==>
      var merged := AfterMerge(old(Snap(doc)), fs.files[path].objects);
      RenamedView(merged, Snap(doc), NewByGuid(old(Snap(doc)), merged), defaultName, old(doc.baseDraw.sceneCamera),
                  doc.baseDraw.sceneCamera, CURRENT, opts, host, doc.minFrame, doc.maxFrame)
  {
    doc.AddEvent(ScaleAdjusted("abc"));
    doc.AddEvent(ScaleAdjusted("obj"));
    ghost var s0 := Snap(doc);
    var before := ObjectDict(doc.objects, doc.nodes);
    var ok := doc.Merge(fs, path);
    if ok {
      ghost var merged := Snap(doc);
      assert merged == AfterMerge(s0, fs.files[path].objects);
      var after := ObjectDict(doc.objects, doc.nodes);
      var added := NewObjectSet(before, after);
      assert added == NewByGuid(s0, merged);
      NewObjectsInNodes(doc.objects, doc.nodes, before, after);
      RenameSet(doc, added, defaultName, CURRENT, opts, host);
    }
  }

  /** The new objects are objects of the document. */
  lemma NewObjectsInNodes(objs: seq<ObjId>, nodes: map<ObjId, Node>, before: map<int, ObjId>, after: map<int, ObjId>)
    requires forall o :: o in objs ==> o in nodes
    requires after == ObjectDict(objs, nodes)
    ensures forall o :: o in NewObjectSet(before, after) ==> o in nodes
  {
    forall o | o in NewObjectSet(before, after) ensures o in nodes {
      var g :| g in after && g !in before && after[g] == o;
      ObjectDictKeys(objs, nodes, g);
      var i := HasGuidLast(objs, nodes, g);
      ObjectDictLast(objs, nodes, i);
    }
  }

  // ---------------------------------------------------------------------
  // import_omni_file and main

  /** The scans to import from the list of geometry paths: an entry that
      is no string raises (`strip` is missing), a blank one is skipped
      (`not geo_path.strip()`, which `StripEmptyIffBlank` relates to `IsBlank`).
      On an exception, the scans before it and the exception. */
  function ScanImports(paths: seq<Json>, dir: string): (r: Result<seq<Action>, (seq<Action>, PyError)>)
    ensures r.Success? <==> AllStrings(paths)
    ensures r.Failure? ==> r.error.1 == AttributeError
    decreases |paths|
  {
    if paths == [] then Success([])
    else
      var n := |paths| - 1;
      var done := ScanImports(paths[..n], dir);
      assert AllStrings(paths) <==> AllStrings(paths[..n]) && paths[n].JString? by {
        assert forall k :: 0 <= k < n ==> paths[..n][k] == paths[k];
      }
      if done.Failure? then done
      else if !paths[n].JString? then Failure((done.value, AttributeError))
      else if IsBlank(paths[n].s) then done
      else Success(done.value + [Scan(dir, paths[n].s)])
  }

  /** Every entry of the geometry list is a string. */
  predicate AllStrings(paths: seq<Json>) {
    forall k :: 0 <= k < |paths| ==> paths[k].JString?
  }

  /** The scan of path `p` in directory `dir`. */
  function Scan(dir: string, p: string): Action {
    Import(PathJoin(dir, p), SCAN_NAME, GEOMETRY_OPTIONS)
  }

  /** `a` is the scan of a non-blank entry of `paths`. */
  ghost predicate ScanOfEntry(paths: seq<Json>, dir: string, a: Action)
    requires AllStrings(paths)
  {
    exists k :: 0 <= k < |paths| && !IsBlank(paths[k].s) && a == Scan(dir, paths[k].s)
  }

  /** With every entry a string, a scan is imported for exactly the
      non-blank entries. */
  lemma {:induction false} ScanImportsContents(paths: seq<Json>, dir: string)
    requires AllStrings(paths)
    ensures ScanImports(paths, dir).Success?
    ensures forall a :: a in ScanImports(paths, dir).value <==> ScanOfEntry(paths, dir, a)
    decreases |paths|
  {
    if paths != [] {
      var n := |paths| - 1;
      var prefix := paths[..n];
      assert forall k :: 0 <= k < n ==> prefix[k] == paths[k];
      ScanImportsContents(prefix, dir);
      forall a ensures ScanOfEntry(paths, dir, a) <==>
        ScanOfEntry(prefix, dir, a) || (!IsBlank(paths[n].s) && a == Scan(dir, paths[n].s))
      {
        ScanOfEntrySnoc(paths, dir, a);
      }
    }
  }

  /** An entry of `paths` is one of its prefix or its last one. */
  lemma ScanOfEntrySnoc(paths: seq<Json>, dir: string, a: Action)
    requires AllStrings(paths) && paths != []
    requires AllStrings(paths[..|paths| - 1])
    ensures ScanOfEntry(paths, dir, a) <==>
      ScanOfEntry(paths[..|paths| - 1], dir, a) || (!IsBlank(paths[|paths| - 1].s) && a == Scan(dir, paths[|paths| - 1].s))
  {
    var n := |paths| - 1;
    var prefix := paths[..n];
    if ScanOfEntry(prefix, dir, a) {
      var k :| 0 <= k < n && !IsBlank(prefix[k].s) && a == Scan(dir, prefix[k].s);
      assert prefix[k] == paths[k];
    }
    if ScanOfEntry(paths, dir, a) {
      var k :| 0 <= k < |paths| && !IsBlank(paths[k].s) && a == Scan(dir, paths[k].s);
      if k < n { assert prefix[k] == paths[k]; }
    }
  }

  /** The scans are in the order of the list: those of a prefix of the
      list come first. */
  lemma {:induction false} ScanImportsPrefix(paths: seq<Json>, dir: string, m: nat)
    requires AllStrings(paths) && m <= |paths|
    ensures ScanImports(paths[..m], dir).Success? && ScanImports(paths, dir).Success?
    ensures ScanImports(paths[..m], dir).value <= ScanImports(paths, dir).value
    decreases |paths|
  {
    assert AllStrings(paths[..m]) by {
      assert forall k :: 0 <= k < m ==> paths[..m][k] == paths[k];
    }
    if m < |paths| {
      var n := |paths| - 1;
      var prefix := paths[..n];
      assert AllStrings(prefix) by {
        assert forall k :: 0 <= k < n ==> prefix[k] == paths[k];
      }
      ScanImportsPrefix(prefix, dir, m);
      assert prefix[..m] == paths[..m];
    } else {
      assert paths[..m] == paths;
    }
  }

  /** An entry that is no string stops the loop: the scans imported are
      those of the entries before the first such entry. */
  lemma {:induction false} ScanImportsStops(paths: seq<Json>, dir: string, k: nat)
    requires k < |paths| && !paths[k].JString?
    requires forall j :: 0 <= j < k ==> paths[j].JString?
    ensures ScanImports(paths, dir) == Failure((ScanImports(paths[..k], dir).value, AttributeError))
    decreases |paths|
  {
    var n := |paths| - 1;
    var prefix := paths[..n];
    assert forall j :: 0 <= j < n ==> prefix[j] == paths[j];
    if k < n {
      ScanImportsStops(prefix, dir, k);
      assert prefix[..k] == paths[..k];
    } else {
      assert prefix == paths[..k];
    }
  }

  /** The geometry step: the `relative_path` list of the geometry
      section (default empty), when truthy, iterated. */
  function GeometryActions(omni: Json, filePath: string): (r: Result<seq<Action>, (seq<Action>, PyError)>)
  {
    match GeometryPaths(omni)
    case Failure(e) => Failure(([], e))
    case Success(paths) =>
      if !Truthy(paths) then Success([])
      else match Elements(paths)
        case Failure(e) => Failure(([], e))
        case Success(items) => ScanImports(items, DirName(filePath))
  }

  /** The video step: load the video when its path exists, else show the failure dialog. */
  function VideoAction(fs: FileSystem, video: string): Action {
    if fs.Exists(video) then LoadVideo(video) else ShowDialog(VideoMissing(BaseName(video)))
  }

  /** What `import_omni_file` does with a parsed file once it has passed
      the gate and read the frame rates, up to the exception that ends it. */
  function Body(omni: Json, filePath: string, fs: FileSystem, videoFps: Option<Json>, cameraFps: Option<Json>):
    Result<seq<Action>, (seq<Action>, PyError)>
  {
    Steps(ProjectSettingsOf(omni), VideoPath(omni, filePath), GeometryActions(omni, filePath),
          CameraAction(omni, filePath, cameraFps, videoFps), fs)
  }

  /** The body from what its four stages give, in the order they run: the
      first stage that raises ends it, with the steps done before. */
  function Steps(settings: Result<Event, PyError>, video: Result<string, PyError>,
                 geometry: Result<seq<Action>, (seq<Action>, PyError)>, camera: Result<seq<Action>, PyError>,
                 fs: FileSystem): Result<seq<Action>, (seq<Action>, PyError)>
  {
    match settings
    case Failure(e) => Failure(([], e))
    case Success(settings) =>
      var done := [UpdateProjectSettings(settings)];
      match video
      case Failure(e) => Failure((done, e))
      case Success(video) =>
        var done := done + [VideoAction(fs, video)];
        match geometry
        case Failure((partial, e)) => Failure((done + partial, e))
        case Success(scans) =>
          var done := done + scans;
          match camera
          case Failure(e) => Failure((done, e))
          case Success(camera) => Success(done + camera + [ViewportToLines])
  }

  /** What `import_omni_file` does with a parsed file, in order, and how it ends. */
  function ImportPlan(omni: Json, filePath: string, fs: FileSystem): Plan {
    PlanOf(Gate(omni), FrameRates(omni), omni, filePath, fs)
  }

  /** The plan once the version gate and the frame rates have been read:
      an exception in either ends it before any step, a refusal too. */
  function PlanOf(gate: Result<Option<(string, string)>, PyError>, rates: Result<(Option<Json>, Option<Json>), PyError>,
                  omni: Json, filePath: string, fs: FileSystem): Plan {
    match gate
    case Failure(e) => Plan([], Raised(e))
    case Success(Some((message, url))) => Plan([], Refused(message, url))
    case Success(None) =>
      match rates
      case Failure(e) => Plan([], Raised(e))
      case Success((videoFps, cameraFps)) =>
        match Body(omni, filePath, fs, videoFps, cameraFps)
        case Success(actions) => Plan(actions, Completed)
        case Failure((partial, e)) => Plan(partial, Raised(e))
  }

  /** `import_omni_file` from its path: a path that is no file cannot be
      opened, a file that is no JSON text does not parse. */
  function ImportFilePlan(fs: FileSystem, filePath: string): Plan {
    if filePath !in fs.files then Plan([], Raised(OSError))
    else match fs.files[filePath]
      case JsonFile(omni) => ImportPlan(omni, filePath, fs)
      case _ => Plan([], Raised(ValueError))
  }

  /** The import is refused exactly when the file's minimum plugin version
      is well formed and above the running one; nothing is done then, and
      the message and link are those of the unsupported-version exception. */
  lemma ImportPlanRefused(omni: Json, filePath: string, fs: FileSystem)
    ensures ImportPlan(omni, filePath, fs).outcome.Refused? <==>
      && MinimumVersion(omni).Success? && MinimumVersion(omni).value.JString?
      && PluginVersion.ParseVersion(MinimumVersion(omni).value.s).Some?
      && PluginVersion.Less(PluginVersion.Version(1, 0, 1), PluginVersion.ParseVersion(MinimumVersion(omni).value.s).value)
    ensures ImportPlan(omni, filePath, fs).outcome.Refused? ==>
      && ImportPlan(omni, filePath, fs).actions == []
      && ImportPlan(omni, filePath, fs).outcome.message == PluginVersion.UnsupportedMessage(MinimumVersion(omni).value.s, PluginVersion.PLUGIN_VERSION)
      && ImportPlan(omni, filePath, fs).outcome.url == PluginVersion.UPDATE_URL
  {
    GateRefuses(omni);
  }

  /** The steps of a completed plan, piece by piece. */
  lemma CompletedPieces(gate: Result<Option<(string, string)>, PyError>, rates: Result<(Option<Json>, Option<Json>), PyError>,
                        omni: Json, filePath: string, fs: FileSystem)
    requires PlanOf(gate, rates, omni, filePath, fs).outcome == Completed
    ensures gate == Success(None) && rates.Success?
    ensures ProjectSettingsOf(omni).Success? && VideoPath(omni, filePath).Success?
    ensures GeometryActions(omni, filePath).Success?
    ensures CameraAction(omni, filePath, rates.value.1, rates.value.0).Success?
    ensures PlanOf(gate, rates, omni, filePath, fs).actions ==
      [UpdateProjectSettings(ProjectSettingsOf(omni).value), VideoAction(fs, VideoPath(omni, filePath).value)]
      + GeometryActions(omni, filePath).value
      + CameraAction(omni, filePath, rates.value.1, rates.value.0).value
      + [ViewportToLines]
  {
  }

  /** A completed import sets the project first, then loads the video or
      reports it missing, then imports, and sets the viewport to lines
      last; every import is a scan except possibly the last one, which is
      the camera. */
  lemma ImportPlanOrder(omni: Json, filePath: string, fs: FileSystem)
    requires ImportPlan(omni, filePath, fs).outcome == Completed
    ensures var a := ImportPlan(omni, filePath, fs).actions;
      && |a| >= 3
      && a[0].UpdateProjectSettings? && a[0].settings.ProjectSettings?
      && VideoPath(omni, filePath).Success? && a[1] == VideoAction(fs, VideoPath(omni, filePath).value)
      && a[|a| - 1] == ViewportToLines
      && (forall i :: 2 <= i < |a| - 1 ==> a[i].Import?)
      && (forall i :: 2 <= i < |a| - 2 ==> a[i].name == SCAN_NAME && a[i].options == GEOMETRY_OPTIONS)
      && (forall i :: 2 <= i < |a| - 1 && a[i].name == CAMERA_NAME ==> i == |a| - 2 && a[i].options.isCamera)
  {
    PlanOfOrder(Gate(omni), FrameRates(omni), omni, filePath, fs);
  }

  lemma PlanOfOrder(gate: Result<Option<(string, string)>, PyError>, rates: Result<(Option<Json>, Option<Json>), PyError>,
                    omni: Json, filePath: string, fs: FileSystem)
    requires PlanOf(gate, rates, omni, filePath, fs).outcome == Completed
    ensures var a := PlanOf(gate, rates, omni, filePath, fs).actions;
      && |a| >= 3
      && a[0].UpdateProjectSettings? && a[0].settings.ProjectSettings?
      && VideoPath(omni, filePath).Success? && a[1] == VideoAction(fs, VideoPath(omni, filePath).value)
      && a[|a| - 1] == ViewportToLines
      && (forall i :: 2 <= i < |a| - 1 ==> a[i].Import?)
      && (forall i :: 2 <= i < |a| - 2 ==> a[i].name == SCAN_NAME && a[i].options == GEOMETRY_OPTIONS)
      && (forall i :: 2 <= i < |a| - 1 && a[i].name == CAMERA_NAME ==> i == |a| - 2 && a[i].options.isCamera)
  {
    CompletedPieces(gate, rates, omni, filePath, fs);
    var a := PlanOf(gate, rates, omni, filePath, fs).actions;
    var scans := GeometryActions(omni, filePath).value;
    var camera := CameraAction(omni, filePath, rates.value.1, rates.value.0).value;
    ScanActionsAreScans(omni, filePath);
    forall i | 2 <= i < |a| - 1
      ensures a[i].Import?
      ensures i < |a| - 2 ==> a[i].name == SCAN_NAME && a[i].options == GEOMETRY_OPTIONS
      ensures a[i].name == CAMERA_NAME ==> i == |a| - 2 && a[i].options.isCamera
    {
      if i < 2 + |scans| {
        assert a[i] == scans[i - 2];
        assert a[i] in scans;
      } else {
        assert a[i] == camera[i - 2 - |scans|];
        assert i == |a| - 2;
      }
    }
  }

  /** Every action of the geometry step is the import of a scan. */
  lemma ScanActionsAreScans(omni: Json, filePath: string)
    ensures GeometryActions(omni, filePath).Success? ==>
      forall a :: a in GeometryActions(omni, filePath).value ==> a.Import? && a.name == SCAN_NAME && a.options == GEOMETRY_OPTIONS
  {
    if GeometryActions(omni, filePath).Success? && GeometryPaths(omni).Success? && Truthy(GeometryPaths(omni).value) {
      var items := Elements(GeometryPaths(omni).value).value;
      ScanImportsContents(items, DirName(filePath));
    }
  }

  /** The scans done before an exception in the geometry step are imports. */
  lemma PartialScansAreImports(omni: Json, filePath: string)
    ensures GeometryActions(omni, filePath).Failure? ==>
      forall a :: a in GeometryActions(omni, filePath).error.0 ==> a.Import?
  {
    if GeometryActions(omni, filePath).Failure? && GeometryPaths(omni).Success? && Truthy(GeometryPaths(omni).value)
       && Elements(GeometryPaths(omni).value).Success? {
      ScanPartialAreScans(Elements(GeometryPaths(omni).value).value, DirName(filePath));
    }
  }

  /** The viewport is set to lines exactly when the import completes. */
  lemma LinesOnlyWhenCompleted(omni: Json, filePath: string, fs: FileSystem)
    ensures ViewportToLines in ImportPlan(omni, filePath, fs).actions <==> ImportPlan(omni, filePath, fs).outcome == Completed
  {
    PlanOfLines(Gate(omni), FrameRates(omni), omni, filePath, fs);
  }

  lemma PlanOfLines(gate: Result<Option<(string, string)>, PyError>, rates: Result<(Option<Json>, Option<Json>), PyError>,
                    omni: Json, filePath: string, fs: FileSystem)
    ensures ViewportToLines in PlanOf(gate, rates, omni, filePath, fs).actions <==> PlanOf(gate, rates, omni, filePath, fs).outcome == Completed
  {
    if gate == Success(None) && rates.Success? {
      BodyLines(omni, filePath, fs, rates.value.0, rates.value.1);
    }
  }

  /** The body ends by setting the viewport to lines, and nothing it does
      before an exception does. */
  lemma BodyLines(omni: Json, filePath: string, fs: FileSystem, videoFps: Option<Json>, cameraFps: Option<Json>)
    ensures Body(omni, filePath, fs, videoFps, cameraFps).Success? ==>
      ViewportToLines in Body(omni, filePath, fs, videoFps, cameraFps).value
    ensures Body(omni, filePath, fs, videoFps, cameraFps).Failure? ==>
      ViewportToLines !in Body(omni, filePath, fs, videoFps, cameraFps).error.0
  {
    PartialScansAreImports(omni, filePath);
    ScanActionsAreScans(omni, filePath);
    StepsLines(ProjectSettingsOf(omni), VideoPath(omni, filePath), GeometryActions(omni, filePath),
               CameraAction(omni, filePath, cameraFps, videoFps), fs);
  }

  lemma StepsLines(settings: Result<Event, PyError>, video: Result<string, PyError>,
                   geometry: Result<seq<Action>, (seq<Action>, PyError)>, camera: Result<seq<Action>, PyError>,
                   fs: FileSystem)
    requires geometry.Success? ==> forall a :: a in geometry.value ==> a.Import?
    requires geometry.Failure? ==> forall a :: a in geometry.error.0 ==> a.Import?
    requires camera.Success? ==> |camera.value| <= 1 && (|camera.value| == 1 ==> camera.value[0].Import?)
    ensures Steps(settings, video, geometry, camera, fs).Success? ==>
      ViewportToLines in Steps(settings, video, geometry, camera, fs).value
    ensures Steps(settings, video, geometry, camera, fs).Failure? ==>
      ViewportToLines !in Steps(settings, video, geometry, camera, fs).error.0
  {
    var r := Steps(settings, video, geometry, camera, fs);
    if settings.Success? && video.Success? {
      var done := [UpdateProjectSettings(settings.value), VideoAction(fs, video.value)];
      assert ViewportToLines !in done;
      match geometry
      case Failure((partial, e)) =>
        assert r.error.0 == done + partial;
        NotInConcat(done, partial, ViewportToLines);
      case Success(scans) =>
        match camera
        case Failure(e) =>
          assert r.error.0 == done + scans;
          NotInConcat(done, scans, ViewportToLines);
        case Success(camera) =>
          assert r.value[|r.value| - 1] == ViewportToLines;
    }
  }

  lemma NotInConcat<T>(x: seq<T>, y: seq<T>, a: T)
    requires a !in x && a !in y
    ensures a !in x + y
  {
  }

  /** The scans done before an exception are imports too. */
  lemma {:induction false} ScanPartialAreScans(paths: seq<Json>, dir: string)
    ensures ScanImports(paths, dir).Failure? ==> forall a :: a in ScanImports(paths, dir).error.0 ==> a.Import?
    decreases |paths|
  {
    if paths != [] && ScanImports(paths, dir).Failure? {
      var n := |paths| - 1;
      ScanPartialAreScans(paths[..n], dir);
      if ScanImports(paths[..n], dir).Success? {
        assert forall k :: 0 <= k < n ==> paths[..n][k] == paths[k];
        ScanImportsContents(paths[..n], dir);
      }
    }
  }

  /** A file without `cinema4d` and `data` sections: a 1920x1080 project
      at 30 fps, the video looked for at the file's directory itself, no
      scan, no camera, and the viewport set to lines. */
  lemma BareFilePlan(omni: Json, filePath: string, fs: FileSystem)
    requires omni.JObject? && "cinema4d" !in omni.fields && "data" !in omni.fields
    ensures ImportPlan(omni, filePath, fs) ==
      Plan([UpdateProjectSettings(ProjectSettings(JString("1920"), JString("1080"), JString("30"))),
            VideoAction(fs, PathJoin(DirName(filePath), "")),
            ViewportToLines], Completed)
  {
    DefaultMinimumPasses(omni);
    ProjectSettingsDefaults(omni);
    var settings := UpdateProjectSettings(ProjectSettings(JString("1920"), JString("1080"), JString("30")));
    var video := VideoAction(fs, PathJoin(DirName(filePath), ""));
    BareBody(omni, filePath, fs);
    PlanOfCompleted(Gate(omni), FrameRates(omni), omni, filePath, fs, None, None, [settings, video, ViewportToLines]);
  }

  lemma BareBody(omni: Json, filePath: string, fs: FileSystem)
    requires omni.JObject? && "data" !in omni.fields
    ensures FrameRates(omni) == Success((None, None))
    ensures Body(omni, filePath, fs, None, None) ==
      Success([UpdateProjectSettings(ProjectSettings(JString("1920"), JString("1080"), JString("30"))),
               VideoAction(fs, PathJoin(DirName(filePath), "")), ViewportToLines])
  {
    ProjectSettingsDefaults(omni);
    assert VideoPath(omni, filePath) == Success(PathJoin(DirName(filePath), ""));
    assert GeometryActions(omni, filePath) == Success([]);
    assert CameraAction(omni, filePath, None, None) == Success([]);
    var settings := UpdateProjectSettings(ProjectSettings(JString("1920"), JString("1080"), JString("30")));
    var video := VideoAction(fs, PathJoin(DirName(filePath), ""));
    assert [settings] + [video] + [] + [] + [ViewportToLines] == [settings, video, ViewportToLines];
  }

  lemma PlanOfCompleted(gate: Result<Option<(string, string)>, PyError>, rates: Result<(Option<Json>, Option<Json>), PyError>,
                        omni: Json, filePath: string, fs: FileSystem, videoFps: Option<Json>, cameraFps: Option<Json>, actions: seq<Action>)
    requires gate == Success(None) && rates == Success((videoFps, cameraFps))
    requires Body(omni, filePath, fs, videoFps, cameraFps) == Success(actions)
    ensures PlanOf(gate, rates, omni, filePath, fs) == Plan(actions, Completed)
  {
  }

  /** The host calls an action makes; `hasBaseDraw` says whether there is an active viewport. */
  function ActionEvents(a: Action, fs: FileSystem, hasBaseDraw: bool): seq<Event> {
    match a
    case UpdateProjectSettings(settings) => [settings]
    case LoadVideo(path) => [VideoBackground(path)]
    case ShowDialog(dialog) => [MessageDialog(dialog)]
    case Import(path, _, options) => ImportEvents(fs, path, options.isCamera)
    case ViewportToLines => if hasBaseDraw then [ViewportLines] else []
  }

  /** The host calls of a sequence of actions, in order. */
  function PlanEvents(actions: seq<Action>, fs: FileSystem, hasBaseDraw: bool): seq<Event> {
    if actions == [] then []
    else PlanEvents(actions[..|actions| - 1], fs, hasBaseDraw) + ActionEvents(actions[|actions| - 1], fs, hasBaseDraw)
  }

  lemma PlanEventsSnoc(actions: seq<Action>, a: Action, fs: FileSystem, hasBaseDraw: bool)
    ensures PlanEvents(actions + [a], fs, hasBaseDraw) == PlanEvents(actions, fs, hasBaseDraw) + ActionEvents(a, fs, hasBaseDraw)
  {
    assert (actions + [a])[..|actions|] == actions;
  }

  /** Carries out one action of the plan. */
  method Perform(doc: Document, a: Action, fs: FileSystem, host: Host)
    requires doc.Valid()
    modifies doc, doc.baseDraw
    ensures doc.Valid()
    ensures doc.log == old(doc.log) + ActionEvents(a, fs, doc.baseDraw != null)
    ensures doc.baseDraw == old(doc.baseDraw)
    ensures !a.Import? ==> unchanged(doc`objects, doc`nodes, doc`nextId)
  {
    match a {
      case UpdateProjectSettings(settings) => doc.AddEvent(settings);
      case LoadVideo(path) => doc.AddEvent(VideoBackground(path));
      case ShowDialog(dialog) => doc.AddEvent(MessageDialog(dialog));
      case Import(path, name, options) => ProcessImport(doc, fs, path, name, options, host);
      case ViewportToLines => if doc.baseDraw != null { doc.AddEvent(ViewportLines); }
    }
  }

  /** Carries out a sequence of actions in order: those before the last,
      then the last. */
  method RunActions(doc: Document, actions: seq<Action>, fs: FileSystem, host: Host)
    requires doc.Valid()
    modifies doc, doc.baseDraw
    ensures doc.Valid()
    ensures doc.baseDraw == old(doc.baseDraw)
    ensures doc.log == old(doc.log) + PlanEvents(actions, fs, doc.baseDraw != null)
    ensures (forall a :: a in actions ==> !a.Import?) ==> unchanged(doc`objects, doc`nodes, doc`nextId)
    decreases |actions|
  {
    if actions != [] {
      var n := |actions| - 1;
      ghost var log0 := doc.log;
      ghost var hasBaseDraw := doc.baseDraw != null;
      if forall a :: a in actions ==> !a.Import? {
        assert forall a :: a in actions[..n] ==> a in actions;
      }
      RunActions(doc, actions[..n], fs, host);
      ghost var log1 := doc.log;
      Perform(doc, actions[n], fs, host);
      LogSnoc(log0, log1, doc.log, PlanEvents(actions[..n], fs, hasBaseDraw), ActionEvents(actions[n], fs, hasBaseDraw));
    }
  }

  /** A refused file does nothing before the refusal. */
  lemma RefusedFilePlanEmpty(fs: FileSystem, filePath: string)
    ensures ImportFilePlan(fs, filePath).outcome.Refused? ==> ImportFilePlan(fs, filePath).actions == []
  {
    if filePath in fs.files && fs.files[filePath].JsonFile? {
      ImportPlanRefused(fs.files[filePath].data, filePath, fs);
    }
  }

  /** Carries out a plan: a refusal hands its message and link to the
      dialog storage and signals the dialog event; otherwise the plan's
      steps run in order. */
  method Execute(doc: Document, slot: OmniscientMessage.StorageSlot, fs: FileSystem, plan: Plan, host: Host)
    returns (outcome: Outcome)
    requires doc.Valid()
    requires plan.outcome.Refused? ==> plan.actions == []
    modifies doc, doc.baseDraw, slot, slot.instance
    ensures doc.Valid()
    ensures outcome == plan.outcome
    ensures doc.baseDraw == old(doc.baseDraw)
    ensures doc.log == old(doc.log) + PlanEvents(plan.actions, fs, doc.baseDraw != null) +
      (if outcome.Refused? then [CoreEventSignalled(OmniscientMessage.OMNISCIENT_DIALOG_EVENT_ID)] else [])
    ensures outcome.Refused? ==>
      && slot.instance != null && slot.instance.title == "Omniscient"
      && slot.instance.message == outcome.message && slot.instance.updateUrl == outcome.url
    ensures (forall a :: a in plan.actions ==> !a.Import?) ==> Snap(doc) == old(Snap(doc))
  {
    if plan.outcome.Refused? {
      var storage := slot.GetInstance();
      storage.SetData("Omniscient", plan.outcome.message, plan.outcome.url);
      doc.AddEvent(CoreEventSignalled(OmniscientMessage.OMNISCIENT_DIALOG_EVENT_ID));
      return plan.outcome;
    }
    RunActions(doc, plan.actions, fs, host);
    outcome := plan.outcome;
  }

  /** `import_omni_file`: the plan of the file, carried out. The outcome
      is the plan's, and the host calls made are those of the plan's
      steps, followed by the dialog signal on a refusal. */
  method ImportOmniFile(doc: Document, slot: OmniscientMessage.StorageSlot, fs: FileSystem, filePath: string, host: Host)
    returns (outcome: Outcome)
    requires doc.Valid()
    modifies doc, doc.baseDraw, slot, slot.instance
    ensures doc.Valid()
    ensures outcome == ImportFilePlan(fs, filePath).outcome
    ensures doc.baseDraw == old(doc.baseDraw)
    ensures doc.log == old(doc.log) + PlanEvents(ImportFilePlan(fs, filePath).actions, fs, doc.baseDraw != null) +
      (if outcome.Refused? then [CoreEventSignalled(OmniscientMessage.OMNISCIENT_DIALOG_EVENT_ID)] else [])
    ensures outcome.Refused? ==>
      && slot.instance != null && slot.instance.title == "Omniscient"
      && slot.instance.message == outcome.message && slot.instance.updateUrl == outcome.url
    ensures (forall a :: a in ImportFilePlan(fs, filePath).actions ==> !a.Import?) ==> Snap(doc) == old(Snap(doc))
  {
    RefusedFilePlanEmpty(fs, filePath);
    outcome := Execute(doc, slot, fs, ImportFilePlan(fs, filePath), host);
  }

  /** `main`: nothing is selected (a cancelled or empty choice), a path
      without the `.omni` extension is refused with a dialog, and any
      other path is imported. */
  method ImportSelected(doc: Document, slot: OmniscientMessage.StorageSlot, fs: FileSystem, selected: Option<string>, host: Host)
    returns (outcome: Option<Outcome>)
    requires doc.Valid()
    modifies doc, doc.baseDraw, slot, slot.instance
    ensures doc.Valid()
    ensures (selected.None? || selected == Some("")) ==> outcome.None? && doc.log == old(doc.log) && Snap(doc) == old(Snap(doc))
    ensures selected.Some? && selected.value != "" && !EndsWithIgnoreCase(selected.value, ".omni") ==>
      outcome.None? && doc.log == old(doc.log) + [MessageDialog(WrongExtension)] && Snap(doc) == old(Snap(doc))
    ensures selected.Some? && selected.value != "" && EndsWithIgnoreCase(selected.value, ".omni") ==>
      outcome == Some(ImportFilePlan(fs, selected.value).outcome)
  {
    if selected.None? || selected.value == "" {
      return None;
    }
    if !EndsWithIgnoreCase(selected.value, ".omni") {
      doc.AddEvent(MessageDialog(WrongExtension));
      return None;
    }
    var o := ImportOmniFile(doc, slot, fs, selected.value, host);
    outcome := Some(o);
  }
}
