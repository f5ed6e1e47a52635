/** The earlier importer script: the same `.omni` reading and version
    gate as the current one, but `process_import` sets the import scales
    before it looks for the file, says nothing when the file is missing
    and tells new objects apart by identity rather than by GUID; the
    camera operations run in their legacy form (adjusting only with both
    frame rates, never looking through); a missing video is only logged;
    every geometry entry is joined to the directory without a blank test;
    and the viewport is left as it is. */
module LegacyImporter {
  import opened Wrappers
  import opened Text
  import opened OmniData
  import opened Scene
  import opened ImportCommon
  import opened CameraOperations
  import OmniscientMessage
  import PluginVersion
  import OmniscientImporter

  // ---------------------------------------------------------------------
  // process_import

  /** What `process_import` shows and sets before merging: a camera that
      is no `.abc` is refused; otherwise both import scales are set,
      whether or not the file exists. */
  function ImportEvents(path: string, isCamera: bool): (r: seq<Event>)
    ensures r == [MessageDialog(CameraFormatError)] || r == [ScaleAdjusted("abc"), ScaleAdjusted("obj")]
    ensures (r == [MessageDialog(CameraFormatError)]) <==> isCamera && !EndsWithIgnoreCase(path, ".abc")
  {
    if isCamera && !EndsWithIgnoreCase(path, ".abc") then [MessageDialog(CameraFormatError)]
    else [ScaleAdjusted("abc"), ScaleAdjusted("obj")]
  }

  /** A missing file: the current importer shows its dialog and leaves
      the scales alone, the legacy one sets the scales and shows nothing. */
  lemma MissingFileEvents(fs: FileSystem, path: string, isCamera: bool)
    requires !(isCamera && !EndsWithIgnoreCase(path, ".abc")) && !fs.IsFile(path)
    ensures ImportEvents(path, isCamera) == [ScaleAdjusted("abc"), ScaleAdjusted("obj")]
    ensures OmniscientImporter.ImportEvents(fs, path, isCamera) ==
      [MessageDialog(OmniscientImporter.MissingFileDialog(path))]
    ensures forall e :: e in ImportEvents(path, isCamera) ==> !e.MessageDialog?
  {
  }

  /** `set(doc.GetObjects())` after the merge less the one before: the
      objects present by identity after and not before. */
  function NewById(before: Snapshot, after: Snapshot): set<ObjId> {
    (set o | o in after.objects) - (set o | o in before.objects)
  }

  /** The identities a merge of `n` objects gives, from `first` on. */
  function MergedIds(first: nat, n: nat): (r: set<ObjId>)
    ensures forall o :: o in r <==> first <= o < first + n
  {
    set o | o in IdRange(first, n)
  }

  /** Compared by identity, the new objects are exactly those the merge
      added, whatever their GUIDs. */
  lemma {:induction false} NewByIdIsMerged(s: Snapshot, added: seq<Node>)
    requires forall o :: o in s.objects ==> o < s.nextId
    ensures NewById(s, AfterMerge(s, added)) == MergedIds(s.nextId, |added|)
  {
    var m := AfterMerge(s, added);
    var ids := IdRange(s.nextId, |added|);
    assert m.objects == s.objects + ids;
    forall o | o in ids ensures o !in s.objects {
    }
  }

  /** `process_import`. A camera path without the `.abc` extension is
      refused with a dialog and nothing else. Otherwise both import
      scales are set; a file that is missing or does not merge changes
      nothing more. After a successful merge every object it added is
      renamed and, for a camera, the legacy camera operations run over
      them; the viewport camera never changes. */
  method ProcessImport(doc: Document, fs: FileSystem, path: string, defaultName: string, opts: ImportOptions, host: Host)
    requires doc.Valid()
    modifies doc, doc.baseDraw
    ensures doc.Valid()
    ensures doc.log == old(doc.log) + ImportEvents(path, opts.isCamera)
    ensures doc.baseDraw == old(doc.baseDraw)
    ensures doc.minFrame == old(doc.minFrame) && doc.maxFrame == old(doc.maxFrame)
    ensures doc.baseDraw != null ==> doc.baseDraw.sceneCamera == old(doc.baseDraw.sceneCamera)
    ensures !OmniscientImporter.Merges(fs, path, opts.isCamera) ==> unchanged(doc`objects, doc`nodes, doc`nextId)
    ensures OmniscientImporter.Merges(fs, path, opts.isCamera) ==>
      var merged := AfterMerge(old(Snap(doc)), fs.files[path].objects);
      RenamedOutcome(merged, Snap(doc), MergedIds(old(doc.nextId), |fs.files[path].objects|),
                     defaultName, LEGACY, opts, host, doc.minFrame, doc.maxFrame)
  {
    if opts.isCamera && !EndsWithIgnoreCase(path, ".abc") {
      doc.AddEvent(MessageDialog(CameraFormatError));
      return;
    }
    doc.AddEvent(ScaleAdjusted("abc"));
    doc.AddEvent(ScaleAdjusted("obj"));
    if fs.IsFile(path) {
      MergeAndRename(doc, fs, path, defaultName, opts, host);
    }
  }

  /** The merge of `process_import` and the renaming of what it added. */
  method MergeAndRename(doc: Document, fs: FileSystem, path: string, defaultName: string, opts: ImportOptions, host: Host)
    requires doc.Valid()
    modifies doc, doc.baseDraw
    ensures doc.Valid()
    ensures doc.log == old(doc.log) && doc.baseDraw == old(doc.baseDraw)
    ensures doc.minFrame == old(doc.minFrame) && doc.maxFrame == old(doc.maxFrame)
    ensures doc.baseDraw != null ==> doc.baseDraw.sceneCamera == old(doc.baseDraw.sceneCamera)
    ensures !(path in fs.files && fs.files[path].SceneFile?) ==> unchanged(doc`objects, doc`nodes, doc`nextId)
    ensures path in fs.files && fs.files[path].SceneFile? ==>
      var merged := AfterMerge(old(Snap(doc)), fs.files[path].objects);
      RenamedOutcome(merged, Snap(doc), MergedIds(old(doc.nextId), |fs.files[path].objects|),
                     defaultName, LEGACY, opts, host, doc.minFrame, doc.maxFrame)
  {
    ghost var s0 := Snap(doc);
    var before := set o | o in doc.objects;
    var ok := doc.Merge(fs, path);
    if ok {
      ghost var merged := Snap(doc);
      var after := set o | o in doc.objects;
      var added := after - before;
      AddedByIdentity(s0, merged, fs.files[path].objects, before, after);
      RenameSet(doc, added, defaultName, LEGACY, opts, host);
    }
  }

  /** The sets `process_import` takes before and after the merge differ
      by the merged identities. */
  lemma AddedByIdentity(s0: Snapshot, merged: Snapshot, added: seq<Node>, before: set<ObjId>, after: set<ObjId>)
    requires forall o :: o in s0.objects ==> o < s0.nextId
    requires merged == AfterMerge(s0, added)
    requires before == (set o | o in s0.objects) && after == (set o | o in merged.objects)
    ensures after - before == MergedIds(s0.nextId, |added|)
    ensures forall o :: o in after - before ==> o in merged.nodes
  {
    NewByIdIsMerged(s0, added);
  }

  // ---------------------------------------------------------------------
  // import_omni_file and main

  /** The geometry imports for a list of entries: each is joined to the
      directory and imported, blank or not; an entry that is no string
      makes `os.path.join` raise. On an exception, the imports before it
      and the exception. */
  function ScanImports(paths: seq<Json>, dir: string): (r: Result<seq<Action>, (seq<Action>, PyError)>)
    ensures r.Success? <==> OmniscientImporter.AllStrings(paths)
    ensures r.Failure? ==> r.error.1 == TypeError
    decreases |paths|
  {
    if paths == [] then Success([])
    else
      var n := |paths| - 1;
      var done := ScanImports(paths[..n], dir);
      assert OmniscientImporter.AllStrings(paths) <==>
             OmniscientImporter.AllStrings(paths[..n]) && paths[n].JString? by {
        assert forall k :: 0 <= k < n ==> paths[..n][k] == paths[k];
      }
      if done.Failure? then done
      else if !paths[n].JString? then Failure((done.value, TypeError))
      else Success(done.value + [OmniscientImporter.Scan(dir, paths[n].s)])
  }

  /** With every entry a string, there is one import per entry, in list
      order, blank entries included. */
  lemma {:induction false} ScanImportsContents(paths: seq<Json>, dir: string)
    requires OmniscientImporter.AllStrings(paths)
    ensures ScanImports(paths, dir).Success?
    ensures |ScanImports(paths, dir).value| == |paths|
    ensures forall k :: 0 <= k < |paths| ==>
      ScanImports(paths, dir).value[k] == OmniscientImporter.Scan(dir, paths[k].s)
    decreases |paths|
  {
    if paths != [] {
      var n := |paths| - 1;
      assert OmniscientImporter.AllStrings(paths[..n]) by {
        assert forall k :: 0 <= k < n ==> paths[..n][k] == paths[k];
      }
      ScanImportsContents(paths[..n], dir);
    }
  }

  /** The first entry that is no string ends the loop, after the imports
      of the entries before it. */
  lemma {:induction false} ScanImportsStops(paths: seq<Json>, dir: string, k: nat)
    requires k < |paths| && !paths[k].JString?
    requires OmniscientImporter.AllStrings(paths[..k])
    ensures ScanImports(paths, dir) == Failure((ScanImports(paths[..k], dir).value, TypeError))
    decreases |paths|
  {
    var n := |paths| - 1;
    if k < n {
      var prefix := paths[..n];
      assert prefix[..k] == paths[..k];
      ScanImportsStops(prefix, dir, k);
    } else {
      assert paths[..n] == paths[..k];
    }
  }

  /** The geometry step: the `relative_path` list of the geometry
      section (default empty), when truthy, iterated. */
  function GeometryActions(omni: Json, filePath: string): (r: Result<seq<Action>, (seq<Action>, PyError)>)
  {
    match GeometryPaths(omni)
    case Failure(e) => Failure(([], e))
    case Success(paths) =>
      if !Truthy(paths) then Success([])
      else match Elements(paths)
        case Failure(e) => Failure(([], e))
        case Success(items) => ScanImports(items, DirName(filePath))
  }

  /** Every geometry step, done or partial, is a scan import. */
  lemma GeometryAreScans(omni: Json, filePath: string)
    ensures GeometryActions(omni, filePath).Success? ==>
      forall a :: a in GeometryActions(omni, filePath).value ==> a.Import? && a.name == SCAN_NAME
    ensures GeometryActions(omni, filePath).Failure? ==>
      forall a :: a in GeometryActions(omni, filePath).error.0 ==> a.Import? && a.name == SCAN_NAME
  {
    if GeometryPaths(omni).Success? && Truthy(GeometryPaths(omni).value) && Elements(GeometryPaths(omni).value).Success? {
      ScanPrefixAreScans(Elements(GeometryPaths(omni).value).value, DirName(filePath));
    }
  }

  /** The imports of the loop, done or partial, are scan imports. */
  lemma {:induction false} ScanPrefixAreScans(paths: seq<Json>, dir: string)
    ensures ScanImports(paths, dir).Success? ==>
      forall a :: a in ScanImports(paths, dir).value ==> a.Import? && a.name == SCAN_NAME
    ensures ScanImports(paths, dir).Failure? ==>
      forall a :: a in ScanImports(paths, dir).error.0 ==> a.Import? && a.name == SCAN_NAME
    decreases |paths|
  {
    if paths != [] {
      ScanPrefixAreScans(paths[..|paths| - 1], dir);
    }
  }

  /** The video step: the background is made only when the video exists;
      a missing one is only logged. */
  function VideoActions(fs: FileSystem, video: string): (r: seq<Action>)
    ensures fs.Exists(video) <==> r == [LoadVideo(video)]
    ensures !fs.Exists(video) <==> r == []
  {
    if fs.Exists(video) then [LoadVideo(video)] else []
  }

  /** The body from what its four stages give, in the order they run: the
      first stage that raises ends it, with the steps done before. */
  function Steps(settings: Result<Event, PyError>, video: Result<string, PyError>,
                 geometry: Result<seq<Action>, (seq<Action>, PyError)>, camera: Result<seq<Action>, PyError>,
                 fs: FileSystem): Result<seq<Action>, (seq<Action>, PyError)>
  {
    match settings
    case Failure(e) => Failure(([], e))
    case Success(settings) =>
      var done := [UpdateProjectSettings(settings)];
      match video
      case Failure(e) => Failure((done, e))
      case Success(video) =>
        var done := done + VideoActions(fs, video);
        match geometry
        case Failure((partial, e)) => Failure((done + partial, e))
        case Success(scans) =>
          var done := done + scans;
          match camera
          case Failure(e) => Failure((done, e))
          case Success(camera) => Success(done + camera)
  }

  /** What `import_omni_file` does with a parsed file once it has passed
      the gate and read the frame rates, up to the exception that ends it. */
  function Body(omni: Json, filePath: string, fs: FileSystem, videoFps: Option<Json>, cameraFps: Option<Json>):
    Result<seq<Action>, (seq<Action>, PyError)>
  {
    Steps(ProjectSettingsOf(omni), VideoPath(omni, filePath), GeometryActions(omni, filePath),
          CameraAction(omni, filePath, cameraFps, videoFps), fs)
  }

  /** What `import_omni_file` does with a parsed file, in order, and how it ends. */
  function ImportPlan(omni: Json, filePath: string, fs: FileSystem): Plan {
    PlanOf(Gate(omni), FrameRates(omni), omni, filePath, fs)
  }

  /** The plan once the version gate and the frame rates have been read:
      an exception in either ends it before any step, a refusal too. */
  function PlanOf(gate: Result<Option<(string, string)>, PyError>, rates: Result<(Option<Json>, Option<Json>), PyError>,
                  omni: Json, filePath: string, fs: FileSystem): Plan {
    match gate
    case Failure(e) => Plan([], Raised(e))
    case Success(Some((message, url))) => Plan([], Refused(message, url))
    case Success(None) =>
      match rates
      case Failure(e) => Plan([], Raised(e))
      case Success((videoFps, cameraFps)) =>
        match Body(omni, filePath, fs, videoFps, cameraFps)
        case Success(actions) => Plan(actions, Completed)
        case Failure((partial, e)) => Plan(partial, Raised(e))
  }

  /** `import_omni_file` from its path: a path that is no file cannot be
      opened, a file that is no JSON text does not parse. */
  function ImportFilePlan(fs: FileSystem, filePath: string): Plan {
    if filePath !in fs.files then Plan([], Raised(OSError))
    else match fs.files[filePath]
      case JsonFile(omni) => ImportPlan(omni, filePath, fs)
      case _ => Plan([], Raised(ValueError))
  }

  /** The steps the legacy importer takes: project settings, the video
      background, imports. It shows no dialog of its own and never sets
      the viewport to lines. */
  predicate LegacyAction(a: Action) {
    || (a.UpdateProjectSettings? && a.settings.ProjectSettings?)
    || a.LoadVideo? || a.Import?
  }

  /** Whatever the file, every step of the plan is a legacy step. */
  lemma ImportFilePlanLegacy(fs: FileSystem, filePath: string)
    ensures forall a :: a in ImportFilePlan(fs, filePath).actions ==> LegacyAction(a)
  {
    if filePath in fs.files && fs.files[filePath].JsonFile? {
      var omni := fs.files[filePath].data;
      PlanOfLegacy(Gate(omni), FrameRates(omni), omni, filePath, fs);
    }
  }

  lemma PlanOfLegacy(gate: Result<Option<(string, string)>, PyError>, rates: Result<(Option<Json>, Option<Json>), PyError>,
                     omni: Json, filePath: string, fs: FileSystem)
    ensures forall a :: a in PlanOf(gate, rates, omni, filePath, fs).actions ==> LegacyAction(a)
  {
    if gate == Success(None) && rates.Success? {
      GeometryAreScans(omni, filePath);
      StepsLegacy(ProjectSettingsOf(omni), VideoPath(omni, filePath), GeometryActions(omni, filePath),
                  CameraAction(omni, filePath, rates.value.1, rates.value.0), fs);
    }
  }

  /** Stages that give legacy steps make a body of legacy steps. */
  lemma StepsLegacy(settings: Result<Event, PyError>, video: Result<string, PyError>,
                    geometry: Result<seq<Action>, (seq<Action>, PyError)>, camera: Result<seq<Action>, PyError>,
                    fs: FileSystem)
    requires settings.Success? ==> settings.value.ProjectSettings?
    requires geometry.Success? ==> forall a :: a in geometry.value ==> a.Import?
    requires geometry.Failure? ==> forall a :: a in geometry.error.0 ==> a.Import?
    requires camera.Success? ==> |camera.value| <= 1 && (|camera.value| == 1 ==> camera.value[0].Import?)
    ensures Steps(settings, video, geometry, camera, fs).Success? ==>
      forall a :: a in Steps(settings, video, geometry, camera, fs).value ==> LegacyAction(a)
    ensures Steps(settings, video, geometry, camera, fs).Failure? ==>
      forall a :: a in Steps(settings, video, geometry, camera, fs).error.0 ==> LegacyAction(a)
  {
    if settings.Success? && video.Success? {
      var done := [UpdateProjectSettings(settings.value)] + VideoActions(fs, video.value);
      assert forall a :: a in done ==> LegacyAction(a);
      match geometry
      case Failure((partial, e)) =>
        AllLegacyConcat(done, partial);
      case Success(scans) =>
        AllLegacyConcat(done, scans);
        if camera.Success? {
          AllLegacyConcat(done + scans, camera.value);
        }
    }
  }

  lemma AllLegacyConcat(x: seq<Action>, y: seq<Action>)
    requires forall a :: a in x ==> LegacyAction(a)
    requires forall a :: a in y ==> LegacyAction(a)
    ensures forall a :: a in x + y ==> LegacyAction(a)
  {
  }

  /** As in the current importer, the import is refused exactly when the
      file's minimum plugin version is well formed and above the running
      one, with nothing done and the exception's message and link. */
  lemma ImportPlanRefused(omni: Json, filePath: string, fs: FileSystem)
    ensures ImportPlan(omni, filePath, fs).outcome.Refused? <==>
      && MinimumVersion(omni).Success? && MinimumVersion(omni).value.JString?
      && PluginVersion.ParseVersion(MinimumVersion(omni).value.s).Some?
      && PluginVersion.Less(PluginVersion.Version(1, 0, 1), PluginVersion.ParseVersion(MinimumVersion(omni).value.s).value)
    ensures ImportPlan(omni, filePath, fs).outcome.Refused? ==>
      && ImportPlan(omni, filePath, fs).actions == []
      && ImportPlan(omni, filePath, fs).outcome.message == PluginVersion.UnsupportedMessage(MinimumVersion(omni).value.s, PluginVersion.PLUGIN_VERSION)
      && ImportPlan(omni, filePath, fs).outcome.url == PluginVersion.UPDATE_URL
  {
    GateRefuses(omni);
  }

  /** A refused file does nothing before the refusal. */
  lemma RefusedFilePlanEmpty(fs: FileSystem, filePath: string)
    ensures ImportFilePlan(fs, filePath).outcome.Refused? ==> ImportFilePlan(fs, filePath).actions == []
  {
    if filePath in fs.files && fs.files[filePath].JsonFile? {
      ImportPlanRefused(fs.files[filePath].data, filePath, fs);
    }
  }

  /** A file with only its name: the default project settings, the
      video background only when the file's own directory exists as the
      video path, and nothing more. */
  lemma BareFilePlan(omni: Json, filePath: string, fs: FileSystem)
    requires omni == EmptyObject
    ensures ImportPlan(omni, filePath, fs) ==
      Plan([UpdateProjectSettings(ProjectSettings(JString("1920"), JString("1080"), JString("30")))] +
           VideoActions(fs, PathJoin(DirName(filePath), "")), Completed)
  {
    DefaultMinimumPasses(omni);
    var settings := UpdateProjectSettings(ProjectSettings(JString("1920"), JString("1080"), JString("30")));
    BareBody(omni, filePath, fs);
    PlanOfCompleted(Gate(omni), FrameRates(omni), omni, filePath, fs, None, None,
                    [settings] + VideoActions(fs, PathJoin(DirName(filePath), "")));
  }

  lemma BareBody(omni: Json, filePath: string, fs: FileSystem)
    requires omni == EmptyObject
    ensures FrameRates(omni) == Success((None, None))
    ensures Body(omni, filePath, fs, None, None) ==
      Success([UpdateProjectSettings(ProjectSettings(JString("1920"), JString("1080"), JString("30")))] +
              VideoActions(fs, PathJoin(DirName(filePath), "")))
  {
    ProjectSettingsDefaults(omni);
    assert VideoPath(omni, filePath) == Success(PathJoin(DirName(filePath), ""));
    assert GeometryActions(omni, filePath) == Success([]);
    assert CameraAction(omni, filePath, None, None) == Success([]);
    var done := [UpdateProjectSettings(ProjectSettings(JString("1920"), JString("1080"), JString("30")))] +
                VideoActions(fs, PathJoin(DirName(filePath), ""));
    assert done + [] + [] == done;
  }

  lemma PlanOfCompleted(gate: Result<Option<(string, string)>, PyError>, rates: Result<(Option<Json>, Option<Json>), PyError>,
                        omni: Json, filePath: string, fs: FileSystem, videoFps: Option<Json>, cameraFps: Option<Json>, actions: seq<Action>)
    requires gate == Success(None) && rates == Success((videoFps, cameraFps))
    requires Body(omni, filePath, fs, videoFps, cameraFps) == Success(actions)
    ensures PlanOf(gate, rates, omni, filePath, fs) == Plan(actions, Completed)
  {
  }

  /** The host calls a legacy step makes: no dialog but the camera-format
      one, and never the viewport change. */
  function ActionEvents(a: Action, fs: FileSystem): (r: seq<Event>)
    requires LegacyAction(a)
    ensures forall e :: e in r && e.MessageDialog? ==> e.dialog == CameraFormatError
    ensures ViewportLines !in r
  {
    match a
    case UpdateProjectSettings(settings) => [settings]
    case LoadVideo(path) => [VideoBackground(path)]
    case Import(path, _, options) => ImportEvents(path, options.isCamera)
  }

  /** The host calls of a sequence of legacy steps, in order. */
  function PlanEvents(actions: seq<Action>, fs: FileSystem): seq<Event>
    requires forall a :: a in actions ==> LegacyAction(a)
  {
    if actions == [] then []
    else
      assert actions[|actions| - 1] in actions;
      PlanEvents(actions[..|actions| - 1], fs) + ActionEvents(actions[|actions| - 1], fs)
  }

  /** The legacy importer shows no dialog in its steps except the camera-format one. */
  lemma {:induction false} PlanEventsDialogs(actions: seq<Action>, fs: FileSystem)
    requires forall a :: a in actions ==> LegacyAction(a)
    ensures forall e :: e in PlanEvents(actions, fs) && e.MessageDialog? ==> e.dialog == CameraFormatError
    ensures ViewportLines !in PlanEvents(actions, fs)
    decreases |actions|
  {
    if actions != [] {
      var n := |actions| - 1;
      assert actions[n] in actions;
      assert forall a :: a in actions[..n] ==> a in actions;
      PlanEventsDialogs(actions[..n], fs);
    }
  }

  /** Carries out one legacy step. */
  method Perform(doc: Document, a: Action, fs: FileSystem, host: Host)
    requires doc.Valid() && LegacyAction(a)
    modifies doc, doc.baseDraw
    ensures doc.Valid()
    ensures doc.log == old(doc.log) + ActionEvents(a, fs)
    ensures doc.baseDraw == old(doc.baseDraw)
    ensures doc.baseDraw != null ==> doc.baseDraw.sceneCamera == old(doc.baseDraw.sceneCamera)
    ensures !a.Import? ==> unchanged(doc`objects, doc`nodes, doc`nextId)
  {
    match a {
      case UpdateProjectSettings(settings) => doc.AddEvent(settings);
      case LoadVideo(path) => doc.AddEvent(VideoBackground(path));
      case Import(path, name, options) => ProcessImport(doc, fs, path, name, options, host);
    }
  }

  /** Carries out a sequence of legacy steps in order: those before the
      last, then the last. */
  method RunActions(doc: Document, actions: seq<Action>, fs: FileSystem, host: Host)
    requires doc.Valid() && forall a :: a in actions ==> LegacyAction(a)
    modifies doc, doc.baseDraw
    ensures doc.Valid()
    ensures doc.baseDraw == old(doc.baseDraw)
    ensures doc.baseDraw != null ==> doc.baseDraw.sceneCamera == old(doc.baseDraw.sceneCamera)
    ensures doc.log == old(doc.log) + PlanEvents(actions, fs)
    ensures (forall a :: a in actions ==> !a.Import?) ==> unchanged(doc`objects, doc`nodes, doc`nextId)
    decreases |actions|
  {
    if actions != [] {
      var n := |actions| - 1;
      assert forall a :: a in actions[..n] ==> a in actions;
      assert actions[n] in actions;
      ghost var log0 := doc.log;
      RunActions(doc, actions[..n], fs, host);
      ghost var log1 := doc.log;
      Perform(doc, actions[n], fs, host);
      LogSnoc(log0, log1, doc.log, PlanEvents(actions[..n], fs), ActionEvents(actions[n], fs));
    }
  }

  /** Carries out a plan: a refusal hands its message and link to the
      dialog storage and signals the dialog event; otherwise the plan's
      steps run in order. */
  method Execute(doc: Document, slot: OmniscientMessage.StorageSlot, fs: FileSystem, plan: Plan, host: Host)
    returns (outcome: Outcome)
    requires doc.Valid()
    requires forall a :: a in plan.actions ==> LegacyAction(a)
    requires plan.outcome.Refused? ==> plan.actions == []
    modifies doc, doc.baseDraw, slot, slot.instance
    ensures doc.Valid()
    ensures outcome == plan.outcome
    ensures doc.baseDraw == old(doc.baseDraw)
    ensures doc.baseDraw != null ==> doc.baseDraw.sceneCamera == old(doc.baseDraw.sceneCamera)
    ensures doc.log == old(doc.log) + PlanEvents(plan.actions, fs) +
      (if outcome.Refused? then [CoreEventSignalled(OmniscientMessage.OMNISCIENT_DIALOG_EVENT_ID)] else [])
    ensures outcome.Refused? ==>
      && slot.instance != null && slot.instance.title == "Omniscient"
      && slot.instance.message == outcome.message && slot.instance.updateUrl == outcome.url
    ensures (forall a :: a in plan.actions ==> !a.Import?) ==> unchanged(doc`objects, doc`nodes, doc`nextId)
  {
    if plan.outcome.Refused? {
      var storage := slot.GetInstance();
      storage.SetData("Omniscient", plan.outcome.message, plan.outcome.url);
      doc.AddEvent(CoreEventSignalled(OmniscientMessage.OMNISCIENT_DIALOG_EVENT_ID));
      return plan.outcome;
    }
    RunActions(doc, plan.actions, fs, host);
    outcome := plan.outcome;
  }

  /** `import_omni_file`: the plan of the file, carried out. The outcome
      is the plan's, and the host calls made are those of the plan's
      steps, followed by the dialog signal on a refusal. */
  method ImportOmniFile(doc: Document, slot: OmniscientMessage.StorageSlot, fs: FileSystem, filePath: string, host: Host)
    returns (outcome: Outcome)
    requires doc.Valid()
    modifies doc, doc.baseDraw, slot, slot.instance
    ensures doc.Valid()
    ensures outcome == ImportFilePlan(fs, filePath).outcome
    ensures doc.baseDraw == old(doc.baseDraw)
    ensures doc.baseDraw != null ==> doc.baseDraw.sceneCamera == old(doc.baseDraw.sceneCamera)
    ensures forall a :: a in ImportFilePlan(fs, filePath).actions ==> LegacyAction(a)
    ensures doc.log == old(doc.log) + PlanEvents(ImportFilePlan(fs, filePath).actions, fs) +
      (if outcome.Refused? then [CoreEventSignalled(OmniscientMessage.OMNISCIENT_DIALOG_EVENT_ID)] else [])
    ensures outcome.Refused? ==>
      && slot.instance != null && slot.instance.title == "Omniscient"
      && slot.instance.message == outcome.message && slot.instance.updateUrl == outcome.url
    ensures (forall a :: a in ImportFilePlan(fs, filePath).actions ==> !a.Import?) ==>
      unchanged(doc`objects, doc`nodes, doc`nextId)
  {
    RefusedFilePlanEmpty(fs, filePath);
    ImportFilePlanLegacy(fs, filePath);
    outcome := Execute(doc, slot, fs, ImportFilePlan(fs, filePath), host);
  }

  /** `main`: nothing is selected (a cancelled or empty choice), a path
      without the `.omni` extension is refused with a dialog, and any
      other path is imported. */
  method ImportSelected(doc: Document, slot: OmniscientMessage.StorageSlot, fs: FileSystem, selected: Option<string>, host: Host)
    returns (outcome: Option<Outcome>)
    requires doc.Valid()
    modifies doc, doc.baseDraw, slot, slot.instance
    ensures doc.Valid()
    ensures (selected.None? || selected == Some("")) ==>
      outcome.None? && doc.log == old(doc.log) && unchanged(doc`objects, doc`nodes, doc`nextId)
    ensures selected.Some? && selected.value != "" && !EndsWithIgnoreCase(selected.value, ".omni") ==>
      outcome.None? && doc.log == old(doc.log) + [MessageDialog(WrongExtension)] &&
      unchanged(doc`objects, doc`nodes, doc`nextId)
    ensures selected.Some? && selected.value != "" && EndsWithIgnoreCase(selected.value, ".omni") ==>
      outcome == Some(ImportFilePlan(fs, selected.value).outcome)
  {
    if selected.None? || selected.value == "" {
      return None;
    }
    if !EndsWithIgnoreCase(selected.value, ".omni") {
      doc.AddEvent(MessageDialog(WrongExtension));
      return None;
    }
    var o := ImportOmniFile(doc, slot, fs, selected.value, host);
    outcome := Some(o);
  }
}
