/** What both importer variants share: the options `process_import`
    receives, the host functions the camera bake needs, the control-tag
    assignment, the Alembic camera adjustment, pointing the viewport at a
    camera, renaming, and reading the fields of the parsed `.omni` file
    that both variants read the same way. */
module ImportCommon {
  import opened Wrappers
  import opened Text
  import opened OmniData
  import opened Scene
  import PluginVersion
  import CameraBaker

  const BACKGROUND_OBJECT_NAME: string := "Background_Omni"
  const SCAN_NAME: string := "Scan_Omni"
  const CAMERA_NAME: string := "Camera_Omni"

  const CAMERA_FORMAT_ERROR: string :=
    "Camera import failed." + " The Omniscient importer requires the camera as an Alembic (.abc)"
  const WRONG_EXTENSION_MESSAGE: string := "Please select a file" + " with the .omni extension."

  /** The words `c4d.gui.MessageDialog` shows for each dialog. */
  function DialogText(d: Dialog): string {
    match d
    case CameraFormatError => CAMERA_FORMAT_ERROR
    case ScanMissing(scan) => SCAN_MISSING_HEAD + scan + SCAN_MISSING_TAIL
    case FileMissing(file) => FILE_MISSING_HEAD + file + FILE_MISSING_TAIL
    case VideoMissing(video) => VIDEO_MISSING_HEAD + video + VIDEO_MISSING_TAIL
    case WrongExtension => WRONG_EXTENSION_MESSAGE
  }

  const SCAN_MISSING_HEAD: string := "Scan import failed. The scan '"
  const SCAN_MISSING_TAIL: string := "' needs to be in the same folder as the .omni file."
  const FILE_MISSING_HEAD: string := "File '"
  const FILE_MISSING_TAIL: string := "' not found."
  const VIDEO_MISSING_HEAD: string := "Video import failed. The video file '"
  const VIDEO_MISSING_TAIL: string := "' needs to be in the same folder as the .omni file."

  /** Each dialog's words are its own: the words tell the kind of dialog
      and the name it reports. */
  lemma DialogTextInjective(d1: Dialog, d2: Dialog)
    requires DialogText(d1) == DialogText(d2)
    ensures d1 == d2
  {
    var c1 := FirstLetter(d1);
    var c2 := FirstLetter(d2);
    match d1
    case ScanMissing(a) =>
      InfixUnique(SCAN_MISSING_HEAD, a, d2.scan, SCAN_MISSING_TAIL);
    case FileMissing(a) =>
      InfixUnique(FILE_MISSING_HEAD, a, d2.file, FILE_MISSING_TAIL);
    case VideoMissing(a) =>
      InfixUnique(VIDEO_MISSING_HEAD, a, d2.video, VIDEO_MISSING_TAIL);
    case _ =>
  }

  /** The first letter of each dialog's words tells its kind. */
  lemma FirstLetter(d: Dialog) returns (c: char)
    ensures |DialogText(d)| > 0 && DialogText(d)[0] == c
    ensures c == match d
      case CameraFormatError => 'C'
      case ScanMissing(_) => 'S'
      case FileMissing(_) => 'F'
      case VideoMissing(_) => 'V'
      case WrongExtension => 'P'
  {
    match d
    case CameraFormatError =>
      c := CAMERA_FORMAT_ERROR[0];
      assert c == 'C';
    case ScanMissing(a) =>
      c := HeadLetter(SCAN_MISSING_HEAD, a, SCAN_MISSING_TAIL);
      assert SCAN_MISSING_HEAD[0] == 'S';
    case FileMissing(a) =>
      c := HeadLetter(FILE_MISSING_HEAD, a, FILE_MISSING_TAIL);
      assert FILE_MISSING_HEAD[0] == 'F';
    case VideoMissing(a) =>
      c := HeadLetter(VIDEO_MISSING_HEAD, a, VIDEO_MISSING_TAIL);
      assert VIDEO_MISSING_HEAD[0] == 'V';
    case WrongExtension =>
      c := WRONG_EXTENSION_MESSAGE[0];
      assert c == 'P';
  }

  lemma HeadLetter(prefix: string, a: string, suffix: string) returns (c: char)
    requires prefix != []
    ensures (prefix + a + suffix)[0] == prefix[0] == c
  {
    c := prefix[0];
  }

  /** Between a fixed prefix and a fixed suffix, the middle part is unique. */
  lemma InfixUnique(prefix: string, a: string, b: string, suffix: string)
    requires prefix + a + suffix == prefix + b + suffix
    ensures a == b
  {
    var t := prefix + a + suffix;
    assert |a| == |b|;
    assert a == t[|prefix|..|prefix| + |a|];
    assert b == (prefix + b + suffix)[|prefix|..|prefix| + |b|];
  }

  /** `import_options`: the dictionary's four keys, with their defaults
      (`False`, `False`, `None`, `None`) when absent. */
  datatype ImportOptions = ImportOptions(isCamera: bool, bakeCamera: bool, cameraFps: Option<Json>, videoFps: Option<Json>)

  const GEOMETRY_OPTIONS: ImportOptions := ImportOptions(false, false, None, None)

  /** What the host decides during a bake: the world matrix of an object
      at a frame, whether adding a key succeeds, and the GUID it gives a
      new object. */
  datatype Host = Host(mg: (ObjId, int) -> Matrix, addKeyOk: (int, TrackKey) -> bool, guidFor: ObjId -> int)

  /** Python's set iteration: the elements of `s` in an order this model
      does not fix. */
  method SeqOfSet<T>(s: set<T>) returns (xs: seq<T>)
    ensures forall x :: x in xs <==> x in s
    ensures |xs| == |s| && NoDuplicates(xs)
    ensures (set x | x in xs) == s
  {
    xs := [];
    var rest := s;
    while rest != {}
      invariant rest <= s
      invariant forall x :: x in xs <==> x in s && x !in rest
      invariant |xs| + |rest| == |s| && NoDuplicates(xs)
      decreases |rest|
    {
      var x :| x in rest;
      assert forall y :: y in xs ==> y != x;
      xs := xs + [x];
      rest := rest - {x};
    }
  }

  /** The nodes with every object of `renamed` given `name`. */
  function RenameAll(nodes: map<ObjId, Node>, renamed: set<ObjId>, name: string): (r: map<ObjId, Node>)
    ensures r.Keys == nodes.Keys
    ensures forall o :: o in nodes && o in renamed ==> r[o] == nodes[o].(name := name)
    ensures forall o :: o in nodes && o !in renamed ==> r[o] == nodes[o]
  {
    map o | o in nodes :: if o in renamed then nodes[o].(name := name) else nodes[o]
  }

  /** `obj.SetName(name)`. */
  method SetName(doc: Document, id: ObjId, name: string)
    requires doc.Valid() && id in doc.nodes
    modifies doc`nodes
    ensures doc.Valid()
    ensures doc.nodes == old(doc.nodes)[id := old(doc.nodes[id]).(name := name)]
  {
    doc.SetNode(id, doc.nodes[id].(name := name));
  }

  /** `after` is `before` with `n` tags put in front of its tags. */
  predicate TagsPrepended(before: Node, after: Node, n: nat) {
    && after == before.(tags := after.tags)
    && |after.tags| == |before.tags| + n
    && after.tags[n..] == before.tags
  }

  /** One iteration of `assign_omniscient_control_tag_to_camera`: a new
      control tag goes in front of the camera's tags and is linked to the
      first object named `Background_Omni`, when there is one. */
  method InsertControlTag(doc: Document, camera: ObjId) returns (tag: ControlTag)
    requires doc.Valid() && camera in doc.nodes
    modifies doc`nodes
    ensures doc.Valid() && fresh(tag)
    ensures doc.nodes == old(doc.nodes)[camera := old(doc.nodes[camera]).(tags := [tag] + old(doc.nodes[camera].tags))]
    ensures tag.backgroundLink == old(doc.SearchObject(BACKGROUND_OBJECT_NAME))
    ensures doc.SearchObject(BACKGROUND_OBJECT_NAME) == old(doc.SearchObject(BACKGROUND_OBJECT_NAME))
    ensures tag.backgroundVisibility == VIEW_THROUGH_CAMERA && tag.safeFrameVisibility == VIEW_THROUGH_CAMERA
    ensures tag.gridVisibility == ONLY_NOT_THROUGH_CAMERA
  {
    tag := new ControlTag();
    var node := doc.nodes[camera];
    FindByNameSameNames(doc.objects, doc.nodes, doc.nodes[camera := node.(tags := [tag] + node.tags)], BACKGROUND_OBJECT_NAME);
    doc.SetNode(camera, node.(tags := [tag] + node.tags));
    var background := doc.SearchObject(BACKGROUND_OBJECT_NAME);
    if background.Some? {
      tag.backgroundLink := background;
    }
  }

  /** A control tag as `assign_omniscient_control_tag_to_camera` leaves it. */
  ghost predicate NewControlTag(tag: ControlTag, link: Option<ObjId>)
    reads tag
  {
    && tag.backgroundLink == link
    && tag.backgroundVisibility == VIEW_THROUGH_CAMERA && tag.safeFrameVisibility == VIEW_THROUGH_CAMERA
    && tag.gridVisibility == ONLY_NOT_THROUGH_CAMERA
  }

  /** How many times `x` occurs in `s`. */
  function Occurrences(s: seq<ObjId>, x: ObjId): (n: nat)
    ensures n == 0 <==> x !in s
  {
    if s == [] then 0 else Occurrences(s[..|s| - 1], x) + (if s[|s| - 1] == x then 1 else 0)
  }

  /** Counting over one more element of a prefix. */
  lemma OccurrencesPrefix(s: seq<ObjId>, i: nat, x: ObjId)
    requires i < |s|
    ensures Occurrences(s[..i + 1], x) == Occurrences(s[..i], x) + (if s[i] == x then 1 else 0)
  {
    assert s[..i + 1][..i] == s[..i];
  }

  /** Each node of `nodes0` has, in `nodes`, one new tag in front per time
      it occurs in `cams`, and those new tags are among `created`. */
  ghost predicate TagsSoFar(nodes0: map<ObjId, Node>, nodes: map<ObjId, Node>, cams: seq<ObjId>, created: set<ControlTag>) {
    && (forall c :: c in nodes0 ==> c in nodes && TagsPrepended(nodes0[c], nodes[c], Occurrences(cams, c)))
    && (forall c, k :: c in nodes0 && c in nodes && 0 <= k < Occurrences(cams, c) && k < |nodes[c].tags| ==>
          nodes[c].tags[k] in created)
  }

  /** One more tag in front of `camera`'s tags keeps `TagsPrepended`
      in step with the count of cameras handled, and the new tags at the
      front are the ones created so far. */
  lemma {:induction false} PrependStep(nodes0: map<ObjId, Node>, before: map<ObjId, Node>, after: map<ObjId, Node>,
                                        cameras: seq<ObjId>, i: nat, tag: ControlTag, created: set<ControlTag>)
    requires i < |cameras| && cameras[i] in before
    requires forall c :: c in before <==> c in nodes0
    requires TagsSoFar(nodes0, before, cameras[..i], created)
    requires after == before[cameras[i] := before[cameras[i]].(tags := [tag] + before[cameras[i]].tags)]
    ensures TagsSoFar(nodes0, after, cameras[..i + 1], created + {tag})
  {
    var camera := cameras[i];
    forall c | c in nodes0
      ensures TagsPrepended(nodes0[c], after[c], Occurrences(cameras[..i + 1], c))
    {
      OccurrencesPrefix(cameras, i, c);
      if c == camera {
        assert after[c].tags[Occurrences(cameras[..i + 1], c)..] == before[c].tags[Occurrences(cameras[..i], c)..];
      }
    }
    forall c, k | c in nodes0 && 0 <= k < Occurrences(cameras[..i + 1], c) && k < |after[c].tags|
      ensures after[c].tags[k] in created + {tag}
    {
      OccurrencesPrefix(cameras, i, c);
      if c == camera && k > 0 {
        assert after[c].tags[k] == before[c].tags[k - 1];
      }
    }
  }

  /** `assign_omniscient_control_tag_to_camera`: each listed object gets
      a new control tag in front of its tags (one per time it is listed),
      linked to the first object named `Background_Omni` when there is
      one. Nothing else changes. */
  method AssignControlTag(doc: Document, cameras: seq<ObjId>)
    requires doc.Valid() && forall c :: c in cameras ==> c in doc.nodes
    modifies doc`nodes
    ensures doc.Valid()
    ensures forall c :: c in doc.nodes <==> c in old(doc.nodes)
    ensures forall c :: c in old(doc.nodes) && c !in cameras ==> doc.nodes[c] == old(doc.nodes[c])
    ensures forall c :: c in old(doc.nodes) ==> TagsPrepended(old(doc.nodes[c]), doc.nodes[c], Occurrences(cameras, c))
    ensures forall c, k :: c in old(doc.nodes) && 0 <= k < Occurrences(cameras, c) && k < |doc.nodes[c].tags| ==>
      fresh(doc.nodes[c].tags[k]) && NewControlTag(doc.nodes[c].tags[k], old(doc.SearchObject(BACKGROUND_OBJECT_NAME)))
  {
    ghost var nodes0 := doc.nodes;
    ghost var link := doc.SearchObject(BACKGROUND_OBJECT_NAME);
    ghost var created: set<ControlTag> := {};
    var i := 0;
    while i < |cameras|
      invariant 0 <= i <= |cameras|
      invariant doc.Valid() && forall c :: c in doc.nodes <==> c in nodes0
      invariant doc.SearchObject(BACKGROUND_OBJECT_NAME) == link
      invariant TagsSoFar(nodes0, doc.nodes, cameras[..i], created)
      invariant forall t :: t in created ==> fresh(t) && NewControlTag(t, link)
    {
      created := AssignNext(doc, nodes0, cameras, i, link, created);
      i := i + 1;
    }
    assert cameras[..i] == cameras;
  }

  /** The body of the loop of `assign_omniscient_control_tag_to_camera`:
      the tags so far are extended by one for `cameras[i]`. */
  method AssignNext(doc: Document, ghost nodes0: map<ObjId, Node>, cameras: seq<ObjId>, i: nat,
                    ghost link: Option<ObjId>, ghost created: set<ControlTag>) returns (ghost created': set<ControlTag>)
    requires i < |cameras| && doc.Valid() && cameras[i] in doc.nodes && forall c :: c in doc.nodes <==> c in nodes0
    requires doc.SearchObject(BACKGROUND_OBJECT_NAME) == link
    requires TagsSoFar(nodes0, doc.nodes, cameras[..i], created)
    modifies doc`nodes
    ensures doc.Valid() && forall c :: c in doc.nodes <==> c in nodes0
    ensures doc.SearchObject(BACKGROUND_OBJECT_NAME) == link
    ensures TagsSoFar(nodes0, doc.nodes, cameras[..i + 1], created')
    ensures forall t :: t in created' ==> t in created || (fresh(t) && NewControlTag(t, link))
  {
    ghost var before := doc.nodes;
    var tag := InsertControlTag(doc, cameras[i]);
    PrependStep(nodes0, before, doc.nodes, cameras, i, tag, created);
    created' := created + {tag};
  }

  /** An Alembic generator's parameters once `adjust_alembic_camera_settings`
      has run: the animation offset is `offsetFrames` frames, and when
      both rates are given the speed is video fps over camera fps. */
  function AdjustedParams(params: map<Param, Value>, cameraFps: Option<Json>, videoFps: Option<Json>, offsetFrames: int): (r: map<Param, Value>)
    ensures AlembicAnimationOffset in r && r[AlembicAnimationOffset] == FrameOffset(offsetFrames)
    ensures cameraFps.Some? && videoFps.Some? ==>
      AlembicAnimationSpeed in r && r[AlembicAnimationSpeed] == SpeedRatio(videoFps.value, cameraFps.value)
    ensures !(cameraFps.Some? && videoFps.Some?) ==>
      (AlembicAnimationSpeed in r <==> AlembicAnimationSpeed in params) &&
      (AlembicAnimationSpeed in params ==> r[AlembicAnimationSpeed] == params[AlembicAnimationSpeed])
    ensures forall p :: p in params && p != AlembicAnimationOffset && p != AlembicAnimationSpeed ==>
      p in r && r[p] == params[p]
    ensures forall p :: p in r ==> p in params || p == AlembicAnimationOffset || p == AlembicAnimationSpeed
  {
    var adjusted := params[AlembicAnimationOffset := FrameOffset(offsetFrames)];
    if cameraFps.Some? && videoFps.Some?
    then adjusted[AlembicAnimationSpeed := SpeedRatio(videoFps.value, cameraFps.value)]
    else adjusted
  }

  function Adjusted(n: Node, cameraFps: Option<Json>, videoFps: Option<Json>, offsetFrames: int): Node {
    n.(params := AdjustedParams(n.params, cameraFps, videoFps, offsetFrames))
  }

  /** Adjusting twice is adjusting once. */
  lemma AdjustedIdempotent(params: map<Param, Value>, cameraFps: Option<Json>, videoFps: Option<Json>, offsetFrames: int)
    ensures AdjustedParams(AdjustedParams(params, cameraFps, videoFps, offsetFrames), cameraFps, videoFps, offsetFrames)
         == AdjustedParams(params, cameraFps, videoFps, offsetFrames)
  {
  }

  /** The adjustment leaves the properties the bake copies alone. */
  lemma {:induction false} AdjustedKeepsCameraProperties(params: map<Param, Value>, cameraFps: Option<Json>, videoFps: Option<Json>, offsetFrames: int)
    ensures CameraBaker.CameraProperties(AdjustedParams(params, cameraFps, videoFps, offsetFrames)) == CameraBaker.CameraProperties(params)
  {
    var r := AdjustedParams(params, cameraFps, videoFps, offsetFrames);
    forall p: Param | p.DescPath?
      ensures (p in r <==> p in params) && (p in params ==> r[p] == params[p])
    {
    }
  }

  /** `adjust_alembic_camera_settings`: an Alembic generator gets the
      offset and speed of `Adjusted`; any other object is left alone. */
  method AdjustAlembicCameraSettings(doc: Document, obj: ObjId, cameraFps: Option<Json>, videoFps: Option<Json>,
                                     offsetFrames: int := 1)
    requires doc.Valid() && obj in doc.nodes
    modifies doc`nodes
    ensures doc.Valid()
    ensures old(doc.nodes[obj].typeId) != ALEMBIC_GENERATOR ==> doc.nodes == old(doc.nodes)
    ensures old(doc.nodes[obj].typeId) == ALEMBIC_GENERATOR ==>
      doc.nodes == old(doc.nodes)[obj := Adjusted(old(doc.nodes[obj]), cameraFps, videoFps, offsetFrames)]
  {
    var node := doc.nodes[obj];
    if node.typeId == ALEMBIC_GENERATOR {
      var params := node.params[AlembicAnimationOffset := FrameOffset(offsetFrames)];
      if cameraFps.Some? && videoFps.Some? {
        params := params[AlembicAnimationSpeed := SpeedRatio(videoFps.value, cameraFps.value)];
      }
      doc.SetNode(obj, node.(params := params));
    }
  }

  /** `make_viewport_look_through_camera`: the active viewport, if any, looks through `camera`. */
  method LookThrough(doc: Document, camera: ObjId)
    modifies doc.baseDraw
    ensures doc.baseDraw != null ==> doc.baseDraw.sceneCamera == Some(camera) && doc.baseDraw.attrs == old(doc.baseDraw.attrs)
  {
    var bd := doc.baseDraw;
    if bd != null {
      bd.sceneCamera := Some(camera);
    }
  }

  /** The world matrix of `obj` at each frame, as the host evaluates it. */
  function Motion(host: Host, obj: ObjId): int -> Matrix {
    f => host.mg(obj, f)
  }

  /** Whether baking an Alembic generator with node `n` ends with a
      camera: it has its camera properties and the host adds every key
      of the document's range. */
  ghost predicate BakeWorks(n: Node, minFrame: int, maxFrame: int, host: Host) {
    CameraBaker.CameraProperties(n.params).Success? &&
    CameraBaker.AllAddedBefore(host.addKeyOk, minFrame, maxFrame + 1)
  }

  /** The camera the bake makes from source `src`, placed at `id`. */
  function BakedFrom(src: Node, id: ObjId, minFrame: int, maxFrame: int, host: Host, srcId: ObjId): Node
    requires CameraBaker.CameraProperties(src.params).Success?
  {
    CameraBaker.BakedCamera(src.name, host.guidFor(id), CameraBaker.CameraProperties(src.params).value,
      if minFrame <= maxFrame then host.mg(srcId, maxFrame) else IdentityMatrix,
      CameraBaker.BakedTracks(Motion(host, srcId), minFrame, maxFrame))
  }

  /** The camera a bake of the generator `src` leaves behind when the
      host fails to add a key: a native camera at `id`, named after the
      generator, with the copied properties and no tag. */
  ghost predicate PartialBake(src: Node, n: Node, id: ObjId, minFrame: int, maxFrame: int, host: Host) {
    && CameraBaker.CameraProperties(src.params).Success?
    && !CameraBaker.AllAddedBefore(host.addKeyOk, minFrame, maxFrame + 1)
    && n.typeId == CAMERA_OBJECT && n.guid == host.guidFor(id) && n.tags == [] && n.name == src.name
    && n.params == CameraBaker.CameraProperties(src.params).value
  }

  /** A bake that stopped at the first key the host failed to add has
      left a partial bake of `src` at `c`. */
  lemma StoppedBakeIsPartial(src: Node, n: Node, c: ObjId, obj: ObjId, minFrame: int, maxFrame: int, host: Host)
    requires CameraBaker.CameraProperties(src.params).Success?
    requires exists f, k ::
      && CameraBaker.FailsFirstAt(host.addKeyOk, minFrame, maxFrame, f, k)
      && n == CameraBaker.BakedCamera(src.name, host.guidFor(c), CameraBaker.CameraProperties(src.params).value,
           Motion(host, obj)(f),
           CameraBaker.Created(CameraBaker.StepUpTo(CameraBaker.BakedTracks(Motion(host, obj), minFrame, f - 1),
                                                    f, Motion(host, obj)(f), k), CameraBaker.TrackAt(k)))
    ensures PartialBake(src, n, c, minFrame, maxFrame, host)
  {
    var f, k :| && CameraBaker.FailsFirstAt(host.addKeyOk, minFrame, maxFrame, f, k)
      && n == CameraBaker.BakedCamera(src.name, host.guidFor(c), CameraBaker.CameraProperties(src.params).value,
           Motion(host, obj)(f),
           CameraBaker.Created(CameraBaker.StepUpTo(CameraBaker.BakedTracks(Motion(host, obj), minFrame, f - 1),
                                                    f, Motion(host, obj)(f), k), CameraBaker.TrackAt(k)));
    CameraBaker.FailsFirstNotAll(host.addKeyOk, minFrame, maxFrame, f, k);
  }

  /** The rest of the try block once the bake has made `camera`: tag
      it, look through it (in the importer that does) and remove the
      generator `obj`. */
  method TagAndReplace(doc: Document, camera: ObjId, obj: ObjId, lookThrough: bool)
    requires doc.Valid() && camera in doc.nodes && obj in doc.nodes
    modifies doc`nodes, doc`objects, doc.baseDraw
    ensures doc.Valid()
    ensures doc.objects == Without(old(doc.objects), obj)
    ensures forall o :: o in doc.nodes <==> o in old(doc.nodes)
    ensures forall o :: o in old(doc.nodes) && o != camera ==> doc.nodes[o] == old(doc.nodes[o])
    ensures camera in doc.nodes && TagsPrepended(old(doc.nodes[camera]), doc.nodes[camera], 1)
    ensures fresh(doc.nodes[camera].tags[0])
    ensures NewControlTag(doc.nodes[camera].tags[0], FindByName(old(doc.objects), doc.nodes, BACKGROUND_OBJECT_NAME))
    ensures doc.baseDraw != null ==> doc.baseDraw.attrs == old(doc.baseDraw.attrs)
    ensures doc.baseDraw != null ==>
      doc.baseDraw.sceneCamera == if lookThrough then Some(camera) else old(doc.baseDraw.sceneCamera)
  {
    assert Occurrences([camera], camera) == 1 by { assert [camera][..0] == []; }
    assert forall o :: o != camera ==> Occurrences([camera], o) == 0;
    ghost var before := doc.nodes;
    AssignControlTag(doc, [camera]);
    assert doc.nodes == before[camera := doc.nodes[camera]];
    FindByNameSameNames(doc.objects, before, doc.nodes, BACKGROUND_OBJECT_NAME);
    if lookThrough {
      LookThrough(doc, camera);
    }
    doc.Remove(obj);
  }

  /** The try block of `handle_camera_operations` on an Alembic
      generator: bake it, tag the new camera, look through it (when
      `lookThrough`) and remove the generator. A bake that raises is caught: the generator
      stays, and a partly baked camera stays with it when the host
      failed to add a key. */
  method ReplaceWithBakedCamera(doc: Document, obj: ObjId, host: Host, lookThrough: bool)
    requires doc.Valid() && obj in doc.nodes && doc.nodes[obj].typeId == ALEMBIC_GENERATOR
    modifies doc, doc.baseDraw
    ensures doc.Valid()
    ensures doc.baseDraw == old(doc.baseDraw) && doc.log == old(doc.log)
    ensures doc.minFrame == old(doc.minFrame) && doc.maxFrame == old(doc.maxFrame)
    ensures doc.baseDraw != null ==> doc.baseDraw.attrs == old(doc.baseDraw.attrs)
    ensures forall o :: o in old(doc.nodes) ==> o in doc.nodes && doc.nodes[o] == old(doc.nodes[o])
    ensures forall o :: o in doc.objects ==> o in old(doc.objects) || o == old(doc.nextId)
    ensures forall o :: o in old(doc.objects) && o != obj ==> o in doc.objects
    ensures doc.nextId == old(doc.nextId) || doc.nextId == old(doc.nextId) + 1
    ensures forall o :: o in doc.nodes && o !in old(doc.nodes) ==> o in doc.objects
    ensures !old(BakeWorks(doc.nodes[obj], doc.minFrame, doc.maxFrame, host)) ==>
      && (forall o :: o in old(doc.objects) ==> o in doc.objects)
      && (forall o :: o in doc.objects && o !in old(doc.objects) ==>
            o in doc.nodes && PartialBake(old(doc.nodes[obj]), doc.nodes[o], o, doc.minFrame, doc.maxFrame, host))
      && (doc.baseDraw != null ==> doc.baseDraw.sceneCamera == old(doc.baseDraw.sceneCamera))
    ensures old(BakeWorks(doc.nodes[obj], doc.minFrame, doc.maxFrame, host)) ==>
      var c := old(doc.nextId);
      && doc.nextId == c + 1 && doc.time == old(doc.time)
      && doc.objects == Without([c] + old(doc.objects), obj)
      && c in doc.nodes
      && TagsPrepended(BakedFrom(old(doc.nodes[obj]), c, doc.minFrame, doc.maxFrame, host, obj), doc.nodes[c], 1)
      && fresh(doc.nodes[c].tags[0])
      && NewControlTag(doc.nodes[c].tags[0], FindByName([c] + old(doc.objects), doc.nodes, BACKGROUND_OBJECT_NAME))
      && (doc.baseDraw != null ==>
            doc.baseDraw.sceneCamera == if lookThrough then Some(c) else old(doc.baseDraw.sceneCamera))
  {
    ghost var c, src, objs0 := doc.nextId, doc.nodes[obj], doc.objects;
    var r := CameraBaker.Bake(doc, obj, host.guidFor(doc.nextId), Motion(host, obj), host.addKeyOk);
    if r.Success? {
      assert doc.nodes[c] == BakedFrom(src, c, doc.minFrame, doc.maxFrame, host, obj);
      assert BakeWorks(src, doc.minFrame, doc.maxFrame, host);
      TagAndReplace(doc, r.value, obj, lookThrough);
    } else if r.error == CameraBaker.MemoryError {
      assert doc.objects == [c] + objs0 && !BakeWorks(src, doc.minFrame, doc.maxFrame, host);
      StoppedBakeIsPartial(src, doc.nodes[c], c, obj, doc.minFrame, doc.maxFrame, host);
    } else {
      assert r.error == CameraBaker.MissingProperty && !BakeWorks(src, doc.minFrame, doc.maxFrame, host);
    }
  }

  // ---------------------------------------------------------------------
  // Reading the parsed .omni file

  /** `omni_data.get("data", {}).get(section, {})`. */
  function Section(omni: Json, section: string): (r: Result<Json, PyError>)
    ensures omni.JObject? && "data" !in omni.fields ==> r == Success(EmptyObject)
    ensures r.Success? ==> omni.JObject?
  {
    var data :- Get(omni, "data", EmptyObject);
    Get(data, section, EmptyObject)
  }

  /** `omni_data.get("cinema4d", {}).get("minimum_plugin_version", "0.0.0")`. */
  function MinimumVersion(omni: Json): (r: Result<Json, PyError>)
    ensures omni.JObject? && "cinema4d" !in omni.fields ==> r == Success(JString("0.0.0"))
  {
    var c4d :- Get(omni, "cinema4d", EmptyObject);
    Get(c4d, "minimum_plugin_version", JString("0.0.0"))
  }

  /** The version gate: `None` to go on, or the message and link of the
      raised `UnsupportedVersionException`. A minimum that is no string
      (no `split`) or is no version (`int` fails) raises something else. */
  function VersionGate(minimum: Json): (r: Result<Option<(string, string)>, PyError>)
    ensures r.Success? <==> minimum.JString? && PluginVersion.ParseVersion(minimum.s).Some?
    ensures r.Success? ==> (r.value.None? <==> PluginVersion.CheckPluginVersion(minimum.s).Success?)
    ensures r.Success? && r.value.Some? ==>
      r.value.value == (PluginVersion.UnsupportedMessage(minimum.s, PluginVersion.PLUGIN_VERSION), PluginVersion.UPDATE_URL)
  {
    if !minimum.JString? then Failure(AttributeError)
    else match PluginVersion.CheckPluginVersion(minimum.s)
      case Success(_) => Success(None)
      case Failure(Malformed) => Failure(ValueError)
      case Failure(Unsupported(m, c, u)) => Success(Some((PluginVersion.UnsupportedMessage(m, c), u)))
  }

  /** `float(section.get("fps")) if "fps" in section else None`: the
      membership test first, then the lookup again. */
  function OptionalFps(omni: Json, section: string): (r: Result<Option<Json>, PyError>)
    ensures Section(omni, section).Success? && Section(omni, section).value.JObject? ==>
      r == Success(if "fps" in Section(omni, section).value.fields
                   then Some(Section(omni, section).value.fields["fps"]) else None)
  {
    var s :- Section(omni, section);
    var present :- Contains(s, "fps");
    if present then
      var fps :- Get(s, "fps", JNull);
      Success(Some(fps))
    else Success(None)
  }

  /** Width, height and frame rate of the video, with defaults "1920", "1080" and "30". */
  function ProjectSettingsOf(omni: Json): (r: Result<Event, PyError>)
    ensures r.Success? ==> r.value.ProjectSettings?
  {
    var video :- Section(omni, "video");
    var resolution :- Get(video, "resolution", EmptyObject);
    if !resolution.JObject? then Failure(AttributeError)
    else Success(ProjectSettings(Lookup(resolution.fields, "width", JString("1920")),
                                 Lookup(resolution.fields, "height", JString("1080")),
                                 Lookup(video.fields, "fps", JString("30"))))
  }

  /** A file without a video section gets a 1920x1080 project at 30 fps. */
  lemma ProjectSettingsDefaults(omni: Json)
    requires Section(omni, "video") == Success(EmptyObject)
    ensures ProjectSettingsOf(omni) == Success(ProjectSettings(JString("1920"), JString("1080"), JString("30")))
  {
  }

  /** `os.path.join(os.path.dirname(file_path), video_data.get("relative_path", ""))`. */
  function VideoPath(omni: Json, filePath: string): (r: Result<string, PyError>)
    ensures r.Success? ==> exists rel :: r.value == PathJoin(DirName(filePath), rel)
  {
    var video :- Section(omni, "video");
    var rel :- Get(video, "relative_path", JString(""));
    if rel.JString? then Success(PathJoin(DirName(filePath), rel.s)) else Failure(TypeError)
  }

  /** `omni_data.get("data", {}).get("geometry", {}).get("relative_path", [])`. */
  function GeometryPaths(omni: Json): (r: Result<Json, PyError>)
    ensures Section(omni, "geometry") == Success(EmptyObject) ==> r == Success(JArray([]))
  {
    var geometry :- Section(omni, "geometry");
    Get(geometry, "relative_path", JArray([]))
  }

  /** One step `import_omni_file` takes, in order. */
  datatype Action =
    | UpdateProjectSettings(settings: Event)         // update_project_settings
    | LoadVideo(path: string)                        // background material and project settings from the video
    | ShowDialog(dialog: Dialog)                     // c4d.gui.MessageDialog
    | Import(path: string, name: string, options: ImportOptions) // process_import
    | ViewportToLines                                // set_viewport_to_lines

  /** How `import_omni_file` ends: normally, at the version gate, or with
      an exception the outer handler catches and logs. */
  datatype Outcome = Completed | Refused(message: string, url: string) | Raised(error: PyError)

  datatype Plan = Plan(actions: seq<Action>, outcome: Outcome)

  /** The camera import, when `relative_path` of the camera section is truthy. */
  function CameraAction(omni: Json, filePath: string, cameraFps: Option<Json>, videoFps: Option<Json>): (r: Result<seq<Action>, PyError>)
    ensures r.Success? ==> |r.value| <= 1
    ensures r.Success? && |r.value| == 1 ==>
      r.value[0].Import? && r.value[0].name == CAMERA_NAME &&
      r.value[0].options == ImportOptions(true, true, cameraFps, videoFps)
  {
    var camera :- Section(omni, "camera");
    var rel :- Get(camera, "relative_path", JString(""));
    if !Truthy(rel) then Success([])
    else if !rel.JString? then Failure(TypeError)
    else Success([Import(PathJoin(DirName(filePath), rel.s), CAMERA_NAME, ImportOptions(true, true, cameraFps, videoFps))])
  }

  /** The version gate over the parsed file: the minimum read with its
      default, then checked. */
  function Gate(omni: Json): (r: Result<Option<(string, string)>, PyError>)
    ensures !omni.JObject? ==> r == Failure(AttributeError)
  {
    var minimum :- MinimumVersion(omni);
    VersionGate(minimum)
  }

  /** A file without a `cinema4d` section passes the gate: the minimum defaults to "0.0.0". */
  lemma DefaultMinimumPasses(omni: Json)
    requires omni.JObject? && "cinema4d" !in omni.fields
    ensures Gate(omni) == Success(None)
  {
    PluginVersion.ExampleVersionTexts();
    PluginVersion.CheckPluginVersionPasses();
    PluginVersion.ParseFormatVersion(0, 0, 0);
  }

  /** The gate refuses exactly the well-formed minimums above the running
      version, with the exception's message and the update link. */
  lemma GateRefuses(omni: Json)
    ensures Gate(omni).Success? && Gate(omni).value.Some? <==>
      && MinimumVersion(omni).Success? && MinimumVersion(omni).value.JString?
      && PluginVersion.ParseVersion(MinimumVersion(omni).value.s).Some?
      && PluginVersion.Less(PluginVersion.Version(1, 0, 1), PluginVersion.ParseVersion(MinimumVersion(omni).value.s).value)
    ensures Gate(omni).Success? && Gate(omni).value.Some? ==>
      Gate(omni).value.value == (PluginVersion.UnsupportedMessage(MinimumVersion(omni).value.s, PluginVersion.PLUGIN_VERSION),
                                 PluginVersion.UPDATE_URL)
  {
  }

  /** The video and camera frame rates, in that order. */
  function FrameRates(omni: Json): (r: Result<(Option<Json>, Option<Json>), PyError>)
    ensures r.Success? ==> OptionalFps(omni, "video") == Success(r.value.0) && OptionalFps(omni, "camera") == Success(r.value.1)
  {
    var videoFps :- OptionalFps(omni, "video");
    var cameraFps :- OptionalFps(omni, "camera");
    Success((videoFps, cameraFps))
  }
}
