/** The host scene, abstracted: objects are identities into a node table,
    each with a type id, a name, its first child, its two visibility
    modes, its world matrix, its parameters, its tags and its animation
    tracks. Host calls whose effect lies outside this model (message
    dialogs, importer scale settings, render settings, the video
    background, the viewport shading, core events) are appended to an
    event log, so that the order in which they happen can be stated. */
module Scene {
  import opened Wrappers
  import opened OmniData

  type ObjId = nat

  /** Type ids of the Alembic generator and of the native camera object. */
  const ALEMBIC_GENERATOR: int := 1028083
  const CAMERA_OBJECT: int := 5103

  /** The four values of a visibility setting. */
  const VIEW_THROUGH_CAMERA: int := 0
  const ALWAYS: int := 1
  const NEVER: int := 2
  const ONLY_NOT_THROUGH_CAMERA: int := 3

  /** MODE_ON, MODE_OFF and MODE_UNDEF. */
  datatype Mode = ModeOn | ModeOff | ModeUndef

  datatype Vec = Vec(x: real, y: real, z: real)

  /** A world matrix, kept as its offset and its heading/pitch/bank
      rotation (the conversion from the matrix is the host's). */
  datatype Matrix = Matrix(off: Vec, hpb: Vec)

  const IdentityMatrix: Matrix := Matrix(Vec(0.0, 0.0, 0.0), Vec(0.0, 0.0, 0.0))

  /** The two vector parameters that get animation tracks. */
  datatype Channel = Position | Rotation

  /** A track's identity: the vector parameter and the component index (0, 1, 2 for x, y, z). */
  datatype TrackKey = TrackKey(channel: Channel, component: nat)

  datatype Interpolation = Linear | Spline | Step

  datatype Key = Key(frame: int, value: real, interpolation: Interpolation)

  type Curve = seq<Key>

  datatype Value =
    | RealValue(r: real)
    | VectorValue(v: Vec)
    | LongValue(n: int)
    | FrameOffset(frames: int)
    | SpeedRatio(videoFps: Json, cameraFps: Json)

  /** Parameter ids: a description path, as on the Alembic generator, or a named camera or Alembic parameter. */
  datatype Param =
    | DescPath(levels: seq<int>)
    | CameraFocus
    | CameraAperture
    | CameraFilmOffsetX
    | CameraFilmOffsetY
    | CameraProjection
    | AlembicAnimationOffset
    | AlembicAnimationSpeed

  /** The scene-control tag (plugin id 1063027) as stored on an object:
      three visibility settings and the background link. */
  class ControlTag {
    var backgroundVisibility: int
    var safeFrameVisibility: int
    var gridVisibility: int
    var backgroundLink: Option<ObjId>

    /** Allocating the tag runs the plugin's Init. */
    constructor ()
      ensures backgroundVisibility == VIEW_THROUGH_CAMERA
      ensures safeFrameVisibility == VIEW_THROUGH_CAMERA
      ensures gridVisibility == ONLY_NOT_THROUGH_CAMERA
      ensures backgroundLink == None
    {
      backgroundLink := None;
      new;
      var _ := Init();
    }

    /** OmniscientSceneControl.Init: the default of each setting. */
    method Init() returns (ok: bool)
      modifies this
      ensures ok
      ensures backgroundVisibility == VIEW_THROUGH_CAMERA
      ensures safeFrameVisibility == VIEW_THROUGH_CAMERA
      ensures gridVisibility == ONLY_NOT_THROUGH_CAMERA
      ensures backgroundLink == old(backgroundLink)
    {
      backgroundVisibility := VIEW_THROUGH_CAMERA;
      safeFrameVisibility := VIEW_THROUGH_CAMERA;
      gridVisibility := ONLY_NOT_THROUGH_CAMERA;
      ok := true;
    }
  }

  datatype Node = Node(
    guid: int,
    typeId: int,
    name: string,
    down: Option<ObjId>,
    editorVisibility: Mode,
    renderVisibility: Mode,
    world: Matrix,
    params: map<Param, Value>,
    tags: seq<ControlTag>,
    tracks: map<TrackKey, Curve>)

  /** Base-draw parameters: the three display filters, the safe-frame flag, and any other. */
  datatype DrawAttr =
    | DisplayFilterGrid
    | DisplayFilterWorldAxis
    | DisplayFilterHorizon
    | ShowSafeFrame
    | OtherAttr(id: int)

  /** The active viewport: its parameters and the scene camera it looks through, if any. */
  class BaseDraw {
    var attrs: map<DrawAttr, Mode>
    var sceneCamera: Option<ObjId>

    constructor (attrs: map<DrawAttr, Mode>, sceneCamera: Option<ObjId>)
      ensures this.attrs == attrs && this.sceneCamera == sceneCamera
    {
      this.attrs := attrs;
      this.sceneCamera := sceneCamera;
    }
  }

  /** The dialogs the importer shows, by kind and the base name they
      report; the words of each are `ImportCommon.DialogText`. */
  datatype Dialog =
    | CameraFormatError
    | ScanMissing(scan: string)
    | FileMissing(file: string)
    | VideoMissing(video: string)
    | WrongExtension

  /** Host calls recorded in order. */
  datatype Event =
    | MessageDialog(dialog: Dialog)
    | ScaleAdjusted(extension: string)
    | ProjectSettings(width: Json, height: Json, fps: Json)
    | VideoBackground(path: string)
    | ViewportLines
    | CoreEventSignalled(id: int)

  /** What a path holds: a scene the host can merge, a JSON text, or anything else. */
  datatype FileContent = SceneFile(objects: seq<Node>) | JsonFile(data: Json) | OtherFile

  datatype FileSystem = FileSystem(files: map<string, FileContent>, dirs: set<string>) {
    /** `os.path.isfile`. */
    predicate IsFile(p: string) { p in files }

    /** `os.path.exists`: a file or a directory. */
    predicate Exists(p: string) { p in files || p in dirs }
  }

  predicate NoDuplicates<T(==)>(s: seq<T>) {
    forall i, j :: 0 <= i < j < |s| ==> s[i] != s[j]
  }

  /** `doc.SearchObject(name)`: the first object, in document order, that bears the name. */
  function FindByName(objs: seq<ObjId>, nodes: map<ObjId, Node>, name: string): (r: Option<ObjId>)
    requires forall o :: o in objs ==> o in nodes
    ensures r.None? <==> forall o :: o in objs ==> nodes[o].name != name
    ensures r.Some? ==> exists i :: (0 <= i < |objs| && objs[i] == r.value &&
      nodes[objs[i]].name == name &&
      forall j :: 0 <= j < i ==> nodes[objs[j]].name != name)
    decreases |objs|
  {
    if objs == [] then None
    else if nodes[objs[0]].name == name then Some(objs[0])
    else
      var r := FindByName(objs[1..], nodes, name);
      assert forall o :: o in objs[1..] ==> o in objs;
      if r.Some? then
        ghost var i :| 0 <= i < |objs[1..]| && objs[1..][i] == r.value &&
          nodes[objs[1..][i]].name == name &&
          forall j :: 0 <= j < i ==> nodes[objs[1..][j]].name != name;
        assert objs[i + 1] == r.value;
        r
      else r
  }

  /** The search sees names only: two node maps that agree on the names
      of the searched objects give the same result. */
  lemma {:induction false} FindByNameSameNames(objs: seq<ObjId>, nodes: map<ObjId, Node>, nodes': map<ObjId, Node>, name: string)
    requires forall o :: o in objs ==> o in nodes && o in nodes' && nodes'[o].name == nodes[o].name
    ensures FindByName(objs, nodes', name) == FindByName(objs, nodes, name)
    decreases |objs|
  {
    if objs != [] {
      assert forall o :: o in objs[1..] ==> o in objs;
      FindByNameSameNames(objs[1..], nodes, nodes', name);
    }
  }

  lemma NoDuplicatesConcat<T>(a: seq<T>, b: seq<T>)
    requires NoDuplicates(a) && NoDuplicates(b)
    requires forall x :: x in a ==> x !in b
    ensures NoDuplicates(a + b)
  {
    forall i, j | 0 <= i < j < |a + b| ensures (a + b)[i] != (a + b)[j] {
      if j < |a| {
        assert (a + b)[i] == a[i] && (a + b)[j] == a[j];
      } else if i < |a| {
        assert (a + b)[i] == a[i] && (a + b)[j] == b[j - |a|];
        assert a[i] in a && b[j - |a|] in b;
      } else {
        assert (a + b)[i] == b[i - |a|] && (a + b)[j] == b[j - |a|];
      }
    }
  }

  /** `objs` without `id` (what `obj.Remove()` leaves of the top-level list). */
  function Without(objs: seq<ObjId>, id: ObjId): (r: seq<ObjId>)
    ensures forall o :: o in r <==> o in objs && o != id
    ensures NoDuplicates(objs) ==> NoDuplicates(r)
    decreases |objs|
  {
    if objs == [] then []
    else if objs[0] == id then Without(objs[1..], id)
    else
      var rest := Without(objs[1..], id);
      assert NoDuplicates(objs) ==> objs[0] !in objs[1..];
      [objs[0]] + rest
  }

  /** The identities `first`, `first + 1`, ..., `first + n - 1`. */
  function IdRange(first: nat, n: nat): (r: seq<ObjId>)
    ensures |r| == n && NoDuplicates(r)
    ensures forall o :: o in r <==> first <= o < first + n
    ensures forall k :: 0 <= k < n ==> r[k] == first + k
  {
    var r := seq(n, i requires 0 <= i < n => first + i);
    assert forall o :: first <= o < first + n ==> o in r by {
      forall o | first <= o < first + n ensures o in r { assert r[o - first] == o; }
    }
    r
  }

  /** The node table once `added` has joined it under the identities from `first` on. */
  function WithNodes(nodes: map<ObjId, Node>, first: nat, added: seq<Node>): (r: map<ObjId, Node>)
    ensures forall o :: o in r <==> o in nodes || first <= o < first + |added|
    ensures forall k :: 0 <= k < |added| ==> r[first + k] == added[k]
    ensures forall o :: o in nodes && !(first <= o < first + |added|) ==> r[o] == nodes[o]
    decreases |added|
  {
    if added == [] then nodes
    else
      var r := WithNodes(nodes[first := added[0]], first + 1, added[1..]);
      r
  }

  /** A document: its top-level objects in order (`GetObjects()`), the node
      table of every object it created or merged (a removed object keeps
      its node but leaves `objects`), the current frame and the playback
      range, the active base draw, and the log of host calls. */
  class Document {
    var objects: seq<ObjId>
    var nodes: map<ObjId, Node>
    var nextId: nat
    var time: int
    var minFrame: int
    var maxFrame: int
    var baseDraw: BaseDraw?
    var log: seq<Event>

    ghost predicate Valid()
      reads this
    {
      && (forall o :: o in objects ==> o in nodes)
      && (forall o :: o in nodes ==> o < nextId)
      && NoDuplicates(objects)
    }

    constructor (minFrame: int, maxFrame: int, baseDraw: BaseDraw?)
      ensures Valid()
      ensures objects == [] && nodes == map[] && log == []
      ensures this.minFrame == minFrame && this.maxFrame == maxFrame && this.baseDraw == baseDraw
      ensures time == minFrame
    {
      objects, nodes, nextId := [], map[], 0;
      time, this.minFrame, this.maxFrame := minFrame, minFrame, maxFrame;
      this.baseDraw := baseDraw;
      log := [];
    }

    /** `doc.SearchObject(name)`. */
    function SearchObject(name: string): (r: Option<ObjId>)
      reads this
      requires Valid()
      ensures r.Some? ==> r.value in objects && nodes[r.value].name == name
    {
      FindByName(objects, nodes, name)
    }

    method AddEvent(e: Event)
      modifies this`log
      ensures log == old(log) + [e]
    {
      log := log + [e];
    }

    /** `doc.InsertObject(node)`: a new object, first among the top-level objects. */
    method InsertObject(n: Node) returns (id: ObjId)
      requires Valid()
      modifies this
      ensures Valid()
      ensures id == old(nextId) && nextId == old(nextId) + 1
      ensures objects == [id] + old(objects) && nodes == old(nodes)[id := n]
      ensures time == old(time) && minFrame == old(minFrame) && maxFrame == old(maxFrame)
      ensures baseDraw == old(baseDraw) && log == old(log)
    {
      id := nextId;
      assert id !in objects;
      objects := [id] + objects;
      nodes := nodes[id := n];
      nextId := nextId + 1;
    }

    /** `obj.Remove()`: the object leaves the document; its node stays. */
    method Remove(id: ObjId)
      requires Valid()
      modifies this`objects
      ensures Valid()
      ensures objects == Without(old(objects), id)
    {
      objects := Without(objects, id);
    }

    /** Replaces the node of an object (the effect of `SetName`, `InsertTag`, `obj[param] = value`). */
    method SetNode(id: ObjId, n: Node)
      requires Valid() && id in nodes
      modifies this`nodes
      ensures Valid()
      ensures nodes == old(nodes)[id := n]
    {
      nodes := nodes[id := n];
    }

    /** `c4d.documents.MergeDocument`: a scene file's objects join the
        document with fresh identities; any other path fails and changes nothing. */
    method Merge(fs: FileSystem, path: string) returns (ok: bool)
      requires Valid()
      modifies this
      ensures Valid()
      ensures ok <==> path in fs.files && fs.files[path].SceneFile?
      ensures ok ==> var added := fs.files[path].objects;
        && nextId == old(nextId) + |added|
        && objects == old(objects) + IdRange(old(nextId), |added|)
        && nodes == WithNodes(old(nodes), old(nextId), added)
      ensures !ok ==> objects == old(objects) && nodes == old(nodes) && nextId == old(nextId)
      ensures time == old(time) && minFrame == old(minFrame) && maxFrame == old(maxFrame)
      ensures baseDraw == old(baseDraw) && log == old(log)
    {
      ok := path in fs.files && fs.files[path].SceneFile?;
      if ok {
        var added := fs.files[path].objects;
        var ids := IdRange(nextId, |added|);
        assert forall o :: o in objects ==> o !in ids;
        NoDuplicatesConcat(objects, ids);
        objects := objects + ids;
        nodes := WithNodes(nodes, nextId, added);
        nextId := nextId + |added|;
      }
    }
  }

  /** Two appends to a log are one append of both. */
  lemma LogSnoc(log0: seq<Event>, log1: seq<Event>, log2: seq<Event>, x: seq<Event>, y: seq<Event>)
    requires log1 == log0 + x && log2 == log1 + y
    ensures log2 == log0 + (x + y)
  {
  }
}
