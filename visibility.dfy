/** The policy both visibility tags share: the table that resolves a
    setting to a visible/hidden state, the "viewing through this camera"
    test, and the two ways a resolved state is written — object
    visibility as is, base-draw parameters inverted. */
module Visibility {
  import opened Wrappers
  import opened Scene

  /** `visibility_state_map.get(user_setting, True)`. `None` stands for
      a user-data entry the tag does not have, which the table does not
      know either. */
  function Resolve(setting: Option<int>, through: bool): (r: bool)
    ensures setting == Some(VIEW_THROUGH_CAMERA) ==> r == through
    ensures setting == Some(ALWAYS) ==> r
    ensures setting == Some(NEVER) ==> !r
    ensures setting == Some(ONLY_NOT_THROUGH_CAMERA) ==> r == !through
    ensures IsUnknown(setting) ==> r
  {
    match setting
    case Some(s) =>
      if s == VIEW_THROUGH_CAMERA then through
      else if s == ALWAYS then true
      else if s == NEVER then false
      else if s == ONLY_NOT_THROUGH_CAMERA then !through
      else true
    case None => true
  }

  /** A setting outside the four the table lists. */
  predicate IsUnknown(setting: Option<int>) {
    setting.None? || !(0 <= setting.value <= 3)
  }

  /** Only "through camera" and "only when not through camera" look at the camera. */
  lemma ResolveDependsOnCamera(setting: Option<int>)
    ensures Resolve(setting, true) != Resolve(setting, false) <==>
      setting == Some(VIEW_THROUGH_CAMERA) || setting == Some(ONLY_NOT_THROUGH_CAMERA)
  {
  }

  /** "Never" is the only setting that hides regardless of the camera. */
  lemma ResolveHiddenBothWays(setting: Option<int>)
    ensures !Resolve(setting, true) && !Resolve(setting, false) <==> setting == Some(NEVER)
  {
  }

  /** The two camera-dependent settings are each other's complement. */
  lemma ResolveComplementary(through: bool)
    ensures Resolve(Some(VIEW_THROUGH_CAMERA), through) == !Resolve(Some(ONLY_NOT_THROUGH_CAMERA), through)
  {
  }

  /** What the viewport looks through: `bd.GetSceneCamera(doc)` when
      there is one, else the editor camera, which is no object of the document. */
  datatype CameraRef = SceneCamera(id: ObjId) | EditorCamera

  function ActiveCamera(sceneCamera: Option<ObjId>): (r: CameraRef)
    ensures r.SceneCamera? <==> sceneCamera.Some?
    ensures sceneCamera.Some? ==> r.id == sceneCamera.value
  {
    match sceneCamera
    case Some(c) => SceneCamera(c)
    case None => EditorCamera
  }

  predicate IsCameraType(typeId: int) {
    typeId == ALEMBIC_GENERATOR || typeId == CAMERA_OBJECT
  }

  /** `isCamera and (op == activeCamera or (op.GetDown() and op.GetDown() == activeCamera))`.
      A `None` first child makes the Python expression `None`, which every
      later use treats like `False`. */
  function ViewingThrough(typeId: int, host: ObjId, down: Option<ObjId>, active: CameraRef): (r: bool)
    ensures r ==> IsCameraType(typeId) && active.SceneCamera?
  {
    IsCameraType(typeId) &&
    (active == SceneCamera(host) || (down.Some? && active == SceneCamera(down.value)))
  }

  /** The host or its first child is the one scene camera the viewport uses. */
  lemma ViewingThroughMeaning(typeId: int, host: ObjId, down: Option<ObjId>, sceneCamera: Option<ObjId>)
    ensures ViewingThrough(typeId, host, down, ActiveCamera(sceneCamera)) <==>
      (typeId == 1028083 || typeId == 5103) && sceneCamera.Some? &&
      (sceneCamera.value == host || down == Some(sceneCamera.value))
  {
  }

  /** Object visibility takes the resolved state as is. */
  function ObjectMode(visible: bool): (r: Mode)
    ensures r == ModeOn <==> visible
    ensures r != ModeUndef
  {
    if visible then ModeOn else ModeOff
  }

  /** Base-draw parameters are written inverted: `MODE_OFF` when the state is true. */
  function DrawMode(visible: bool): (r: Mode)
    ensures r == ModeOff <==> visible
    ensures r != ModeUndef
  {
    if visible then ModeOff else ModeOn
  }

  /** The two writes never agree: a resolved state shows the background
      object exactly when it switches the base-draw parameter off. */
  lemma DrawModeInvertsObjectMode(visible: bool)
    ensures DrawMode(visible) != ObjectMode(visible)
    ensures DrawMode(visible) == ObjectMode(!visible)
  {
  }

  /** The editor and render visibility of a node set to `m`. */
  function WithVisibility(n: Node, m: Mode): (r: Node)
    ensures r.editorVisibility == m && r.renderVisibility == m
    ensures r.(editorVisibility := n.editorVisibility, renderVisibility := n.renderVisibility) == n
  {
    n.(editorVisibility := m, renderVisibility := m)
  }

  /** The parameters named by the non-`None` entries of the list. */
  function Written(attrs: seq<Option<DrawAttr>>): (r: set<DrawAttr>)
    ensures forall a :: a in r <==> Some(a) in attrs
  {
    set o | o in attrs && o.Some? :: o.value
  }

  /** The `for attr in c4d_attributes` loop: each listed parameter gets
      the inverted mode, `None` entries are skipped, and every other
      parameter keeps its value. */
  method WriteDrawAttributes(bd: BaseDraw, attrs: seq<Option<DrawAttr>>, visible: bool)
    modifies bd`attrs
    ensures bd.attrs == old(bd.attrs) + map a | a in Written(attrs) :: DrawMode(visible)
  {
    var i := 0;
    while i < |attrs|
      invariant 0 <= i <= |attrs|
      invariant bd.attrs == old(bd.attrs) + map a | a in Written(attrs[..i]) :: DrawMode(visible)
    {
      WrittenSnoc(attrs, i);
      if attrs[i].Some? {
        ModeMapGrows(old(bd.attrs), Written(attrs[..i]), attrs[i].value, DrawMode(visible));
        bd.attrs := bd.attrs[attrs[i].value := DrawMode(visible)];
      }
      i := i + 1;
    }
    assert attrs[..i] == attrs;
  }

  /** One more list entry adds at most its own parameter. */
  lemma WrittenSnoc(attrs: seq<Option<DrawAttr>>, i: int)
    requires 0 <= i < |attrs|
    ensures Written(attrs[..i + 1]) == Written(attrs[..i]) + (if attrs[i].Some? then {attrs[i].value} else {})
  {
    assert attrs[..i + 1] == attrs[..i] + [attrs[i]];
  }

  /** Writing one more parameter extends the written map by that key. */
  lemma ModeMapGrows(base: map<DrawAttr, Mode>, w: set<DrawAttr>, a: DrawAttr, m: Mode)
    ensures (base + map x | x in w :: m)[a := m] == base + map x | x in w + {a} :: m
  {
  }
}
