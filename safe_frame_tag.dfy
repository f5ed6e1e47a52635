/** The Safe Frame tag: three user-data visibility settings that, on
    every evaluation of the tag, switch the viewport grid filters, an
    object named `Omni_Background` and the safe frame. */
module SafeFrameTag {
  import opened Wrappers
  import opened Scene
  import opened Visibility

  const BACKGROUND_NAME: string := "Omni_Background"

  /** The grid group and the safe-frame group of base-draw parameters. */
  const GRID_ATTRS: seq<Option<DrawAttr>> :=
    [Some(DisplayFilterGrid), Some(DisplayFilterWorldAxis), Some(DisplayFilterHorizon)]
  const SAFE_FRAME_ATTRS: seq<Option<DrawAttr>> := [Some(ShowSafeFrame)]

  /** The tag node's user data: entry `k` (from 1) is `userData[k - 1]`. */
  class UserDataTag {
    var userData: seq<int>

    constructor ()
      ensures userData == []
    {
      userData := [];
    }

    /** `add_visibility_option`: one more user-data entry, holding `default`.
        The id the source passes is not used. */
    method AddVisibilityOption(default: int := 0)
      modifies this
      ensures userData == old(userData) + [default]
    {
      userData := userData + [default];
    }

    /** `SafeFrameTag.Init`: background, safe frame and grid entries
        with defaults 0, 0 and 3, appended in that order. */
    method Init() returns (ok: bool)
      modifies this
      ensures ok
      ensures userData == old(userData) + [VIEW_THROUGH_CAMERA, VIEW_THROUGH_CAMERA, ONLY_NOT_THROUGH_CAMERA]
    {
      AddVisibilityOption();
      AddVisibilityOption();
      AddVisibilityOption(3);
      ok := true;
    }

    /** `tag[c4d.ID_USERDATA, k]`: `None` when there is no such entry. */
    function UserData(k: int): (r: Option<int>)
      reads this
      ensures r.Some? <==> 1 <= k <= |userData|
      ensures r.Some? ==> r.value == userData[k - 1]
    {
      if 1 <= k <= |userData| then Some(userData[k - 1]) else None
    }
  }

  /** A fresh tag, once initialised, yields the documented defaults. */
  method NewTagDefaults() returns (tag: UserDataTag)
    ensures fresh(tag)
    ensures tag.UserData(1) == Some(0) && tag.UserData(2) == Some(0) && tag.UserData(3) == Some(3)
    ensures tag.UserData(4) == None
  {
    tag := new UserDataTag();
    var _ := tag.Init();
  }

  /** `SafeFrameTag.apply_visibility_setting`: with a non-empty
      `searchName` the first object of that name, if any, gets the
      resolved mode on both visibilities; otherwise each listed base-draw
      parameter gets the inverted mode. */
  method ApplyVisibilitySetting(doc: Document, setting: Option<int>, bd: BaseDraw?,
                                attrs: seq<Option<DrawAttr>>, through: bool, searchName: Option<string>)
    requires doc.Valid()
    modifies doc`nodes, bd
    ensures doc.Valid()
    ensures searchName.Some? && searchName.value != [] ==>
      && (bd != null ==> unchanged(bd))
      && match old(doc.SearchObject(searchName.value))
         case Some(o) => doc.nodes == old(doc.nodes)[o := WithVisibility(old(doc.nodes)[o], ObjectMode(Resolve(setting, through)))]
         case None => doc.nodes == old(doc.nodes)
    ensures !(searchName.Some? && searchName.value != []) ==>
      && doc.nodes == old(doc.nodes)
      && (bd != null ==> bd.attrs == old(bd.attrs) + map a | a in Written(attrs) :: DrawMode(Resolve(setting, through)))
      && (bd != null ==> bd.sceneCamera == old(bd.sceneCamera))
  {
    var state := Resolve(setting, through);
    var mode := ObjectMode(state);
    if searchName.Some? && searchName.value != [] {
      var obj := doc.SearchObject(searchName.value);
      if obj.Some? {
        doc.SetNode(obj.value, WithVisibility(doc.nodes[obj.value], mode));
      }
    } else if bd != null && attrs != [] {
      WriteDrawAttributes(bd, attrs, state);
    }
  }

  /** `SafeFrameTag.Execute` on host object `op`: without an active base
      draw nothing changes; otherwise the grid group, the background
      object and the safe frame are set from user data 3, 1 and 2. The
      result is always true. */
  method Execute(tag: UserDataTag, doc: Document, op: ObjId) returns (r: bool)
    requires doc.Valid() && op in doc.nodes
    modifies doc`nodes, doc.baseDraw
    ensures r
    ensures doc.Valid()
    ensures old(doc.baseDraw) == null ==> doc.nodes == old(doc.nodes)
    ensures doc.baseDraw != null ==>
      var through := ViewingThrough(old(doc.nodes[op].typeId), op, old(doc.nodes[op].down),
                                    ActiveCamera(old(doc.baseDraw.sceneCamera)));
      && doc.baseDraw.attrs == old(doc.baseDraw.attrs)
           + (map a | a in Written(GRID_ATTRS) :: DrawMode(Resolve(tag.UserData(3), through)))
           + (map a | a in Written(SAFE_FRAME_ATTRS) :: DrawMode(Resolve(tag.UserData(2), through)))
      && doc.baseDraw.sceneCamera == old(doc.baseDraw.sceneCamera)
      && match old(doc.SearchObject(BACKGROUND_NAME))
         case Some(o) => doc.nodes == old(doc.nodes)[o := WithVisibility(old(doc.nodes)[o], ObjectMode(Resolve(tag.UserData(1), through)))]
         case None => doc.nodes == old(doc.nodes)
  {
    r := true;
    var bd := doc.baseDraw;
    if bd == null {
      return;
    }
    var node := doc.nodes[op];
    var through := ViewingThrough(node.typeId, op, node.down, ActiveCamera(bd.sceneCamera));
    var background := tag.UserData(1);
    var safeFrame := tag.UserData(2);
    var grid := tag.UserData(3);
    ApplyVisibilitySetting(doc, grid, bd, GRID_ATTRS, through, None);
    ApplyVisibilitySetting(doc, background, null, [], through, Some(BACKGROUND_NAME));
    ApplyVisibilitySetting(doc, safeFrame, bd, SAFE_FRAME_ATTRS, through, None);
  }
}
