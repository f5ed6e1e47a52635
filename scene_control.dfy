/** The Omniscient Scene Control tag: the same policy as the Safe Frame
    tag, with the settings held in description parameters and the
    background object given by a link rather than found by name. */
module SceneControl {
  import opened Wrappers
  import opened Scene
  import opened Visibility

  const GRID_ATTRS: seq<Option<DrawAttr>> :=
    [Some(DisplayFilterGrid), Some(DisplayFilterWorldAxis), Some(DisplayFilterHorizon)]
  const SAFE_FRAME_ATTRS: seq<Option<DrawAttr>> := [Some(ShowSafeFrame)]

  /** `OmniscientSceneControl.apply_visibility_setting`: a given object
      gets the resolved mode on both visibilities; with no object, each
      listed base-draw parameter gets the inverted mode. */
  method ApplyVisibilitySetting(doc: Document, setting: int, bd: BaseDraw?,
                                attrs: seq<Option<DrawAttr>>, through: bool, obj: Option<ObjId>)
    requires doc.Valid()
    requires obj.Some? ==> obj.value in doc.nodes
    modifies doc`nodes, bd
    ensures doc.Valid()
    ensures obj.Some? ==>
      && (bd != null ==> unchanged(bd))
      && doc.nodes == old(doc.nodes)[obj.value := WithVisibility(old(doc.nodes)[obj.value], ObjectMode(Resolve(Some(setting), through)))]
    ensures obj.None? ==>
      && doc.nodes == old(doc.nodes)
      && (bd != null ==> bd.attrs == old(bd.attrs) + map a | a in Written(attrs) :: DrawMode(Resolve(Some(setting), through)))
      && (bd != null ==> bd.sceneCamera == old(bd.sceneCamera))
  {
    var state := Resolve(Some(setting), through);
    var mode := ObjectMode(state);
    if obj.Some? {
      doc.SetNode(obj.value, WithVisibility(doc.nodes[obj.value], mode));
    } else if bd != null && attrs != [] {
      WriteDrawAttributes(bd, attrs, state);
    }
  }

  /** The object the background link resolves to: the link, if it names
      an object the document knows. */
  function LinkedBackground(link: Option<ObjId>, nodes: map<ObjId, Node>): (r: Option<ObjId>)
    ensures r.Some? <==> link.Some? && link.value in nodes
    ensures r.Some? ==> r == link
  {
    if link.Some? && link.value in nodes then link else None
  }

  /** `OmniscientSceneControl.Execute` on host object `op`: a missing tag
      yields false and a missing base draw true, both changing nothing;
      otherwise the grid group, the linked background (only when the
      link is set) and the safe frame are set from the tag's three
      settings, and the result is true. */
  method Execute(tag: ControlTag?, doc: Document, op: ObjId) returns (r: bool)
    requires doc.Valid() && op in doc.nodes
    modifies doc`nodes, doc.baseDraw
    ensures doc.Valid()
    ensures r <==> tag != null
    ensures (tag == null || old(doc.baseDraw) == null) ==> doc.nodes == old(doc.nodes)
    ensures tag == null && doc.baseDraw != null ==> unchanged(doc.baseDraw)
    ensures tag != null && doc.baseDraw != null ==>
      var through := ViewingThrough(old(doc.nodes[op].typeId), op, old(doc.nodes[op].down),
                                    ActiveCamera(old(doc.baseDraw.sceneCamera)));
      && doc.baseDraw.attrs == old(doc.baseDraw.attrs)
           + (map a | a in Written(GRID_ATTRS) :: DrawMode(Resolve(Some(tag.gridVisibility), through)))
           + (map a | a in Written(SAFE_FRAME_ATTRS) :: DrawMode(Resolve(Some(tag.safeFrameVisibility), through)))
      && doc.baseDraw.sceneCamera == old(doc.baseDraw.sceneCamera)
      && match LinkedBackground(tag.backgroundLink, old(doc.nodes))
         case Some(o) => doc.nodes == old(doc.nodes)[o := WithVisibility(old(doc.nodes)[o], ObjectMode(Resolve(Some(tag.backgroundVisibility), through)))]
         case None => doc.nodes == old(doc.nodes)
  {
    if tag == null {
      return false;
    }
    r := true;
    var bd := doc.baseDraw;
    if bd == null {
      return;
    }
    var node := doc.nodes[op];
    var through := ViewingThrough(node.typeId, op, node.down, ActiveCamera(bd.sceneCamera));
    ApplyVisibilitySetting(doc, tag.gridVisibility, bd, GRID_ATTRS, through, None);
    var background := LinkedBackground(tag.backgroundLink, doc.nodes);
    if background.Some? {
      ApplyVisibilitySetting(doc, tag.backgroundVisibility, null, [], through, background);
    }
    ApplyVisibilitySetting(doc, tag.safeFrameVisibility, bd, SAFE_FRAME_ATTRS, through, None);
  }
}
