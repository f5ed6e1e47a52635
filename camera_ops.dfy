/** `handle_camera_operations`, shared by both importers: every Alembic
    generator among the new objects is adjusted, then either baked into
    a tagged camera that replaces it, or tagged itself. The importers
    call it once per new object, over all new objects, so its effect is
    described by a relation between document states that composes. */
module CameraOperations {
  import opened Wrappers
  import opened Scene
  import opened ImportCommon
  import CameraBaker

  /** The part of a document the camera operations change. */
  datatype Snapshot = Snapshot(objects: seq<ObjId>, nodes: map<ObjId, Node>, nextId: nat)

  function Snap(doc: Document): Snapshot
    reads doc
  {
    Snapshot(doc.objects, doc.nodes, doc.nextId)
  }

  /** The document once the nodes of a scene file have been merged into it:
      they join the end of the object list under fresh identities. */
  function AfterMerge(s: Snapshot, added: seq<Node>): Snapshot {
    Snapshot(s.objects + IdRange(s.nextId, |added|), WithNodes(s.nodes, s.nextId, added), s.nextId + |added|)
  }

  /** Where the two importers differ: the current one always adjusts an
      Alembic generator and looks through the camera it ends with; the
      legacy one adjusts only when both frame rates are given and never
      looks through. */
  datatype Variant = Variant(alwaysAdjust: bool, lookThrough: bool)

  const CURRENT: Variant := Variant(true, true)
  const LEGACY: Variant := Variant(false, false)

  predicate Adjusts(v: Variant, opts: ImportOptions) {
    v.alwaysAdjust || (opts.cameraFps.Some? && opts.videoFps.Some?)
  }

  /** An Alembic generator's node once the variant's adjustment has run:
      only the parameters change, and not those the bake copies. */
  function Prepared(n: Node, v: Variant, opts: ImportOptions): (r: Node)
    ensures r == n.(params := r.params)
    ensures CameraBaker.CameraProperties(r.params) == CameraBaker.CameraProperties(n.params)
    ensures Adjusts(v, opts) ==> r.params == AdjustedParams(n.params, opts.cameraFps, opts.videoFps, 1)
    ensures !Adjusts(v, opts) ==> r == n
  {
    AdjustedKeepsCameraProperties(n.params, opts.cameraFps, opts.videoFps, 1);
    if Adjusts(v, opts) then Adjusted(n, opts.cameraFps, opts.videoFps, 1) else n
  }

  /** Preparing a node whose parameters are already prepared changes nothing more. */
  lemma {:induction false} PreparedStable(n: Node, m: Node, v: Variant, opts: ImportOptions)
    requires m.params == Prepared(n, v, opts).params
    ensures Prepared(m, v, opts).params == m.params
  {
    if Adjusts(v, opts) {
      AdjustedIdempotent(n.params, opts.cameraFps, opts.videoFps, 1);
    }
  }

  /** `b` and `a` are the same node but for the name. */
  predicate SameButName(b: Node, a: Node) {
    a == b.(name := a.name)
  }

  /** `a` is `b` with one or more tags put in front, and perhaps another name. */
  predicate TaggedButName(b: Node, a: Node) {
    && a == b.(name := a.name, tags := a.tags)
    && |a.tags| > |b.tags|
    && a.tags[|a.tags| - |b.tags|..] == b.tags
  }

  /** One iteration of `handle_camera_operations` on `obj`, from state `b` to `a`. */
  ghost predicate CameraStep(b: Snapshot, a: Snapshot, obj: ObjId, v: Variant, opts: ImportOptions,
                             host: Host, minFrame: int, maxFrame: int)
    requires obj in b.nodes
  {
    && (forall o :: o in b.nodes ==> o in a.nodes && a.nodes[o].name == b.nodes[o].name)
    && (forall o :: o in b.nodes && o != obj ==> a.nodes[o] == b.nodes[o])
    && (forall o :: o in a.objects ==> o in b.objects || o == b.nextId)
    && (forall o :: o in a.nodes && o !in b.nodes ==> o in a.objects)
    && (forall o :: o in b.objects && o != obj ==> o in a.objects)
    && (a.nextId == b.nextId || a.nextId == b.nextId + 1)
    && (b.nodes[obj].typeId != ALEMBIC_GENERATOR ==> a == b)
    && (b.nodes[obj].typeId == ALEMBIC_GENERATOR && opts.bakeCamera ==>
          && a.nodes[obj] == Prepared(b.nodes[obj], v, opts)
          && (!BakeWorks(b.nodes[obj], minFrame, maxFrame, host) ==> forall o :: o in b.objects ==> o in a.objects)
          && (!BakeWorks(b.nodes[obj], minFrame, maxFrame, host) ==>
                forall o :: o in a.objects && o !in b.objects ==>
                  o in a.nodes && PartialBake(Prepared(b.nodes[obj], v, opts), a.nodes[o], o, minFrame, maxFrame, host))
          && (BakeWorks(b.nodes[obj], minFrame, maxFrame, host) ==>
                && a.nextId == b.nextId + 1
                && a.objects == Without([b.nextId] + b.objects, obj)
                && b.nextId in a.nodes
                && TagsPrepended(BakedFrom(Prepared(b.nodes[obj], v, opts), b.nextId, minFrame, maxFrame, host, obj),
                                 a.nodes[b.nextId], 1)))
    && (b.nodes[obj].typeId == ALEMBIC_GENERATOR && !opts.bakeCamera ==>
          && a.objects == b.objects && a.nextId == b.nextId
          && TagsPrepended(Prepared(b.nodes[obj], v, opts), a.nodes[obj], 1))
  }

  /** What the camera operations make of one object's node `n0` once it
      has been handled (`handled`) or not: an Alembic generator that was
      handled is prepared once and, without baking, carries new tags in
      front; every other node stays as it was. Names may change. */
  predicate NodeOps(n0: Node, n: Node, handled: bool, v: Variant, opts: ImportOptions) {
    if handled && n0.typeId == ALEMBIC_GENERATOR then
      if opts.bakeCamera then SameButName(Prepared(n0, v, opts), n)
      else TaggedButName(Prepared(n0, v, opts), n)
    else SameButName(n0, n)
  }

  /** Whether the object with node `n0` has been replaced by a baked camera. */
  ghost predicate Replaced(n0: Node, handled: bool, opts: ImportOptions, host: Host, minFrame: int, maxFrame: int) {
    handled && n0.typeId == ALEMBIC_GENERATOR && opts.bakeCamera && BakeWorks(n0, minFrame, maxFrame, host)
  }

  /** `n` bears the name that the node `src` had, or one of `names`:
      the names the calls were interleaved with. A camera is named after
      its generator when it is baked, and the generator may have been
      renamed by then. */
  predicate NamedAfter(n: Node, src: Node, names: set<string>) {
    n.name == src.name || n.name in names
  }

  /** `s` lists a tagged camera baked from the generator `r`, whose node was `n`. */
  ghost predicate LeftCamera(n: Node, r: ObjId, s: Snapshot, names: set<string>, minFrame: int, maxFrame: int, host: Host)
    requires CameraBaker.CameraProperties(n.params).Success?
  {
    exists c :: c in s.objects && c in s.nodes && TaggedButName(BakedFrom(n, c, minFrame, maxFrame, host, r), s.nodes[c]) &&
      NamedAfter(s.nodes[c], n, names)
  }

  /** `n`, at `id`, is a camera that replaced one of the generators
      `done` of `s0`: the bake of that generator with tags in front,
      named after it. */
  ghost predicate ReplacementCamera(s0: Snapshot, n: Node, id: ObjId, done: set<ObjId>, names: set<string>,
                                    opts: ImportOptions, host: Host, minFrame: int, maxFrame: int)
  {
    exists r :: r in done && r in s0.nodes && Replaced(s0.nodes[r], true, opts, host, minFrame, maxFrame) &&
      TaggedButName(BakedFrom(s0.nodes[r], id, minFrame, maxFrame, host, r), n) && NamedAfter(n, s0.nodes[r], names)
  }

  /** `n`, at `id`, is the camera a bake of one of the generators `done`
      of `s0` left behind when the host failed to add a key, named after
      that generator as it was at the bake. */
  ghost predicate LeftoverCamera(s0: Snapshot, n: Node, id: ObjId, done: set<ObjId>, names: set<string>,
                                 opts: ImportOptions, host: Host, minFrame: int, maxFrame: int)
  {
    exists r :: r in done && r in s0.nodes && s0.nodes[r].typeId == ALEMBIC_GENERATOR && opts.bakeCamera &&
      PartialBake(s0.nodes[r].(name := n.name), n, id, minFrame, maxFrame, host) && NamedAfter(n, s0.nodes[r], names)
  }

  ghost predicate NewCamera(s0: Snapshot, n: Node, id: ObjId, done: set<ObjId>, names: set<string>,
                            opts: ImportOptions, host: Host, minFrame: int, maxFrame: int)
  {
    ReplacementCamera(s0, n, id, done, names, opts, host, minFrame, maxFrame) ||
    LeftoverCamera(s0, n, id, done, names, opts, host, minFrame, maxFrame)
  }

  /** What any number of calls of `handle_camera_operations` over the
      objects `done`, interleaved with renamings to the names `names`,
      make of state `s0`: each node is as `NodeOps` says and keeps its
      name or bears one of `names`; a top-level object stays exactly when
      it was not replaced by a baked camera; every object that appears is
      a new camera baked from one of `done` and named after it, tagged
      when its bake worked; every generator replaced has left such a
      tagged camera; no node appears outside the object list, and
      without baking none appears. */
  ghost predicate CameraOps(s0: Snapshot, s: Snapshot, done: set<ObjId>, names: set<string>, v: Variant,
                            opts: ImportOptions, host: Host, minFrame: int, maxFrame: int)
    requires forall o :: o in s0.objects ==> o in s0.nodes
  {
    && s.nextId >= s0.nextId
    && (forall o :: o in s0.nodes ==>
          o in s.nodes && NodeOps(s0.nodes[o], s.nodes[o], o in done, v, opts) && NamedAfter(s.nodes[o], s0.nodes[o], names))
    && (forall o :: o in s0.objects ==>
          (o in s.objects <==> !Replaced(s0.nodes[o], o in done, opts, host, minFrame, maxFrame)))
    && (forall o :: o in s.objects && o !in s0.objects ==>
          o >= s0.nextId && o in s.nodes && NewCamera(s0, s.nodes[o], o, done, names, opts, host, minFrame, maxFrame))
    && (forall o :: o in s.nodes && o !in s0.nodes ==> o in s.objects)
    && (forall r :: r in s0.nodes && Replaced(s0.nodes[r], r in done, opts, host, minFrame, maxFrame) ==>
          LeftCamera(s0.nodes[r], r, s, names, minFrame, maxFrame, host))
    && (!opts.bakeCamera ==> s.objects == s0.objects && s.nextId == s0.nextId)
  }

  /** Whether the calls over `done` make the viewport look through a
      camera, in the importer that does: one of `done` is an Alembic
      generator that is tagged itself, or whose bake works. */
  ghost predicate LooksThrough(s0: Snapshot, done: set<ObjId>, opts: ImportOptions, host: Host, minFrame: int, maxFrame: int) {
    exists r :: r in done && r in s0.nodes && s0.nodes[r].typeId == ALEMBIC_GENERATOR &&
      (opts.bakeCamera ==> BakeWorks(s0.nodes[r], minFrame, maxFrame, host))
  }

  /** A camera the viewport may be left looking through: with baking, a
      tagged baked camera that replaced one of `done`; without, one of
      `done` itself. */
  ghost predicate LookThroughTarget(s0: Snapshot, s: Snapshot, c: ObjId, done: set<ObjId>, names: set<string>,
                                    opts: ImportOptions, host: Host, minFrame: int, maxFrame: int)
  {
    if opts.bakeCamera then
      c in s.objects && c in s.nodes && ReplacementCamera(s0, s.nodes[c], c, done, names, opts, host, minFrame, maxFrame)
    else c in done && c in s0.nodes && s0.nodes[c].typeId == ALEMBIC_GENERATOR
  }

  /** What the same calls make of the viewport's camera `cam0`: in the
      importer that looks through, once some generator has been looked
      through the camera is one of the targets; otherwise it is kept. */
  ghost predicate ViewOps(s0: Snapshot, s: Snapshot, done: set<ObjId>, names: set<string>, cam0: Option<ObjId>,
                          cam: Option<ObjId>, v: Variant, opts: ImportOptions, host: Host, minFrame: int, maxFrame: int)
  {
    if v.lookThrough && LooksThrough(s0, done, opts, host, minFrame, maxFrame) then
      cam.Some? && LookThroughTarget(s0, s, cam.value, done, names, opts, host, minFrame, maxFrame)
    else cam == cam0
  }

  /** The viewport's camera after one iteration on `obj`, in state `b`:
      in the importer that looks through, the generator itself when it is
      only tagged, or the camera baked from it when its bake works;
      otherwise `cam0` is kept. */
  ghost function StepCamera(b: Snapshot, obj: ObjId, cam0: Option<ObjId>, v: Variant, opts: ImportOptions,
                            host: Host, minFrame: int, maxFrame: int): Option<ObjId>
    requires obj in b.nodes
  {
    if v.lookThrough && b.nodes[obj].typeId == ALEMBIC_GENERATOR &&
       (opts.bakeCamera ==> BakeWorks(b.nodes[obj], minFrame, maxFrame, host))
    then Some(if opts.bakeCamera then b.nextId else obj)
    else cam0
  }

  /** Doing nothing is the relation over no objects. */
  lemma CameraOpsNone(s: Snapshot, names: set<string>, v: Variant, opts: ImportOptions, host: Host,
                      minFrame: int, maxFrame: int)
    requires forall o :: o in s.objects ==> o in s.nodes
    ensures CameraOps(s, s, {}, names, v, opts, host, minFrame, maxFrame)
  {
  }

  /** One step is the relation over its one object. */
  lemma {:induction false} CameraStepOps(b: Snapshot, a: Snapshot, obj: ObjId, v: Variant, opts: ImportOptions,
                                         host: Host, minFrame: int, maxFrame: int)
    requires obj in b.nodes && forall o :: o in b.objects ==> o in b.nodes
    requires forall o :: o in b.nodes ==> o < b.nextId
    requires CameraStep(b, a, obj, v, opts, host, minFrame, maxFrame)
    ensures CameraOps(b, a, {obj}, {}, v, opts, host, minFrame, maxFrame)
  {
    var n := b.nodes[obj];
    if n.typeId == ALEMBIC_GENERATOR && !opts.bakeCamera {
      assert TaggedButName(Prepared(n, v, opts), a.nodes[obj]) by {
        assert a.nodes[obj].tags[1..] == n.tags;
      }
    } else if n.typeId == ALEMBIC_GENERATOR && BakeWorks(n, minFrame, maxFrame, host) {
      BakeWorksStepOps(b, a, obj, v, opts, host, minFrame, maxFrame);
    } else if n.typeId == ALEMBIC_GENERATOR {
      BakeFailsStepOps(b, a, obj, v, opts, host, minFrame, maxFrame);
    }
  }

  /** A step whose bake works is the relation over its object. */
  lemma {:induction false} BakeWorksStepOps(b: Snapshot, a: Snapshot, obj: ObjId, v: Variant, opts: ImportOptions,
                                            host: Host, minFrame: int, maxFrame: int)
    requires obj in b.nodes && forall o :: o in b.objects ==> o in b.nodes
    requires forall o :: o in b.nodes ==> o < b.nextId
    requires b.nodes[obj].typeId == ALEMBIC_GENERATOR && opts.bakeCamera && BakeWorks(b.nodes[obj], minFrame, maxFrame, host)
    requires CameraStep(b, a, obj, v, opts, host, minFrame, maxFrame)
    ensures CameraOps(b, a, {obj}, {}, v, opts, host, minFrame, maxFrame)
  {
    var c := b.nextId;
    assert obj !in a.objects by {
      WithoutRemoves([c] + b.objects, obj);
    }
    BakeStepCamera(b, a, obj, v, opts, host, minFrame, maxFrame);
    assert Replaced(b.nodes[obj], true, opts, host, minFrame, maxFrame);
    forall o | o in b.nodes
      ensures o in a.nodes && NodeOps(b.nodes[o], a.nodes[o], o in {obj}, v, opts) && NamedAfter(a.nodes[o], b.nodes[o], {})
    {
    }
    forall o | o in b.objects
      ensures o in a.objects <==> !Replaced(b.nodes[o], o in {obj}, opts, host, minFrame, maxFrame)
    {
    }
    forall o | o in a.objects && o !in b.objects
      ensures o >= b.nextId && o in a.nodes && NewCamera(b, a.nodes[o], o, {obj}, {}, opts, host, minFrame, maxFrame)
    {
      assert o == c;
    }
    forall r | r in b.nodes && Replaced(b.nodes[r], r in {obj}, opts, host, minFrame, maxFrame)
      ensures LeftCamera(b.nodes[r], r, a, {}, minFrame, maxFrame, host)
    {
      assert r == obj;
    }
  }

  /** A step whose bake raises is the relation over its object: any camera
      it leaves is a partial bake. */
  lemma {:induction false} BakeFailsStepOps(b: Snapshot, a: Snapshot, obj: ObjId, v: Variant, opts: ImportOptions,
                                            host: Host, minFrame: int, maxFrame: int)
    requires obj in b.nodes && forall o :: o in b.objects ==> o in b.nodes
    requires forall o :: o in b.nodes ==> o < b.nextId
    requires b.nodes[obj].typeId == ALEMBIC_GENERATOR && opts.bakeCamera && !BakeWorks(b.nodes[obj], minFrame, maxFrame, host)
    requires CameraStep(b, a, obj, v, opts, host, minFrame, maxFrame)
    ensures CameraOps(b, a, {obj}, {}, v, opts, host, minFrame, maxFrame)
  {
    var n := b.nodes[obj];
    BakedFromPrepared(n, b.nextId, v, opts, host, minFrame, maxFrame, obj);
    forall o | o in b.nodes
      ensures o in a.nodes && NodeOps(b.nodes[o], a.nodes[o], o in {obj}, v, opts) && NamedAfter(a.nodes[o], b.nodes[o], {})
    {
    }
    assert forall r :: r in b.nodes ==> !Replaced(b.nodes[r], r in {obj}, opts, host, minFrame, maxFrame);
    forall o | o in b.objects
      ensures o in a.objects <==> !Replaced(b.nodes[o], o in {obj}, opts, host, minFrame, maxFrame)
    {
    }
    forall o | o in a.objects && o !in b.objects
      ensures o >= b.nextId && o in a.nodes && NewCamera(b, a.nodes[o], o, {obj}, {}, opts, host, minFrame, maxFrame)
    {
      assert PartialBake(n, a.nodes[o], o, minFrame, maxFrame, host);
      assert n.(name := a.nodes[o].name) == n;
      assert LeftoverCamera(b, a.nodes[o], o, {obj}, {}, opts, host, minFrame, maxFrame);
    }
  }

  /** The camera a working bake inserts is a replacement camera, and a top-level object. */
  lemma {:induction false} BakeStepCamera(b: Snapshot, a: Snapshot, obj: ObjId, v: Variant, opts: ImportOptions,
                                          host: Host, minFrame: int, maxFrame: int)
    requires obj in b.nodes && forall o :: o in b.nodes ==> o < b.nextId
    requires b.nodes[obj].typeId == ALEMBIC_GENERATOR && opts.bakeCamera && BakeWorks(b.nodes[obj], minFrame, maxFrame, host)
    requires CameraStep(b, a, obj, v, opts, host, minFrame, maxFrame)
    ensures b.nextId in a.objects && b.nextId in a.nodes
    ensures TaggedButName(BakedFrom(b.nodes[obj], b.nextId, minFrame, maxFrame, host, obj), a.nodes[b.nextId])
    ensures ReplacementCamera(b, a.nodes[b.nextId], b.nextId, {obj}, {}, opts, host, minFrame, maxFrame)
  {
    var c, n := b.nextId, b.nodes[obj];
    assert c != obj;
    BakedFromPrepared(n, c, v, opts, host, minFrame, maxFrame, obj);
    assert c in [c] + b.objects;
    assert a.nodes[c].tags[1..] == BakedFrom(n, c, minFrame, maxFrame, host, obj).tags;
    assert Replaced(b.nodes[obj], true, opts, host, minFrame, maxFrame);
  }

  /** The bake reads only the name and the properties it copies, which preparing keeps. */
  lemma BakedFromPrepared(n: Node, id: ObjId, v: Variant, opts: ImportOptions, host: Host, minFrame: int, maxFrame: int,
                          srcId: ObjId)
    ensures CameraBaker.CameraProperties(Prepared(n, v, opts).params) == CameraBaker.CameraProperties(n.params)
    ensures BakeWorks(Prepared(n, v, opts), minFrame, maxFrame, host) == BakeWorks(n, minFrame, maxFrame, host)
    ensures CameraBaker.CameraProperties(n.params).Success? ==>
      BakedFrom(Prepared(n, v, opts), id, minFrame, maxFrame, host, srcId) == BakedFrom(n, id, minFrame, maxFrame, host, srcId)
    ensures forall m, i :: PartialBake(Prepared(n, v, opts), m, i, minFrame, maxFrame, host) == PartialBake(n, m, i, minFrame, maxFrame, host)
  {
  }

  lemma WithoutRemoves(objs: seq<ObjId>, id: ObjId)
    ensures id !in Without(objs, id)
  {
  }

  /** The tags of a node tagged twice end with its first tags. */
  lemma {:induction false} TaggedTwice(n0: Node, n1: Node, n2: Node)
    requires TaggedButName(n0, n1) && TaggedButName(n1, n2)
    ensures TaggedButName(n0, n2)
  {
    var k1, k2 := |n1.tags| - |n0.tags|, |n2.tags| - |n1.tags|;
    assert n2.tags[k2..] == n1.tags;
    assert n2.tags[k2 + k1..] == n1.tags[k1..];
  }

  /** Per node, the relation composes, and so does replacement. */
  lemma {:induction false} NodeOpsCompose(n0: Node, n1: Node, n2: Node, h1: bool, h2: bool, v: Variant, opts: ImportOptions,
                                          host: Host, minFrame: int, maxFrame: int)
    requires NodeOps(n0, n1, h1, v, opts) && NodeOps(n1, n2, h2, v, opts)
    ensures NodeOps(n0, n2, h1 || h2, v, opts)
    ensures Replaced(n1, h2, opts, host, minFrame, maxFrame) == Replaced(n0, h2, opts, host, minFrame, maxFrame)
  {
    var p := Prepared(n0, v, opts);
    assert n1.typeId == n0.typeId;
    assert CameraBaker.CameraProperties(n1.params) == CameraBaker.CameraProperties(n0.params);
    if n0.typeId == ALEMBIC_GENERATOR {
      if h1 && h2 {
        PreparedStable(n0, n1, v, opts);
        if !opts.bakeCamera {
          assert TaggedButName(n1, n2);
          TaggedTwice(p, n1, n2);
        }
      } else if h2 {
        assert Prepared(n1, v, opts) == p.(name := n1.name);
      }
    }
  }

  /** The relation composes: calls over `d1` then over `d2` are calls over both. */
  lemma {:induction false} CameraOpsCompose(s0: Snapshot, s1: Snapshot, s2: Snapshot, d1: set<ObjId>, d2: set<ObjId>,
                                            n1: set<string>, n2: set<string>,
                                            v: Variant, opts: ImportOptions, host: Host, minFrame: int, maxFrame: int)
    requires forall o :: o in s0.objects ==> o in s0.nodes && o < s0.nextId
    requires forall o :: o in s1.objects ==> o in s1.nodes
    requires CameraOps(s0, s1, d1, n1, v, opts, host, minFrame, maxFrame)
    requires CameraOps(s1, s2, d2, n2, v, opts, host, minFrame, maxFrame)
    ensures CameraOps(s0, s2, d1 + d2, n1 + n2, v, opts, host, minFrame, maxFrame)
  {
    forall o | o in s0.nodes
      ensures o in s2.nodes && NodeOps(s0.nodes[o], s2.nodes[o], o in d1 + d2, v, opts)
      ensures NamedAfter(s2.nodes[o], s0.nodes[o], n1 + n2)
    {
      NodeOpsCompose(s0.nodes[o], s1.nodes[o], s2.nodes[o], o in d1, o in d2, v, opts, host, minFrame, maxFrame);
      assert NamedAfter(s1.nodes[o], s0.nodes[o], n1) && NamedAfter(s2.nodes[o], s1.nodes[o], n2);
    }
    forall o | o in s0.objects
      ensures o in s2.objects <==> !Replaced(s0.nodes[o], o in d1 + d2, opts, host, minFrame, maxFrame)
    {
      NodeOpsCompose(s0.nodes[o], s1.nodes[o], s2.nodes[o], o in d1, o in d2, v, opts, host, minFrame, maxFrame);
      if o !in s1.objects {
        assert o < s1.nextId;
      }
    }
    ComposeNewObjects(s0, s1, s2, d1, d2, n1, n2, v, opts, host, minFrame, maxFrame);
    ComposeNewNodes(s0, s1, s2, d1, d2, n1, n2, v, opts, host, minFrame, maxFrame);
    ComposeReplaced(s0, s1, s2, d1, d2, n1, n2, v, opts, host, minFrame, maxFrame);
  }

  /** Per node, the camera operations keep the type and what a bake reads. */
  lemma NodeOpsKeeps(n0: Node, n: Node, handled: bool, v: Variant, opts: ImportOptions, host: Host,
                     minFrame: int, maxFrame: int)
    requires NodeOps(n0, n, handled, v, opts)
    ensures n.typeId == n0.typeId
    ensures CameraBaker.CameraProperties(n.params) == CameraBaker.CameraProperties(n0.params)
    ensures BakeWorks(n, minFrame, maxFrame, host) == BakeWorks(n0, minFrame, maxFrame, host)
    ensures forall h :: Replaced(n, h, opts, host, minFrame, maxFrame) == Replaced(n0, h, opts, host, minFrame, maxFrame)
    ensures forall m: Node, i :: PartialBake(n.(name := m.name), m, i, minFrame, maxFrame, host) ==
                           PartialBake(n0.(name := m.name), m, i, minFrame, maxFrame, host)
    ensures forall i, r :: CameraBaker.CameraProperties(n0.params).Success? ==>
      BakedFrom(n, i, minFrame, maxFrame, host, r) == BakedFrom(n0, i, minFrame, maxFrame, host, r).(name := n.name)
  {
  }

  /** A camera made by the calls is a native camera, which no later call replaces. */
  lemma NewCameraIsCamera(s0: Snapshot, n: Node, id: ObjId, done: set<ObjId>, names: set<string>, opts: ImportOptions,
                          host: Host, minFrame: int, maxFrame: int)
    requires NewCamera(s0, n, id, done, names, opts, host, minFrame, maxFrame)
    ensures n.typeId == CAMERA_OBJECT
  {
    if ReplacementCamera(s0, n, id, done, names, opts, host, minFrame, maxFrame) {
      var r :| r in done && r in s0.nodes && Replaced(s0.nodes[r], true, opts, host, minFrame, maxFrame) &&
        TaggedButName(BakedFrom(s0.nodes[r], id, minFrame, maxFrame, host, r), n) && NamedAfter(n, s0.nodes[r], names);
    } else {
      var r :| r in done && r in s0.nodes && s0.nodes[r].typeId == ALEMBIC_GENERATOR && opts.bakeCamera &&
        PartialBake(s0.nodes[r].(name := n.name), n, id, minFrame, maxFrame, host) && NamedAfter(n, s0.nodes[r], names);
    }
  }

  /** A replacement camera stays one when it is renamed to one of the
      names allowed and when more objects count as done. */
  lemma ReplacementRenamed(s0: Snapshot, n: Node, m: Node, id: ObjId, d: set<ObjId>, d': set<ObjId>,
                           names: set<string>, names': set<string>,
                           opts: ImportOptions, host: Host, minFrame: int, maxFrame: int)
    requires ReplacementCamera(s0, n, id, d, names, opts, host, minFrame, maxFrame)
    requires SameButName(n, m) && NamedAfter(m, n, names') && d <= d' && names <= names'
    ensures ReplacementCamera(s0, m, id, d', names', opts, host, minFrame, maxFrame)
  {
    var r :| r in d && r in s0.nodes && Replaced(s0.nodes[r], true, opts, host, minFrame, maxFrame) &&
      TaggedButName(BakedFrom(s0.nodes[r], id, minFrame, maxFrame, host, r), n) && NamedAfter(n, s0.nodes[r], names);
    assert TaggedButName(BakedFrom(s0.nodes[r], id, minFrame, maxFrame, host, r), m);
  }

  /** The same for any camera the calls made. */
  lemma NewCameraRenamed(s0: Snapshot, n: Node, m: Node, id: ObjId, d: set<ObjId>, d': set<ObjId>,
                         names: set<string>, names': set<string>,
                         opts: ImportOptions, host: Host, minFrame: int, maxFrame: int)
    requires NewCamera(s0, n, id, d, names, opts, host, minFrame, maxFrame)
    requires SameButName(n, m) && NamedAfter(m, n, names') && d <= d' && names <= names'
    ensures NewCamera(s0, m, id, d', names', opts, host, minFrame, maxFrame)
  {
    if ReplacementCamera(s0, n, id, d, names, opts, host, minFrame, maxFrame) {
      ReplacementRenamed(s0, n, m, id, d, d', names, names', opts, host, minFrame, maxFrame);
    } else {
      var r :| r in d && r in s0.nodes && s0.nodes[r].typeId == ALEMBIC_GENERATOR && opts.bakeCamera &&
        PartialBake(s0.nodes[r].(name := n.name), n, id, minFrame, maxFrame, host) && NamedAfter(n, s0.nodes[r], names);
      assert PartialBake(s0.nodes[r].(name := m.name), m, id, minFrame, maxFrame, host);
    }
  }

  /** A generator after some calls was there before them: the calls make only cameras. */
  lemma GeneratorBack(s0: Snapshot, s1: Snapshot, r: ObjId, d1: set<ObjId>, n1: set<string>, v: Variant,
                      opts: ImportOptions, host: Host, minFrame: int, maxFrame: int)
    requires forall o :: o in s0.objects ==> o in s0.nodes
    requires CameraOps(s0, s1, d1, n1, v, opts, host, minFrame, maxFrame)
    requires r in s1.nodes && s1.nodes[r].typeId == ALEMBIC_GENERATOR
    ensures r in s0.nodes && s0.nodes[r].typeId == ALEMBIC_GENERATOR
  {
    if r !in s0.nodes {
      assert r in s1.objects && r !in s0.objects;
      NewCameraIsCamera(s0, s1.nodes[r], r, d1, n1, opts, host, minFrame, maxFrame);
    } else {
      NodeOpsKeeps(s0.nodes[r], s1.nodes[r], r in d1, v, opts, host, minFrame, maxFrame);
    }
  }

  /** A camera that later calls bake from the state after `d1` is one baked from the start over both. */
  lemma ReplacementBack(s0: Snapshot, s1: Snapshot, n: Node, id: ObjId, d1: set<ObjId>, d2: set<ObjId>,
                        n1: set<string>, n2: set<string>,
                        v: Variant, opts: ImportOptions, host: Host, minFrame: int, maxFrame: int)
    requires forall o :: o in s0.objects ==> o in s0.nodes
    requires CameraOps(s0, s1, d1, n1, v, opts, host, minFrame, maxFrame)
    requires ReplacementCamera(s1, n, id, d2, n2, opts, host, minFrame, maxFrame)
    ensures ReplacementCamera(s0, n, id, d1 + d2, n1 + n2, opts, host, minFrame, maxFrame)
  {
    var r :| r in d2 && r in s1.nodes && Replaced(s1.nodes[r], true, opts, host, minFrame, maxFrame) &&
      TaggedButName(BakedFrom(s1.nodes[r], id, minFrame, maxFrame, host, r), n) && NamedAfter(n, s1.nodes[r], n2);
    GeneratorBack(s0, s1, r, d1, n1, v, opts, host, minFrame, maxFrame);
    NodeOpsKeeps(s0.nodes[r], s1.nodes[r], r in d1, v, opts, host, minFrame, maxFrame);
    assert NamedAfter(s1.nodes[r], s0.nodes[r], n1);
    assert TaggedButName(BakedFrom(s0.nodes[r], id, minFrame, maxFrame, host, r), n);
  }

  /** The same for any camera the later calls made. */
  lemma NewCameraBack(s0: Snapshot, s1: Snapshot, n: Node, id: ObjId, d1: set<ObjId>, d2: set<ObjId>,
                      n1: set<string>, n2: set<string>,
                      v: Variant, opts: ImportOptions, host: Host, minFrame: int, maxFrame: int)
    requires forall o :: o in s0.objects ==> o in s0.nodes
    requires CameraOps(s0, s1, d1, n1, v, opts, host, minFrame, maxFrame)
    requires NewCamera(s1, n, id, d2, n2, opts, host, minFrame, maxFrame)
    ensures NewCamera(s0, n, id, d1 + d2, n1 + n2, opts, host, minFrame, maxFrame)
  {
    if ReplacementCamera(s1, n, id, d2, n2, opts, host, minFrame, maxFrame) {
      ReplacementBack(s0, s1, n, id, d1, d2, n1, n2, v, opts, host, minFrame, maxFrame);
    } else {
      var r :| r in d2 && r in s1.nodes && s1.nodes[r].typeId == ALEMBIC_GENERATOR && opts.bakeCamera &&
        PartialBake(s1.nodes[r].(name := n.name), n, id, minFrame, maxFrame, host) && NamedAfter(n, s1.nodes[r], n2);
      GeneratorBack(s0, s1, r, d1, n1, v, opts, host, minFrame, maxFrame);
      NodeOpsKeeps(s0.nodes[r], s1.nodes[r], r in d1, v, opts, host, minFrame, maxFrame);
      assert NamedAfter(s1.nodes[r], s0.nodes[r], n1);
      assert LeftoverCamera(s0, n, id, d1 + d2, n1 + n2, opts, host, minFrame, maxFrame);
    }
  }

  /** Composition, for the objects that appear: each is a camera from one of the two rounds. */
  lemma {:induction false} ComposeNewObjects(s0: Snapshot, s1: Snapshot, s2: Snapshot, d1: set<ObjId>, d2: set<ObjId>,
                                             n1: set<string>, n2: set<string>,
                                             v: Variant, opts: ImportOptions, host: Host, minFrame: int, maxFrame: int)
    requires forall o :: o in s0.objects ==> o in s0.nodes
    requires forall o :: o in s1.objects ==> o in s1.nodes
    requires CameraOps(s0, s1, d1, n1, v, opts, host, minFrame, maxFrame)
    requires CameraOps(s1, s2, d2, n2, v, opts, host, minFrame, maxFrame)
    ensures forall o :: o in s2.objects && o !in s0.objects ==>
      o >= s0.nextId && o in s2.nodes && NewCamera(s0, s2.nodes[o], o, d1 + d2, n1 + n2, opts, host, minFrame, maxFrame)
  {
    forall o | o in s2.objects && o !in s0.objects
      ensures o >= s0.nextId && o in s2.nodes && NewCamera(s0, s2.nodes[o], o, d1 + d2, n1 + n2, opts, host, minFrame, maxFrame)
    {
      if o in s1.objects {
        NewCameraIsCamera(s0, s1.nodes[o], o, d1, n1, opts, host, minFrame, maxFrame);
        assert SameButName(s1.nodes[o], s2.nodes[o]) && NamedAfter(s2.nodes[o], s1.nodes[o], n2);
        NewCameraRenamed(s0, s1.nodes[o], s2.nodes[o], o, d1, d1 + d2, n1, n1 + n2, opts, host, minFrame, maxFrame);
      } else {
        NewCameraBack(s0, s1, s2.nodes[o], o, d1, d2, n1, n2, v, opts, host, minFrame, maxFrame);
      }
    }
  }

  /** Composition, for the nodes that appear: each is a top-level object. */
  lemma {:induction false} ComposeNewNodes(s0: Snapshot, s1: Snapshot, s2: Snapshot, d1: set<ObjId>, d2: set<ObjId>,
                                           n1: set<string>, n2: set<string>,
                                           v: Variant, opts: ImportOptions, host: Host, minFrame: int, maxFrame: int)
    requires forall o :: o in s0.objects ==> o in s0.nodes
    requires forall o :: o in s1.objects ==> o in s1.nodes
    requires CameraOps(s0, s1, d1, n1, v, opts, host, minFrame, maxFrame)
    requires CameraOps(s1, s2, d2, n2, v, opts, host, minFrame, maxFrame)
    ensures forall o :: o in s2.nodes && o !in s0.nodes ==> o in s2.objects
  {
    forall o | o in s2.nodes && o !in s0.nodes ensures o in s2.objects {
      if o in s1.nodes {
        assert o in s1.objects && o !in s0.objects;
        NewCameraIsCamera(s0, s1.nodes[o], o, d1, n1, opts, host, minFrame, maxFrame);
      }
    }
  }

  /** Composition, for the generators replaced: each has left a tagged camera named after it. */
  lemma {:induction false} ComposeReplaced(s0: Snapshot, s1: Snapshot, s2: Snapshot, d1: set<ObjId>, d2: set<ObjId>,
                                           n1: set<string>, n2: set<string>,
                                           v: Variant, opts: ImportOptions, host: Host, minFrame: int, maxFrame: int)
    requires forall o :: o in s0.objects ==> o in s0.nodes
    requires forall o :: o in s1.objects ==> o in s1.nodes
    requires CameraOps(s0, s1, d1, n1, v, opts, host, minFrame, maxFrame)
    requires CameraOps(s1, s2, d2, n2, v, opts, host, minFrame, maxFrame)
    ensures forall r :: r in s0.nodes && Replaced(s0.nodes[r], r in d1 + d2, opts, host, minFrame, maxFrame) ==>
      LeftCamera(s0.nodes[r], r, s2, n1 + n2, minFrame, maxFrame, host)
  {
    forall r | r in s0.nodes && Replaced(s0.nodes[r], r in d1 + d2, opts, host, minFrame, maxFrame)
      ensures LeftCamera(s0.nodes[r], r, s2, n1 + n2, minFrame, maxFrame, host)
    {
      NodeOpsKeeps(s0.nodes[r], s1.nodes[r], r in d1, v, opts, host, minFrame, maxFrame);
      if Replaced(s0.nodes[r], r in d1, opts, host, minFrame, maxFrame) {
        LeftCameraForward(s0.nodes[r], r, s1, s2, d2, n1, n2, v, opts, host, minFrame, maxFrame);
      } else {
        assert Replaced(s1.nodes[r], r in d2, opts, host, minFrame, maxFrame);
        LeftCameraBack(s0.nodes[r], s1.nodes[r], r, s2, n1, n2, minFrame, maxFrame, host);
      }
    }
  }

  /** A tagged camera left by an earlier round stays, tagged, through a later one. */
  lemma LeftCameraForward(n0: Node, r: ObjId, s1: Snapshot, s2: Snapshot, d2: set<ObjId>, n1: set<string>, n2: set<string>,
                          v: Variant, opts: ImportOptions, host: Host, minFrame: int, maxFrame: int)
    requires forall o :: o in s1.objects ==> o in s1.nodes
    requires CameraBaker.CameraProperties(n0.params).Success?
    requires LeftCamera(n0, r, s1, n1, minFrame, maxFrame, host)
    requires CameraOps(s1, s2, d2, n2, v, opts, host, minFrame, maxFrame)
    ensures LeftCamera(n0, r, s2, n1 + n2, minFrame, maxFrame, host)
  {
    var c :| c in s1.objects && c in s1.nodes &&
      TaggedButName(BakedFrom(n0, c, minFrame, maxFrame, host, r), s1.nodes[c]) && NamedAfter(s1.nodes[c], n0, n1);
    assert s1.nodes[c].typeId == CAMERA_OBJECT;
    assert c in s2.objects && SameButName(s1.nodes[c], s2.nodes[c]) && NamedAfter(s2.nodes[c], s1.nodes[c], n2);
    assert TaggedButName(BakedFrom(n0, c, minFrame, maxFrame, host, r), s2.nodes[c]);
  }

  /** A tagged camera left from a generator `n`, which is `n0` renamed
      to one of `n1`, is one left from `n0`. */
  lemma LeftCameraBack(n0: Node, n: Node, r: ObjId, s2: Snapshot, n1: set<string>, n2: set<string>,
                       minFrame: int, maxFrame: int, host: Host)
    requires SameButName(n0, n) && NamedAfter(n, n0, n1)
    requires CameraBaker.CameraProperties(n.params).Success?
    requires LeftCamera(n, r, s2, n2, minFrame, maxFrame, host)
    ensures LeftCamera(n0, r, s2, n1 + n2, minFrame, maxFrame, host)
  {
    var c :| c in s2.objects && c in s2.nodes &&
      TaggedButName(BakedFrom(n, c, minFrame, maxFrame, host, r), s2.nodes[c]) && NamedAfter(s2.nodes[c], n, n2);
    assert n.params == n0.params;
    assert TaggedButName(BakedFrom(n0, c, minFrame, maxFrame, host, r), s2.nodes[c]);
  }

  /** One step moves the viewport as the relation over its one object says. */
  lemma {:induction false} ViewStepOps(b: Snapshot, a: Snapshot, obj: ObjId, cam0: Option<ObjId>, cam: Option<ObjId>,
                                       v: Variant, opts: ImportOptions, host: Host, minFrame: int, maxFrame: int)
    requires obj in b.nodes && forall o :: o in b.nodes ==> o < b.nextId
    requires CameraStep(b, a, obj, v, opts, host, minFrame, maxFrame)
    requires cam == StepCamera(b, obj, cam0, v, opts, host, minFrame, maxFrame)
    ensures ViewOps(b, a, {obj}, {}, cam0, cam, v, opts, host, minFrame, maxFrame)
  {
    var n := b.nodes[obj];
    if n.typeId == ALEMBIC_GENERATOR && (opts.bakeCamera ==> BakeWorks(n, minFrame, maxFrame, host)) {
      assert LooksThrough(b, {obj}, opts, host, minFrame, maxFrame);
      if v.lookThrough && opts.bakeCamera {
        BakeStepCamera(b, a, obj, v, opts, host, minFrame, maxFrame);
      }
    }
  }

  /** Over `d1` then `d2`, some generator is looked through exactly when one is in either round. */
  lemma LooksThroughCompose(s0: Snapshot, s1: Snapshot, d1: set<ObjId>, d2: set<ObjId>, n1: set<string>,
                            v: Variant, opts: ImportOptions, host: Host, minFrame: int, maxFrame: int)
    requires forall o :: o in s0.objects ==> o in s0.nodes
    requires CameraOps(s0, s1, d1, n1, v, opts, host, minFrame, maxFrame)
    ensures LooksThrough(s0, d1 + d2, opts, host, minFrame, maxFrame) <==>
      LooksThrough(s0, d1, opts, host, minFrame, maxFrame) || LooksThrough(s1, d2, opts, host, minFrame, maxFrame)
  {
    if LooksThrough(s0, d1 + d2, opts, host, minFrame, maxFrame) {
      var r :| r in d1 + d2 && r in s0.nodes && s0.nodes[r].typeId == ALEMBIC_GENERATOR &&
        (opts.bakeCamera ==> BakeWorks(s0.nodes[r], minFrame, maxFrame, host));
      if r in d1 {
        assert LooksThrough(s0, d1, opts, host, minFrame, maxFrame);
      } else {
        NodeOpsKeeps(s0.nodes[r], s1.nodes[r], false, v, opts, host, minFrame, maxFrame);
        assert LooksThrough(s1, d2, opts, host, minFrame, maxFrame);
      }
    }
    if LooksThrough(s1, d2, opts, host, minFrame, maxFrame) {
      var r :| r in d2 && r in s1.nodes && s1.nodes[r].typeId == ALEMBIC_GENERATOR &&
        (opts.bakeCamera ==> BakeWorks(s1.nodes[r], minFrame, maxFrame, host));
      GeneratorBack(s0, s1, r, d1, n1, v, opts, host, minFrame, maxFrame);
      NodeOpsKeeps(s0.nodes[r], s1.nodes[r], r in d1, v, opts, host, minFrame, maxFrame);
      assert LooksThrough(s0, d1 + d2, opts, host, minFrame, maxFrame);
    }
  }

  /** A camera the later round looks through is one the two rounds together look through. */
  lemma TargetBack(s0: Snapshot, s1: Snapshot, s2: Snapshot, c: ObjId, d1: set<ObjId>, d2: set<ObjId>,
                   n1: set<string>, n2: set<string>,
                   v: Variant, opts: ImportOptions, host: Host, minFrame: int, maxFrame: int)
    requires forall o :: o in s0.objects ==> o in s0.nodes
    requires CameraOps(s0, s1, d1, n1, v, opts, host, minFrame, maxFrame)
    requires LookThroughTarget(s1, s2, c, d2, n2, opts, host, minFrame, maxFrame)
    ensures LookThroughTarget(s0, s2, c, d1 + d2, n1 + n2, opts, host, minFrame, maxFrame)
  {
    if opts.bakeCamera {
      ReplacementBack(s0, s1, s2.nodes[c], c, d1, d2, n1, n2, v, opts, host, minFrame, maxFrame);
    } else {
      GeneratorBack(s0, s1, c, d1, n1, v, opts, host, minFrame, maxFrame);
    }
  }

  /** A camera the earlier round looks through stays one after the later round. */
  lemma TargetForward(s0: Snapshot, s1: Snapshot, s2: Snapshot, c: ObjId, d1: set<ObjId>, d2: set<ObjId>,
                      n1: set<string>, n2: set<string>,
                      v: Variant, opts: ImportOptions, host: Host, minFrame: int, maxFrame: int)
    requires forall o :: o in s1.objects ==> o in s1.nodes
    requires CameraOps(s1, s2, d2, n2, v, opts, host, minFrame, maxFrame)
    requires LookThroughTarget(s0, s1, c, d1, n1, opts, host, minFrame, maxFrame)
    ensures LookThroughTarget(s0, s2, c, d1 + d2, n1 + n2, opts, host, minFrame, maxFrame)
  {
    if opts.bakeCamera {
      NewCameraIsCamera(s0, s1.nodes[c], c, d1, n1, opts, host, minFrame, maxFrame);
      assert c in s2.objects && SameButName(s1.nodes[c], s2.nodes[c]) && NamedAfter(s2.nodes[c], s1.nodes[c], n2);
      ReplacementRenamed(s0, s1.nodes[c], s2.nodes[c], c, d1, d1 + d2, n1, n1 + n2, opts, host, minFrame, maxFrame);
    }
  }

  /** The viewport relation composes like the camera operations. */
  lemma {:induction false} ViewOpsCompose(s0: Snapshot, s1: Snapshot, s2: Snapshot, d1: set<ObjId>, d2: set<ObjId>,
                                          n1: set<string>, n2: set<string>,
                                          c0: Option<ObjId>, c1: Option<ObjId>, c2: Option<ObjId>,
                                          v: Variant, opts: ImportOptions, host: Host, minFrame: int, maxFrame: int)
    requires forall o :: o in s0.objects ==> o in s0.nodes
    requires forall o :: o in s1.objects ==> o in s1.nodes
    requires CameraOps(s0, s1, d1, n1, v, opts, host, minFrame, maxFrame)
    requires CameraOps(s1, s2, d2, n2, v, opts, host, minFrame, maxFrame)
    requires ViewOps(s0, s1, d1, n1, c0, c1, v, opts, host, minFrame, maxFrame)
    requires ViewOps(s1, s2, d2, n2, c1, c2, v, opts, host, minFrame, maxFrame)
    ensures ViewOps(s0, s2, d1 + d2, n1 + n2, c0, c2, v, opts, host, minFrame, maxFrame)
  {
    LooksThroughCompose(s0, s1, d1, d2, n1, v, opts, host, minFrame, maxFrame);
    if v.lookThrough && LooksThrough(s1, d2, opts, host, minFrame, maxFrame) {
      TargetBack(s0, s1, s2, c2.value, d1, d2, n1, n2, v, opts, host, minFrame, maxFrame);
    } else if v.lookThrough && LooksThrough(s0, d1, opts, host, minFrame, maxFrame) {
      TargetForward(s0, s1, s2, c1.value, d1, d2, n1, n2, v, opts, host, minFrame, maxFrame);
    }
  }

  /** Renaming an object to one of the names allowed keeps the viewport relation. */
  lemma ViewOpsRename(s0: Snapshot, s: Snapshot, id: ObjId, name: string, done: set<ObjId>, names: set<string>,
                      c0: Option<ObjId>, c: Option<ObjId>,
                      v: Variant, opts: ImportOptions, host: Host, minFrame: int, maxFrame: int)
    requires id in s.nodes && name in names
    requires ViewOps(s0, s, done, names, c0, c, v, opts, host, minFrame, maxFrame)
    ensures ViewOps(s0, s.(nodes := s.nodes[id := s.nodes[id].(name := name)]), done, names, c0, c,
                    v, opts, host, minFrame, maxFrame)
  {
    var s' := s.(nodes := s.nodes[id := s.nodes[id].(name := name)]);
    if v.lookThrough && LooksThrough(s0, done, opts, host, minFrame, maxFrame) && opts.bakeCamera {
      ReplacementRenamed(s0, s.nodes[c.value], s'.nodes[c.value], c.value, done, done, names, names,
                         opts, host, minFrame, maxFrame);
    }
  }

  /** Renaming an object to one of the names allowed keeps the relation. */
  lemma {:induction false} CameraOpsRename(s0: Snapshot, s: Snapshot, id: ObjId, name: string, done: set<ObjId>,
                                           names: set<string>,
                                           v: Variant, opts: ImportOptions, host: Host, minFrame: int, maxFrame: int)
    requires forall o :: o in s0.objects ==> o in s0.nodes
    requires id in s.nodes && name in names
    requires CameraOps(s0, s, done, names, v, opts, host, minFrame, maxFrame)
    ensures CameraOps(s0, s.(nodes := s.nodes[id := s.nodes[id].(name := name)]), done, names,
                      v, opts, host, minFrame, maxFrame)
  {
    var s' := s.(nodes := s.nodes[id := s.nodes[id].(name := name)]);
    UpdateKeys(s.nodes, id, s.nodes[id].(name := name));
    forall o | o in s.nodes
      ensures o in s'.nodes && SameButName(s.nodes[o], s'.nodes[o]) && NamedAfter(s'.nodes[o], s.nodes[o], names)
    {
    }
    CameraOpsSameButName(s0, s, s', done, names, names, v, opts, host, minFrame, maxFrame);
  }

  /** The relation allows the later state any of the names allowed. */
  lemma {:induction false} CameraOpsSameButName(s0: Snapshot, s: Snapshot, s': Snapshot, done: set<ObjId>,
                                                names: set<string>, names': set<string>,
                                                v: Variant, opts: ImportOptions, host: Host, minFrame: int, maxFrame: int)
    requires forall o :: o in s0.objects ==> o in s0.nodes
    requires s'.objects == s.objects && s'.nextId == s.nextId && s'.nodes.Keys == s.nodes.Keys && names <= names'
    requires forall o :: o in s.nodes ==>
      o in s'.nodes && SameButName(s.nodes[o], s'.nodes[o]) && NamedAfter(s'.nodes[o], s.nodes[o], names')
    requires CameraOps(s0, s, done, names, v, opts, host, minFrame, maxFrame)
    ensures CameraOps(s0, s', done, names', v, opts, host, minFrame, maxFrame)
  {
    forall o | o in s0.nodes
      ensures NamedAfter(s'.nodes[o], s0.nodes[o], names')
    {
      assert NamedAfter(s.nodes[o], s0.nodes[o], names);
    }
    forall o | o in s'.objects && o !in s0.objects
      ensures o >= s0.nextId && o in s'.nodes && NewCamera(s0, s'.nodes[o], o, done, names', opts, host, minFrame, maxFrame)
    {
      NewCameraRenamed(s0, s.nodes[o], s'.nodes[o], o, done, done, names, names', opts, host, minFrame, maxFrame);
    }
    forall r | r in s0.nodes && Replaced(s0.nodes[r], r in done, opts, host, minFrame, maxFrame)
      ensures LeftCamera(s0.nodes[r], r, s', names', minFrame, maxFrame, host)
    {
      LeftCameraRenamed(s0.nodes[r], r, s, s', names, names', minFrame, maxFrame, host);
    }
  }

  /** A camera left by a bake stays one when it is renamed to one of the names allowed. */
  lemma LeftCameraRenamed(n: Node, r: ObjId, s: Snapshot, s': Snapshot, names: set<string>, names': set<string>,
                          minFrame: int, maxFrame: int, host: Host)
    requires CameraBaker.CameraProperties(n.params).Success?
    requires s'.objects == s.objects && names <= names'
    requires forall o :: o in s.nodes ==>
      o in s'.nodes && SameButName(s.nodes[o], s'.nodes[o]) && NamedAfter(s'.nodes[o], s.nodes[o], names')
    requires LeftCamera(n, r, s, names, minFrame, maxFrame, host)
    ensures LeftCamera(n, r, s', names', minFrame, maxFrame, host)
  {
    var c :| c in s.objects && c in s.nodes && TaggedButName(BakedFrom(n, c, minFrame, maxFrame, host, r), s.nodes[c]) &&
      NamedAfter(s.nodes[c], n, names);
    assert TaggedButName(BakedFrom(n, c, minFrame, maxFrame, host, r), s'.nodes[c]);
    assert NamedAfter(s'.nodes[c], n, names');
  }

  /** With baking: the generator is prepared, then baked into a tagged
      camera that replaces it (and, in the current importer, is looked
      through); a bake that raises leaves the generator in place. */
  method BakeBranch(doc: Document, obj: ObjId, v: Variant, opts: ImportOptions, host: Host)
    requires doc.Valid() && obj in doc.nodes && doc.nodes[obj].typeId == ALEMBIC_GENERATOR && opts.bakeCamera
    modifies doc, doc.baseDraw
    ensures doc.Valid()
    ensures doc.baseDraw == old(doc.baseDraw) && doc.log == old(doc.log)
    ensures doc.minFrame == old(doc.minFrame) && doc.maxFrame == old(doc.maxFrame)
    ensures doc.baseDraw != null ==> doc.baseDraw.attrs == old(doc.baseDraw.attrs)
    ensures CameraStep(old(Snap(doc)), Snap(doc), obj, v, opts, host, doc.minFrame, doc.maxFrame)
    ensures old(BakeWorks(doc.nodes[obj], doc.minFrame, doc.maxFrame, host)) ==>
      && fresh(doc.nodes[old(doc.nextId)].tags[0])
      && NewControlTag(doc.nodes[old(doc.nextId)].tags[0],
                       FindByName([old(doc.nextId)] + old(doc.objects), doc.nodes, BACKGROUND_OBJECT_NAME))
    ensures doc.baseDraw != null ==>
      doc.baseDraw.sceneCamera == (if v.lookThrough && old(BakeWorks(doc.nodes[obj], doc.minFrame, doc.maxFrame, host))
                                   then Some(old(doc.nextId)) else old(doc.baseDraw.sceneCamera))
  {
    ghost var b := Snap(doc);
    Prepare(doc, obj, v, opts);
    ghost var m := Snap(doc);
    BakedFromPrepared(b.nodes[obj], b.nextId, v, opts, host, doc.minFrame, doc.maxFrame, obj);
    assert m == b.(nodes := b.nodes[obj := Prepared(b.nodes[obj], v, opts)]);
    ReplaceWithBakedCamera(doc, obj, host, v.lookThrough);
    BakeStepOps(b, m, Snap(doc), obj, v, opts, host, doc.minFrame, doc.maxFrame);
  }

  /** Preparing the generator and then the bake's effect is one step. */
  lemma {:induction false} BakeStepOps(b: Snapshot, m: Snapshot, a: Snapshot, obj: ObjId, v: Variant, opts: ImportOptions,
                                       host: Host, minFrame: int, maxFrame: int)
    requires obj in b.nodes && b.nodes[obj].typeId == ALEMBIC_GENERATOR && opts.bakeCamera
    requires m == b.(nodes := b.nodes[obj := Prepared(b.nodes[obj], v, opts)])
    requires forall o :: o in m.nodes ==> o in a.nodes && a.nodes[o] == m.nodes[o]
    requires forall o :: o in a.objects ==> o in m.objects || o == m.nextId
    requires forall o :: o in m.objects && o != obj ==> o in a.objects
    requires a.nextId == m.nextId || a.nextId == m.nextId + 1
    requires forall o :: o in a.nodes && o !in m.nodes ==> o in a.objects
    requires !BakeWorks(m.nodes[obj], minFrame, maxFrame, host) ==> forall o :: o in m.objects ==> o in a.objects
    requires !BakeWorks(m.nodes[obj], minFrame, maxFrame, host) ==>
      forall o :: o in a.objects && o !in m.objects ==> o in a.nodes && PartialBake(m.nodes[obj], a.nodes[o], o, minFrame, maxFrame, host)
    requires BakeWorks(m.nodes[obj], minFrame, maxFrame, host) ==>
      && a.nextId == m.nextId + 1
      && a.objects == Without([m.nextId] + m.objects, obj)
      && m.nextId in a.nodes
      && TagsPrepended(BakedFrom(m.nodes[obj], m.nextId, minFrame, maxFrame, host, obj), a.nodes[m.nextId], 1)
    ensures CameraStep(b, a, obj, v, opts, host, minFrame, maxFrame)
  {
    var p := Prepared(b.nodes[obj], v, opts);
    assert m.nodes[obj] == p && m.objects == b.objects && m.nextId == b.nextId;
    assert BakeWorks(p, minFrame, maxFrame, host) == BakeWorks(b.nodes[obj], minFrame, maxFrame, host);
    assert forall o :: o in b.nodes ==> o in a.nodes && a.nodes[o].name == b.nodes[o].name by {
      forall o | o in b.nodes ensures o in a.nodes && a.nodes[o].name == b.nodes[o].name {
        assert o in m.nodes && m.nodes[o].name == b.nodes[o].name;
      }
    }
    assert forall o :: o in b.nodes && o != obj ==> a.nodes[o] == b.nodes[o] by {
      forall o | o in b.nodes && o != obj ensures a.nodes[o] == b.nodes[o] {
        assert o in m.nodes && m.nodes[o] == b.nodes[o];
      }
    }
    assert a.nodes[obj] == p;
  }

  /** Without baking: the generator itself is tagged and, in the current
      importer, looked through. */
  method TagBranch(doc: Document, obj: ObjId, v: Variant, opts: ImportOptions, host: Host)
    requires doc.Valid() && obj in doc.nodes && doc.nodes[obj].typeId == ALEMBIC_GENERATOR && !opts.bakeCamera
    modifies doc`nodes, doc.baseDraw
    ensures doc.Valid()
    ensures CameraStep(old(Snap(doc)), Snap(doc), obj, v, opts, host, doc.minFrame, doc.maxFrame)
    ensures fresh(doc.nodes[obj].tags[0])
    ensures NewControlTag(doc.nodes[obj].tags[0], old(doc.SearchObject(BACKGROUND_OBJECT_NAME)))
    ensures doc.baseDraw != null ==> doc.baseDraw.attrs == old(doc.baseDraw.attrs)
    ensures doc.baseDraw != null ==>
      doc.baseDraw.sceneCamera == (if v.lookThrough then Some(obj) else old(doc.baseDraw.sceneCamera))
  {
    ghost var b := Snap(doc);
    Prepare(doc, obj, v, opts);
    ghost var p := Prepared(b.nodes[obj], v, opts);
    var tag := TagAndLookThrough(doc, obj, v.lookThrough);
    UpdateTwice(b.nodes, obj, p, p.(tags := [tag] + p.tags));
    TagStepOps(b, Snap(doc), obj, v, opts, host, doc.minFrame, doc.maxFrame, tag);
  }

  /** The variant's adjustment of an Alembic generator. */
  method Prepare(doc: Document, obj: ObjId, v: Variant, opts: ImportOptions)
    requires doc.Valid() && obj in doc.nodes && doc.nodes[obj].typeId == ALEMBIC_GENERATOR
    modifies doc`nodes
    ensures doc.Valid()
    ensures doc.nodes == old(doc.nodes)[obj := Prepared(old(doc.nodes[obj]), v, opts)]
    ensures doc.SearchObject(BACKGROUND_OBJECT_NAME) == old(doc.SearchObject(BACKGROUND_OBJECT_NAME))
  {
    if Adjusts(v, opts) {
      AdjustAlembicCameraSettings(doc, obj, opts.cameraFps, opts.videoFps);
    }
    FindByNameSameNames(doc.objects, old(doc.nodes), doc.nodes, BACKGROUND_OBJECT_NAME);
  }

  /** A new control tag in front of `obj`'s tags, and the viewport looking through `obj` when asked. */
  method TagAndLookThrough(doc: Document, obj: ObjId, lookThrough: bool) returns (tag: ControlTag)
    requires doc.Valid() && obj in doc.nodes
    modifies doc`nodes, doc.baseDraw
    ensures doc.Valid() && fresh(tag)
    ensures doc.nodes == old(doc.nodes)[obj := old(doc.nodes[obj]).(tags := [tag] + old(doc.nodes[obj].tags))]
    ensures NewControlTag(tag, old(doc.SearchObject(BACKGROUND_OBJECT_NAME)))
    ensures doc.baseDraw != null ==> doc.baseDraw.attrs == old(doc.baseDraw.attrs)
    ensures doc.baseDraw != null ==> doc.baseDraw.sceneCamera == if lookThrough then Some(obj) else old(doc.baseDraw.sceneCamera)
  {
    tag := InsertControlTag(doc, obj);
    if lookThrough {
      LookThrough(doc, obj);
    }
  }

  /** A second update of the same key overrides the first. */
  lemma UpdateTwice<K, V>(m: map<K, V>, k: K, x: V, y: V)
    ensures m[k := x][k := y] == m[k := y]
  {
  }

  /** Updating a key already present leaves the keys as they were. */
  lemma UpdateKeys<K, V>(m: map<K, V>, k: K, x: V)
    requires k in m
    ensures m[k := x].Keys == m.Keys
  {
  }

  /** The state after tagging the prepared generator in place is one step. */
  lemma {:induction false} TagStepOps(b: Snapshot, a: Snapshot, obj: ObjId, v: Variant, opts: ImportOptions,
                                      host: Host, minFrame: int, maxFrame: int, tag: ControlTag)
    requires obj in b.nodes && b.nodes[obj].typeId == ALEMBIC_GENERATOR && !opts.bakeCamera
    requires a == b.(nodes := b.nodes[obj := Prepared(b.nodes[obj], v, opts).(tags := [tag] + b.nodes[obj].tags)])
    ensures CameraStep(b, a, obj, v, opts, host, minFrame, maxFrame)
  {
    assert a.nodes[obj].tags[1..] == b.nodes[obj].tags;
  }

  /** One iteration of `handle_camera_operations`. */
  method HandleCamera(doc: Document, obj: ObjId, v: Variant, opts: ImportOptions, host: Host)
    requires doc.Valid() && obj in doc.nodes
    modifies doc, doc.baseDraw
    ensures doc.Valid()
    ensures doc.baseDraw == old(doc.baseDraw) && doc.log == old(doc.log)
    ensures doc.minFrame == old(doc.minFrame) && doc.maxFrame == old(doc.maxFrame)
    ensures doc.baseDraw != null ==> doc.baseDraw.attrs == old(doc.baseDraw.attrs)
    ensures CameraStep(old(Snap(doc)), Snap(doc), obj, v, opts, host, doc.minFrame, doc.maxFrame)
    ensures doc.baseDraw != null ==>
      doc.baseDraw.sceneCamera == StepCamera(old(Snap(doc)), obj, old(doc.baseDraw.sceneCamera), v, opts, host,
                                             doc.minFrame, doc.maxFrame)
  {
    if doc.nodes[obj].typeId == ALEMBIC_GENERATOR {
      if opts.bakeCamera {
        BakeBranch(doc, obj, v, opts, host);
      } else {
        TagBranch(doc, obj, v, opts, host);
      }
    }
  }

  /** `handle_camera_operations(doc, objs, …)`: the relation over `objs`,
      names untouched. */
  method HandleCameraOperations(doc: Document, objs: seq<ObjId>, v: Variant, opts: ImportOptions, host: Host)
    requires doc.Valid() && forall o :: o in objs ==> o in doc.nodes
    modifies doc, doc.baseDraw
    ensures doc.Valid()
    ensures doc.baseDraw == old(doc.baseDraw) && doc.log == old(doc.log)
    ensures doc.minFrame == old(doc.minFrame) && doc.maxFrame == old(doc.maxFrame)
    ensures doc.baseDraw != null ==> doc.baseDraw.attrs == old(doc.baseDraw.attrs)
    ensures forall o :: o in old(doc.nodes) ==> o in doc.nodes && doc.nodes[o].name == old(doc.nodes[o].name)
    ensures CameraOps(old(Snap(doc)), Snap(doc), Members(objs), {}, v, opts, host, doc.minFrame, doc.maxFrame)
    ensures doc.baseDraw != null ==>
      ViewOps(old(Snap(doc)), Snap(doc), Members(objs), {}, old(doc.baseDraw.sceneCamera), doc.baseDraw.sceneCamera,
              v, opts, host, doc.minFrame, doc.maxFrame)
    ensures !v.lookThrough && doc.baseDraw != null ==> doc.baseDraw.sceneCamera == old(doc.baseDraw.sceneCamera)
  {
    ghost var s0 := Snap(doc);
    ghost var cam0 := if doc.baseDraw != null then doc.baseDraw.sceneCamera else None;
    ghost var done: set<ObjId> := {};
    CameraOpsNone(s0, {}, v, opts, host, doc.minFrame, doc.maxFrame);
    var i := 0;
    while i < |objs|
      invariant 0 <= i <= |objs|
      invariant doc.Valid()
      invariant doc.baseDraw == old(doc.baseDraw) && doc.log == old(doc.log)
      invariant doc.minFrame == old(doc.minFrame) && doc.maxFrame == old(doc.maxFrame)
      invariant doc.baseDraw != null ==> doc.baseDraw.attrs == old(doc.baseDraw.attrs)
      invariant forall o :: o in s0.nodes ==> o in doc.nodes && doc.nodes[o].name == s0.nodes[o].name
      invariant forall o :: o in done <==> o in objs[..i]
      invariant CameraOps(s0, Snap(doc), done, {}, v, opts, host, doc.minFrame, doc.maxFrame)
      invariant doc.baseDraw != null ==>
        ViewOps(s0, Snap(doc), done, {}, cam0, doc.baseDraw.sceneCamera, v, opts, host, doc.minFrame, doc.maxFrame)
    {
      HandleNext(doc, s0, done, cam0, objs[i], v, opts, host);
      PrefixSetSnoc(objs, i, done);
      done := done + {objs[i]};
      i := i + 1;
    }
    PrefixSetAll(objs, done);
  }

  /** The body of the loop of `handle_camera_operations`: one more object
      handled, the relation from the start extended to it. */
  method HandleNext(doc: Document, ghost s0: Snapshot, ghost done: set<ObjId>, ghost cam0: Option<ObjId>, obj: ObjId,
                    v: Variant, opts: ImportOptions, host: Host)
    requires doc.Valid() && obj in doc.nodes
    requires forall o :: o in s0.objects ==> o in s0.nodes && o < s0.nextId
    requires CameraOps(s0, Snap(doc), done, {}, v, opts, host, doc.minFrame, doc.maxFrame)
    requires doc.baseDraw != null ==>
      ViewOps(s0, Snap(doc), done, {}, cam0, doc.baseDraw.sceneCamera, v, opts, host, doc.minFrame, doc.maxFrame)
    modifies doc, doc.baseDraw
    ensures doc.Valid()
    ensures doc.baseDraw == old(doc.baseDraw) && doc.log == old(doc.log)
    ensures doc.minFrame == old(doc.minFrame) && doc.maxFrame == old(doc.maxFrame)
    ensures doc.baseDraw != null ==> doc.baseDraw.attrs == old(doc.baseDraw.attrs)
    ensures forall o :: o in old(doc.nodes) ==> o in doc.nodes && doc.nodes[o].name == old(doc.nodes[o].name)
    ensures CameraOps(s0, Snap(doc), done + {obj}, {}, v, opts, host, doc.minFrame, doc.maxFrame)
    ensures doc.baseDraw != null ==>
      ViewOps(s0, Snap(doc), done + {obj}, {}, cam0, doc.baseDraw.sceneCamera, v, opts, host, doc.minFrame, doc.maxFrame)
  {
    ghost var b := Snap(doc);
    ghost var c1 := if doc.baseDraw != null then doc.baseDraw.sceneCamera else None;
    HandleCamera(doc, obj, v, opts, host);
    ghost var a := Snap(doc);
    CameraStepOps(b, a, obj, v, opts, host, doc.minFrame, doc.maxFrame);
    if doc.baseDraw != null {
      ViewStepOps(b, a, obj, c1, doc.baseDraw.sceneCamera, v, opts, host, doc.minFrame, doc.maxFrame);
      ViewOpsCompose(s0, b, a, done, {obj}, {}, {}, cam0, c1, doc.baseDraw.sceneCamera, v, opts, host,
                     doc.minFrame, doc.maxFrame);
    }
    CameraOpsCompose(s0, b, a, done, {obj}, {}, {}, v, opts, host, doc.minFrame, doc.maxFrame);
    UnionOfSubset(done + {obj}, done + {obj}, {});
  }

  /** The objects a sequence lists. */
  function Members(objs: seq<ObjId>): set<ObjId> {
    set o | o in objs
  }

  /** The objects of a prefix one longer. */
  lemma PrefixSetSnoc(objs: seq<ObjId>, i: nat, done: set<ObjId>)
    requires i < |objs| && forall o :: o in done <==> o in objs[..i]
    ensures forall o :: o in done + {objs[i]} <==> o in objs[..i + 1]
  {
    assert objs[..i + 1] == objs[..i] + [objs[i]];
  }

  /** The objects of the whole sequence. */
  lemma PrefixSetAll(objs: seq<ObjId>, done: set<ObjId>)
    requires forall o :: o in done <==> o in objs[..|objs|]
    ensures done == Members(objs)
  {
    assert objs[..|objs|] == objs;
  }

  /** What renaming the new objects `added` of `s0` to `name` made of it:
      they carry the name, and a scan import changed nothing else while a
      camera import ran the camera operations over them. */
  ghost predicate RenamedOutcome(s0: Snapshot, s: Snapshot, added: set<ObjId>, name: string, v: Variant, opts: ImportOptions,
                                 host: Host, minFrame: int, maxFrame: int)
    requires forall o :: o in s0.objects ==> o in s0.nodes
  {
    && (forall o :: o in s0.nodes ==> o in s.nodes && s.nodes[o].name == if o in added then name else s0.nodes[o].name)
    && (!opts.isCamera ==> s == s0.(nodes := RenameAll(s0.nodes, added, name)))
    && (opts.isCamera && added != {} ==> CameraOps(s0, s, added, {name}, v, opts, host, minFrame, maxFrame))
    && (added == {} ==> s == s0)
  }

  /** What the same renaming made of the viewport's camera `cam0`: a
      camera import moves it as the camera operations over `added` do. */
  ghost predicate RenamedView(s0: Snapshot, s: Snapshot, added: set<ObjId>, name: string, cam0: Option<ObjId>,
                              cam: Option<ObjId>, v: Variant, opts: ImportOptions, host: Host, minFrame: int, maxFrame: int)
  {
    if opts.isCamera && added != {} then ViewOps(s0, s, added, {name}, cam0, cam, v, opts, host, minFrame, maxFrame)
    else cam == cam0
  }


  /** The loop of `process_import` over the new objects: each is given
      `name` and, for a camera import, `handle_camera_operations` then
      runs over all of them, once per object. A scan import only renames.
      The test of `is_camera`, the same on every iteration, is taken out
      of the loop. */
  method RenameNewObjects(doc: Document, objs: seq<ObjId>, name: string, v: Variant, opts: ImportOptions, host: Host)
    requires doc.Valid() && forall o :: o in objs ==> o in doc.nodes
    modifies doc, doc.baseDraw
    ensures doc.Valid()
    ensures doc.baseDraw == old(doc.baseDraw) && doc.log == old(doc.log)
    ensures doc.minFrame == old(doc.minFrame) && doc.maxFrame == old(doc.maxFrame)
    ensures forall o :: o in old(doc.nodes) ==>
      o in doc.nodes && doc.nodes[o].name == if o in objs then name else old(doc.nodes[o].name)
    ensures !opts.isCamera ==>
      && doc.objects == old(doc.objects) && doc.nextId == old(doc.nextId)
      && doc.nodes == RenameAll(old(doc.nodes), Members(objs), name)
      && (doc.baseDraw != null ==> doc.baseDraw.sceneCamera == old(doc.baseDraw.sceneCamera))
    ensures opts.isCamera && objs != [] ==>
      CameraOps(old(Snap(doc)), Snap(doc), Members(objs), {name}, v, opts, host, doc.minFrame, doc.maxFrame)
    ensures opts.isCamera && objs != [] && doc.baseDraw != null ==>
      ViewOps(old(Snap(doc)), Snap(doc), Members(objs), {name}, old(doc.baseDraw.sceneCamera), doc.baseDraw.sceneCamera,
              v, opts, host, doc.minFrame, doc.maxFrame)
    ensures objs == [] ==> Snap(doc) == old(Snap(doc))
    ensures (objs == [] || !v.lookThrough) && doc.baseDraw != null ==>
      doc.baseDraw.sceneCamera == old(doc.baseDraw.sceneCamera)
  {
    if opts.isCamera {
      RenameCameraObjects(doc, objs, name, v, opts, host);
    } else {
      RenameObjects(doc, objs, name);
    }
  }

  /** The loop of `process_import` over a set of new objects, taken in
      some order: the relation of `RenamedOutcome` from the state before. */
  method RenameSet(doc: Document, added: set<ObjId>, name: string, v: Variant, opts: ImportOptions, host: Host)
    requires doc.Valid() && forall o :: o in added ==> o in doc.nodes
    modifies doc, doc.baseDraw
    ensures doc.Valid()
    ensures doc.baseDraw == old(doc.baseDraw) && doc.log == old(doc.log)
    ensures doc.minFrame == old(doc.minFrame) && doc.maxFrame == old(doc.maxFrame)
    ensures (!opts.isCamera || !v.lookThrough) && doc.baseDraw != null ==>
      doc.baseDraw.sceneCamera == old(doc.baseDraw.sceneCamera)
    ensures RenamedOutcome(old(Snap(doc)), Snap(doc), added, name, v, opts, host, doc.minFrame, doc.maxFrame)
    ensures doc.baseDraw != null ==>
      RenamedView(old(Snap(doc)), Snap(doc), added, name, old(doc.baseDraw.sceneCamera), doc.baseDraw.sceneCamera,
                  v, opts, host, doc.minFrame, doc.maxFrame)
  {
    var objs := SeqOfSet(added);
    assert Members(objs) == added;
    RenameNewObjects(doc, objs, name, v, opts, host);
  }

  /** The loop for a scan import: only `SetName`. */
  method RenameObjects(doc: Document, objs: seq<ObjId>, name: string)
    requires doc.Valid() && forall o :: o in objs ==> o in doc.nodes
    modifies doc`nodes
    ensures doc.Valid()
    ensures doc.nodes == RenameAll(old(doc.nodes), Members(objs), name)
  {
    ghost var nodes0 := doc.nodes;
    ghost var done: set<ObjId> := {};
    var i := 0;
    while i < |objs|
      invariant 0 <= i <= |objs|
      invariant doc.Valid() && forall o :: o in doc.nodes <==> o in nodes0
      invariant forall o :: o in done <==> o in objs[..i]
      invariant forall o :: o in nodes0 ==> doc.nodes[o] == if o in done then nodes0[o].(name := name) else nodes0[o]
    {
      assert objs[..i + 1] == objs[..i] + [objs[i]];
      SetName(doc, objs[i], name);
      done := done + {objs[i]};
      i := i + 1;
    }
    assert objs[..i] == objs;
    assert done == Members(objs);
    RenamedPointwise(nodes0, doc.nodes, done, name);
  }

  lemma RenamedPointwise(nodes0: map<ObjId, Node>, nodes: map<ObjId, Node>, renamed: set<ObjId>, name: string)
    requires forall o :: o in nodes <==> o in nodes0
    requires forall o :: o in nodes0 ==> nodes[o] == if o in renamed then nodes0[o].(name := name) else nodes0[o]
    ensures nodes == RenameAll(nodes0, renamed, name)
  {
  }

  /** The loop for a camera import: rename, then the camera operations over all objects. */
  method RenameCameraObjects(doc: Document, objs: seq<ObjId>, name: string, v: Variant, opts: ImportOptions, host: Host)
    requires doc.Valid() && forall o :: o in objs ==> o in doc.nodes
    modifies doc, doc.baseDraw
    ensures doc.Valid()
    ensures doc.baseDraw == old(doc.baseDraw) && doc.log == old(doc.log)
    ensures doc.minFrame == old(doc.minFrame) && doc.maxFrame == old(doc.maxFrame)
    ensures forall o :: o in old(doc.nodes) ==>
      o in doc.nodes && doc.nodes[o].name == if o in objs then name else old(doc.nodes[o].name)
    ensures objs != [] ==>
      CameraOps(old(Snap(doc)), Snap(doc), Members(objs), {name}, v, opts, host, doc.minFrame, doc.maxFrame)
    ensures objs != [] && doc.baseDraw != null ==>
      ViewOps(old(Snap(doc)), Snap(doc), Members(objs), {name}, old(doc.baseDraw.sceneCamera), doc.baseDraw.sceneCamera,
              v, opts, host, doc.minFrame, doc.maxFrame)
    ensures objs == [] ==> Snap(doc) == old(Snap(doc))
    ensures (objs == [] || !v.lookThrough) && doc.baseDraw != null ==>
      doc.baseDraw.sceneCamera == old(doc.baseDraw.sceneCamera)
  {
    if objs == [] {
      return;
    }
    ghost var s0 := Snap(doc);
    ghost var cam0 := if doc.baseDraw != null then doc.baseDraw.sceneCamera else None;
    ghost var all := Members(objs);
    ghost var done: set<ObjId> := {};
    ghost var handled: set<ObjId> := {};
    CameraOpsNone(s0, {name}, v, opts, host, doc.minFrame, doc.maxFrame);
    var i := 0;
    while i < |objs|
      invariant 0 <= i <= |objs|
      invariant doc.Valid() && forall o :: o in objs ==> o in doc.nodes
      invariant doc.baseDraw == old(doc.baseDraw) && doc.log == old(doc.log)
      invariant doc.minFrame == old(doc.minFrame) && doc.maxFrame == old(doc.maxFrame)
      invariant forall o :: o in done <==> o in objs[..i]
      invariant forall o :: o in s0.nodes ==>
        o in doc.nodes && doc.nodes[o].name == if o in done then name else s0.nodes[o].name
      invariant handled <= all && (i > 0 ==> handled == all)
      invariant CameraOps(s0, Snap(doc), handled, {name}, v, opts, host, doc.minFrame, doc.maxFrame)
      invariant doc.baseDraw != null ==>
        ViewOps(s0, Snap(doc), handled, {name}, cam0, doc.baseDraw.sceneCamera, v, opts, host, doc.minFrame, doc.maxFrame)
    {
      ghost var prev := doc.nodes;
      RenameAndHandle(doc, objs, i, name, s0, handled, cam0, v, opts, host);
      NamesStep(s0.nodes, prev, doc.nodes, done, objs[i], name);
      PrefixSetSnoc(objs, i, done);
      done := done + {objs[i]};
      handled := all;
      i := i + 1;
    }
    PrefixSetAll(objs, done);
  }

  /** One more object renamed: the names relation from the start extended to it. */
  lemma NamesStep(nodes0: map<ObjId, Node>, prev: map<ObjId, Node>, cur: map<ObjId, Node>,
                  done: set<ObjId>, x: ObjId, name: string)
    requires forall o :: o in nodes0 ==> o in prev && prev[o].name == if o in done then name else nodes0[o].name
    requires forall o :: o in prev ==> o in cur && cur[o].name == if o == x then name else prev[o].name
    ensures forall o :: o in nodes0 ==> o in cur && cur[o].name == if o in done + {x} then name else nodes0[o].name
  {
  }

  /** The body of that loop for `objs[i]`. */
  method RenameAndHandle(doc: Document, objs: seq<ObjId>, i: nat, name: string, ghost s0: Snapshot,
                         ghost before: set<ObjId>, ghost cam0: Option<ObjId>, v: Variant, opts: ImportOptions, host: Host)
    requires i < |objs| && doc.Valid() && forall o :: o in objs ==> o in doc.nodes
    requires forall o :: o in s0.objects ==> o in s0.nodes && o < s0.nextId
    requires before <= Members(objs)
    requires CameraOps(s0, Snap(doc), before, {name}, v, opts, host, doc.minFrame, doc.maxFrame)
    requires doc.baseDraw != null ==>
      ViewOps(s0, Snap(doc), before, {name}, cam0, doc.baseDraw.sceneCamera, v, opts, host, doc.minFrame, doc.maxFrame)
    modifies doc, doc.baseDraw
    ensures doc.Valid()
    ensures doc.baseDraw == old(doc.baseDraw) && doc.log == old(doc.log)
    ensures doc.minFrame == old(doc.minFrame) && doc.maxFrame == old(doc.maxFrame)
    ensures forall o :: o in old(doc.nodes) ==>
      o in doc.nodes && doc.nodes[o].name == if o == objs[i] then name else old(doc.nodes[o].name)
    ensures CameraOps(s0, Snap(doc), Members(objs), {name}, v, opts, host, doc.minFrame, doc.maxFrame)
    ensures doc.baseDraw != null ==>
      ViewOps(s0, Snap(doc), Members(objs), {name}, cam0, doc.baseDraw.sceneCamera, v, opts, host, doc.minFrame, doc.maxFrame)
  {
    ghost var b := Snap(doc);
    ghost var c1 := if doc.baseDraw != null then doc.baseDraw.sceneCamera else None;
    ghost var all := Members(objs);
    SetName(doc, objs[i], name);
    ghost var renamed := Snap(doc);
    assert renamed == b.(nodes := b.nodes[objs[i] := b.nodes[objs[i]].(name := name)]);
    HandleCameraOperations(doc, objs, v, opts, host);
    ghost var a := Snap(doc);
    RenameThenKeepNames(b.nodes, renamed.nodes, a.nodes, objs[i], name);
    RoundOps(s0, b, renamed, a, objs[i], name, before, all, v, opts, host, doc.minFrame, doc.maxFrame);
    if doc.baseDraw != null {
      RoundView(s0, b, renamed, a, objs[i], name, before, all, cam0, c1, doc.baseDraw.sceneCamera,
                v, opts, host, doc.minFrame, doc.maxFrame);
    }
  }

  /** Renaming `id` and then keeping every name renames just `id`. */
  lemma RenameThenKeepNames(nodes0: map<ObjId, Node>, renamed: map<ObjId, Node>, nodes: map<ObjId, Node>,
                            id: ObjId, name: string)
    requires id in nodes0 && renamed == nodes0[id := nodes0[id].(name := name)]
    requires forall o :: o in renamed ==> o in nodes && nodes[o].name == renamed[o].name
    ensures forall o :: o in nodes0 ==> o in nodes && nodes[o].name == if o == id then name else nodes0[o].name
  {
    forall o | o in nodes0 ensures o in nodes && nodes[o].name == if o == id then name else nodes0[o].name {
      assert o in renamed;
    }
  }

  /** A renaming followed by the camera operations over `all` extends the relation over `all`. */
  lemma {:induction false} RoundOps(s0: Snapshot, b: Snapshot, renamed: Snapshot, a: Snapshot, id: ObjId, name: string,
                                    before: set<ObjId>, all: set<ObjId>, v: Variant, opts: ImportOptions,
                                    host: Host, minFrame: int, maxFrame: int)
    requires forall o :: o in s0.objects ==> o in s0.nodes && o < s0.nextId
    requires forall o :: o in b.objects ==> o in b.nodes
    requires id in b.nodes && before <= all
    requires CameraOps(s0, b, before, {name}, v, opts, host, minFrame, maxFrame)
    requires renamed == b.(nodes := b.nodes[id := b.nodes[id].(name := name)])
    requires CameraOps(renamed, a, all, {}, v, opts, host, minFrame, maxFrame)
    ensures CameraOps(s0, a, all, {name}, v, opts, host, minFrame, maxFrame)
  {
    CameraOpsRename(s0, b, id, name, before, {name}, v, opts, host, minFrame, maxFrame);
    CameraOpsCompose(s0, renamed, a, before, all, {name}, {}, v, opts, host, minFrame, maxFrame);
    UnionOfSubset(before, all, {name});
  }

  /** The same for the viewport's camera. */
  lemma {:induction false} RoundView(s0: Snapshot, b: Snapshot, renamed: Snapshot, a: Snapshot, id: ObjId, name: string,
                                     before: set<ObjId>, all: set<ObjId>, c0: Option<ObjId>, c1: Option<ObjId>,
                                     c2: Option<ObjId>, v: Variant, opts: ImportOptions,
                                     host: Host, minFrame: int, maxFrame: int)
    requires forall o :: o in s0.objects ==> o in s0.nodes && o < s0.nextId
    requires forall o :: o in b.objects ==> o in b.nodes
    requires id in b.nodes && before <= all
    requires CameraOps(s0, b, before, {name}, v, opts, host, minFrame, maxFrame)
    requires ViewOps(s0, b, before, {name}, c0, c1, v, opts, host, minFrame, maxFrame)
    requires renamed == b.(nodes := b.nodes[id := b.nodes[id].(name := name)])
    requires CameraOps(renamed, a, all, {}, v, opts, host, minFrame, maxFrame)
    requires ViewOps(renamed, a, all, {}, c1, c2, v, opts, host, minFrame, maxFrame)
    ensures ViewOps(s0, a, all, {name}, c0, c2, v, opts, host, minFrame, maxFrame)
  {
    CameraOpsRename(s0, b, id, name, before, {name}, v, opts, host, minFrame, maxFrame);
    ViewOpsRename(s0, b, id, name, before, {name}, c0, c1, v, opts, host, minFrame, maxFrame);
    ViewOpsCompose(s0, renamed, a, before, all, {name}, {}, c0, c1, c2, v, opts, host, minFrame, maxFrame);
    UnionOfSubset(before, all, {name});
  }

  /** Adding a subset adds nothing, and neither does adding no names. */
  lemma UnionOfSubset(before: set<ObjId>, all: set<ObjId>, names: set<string>)
    requires before <= all
    ensures before + all == all
    ensures names + {} == names
  {
  }
}
