/** The camera baker: a native camera is created from an Alembic camera
    generator, its properties copied, and its position and rotation
    sampled at every frame of the document's range into six linear
    curves, one per axis of each. The source's world matrix at each
    frame is given as a function of the frame (the host evaluates the
    scene at that time), and whether the host manages to add a key as a
    function of the frame and the curve. */
module CameraBaker {
  import opened Wrappers
  import opened Scene

  datatype BakeError =
    | NotAlembic      // ValueError('Selected object is not an Alembic camera.')
    | MissingProperty // a property path the Alembic object does not have
    | MemoryError     // MemoryError("Failed to create a key")

  /** The Alembic camera's property paths. */
  const FOCAL_LENGTH_PATH: Param := DescPath([1028637, 1057516, 500])
  const SENSOR_SIZE_PATH: Param := DescPath([1028637, 1057516, 7002])
  const FILM_OFFSET_PATH: Param := DescPath([1028637, 1057516, 7012])
  const PROJECTION_PATH: Param := DescPath([1028637, 1057516, 1001])

  /** `set_camera_properties`: focal length and projection copied,
      aperture from the sensor size's x, film offsets from the offset's
      x and y. A path that is missing, or a vector path holding no
      vector, raises. */
  function CameraProperties(src: map<Param, Value>): (r: Result<map<Param, Value>, BakeError>)
    ensures r.Success? <==>
      && FOCAL_LENGTH_PATH in src
      && SENSOR_SIZE_PATH in src && src[SENSOR_SIZE_PATH].VectorValue?
      && FILM_OFFSET_PATH in src && src[FILM_OFFSET_PATH].VectorValue?
      && PROJECTION_PATH in src
    ensures r.Failure? ==> r.error == MissingProperty
    ensures r.Success? ==>
      && r.value.Keys == {CameraFocus, CameraAperture, CameraFilmOffsetX, CameraFilmOffsetY, CameraProjection}
      && r.value[CameraFocus] == src[FOCAL_LENGTH_PATH]
      && r.value[CameraAperture] == RealValue(src[SENSOR_SIZE_PATH].v.x)
      && r.value[CameraFilmOffsetX] == RealValue(src[FILM_OFFSET_PATH].v.x)
      && r.value[CameraFilmOffsetY] == RealValue(src[FILM_OFFSET_PATH].v.y)
      && r.value[CameraProjection] == src[PROJECTION_PATH]
  {
    if FOCAL_LENGTH_PATH !in src then Failure(MissingProperty)
    else if SENSOR_SIZE_PATH !in src || !src[SENSOR_SIZE_PATH].VectorValue? then Failure(MissingProperty)
    else if FILM_OFFSET_PATH !in src || !src[FILM_OFFSET_PATH].VectorValue? then Failure(MissingProperty)
    else if PROJECTION_PATH !in src then Failure(MissingProperty)
    else
      var sensor := src[SENSOR_SIZE_PATH].v;
      var offset := src[FILM_OFFSET_PATH].v;
      Success(map[
        CameraFocus := src[FOCAL_LENGTH_PATH],
        CameraAperture := RealValue(sensor.x),
        CameraFilmOffsetX := RealValue(offset.x),
        CameraFilmOffsetY := RealValue(offset.y),
        CameraProjection := src[PROJECTION_PATH]])
  }

  /** The six tracks: position and rotation, each with components 0, 1, 2 for x, y, z. */
  predicate IsTrack(k: TrackKey) {
    k.component < 3
  }

  /** The position of a track in the order the nested loops visit them:
      position x, y, z, then rotation x, y, z. */
  function TrackIndex(k: TrackKey): nat {
    (if k.channel == Position then 0 else 3) + k.component
  }

  function TrackAt(n: nat): (k: TrackKey)
    requires n < 6
    ensures IsTrack(k) && TrackIndex(k) == n
  {
    if n < 3 then TrackKey(Position, n) else TrackKey(Rotation, n - 3)
  }

  /** The value a track samples from a world matrix: a component of the
      offset, or of the heading/pitch/bank rotation. */
  function Sample(m: Matrix, k: TrackKey): real {
    var v := if k.channel == Position then m.off else m.hpb;
    if k.component == 0 then v.x else if k.component == 1 then v.y else v.z
  }

  /** `CreateKey`: the curve with one more key, or `MemoryError` when the
      host's `AddKey` fails (`added` false), leaving the curve as it was. */
  function CreateKey(curve: Curve, frame: int, value: real, added: bool,
                     interpolation: Interpolation := Linear): (r: Result<Curve, BakeError>)
    ensures r.Success? <==> added
    ensures r.Failure? ==> r.error == MemoryError
    ensures r.Success? ==> |r.value| == |curve| + 1 && r.value[..|curve|] == curve
    ensures r.Success? ==> r.value[|curve|] == Key(frame, value, interpolation)
  {
    if added then Success(curve + [Key(frame, value, interpolation)]) else Failure(MemoryError)
  }

  /** The track map once the key for frame `frame` has been appended to
      the curve of `k`, the curve being created empty first if needed. */
  function AppendKey(t: map<TrackKey, Curve>, k: TrackKey, frame: int, m: Matrix): map<TrackKey, Curve> {
    t[k := (if k in t then t[k] else []) + [Key(frame, Sample(m, k), Linear)]]
  }

  /** The lazy creation of the curve of `k`. */
  function Created(t: map<TrackKey, Curve>, k: TrackKey): map<TrackKey, Curve> {
    if k in t then t else t[k := []]
  }

  /** The track map after the first `n` tracks have had their key for `frame` appended. */
  function StepUpTo(t: map<TrackKey, Curve>, frame: int, m: Matrix, n: nat): map<TrackKey, Curve>
    requires n <= 6
  {
    if n == 0 then t else AppendKey(StepUpTo(t, frame, m, n - 1), TrackAt(n - 1), frame, m)
  }

  /** The curves after frames `start` to `end` have been sampled. */
  function BakedTracks(mg: int -> Matrix, start: int, end: int): map<TrackKey, Curve>
    decreases if end < start then 0 else end - start + 1
  {
    if end < start then map[]
    else StepUpTo(BakedTracks(mg, start, end - 1), end, mg(end), 6)
  }

  /** The host added every key of frames `start` up to `end`, exclusive. */
  ghost predicate AllAddedBefore(addKeyOk: (int, TrackKey) -> bool, start: int, end: int) {
    forall f, k :: start <= f < end && IsTrack(k) ==> addKeyOk(f, k)
  }

  /** The first key the host fails to add is that of track `TrackAt(n)` at frame `f`. */
  ghost predicate FailsFirstAt(addKeyOk: (int, TrackKey) -> bool, start: int, end: int, f: int, n: int) {
    && start <= f <= end && 0 <= n < 6
    && AllAddedBefore(addKeyOk, start, f)
    && (forall k :: IsTrack(k) && TrackIndex(k) < n ==> addKeyOk(f, k))
    && !addKeyOk(f, TrackAt(n))
  }

  /** Appending to the first `n` tracks touches exactly those. */
  lemma {:induction false} StepUpToSpec(t: map<TrackKey, Curve>, frame: int, m: Matrix, n: nat)
    requires n <= 6
    ensures forall k :: k in StepUpTo(t, frame, m, n) <==> k in t || (IsTrack(k) && TrackIndex(k) < n)
    ensures forall k :: IsTrack(k) && TrackIndex(k) < n ==>
      StepUpTo(t, frame, m, n)[k] == (if k in t then t[k] else []) + [Key(frame, Sample(m, k), Linear)]
    ensures forall k :: k in t && !(IsTrack(k) && TrackIndex(k) < n) ==> StepUpTo(t, frame, m, n)[k] == t[k]
  {
    if n > 0 {
      StepUpToSpec(t, frame, m, n - 1);
    }
  }

  /** The curve a whole bake produces for track `k`. */
  function BakedCurve(mg: int -> Matrix, start: int, end: int, k: TrackKey): (c: Curve)
    ensures |c| == if end < start then 0 else end - start + 1
  {
    seq(if end < start then 0 else end - start + 1,
        j requires 0 <= j => Key(start + j, Sample(mg(start + j), k), Linear))
  }

  /** The closed form of a bake: over a non-empty range exactly the six
      tracks, each with one linear key per frame, in frame order, sampled
      from the source's matrix at that frame; over an empty range no track. */
  lemma {:induction false} BakedTracksClosedForm(mg: int -> Matrix, start: int, end: int)
    ensures end < start ==> BakedTracks(mg, start, end) == map[]
    ensures start <= end ==> forall k :: k in BakedTracks(mg, start, end) <==> IsTrack(k)
    ensures start <= end ==> forall k :: IsTrack(k) ==> BakedTracks(mg, start, end)[k] == BakedCurve(mg, start, end, k)
    decreases if end < start then 0 else end - start + 1
  {
    if start <= end {
      var prev := BakedTracks(mg, start, end - 1);
      BakedTracksClosedForm(mg, start, end - 1);
      StepUpToSpec(prev, end, mg(end), 6);
      forall k | IsTrack(k)
        ensures BakedTracks(mg, start, end)[k] == BakedCurve(mg, start, end, k)
      {
        var before := if k in prev then prev[k] else [];
        assert before == BakedCurve(mg, start, end - 1, k);
        assert BakedCurve(mg, start, end, k) == before + [Key(end, Sample(mg(end), k), Linear)];
      }
    }
  }

  /** Each curve of a bake holds `end - start + 1` keys. */
  lemma KeyCount(mg: int -> Matrix, start: int, end: int, k: TrackKey)
    requires start <= end && IsTrack(k)
    ensures k in BakedTracks(mg, start, end)
    ensures |BakedTracks(mg, start, end)[k]| == end - start + 1
  {
    BakedTracksClosedForm(mg, start, end);
  }

  /** Every frame of the range is sampled once and in increasing order:
      key `j` is at frame `start + j`, so key times strictly increase. */
  lemma FramesDenseIncreasing(mg: int -> Matrix, start: int, end: int, k: TrackKey)
    requires start <= end && IsTrack(k)
    ensures k in BakedTracks(mg, start, end)
    ensures |BakedTracks(mg, start, end)[k]| == end - start + 1
    ensures forall j :: 0 <= j < |BakedTracks(mg, start, end)[k]| ==> BakedTracks(mg, start, end)[k][j].frame == start + j
    ensures forall i, j :: 0 <= i < j < |BakedTracks(mg, start, end)[k]| ==>
      BakedTracks(mg, start, end)[k][i].frame < BakedTracks(mg, start, end)[k][j].frame
  {
    BakedTracksClosedForm(mg, start, end);
  }

  /** Key values are the source's offset and rotation components at the
      key's frame, and every key is linear. */
  lemma KeyValues(mg: int -> Matrix, start: int, end: int, k: TrackKey, j: int)
    requires start <= end && IsTrack(k) && 0 <= j <= end - start
    ensures k in BakedTracks(mg, start, end) && j < |BakedTracks(mg, start, end)[k]|
    ensures BakedTracks(mg, start, end)[k][j] == Key(start + j, Sample(mg(start + j), k), Linear)
  {
    BakedTracksClosedForm(mg, start, end);
  }

  /** A source that does not move bakes to flat curves. */
  lemma StillSourceFlatCurves(mg: int -> Matrix, start: int, end: int, k: TrackKey)
    requires start <= end && IsTrack(k)
    requires forall f :: start <= f <= end ==> mg(f) == mg(start)
    ensures k in BakedTracks(mg, start, end)
    ensures forall j :: 0 <= j < |BakedTracks(mg, start, end)[k]| ==>
      BakedTracks(mg, start, end)[k][j].value == Sample(mg(start), k)
  {
    BakedTracksClosedForm(mg, start, end);
    var c := BakedTracks(mg, start, end)[k];
    forall j | 0 <= j < |c| ensures c[j].value == Sample(mg(start), k) {
      assert c[j].value == Sample(mg(start + j), k);
      assert mg(start + j) == mg(start);
    }
  }

  /** A bake over a non-empty range creates exactly six curves, one per track. */
  lemma SixCurves(mg: int -> Matrix, start: int, end: int)
    requires start <= end
    ensures BakedTracks(mg, start, end).Keys == {
      TrackKey(Position, 0), TrackKey(Position, 1), TrackKey(Position, 2),
      TrackKey(Rotation, 0), TrackKey(Rotation, 1), TrackKey(Rotation, 2)}
    ensures |BakedTracks(mg, start, end).Keys| == 6
  {
    BakedTracksClosedForm(mg, start, end);
    var six := {
      TrackKey(Position, 0), TrackKey(Position, 1), TrackKey(Position, 2),
      TrackKey(Rotation, 0), TrackKey(Rotation, 1), TrackKey(Rotation, 2)};
    forall k | k in BakedTracks(mg, start, end) ensures k in six {
      assert IsTrack(k);
      if k.channel == Position {
        assert k == TrackKey(Position, k.component);
      } else {
        assert k == TrackKey(Rotation, k.component);
      }
    }
  }

  /** One pass of the inner `for i, component in enumerate("xyz")` loop,
      for channel `c` (0 position, 1 rotation), continuing a frame that
      began from `start`: each of the channel's three curves is created
      on first use and receives its key, until the host fails to add one. */
  method BakeChannel(ghost start: map<TrackKey, Curve>, tracks: map<TrackKey, Curve>, frame: int, m: Matrix,
                     c: nat, addKeyOk: (int, TrackKey) -> bool)
    returns (result: map<TrackKey, Curve>, failed: Option<nat>)
    requires c < 2 && tracks == StepUpTo(start, frame, m, 3 * c)
    ensures failed.None? <==> forall k :: IsTrack(k) && 3 * c <= TrackIndex(k) < 3 * c + 3 ==> addKeyOk(frame, k)
    ensures failed.None? ==> result == StepUpTo(start, frame, m, 3 * c + 3)
    ensures failed.Some? ==>
      && 3 * c <= failed.value < 3 * c + 3
      && (forall k :: IsTrack(k) && 3 * c <= TrackIndex(k) < failed.value ==> addKeyOk(frame, k))
      && !addKeyOk(frame, TrackAt(failed.value))
      && result == Created(StepUpTo(start, frame, m, failed.value), TrackAt(failed.value))
  {
    result, failed := tracks, None;
    var i := 0;
    while i < 3
      invariant 0 <= i <= 3
      invariant result == StepUpTo(start, frame, m, 3 * c + i)
      invariant forall k :: IsTrack(k) && 3 * c <= TrackIndex(k) < 3 * c + i ==> addKeyOk(frame, k)
    {
      var ok;
      result, ok := BakeTrack(start, result, frame, m, c, i, addKeyOk);
      if !ok {
        return result, Some(3 * c + i);
      }
      assert forall k :: IsTrack(k) && 3 * c <= TrackIndex(k) < 3 * c + i + 1 ==> k == TrackAt(3 * c + i) || TrackIndex(k) < 3 * c + i;
      i := i + 1;
    }
  }

  /** One pass of the inner loop's body: component `i` of channel `c`,
      whose curve is created on first use and receives the key for
      `frame` unless the host fails to add it. */
  method BakeTrack(ghost start: map<TrackKey, Curve>, tracks: map<TrackKey, Curve>, frame: int, m: Matrix,
                   c: nat, i: nat, addKeyOk: (int, TrackKey) -> bool)
    returns (result: map<TrackKey, Curve>, ok: bool)
    requires c < 2 && i < 3 && tracks == StepUpTo(start, frame, m, 3 * c + i)
    ensures ok == addKeyOk(frame, TrackAt(3 * c + i))
    ensures ok ==> result == StepUpTo(start, frame, m, 3 * c + i + 1)
    ensures !ok ==> result == Created(tracks, TrackAt(3 * c + i))
  {
    var channel := if c == 0 then Position else Rotation;
    var value := if c == 0 then m.off else m.hpb;
    var key := TrackKey(channel, i);
    assert key == TrackAt(3 * c + i);
    result := tracks;
    if key !in result {
      result := result[key := []];
    }
    assert result == Created(tracks, key);
    var curve := result[key];
    var component := if i == 0 then value.x else if i == 1 then value.y else value.z;
    assert component == Sample(m, key);
    var created := CreateKey(curve, frame, component, addKeyOk(frame, key));
    if created.Failure? {
      return result, false;
    }
    result := result[key := created.value];
    AppendAfterCreate(tracks, key, frame, m, created.value);
    ok := true;
  }

  /** Creating the curve of `k` and then appending the key to it is appending the key. */
  lemma AppendAfterCreate(t: map<TrackKey, Curve>, k: TrackKey, frame: int, m: Matrix, curve: Curve)
    requires curve == Created(t, k)[k] + [Key(frame, Sample(m, k), Linear)]
    ensures Created(t, k)[k := curve] == AppendKey(t, k, frame, m)
  {
  }

  /** One pass of the outer `for descId, value` loop at `frame`: both
      channels in order. `failed`, when set, is the index of the track
      whose key the host failed to add; its curve exists but holds no key
      for this frame. */
  method BakeFrame(tracks: map<TrackKey, Curve>, frame: int, m: Matrix, addKeyOk: (int, TrackKey) -> bool)
    returns (result: map<TrackKey, Curve>, failed: Option<nat>)
    ensures failed.None? <==> forall k :: IsTrack(k) ==> addKeyOk(frame, k)
    ensures failed.None? ==> result == StepUpTo(tracks, frame, m, 6)
    ensures failed.Some? ==>
      && failed.value < 6
      && (forall k :: IsTrack(k) && TrackIndex(k) < failed.value ==> addKeyOk(frame, k))
      && !addKeyOk(frame, TrackAt(failed.value))
      && result == Created(StepUpTo(tracks, frame, m, failed.value), TrackAt(failed.value))
  {
    result, failed := tracks, None;
    var c := 0;
    while c < 2
      invariant 0 <= c <= 2
      invariant result == StepUpTo(tracks, frame, m, 3 * c) && failed.None?
      invariant forall k :: IsTrack(k) && TrackIndex(k) < 3 * c ==> addKeyOk(frame, k)
    {
      result, failed := BakeChannel(tracks, result, frame, m, c, addKeyOk);
      if failed.Some? {
        assert IsTrack(TrackAt(failed.value));
        return;
      }
      c := c + 1;
    }
    forall k | IsTrack(k) ensures addKeyOk(frame, k) {
      assert TrackIndex(k) < 3 * c;
    }
  }

  /** The `for frame in range(startFrame, endFrame + 1)` loop: the
      document time is set to each frame in turn and the source sampled
      there, until the host fails to add a key; `failure` then names that
      frame and the index of the track. */
  method SampleFrames(doc: Document, mg: int -> Matrix, addKeyOk: (int, TrackKey) -> bool)
    returns (tracks: map<TrackKey, Curve>, world: Matrix, failure: Option<(int, nat)>)
    modifies doc`time
    ensures failure.None? <==> AllAddedBefore(addKeyOk, doc.minFrame, doc.maxFrame + 1)
    ensures failure.None? ==>
      && tracks == BakedTracks(mg, doc.minFrame, doc.maxFrame)
      && world == (if doc.minFrame <= doc.maxFrame then mg(doc.maxFrame) else IdentityMatrix)
    ensures failure.Some? ==>
      var (f, n) := failure.value;
      && FailsFirstAt(addKeyOk, doc.minFrame, doc.maxFrame, f, n)
      && doc.time == f && world == mg(f)
      && tracks == Created(StepUpTo(BakedTracks(mg, doc.minFrame, f - 1), f, mg(f), n), TrackAt(n))
  {
    var start, end := doc.minFrame, doc.maxFrame;
    tracks, world, failure := map[], IdentityMatrix, None;
    var frame := start;
    while frame <= end
      invariant start <= frame && (start <= end ==> frame <= end + 1) && (end < start ==> frame == start)
      invariant tracks == BakedTracks(mg, start, frame - 1)
      invariant world == if start < frame then mg(frame - 1) else IdentityMatrix
      invariant AllAddedBefore(addKeyOk, start, frame)
      decreases end - frame
    {
      doc.time := frame;
      world := mg(frame);
      var failed;
      tracks, failed := BakeFrame(tracks, frame, world, addKeyOk);
      if failed.Some? {
        FailsFirstNotAll(addKeyOk, start, end, frame, failed.value);
        return tracks, world, Some((frame, failed.value));
      }
      AllAddedExtend(addKeyOk, start, frame);
      frame := frame + 1;
    }
  }

  /** A frame whose keys were all added extends the run of such frames by one. */
  lemma AllAddedExtend(addKeyOk: (int, TrackKey) -> bool, start: int, f: int)
    requires AllAddedBefore(addKeyOk, start, f)
    requires forall k :: IsTrack(k) ==> addKeyOk(f, k)
    ensures AllAddedBefore(addKeyOk, start, f + 1)
  {
  }

  /** A first failure inside the range means not every key of the range was added. */
  lemma FailsFirstNotAll(addKeyOk: (int, TrackKey) -> bool, start: int, end: int, f: int, n: nat)
    requires start <= f <= end && n < 6
    requires AllAddedBefore(addKeyOk, start, f)
    requires forall k :: IsTrack(k) && TrackIndex(k) < n ==> addKeyOk(f, k)
    requires !addKeyOk(f, TrackAt(n))
    ensures FailsFirstAt(addKeyOk, start, end, f, n)
    ensures !AllAddedBefore(addKeyOk, start, end + 1)
  {
    assert IsTrack(TrackAt(n));
  }

  /** The camera the bake leaves behind: a native camera with the
      source's name, the copied properties, the last sampled world
      matrix and the baked curves. */
  function BakedCamera(name: string, guid: int, props: map<Param, Value>, world: Matrix,
                       tracks: map<TrackKey, Curve>): Node
  {
    Node(guid, CAMERA_OBJECT, name, None, ModeUndef, ModeUndef, world, props, [], tracks)
  }

  /** `bake_alembic_camera_animation`. A source that is not an Alembic
      generator, or lacks a property, raises before anything changes.
      Otherwise the new camera (with the host-chosen `guid`) goes first
      among the document's objects, every frame of the document's range
      is visited in order with the document time set to it, and the
      original time is restored. When the host fails to add a key the
      bake stops there, at that frame's time, with the curves made so far. */
  method Bake(doc: Document, src: ObjId, guid: int, mg: int -> Matrix, addKeyOk: (int, TrackKey) -> bool)
    returns (r: Result<ObjId, BakeError>)
    requires doc.Valid() && src in doc.nodes
    modifies doc
    ensures doc.Valid()
    ensures old(doc.nodes[src].typeId) != ALEMBIC_GENERATOR <==> r == Failure(NotAlembic)
    ensures old(doc.nodes[src].typeId) != ALEMBIC_GENERATOR ==> unchanged(doc)
    ensures old(doc.nodes[src].typeId) == ALEMBIC_GENERATOR && CameraProperties(old(doc.nodes[src].params)).Failure? <==>
      r == Failure(MissingProperty)
    ensures r == Failure(MissingProperty) ==> unchanged(doc)
    ensures r.Success? <==>
      && old(doc.nodes[src].typeId) == ALEMBIC_GENERATOR
      && CameraProperties(old(doc.nodes[src].params)).Success?
      && AllAddedBefore(addKeyOk, old(doc.minFrame), old(doc.maxFrame) + 1)
    ensures r.Success? || r == Failure(MemoryError) ==>
      && doc.nextId == old(doc.nextId) + 1
      && doc.objects == [old(doc.nextId)] + old(doc.objects)
      && doc.nodes.Keys == old(doc.nodes).Keys + {old(doc.nextId)}
      && (forall o :: o in old(doc.nodes) ==> doc.nodes[o] == old(doc.nodes[o]))
      && doc.minFrame == old(doc.minFrame) && doc.maxFrame == old(doc.maxFrame)
      && doc.baseDraw == old(doc.baseDraw) && doc.log == old(doc.log)
    ensures r.Success? ==>
      && r.value == old(doc.nextId)
      && doc.time == old(doc.time)
      && doc.nodes[r.value] == BakedCamera(old(doc.nodes[src].name), guid,
           CameraProperties(old(doc.nodes[src].params)).value,
           if old(doc.minFrame) <= old(doc.maxFrame) then mg(old(doc.maxFrame)) else IdentityMatrix,
           BakedTracks(mg, old(doc.minFrame), old(doc.maxFrame)))
    ensures r == Failure(MemoryError) ==> exists f, n ::
      && FailsFirstAt(addKeyOk, old(doc.minFrame), old(doc.maxFrame), f, n)
      && doc.time == f
      && doc.nodes[old(doc.nextId)] == BakedCamera(old(doc.nodes[src].name), guid,
           CameraProperties(old(doc.nodes[src].params)).value, mg(f),
           Created(StepUpTo(BakedTracks(mg, old(doc.minFrame), f - 1), f, mg(f), n), TrackAt(n)))
  {
    var source := doc.nodes[src];
    if source.typeId != ALEMBIC_GENERATOR {
      return Failure(NotAlembic);
    }
    var props := CameraProperties(source.params);
    if props.Failure? {
      return Failure(MissingProperty);
    }
    r := BakeProperties(doc, source.name, props.value, guid, mg, addKeyOk);
  }

  /** The part of the bake after the checks: the camera with name `name`
      and properties `props` is inserted, sampled and, when every key was
      added, the document time restored. */
  method BakeProperties(doc: Document, name: string, props: map<Param, Value>, guid: int, mg: int -> Matrix,
                        addKeyOk: (int, TrackKey) -> bool)
    returns (r: Result<ObjId, BakeError>)
    requires doc.Valid()
    modifies doc
    ensures doc.Valid()
    ensures r.Success? <==> AllAddedBefore(addKeyOk, old(doc.minFrame), old(doc.maxFrame) + 1)
    ensures r.Success? || r == Failure(MemoryError)
    ensures && doc.nextId == old(doc.nextId) + 1
            && doc.objects == [old(doc.nextId)] + old(doc.objects)
            && doc.nodes.Keys == old(doc.nodes).Keys + {old(doc.nextId)}
            && (forall o :: o in old(doc.nodes) ==> doc.nodes[o] == old(doc.nodes[o]))
            && doc.minFrame == old(doc.minFrame) && doc.maxFrame == old(doc.maxFrame)
            && doc.baseDraw == old(doc.baseDraw) && doc.log == old(doc.log)
    ensures r.Success? ==>
      && r.value == old(doc.nextId)
      && doc.time == old(doc.time)
      && doc.nodes[r.value] == BakedCamera(name, guid, props,
           if old(doc.minFrame) <= old(doc.maxFrame) then mg(old(doc.maxFrame)) else IdentityMatrix,
           BakedTracks(mg, old(doc.minFrame), old(doc.maxFrame)))
    ensures r == Failure(MemoryError) ==> exists f, n ::
      && FailsFirstAt(addKeyOk, old(doc.minFrame), old(doc.maxFrame), f, n)
      && doc.time == f
      && doc.nodes[old(doc.nextId)] == BakedCamera(name, guid, props, mg(f),
           Created(StepUpTo(BakedTracks(mg, old(doc.minFrame), f - 1), f, mg(f), n), TrackAt(n)))
  {
    var originalTime := doc.time;
    var camera := BakedCamera(name, guid, props, IdentityMatrix, map[]);
    var id := doc.InsertObject(camera);
    var tracks, world, failure := SampleFrames(doc, mg, addKeyOk);
    doc.SetNode(id, camera.(world := world, tracks := tracks));
    if failure.Some? {
      return Failure(MemoryError);
    }
    doc.time := originalTime;
    r := Success(id);
  }
}
