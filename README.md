# Omniscient importer for Cinema 4D, modelled in Dafny

This project models the core of the Omniscient importer plugin for Cinema 4D.
The plugin brings a recording of the Omniscient iOS application into a scene.
The recording is an `.omni` file: a small JSON document that names a video, scan geometry and an Alembic camera. Everything is modelled over an abstract scene:

- **A document** is a list of top-level objects, a table of nodes, an event log and an optional active viewport. A node has a type, a name, a GUID, tags, visibility and parameters.
- **Host calls** the model does not follow itself are appended to the event log in order. These are message dialogs, import scales, project settings, the video background and the lines display mode.

The parts:

- **The two visibility tags.** `SafeFrameTag` keeps its settings as user data. `OmniscientSceneControl` keeps them as tag parameters and links its background object.
  - Both tags share one decision table (`Visibility.Resolve`) and one "viewing through this camera" predicate.
  - Both write the viewport's grid, axis, horizon and safe-frame flags *inverted*: `MODE_OFF` when the element should be visible. The background object gets the non-inverted mode.
- **The camera baker** (`CameraBaker`). It turns an Alembic generator into a native camera:
  - The camera's properties are copied from fixed parameter paths.
  - It samples the source's world matrix at every frame of the document's range, in increasing order, onto six lazily created curves.
  - It restores the document's time.
  - The host's `AddKey` can fail; it is a parameter, and a failure is a `MemoryError`.
- **The two importers.** The current one is `OmniscientImporter/lib/OmniscientImporter.py`; the legacy one is `lib/OmniscientImporter.py`.
  - `import_omni_file` becomes a *plan*: the ordered steps taken for a parsed file and how it ends. The ending is completion, refusal at the version gate, or an exception caught by the outer handler. The plan is then carried out against the document.
  - `process_import`'s checks, merge, GUID-keyed (current) or identity-keyed (legacy) difference, renaming and camera operations are modelled as methods on the document.
  - The camera operations are stated as a relation between document states that composes. The reason: the source calls `handle_camera_operations` inside the per-object loop, so it runs once per new object over all new objects. The model keeps that.
- **The version gate** (`PluginVersion`): `major.minor.patch` parsing, the tuple order and the exception's two-line message.
- **The message mailbox** (`OmniscientMessage`): a singleton store that is set, signalled, read by `CoreMessage` and cleared, plus the dialog's layout and commands.

Python's string and path functions (`strip`, `lower().endswith`, `split`, `join`, `int`, `str`, `os.path.basename`, `dirname` and `join`) live in `Text`. Parsed JSON values and `dict.get` live in `OmniData`. `Wrappers` holds `Option` and `Result`.

## Model

| member | source | states |
|---|---|---|
| Visibility.Resolve | lib/safeFrameTag.py:35-41 | setting 0 gives "viewing through", 1 visible, 2 hidden, 3 "not viewing through"; a missing or unknown setting gives visible |
| Visibility.ResolveDependsOnCamera | lib/safeFrameTag.py:35-41 | the camera matters exactly for settings 0 and 3 |
| Visibility.ResolveHiddenBothWays | lib/safeFrameTag.py:35-41 | an element is hidden whatever the camera exactly when the setting is "Never" |
| Visibility.ResolveComplementary | lib/OmniscientSceneControl.py:12-18 | "through camera" and "only when not through camera" always disagree |
| Visibility.ActiveCamera | lib/safeFrameTag.py:65 | the active camera is the scene camera when there is one, the editor camera otherwise |
| Visibility.ViewingThrough | lib/OmniscientSceneControl.py:36-44 | viewing through implies the host is a camera type and a scene camera is active |
| Visibility.ViewingThroughMeaning | lib/safeFrameTag.py:58-66 | viewing through holds iff the host type is 1028083 or 5103, there is a scene camera, and it is the host or the host's first child |
| Visibility.ObjectMode | lib/safeFrameTag.py:43 | object visibility is `MODE_ON` iff visible, never undefined |
| Visibility.DrawMode | lib/safeFrameTag.py:54 | a viewport flag is `MODE_OFF` iff visible (inverted), never undefined |
| Visibility.DrawModeInvertsObjectMode | lib/OmniscientSceneControl.py:20-29 | the viewport mode is always the opposite of the object mode for the same state |
| Visibility.WithVisibility | lib/safeFrameTag.py:48-49 | editor and render visibility both get the mode; every other field of the node is kept |
| Visibility.Written | lib/safeFrameTag.py:52-53 | the attributes written are exactly the non-`None` entries of the list |
| Visibility.WriteDrawAttributes | lib/safeFrameTag.py:51-54 | the viewport's flags gain the inverted mode for exactly the non-`None` attributes; the others keep their values |
| SafeFrameTag.UserDataTag.AddVisibilityOption | lib/safeFrameTag.py:20-32 | one user-data entry is appended holding the default (0 unless given) |
| SafeFrameTag.UserDataTag.Init | lib/safeFrameTag.py:13-18 | returns true; appends background 0, safe frame 0, grid 3 in that order |
| SafeFrameTag.UserDataTag.UserData | lib/safeFrameTag.py:69-71 | user data id k (from 1) is present iff 1 <= k <= number of entries, and then it is the k-th entry |
| SafeFrameTag.NewTagDefaults | lib/safeFrameTag.py:13-32 | a freshly initialised tag reads 0, 0, 3 at ids 1, 2, 3 and has no id 4 |
| SafeFrameTag.ApplyVisibilitySetting | lib/safeFrameTag.py:34-54 | with a non-empty search name, only the first object of that name (if any) gets the resolved object mode and the viewport is untouched; otherwise only the listed viewport flags get the inverted mode |
| SafeFrameTag.Execute | lib/safeFrameTag.py:56-100 | always true. Without a viewport nothing changes. Otherwise the grid, axis and horizon flags get the inverted mode of setting 3, and the safe-frame flag that of setting 2. The first `Omni_Background` object, if any, gets the mode of setting 1. The scene camera is kept |
| Scene.ControlTag.constructor | OmniscientImporter/lib/OmniscientImporter.py:106 | a new control tag starts with background and safe frame "through camera", grid "only when not through camera", and no link |
| Scene.ControlTag.Init | lib/OmniscientSceneControl.py:5-9 | returns true; sets the three defaults and keeps the link |
| SceneControl.ApplyVisibilitySetting | lib/OmniscientSceneControl.py:11-29 | a given object gets the resolved mode on editor and render visibility with the viewport untouched; without one, only the listed viewport flags get the inverted mode |
| SceneControl.LinkedBackground | lib/OmniscientSceneControl.py:60-61 | the background acted on is the tag's link when the link is set and names a node the document still holds, listed among the top-level objects or not; else none |
| SceneControl.Execute | lib/OmniscientSceneControl.py:31-80 | false iff there is no tag, then nothing changes. Without a viewport nothing changes. Otherwise the grid, axis and horizon flags and the safe-frame flag get their settings' inverted modes. Only a linked background gets the background setting's mode |
| Scene.FindByName | OmniscientImporter/lib/OmniscientImporter.py:111 | `SearchObject`: none iff no object bears the name, else the first in document order that does |
| Scene.FindByNameSameNames | OmniscientImporter/lib/OmniscientImporter.py:111 | the search depends only on the objects' names |
| Scene.Without | OmniscientImporter/lib/OmniscientImporter.py:91 | `obj.Remove()`: the list keeps every object but the removed one and stays free of duplicates |
| Scene.IdRange | OmniscientImporter/lib/OmniscientImporter.py:54 | the identities a merge hands out are n consecutive fresh numbers, in order |
| Scene.WithNodes | OmniscientImporter/lib/OmniscientImporter.py:54 | the merged nodes are stored at consecutive fresh identities, all other nodes kept |
| Scene.Document.SearchObject | lib/safeFrameTag.py:46 | a found object is a top-level object bearing the name |
| Scene.Document.AddEvent | OmniscientImporter/lib/OmniscientImporter.py:34 | a host call is appended to the log |
| Scene.Document.InsertObject | lib/cameraBaker.py:45 | the new object goes first among the top-level objects under a fresh identity; nothing else changes |
| Scene.Document.Remove | OmniscientImporter/lib/OmniscientImporter.py:91 | the object leaves the top-level list, which stays free of duplicates; the node table is unchanged |
| Scene.Document.SetNode | OmniscientImporter/lib/OmniscientImporter.py:61 | exactly one node is replaced |
| Scene.Document.Merge | OmniscientImporter/lib/OmniscientImporter.py:54 | `MergeDocument` succeeds iff the path holds a scene file; then its objects are appended under fresh identities, otherwise nothing changes |
| CameraBaker.CameraProperties | lib/cameraBaker.py:15-32 | succeeds iff all four parameter paths are present with vector sensor size and film offset; then focus, aperture (sensor x), film offsets x and y and projection are copied, and nothing else is set |
| CameraBaker.TrackAt | lib/cameraBaker.py:56-62 | the n-th track visited (position x, y, z, then rotation x, y, z) |
| CameraBaker.CreateKey | lib/cameraBaker.py:3-13 | `MemoryError` iff the host adds no key; otherwise the curve gains exactly one key at its end, with the frame, value and interpolation given |
| CameraBaker.StepUpToSpec | lib/cameraBaker.py:56-68 | one frame's pass over the first n tracks creates their curves when missing, appends one key to each and leaves every other curve alone |
| CameraBaker.StepUpTo | lib/cameraBaker.py:56-68 | a frame's pass over the first n tracks: a definition, stated by `StepUpToSpec` |
| CameraBaker.BakedCurve | lib/cameraBaker.py:51-68 | a baked curve holds one key per frame of the range |
| CameraBaker.BakedTracksClosedForm | lib/cameraBaker.py:50-68 | an empty range bakes no curve; otherwise exactly the six tracks exist, each equal to its closed-form curve |
| CameraBaker.BakedTracks | lib/cameraBaker.py:50-68 | the curves after the frame loop: a definition. `BakedTracksClosedForm`, `KeyCount`, `FramesDenseIncreasing` and `KeyValues` state them |
| CameraBaker.KeyCount | lib/cameraBaker.py:51-68 | each curve ends with end - start + 1 keys |
| CameraBaker.FramesDenseIncreasing | lib/cameraBaker.py:48-53 | the j-th key of every curve is at frame start + j, so frames are dense and strictly increasing |
| CameraBaker.KeyValues | lib/cameraBaker.py:56-68 | the key at frame f holds the source's matrix offset or HPB component at f, with linear interpolation |
| CameraBaker.Sample | lib/cameraBaker.py:56-57 | the offset or heading/pitch/bank component a track samples, held by the keys as `KeyValues` states |
| CameraBaker.StillSourceFlatCurves | lib/cameraBaker.py:51-68 | a source that does not move bakes to flat curves |
| CameraBaker.SixCurves | lib/cameraBaker.py:58-67 | a non-empty range creates exactly six curves, keyed by (channel, component) |
| CameraBaker.BakeChannel | lib/cameraBaker.py:58-68 | one channel's three components: all keys added iff the host accepts all three, else it stops at the first refused one having created its curve |
| CameraBaker.BakeTrack | lib/cameraBaker.py:59-68 | one component: the curve is created on first use and the key appended iff the host accepts it |
| CameraBaker.BakeFrame | lib/cameraBaker.py:56-68 | one frame: all six keys added iff the host accepts them, else it stops at the first refusal |
| CameraBaker.SampleFrames | lib/cameraBaker.py:48-68 | the frame loop sets the time to each frame in turn. With all keys accepted, the curves are the full bake and the world matrix is the last frame's. Otherwise it stops at the first refused key, with that frame's time |
| CameraBaker.Bake | lib/cameraBaker.py:34-76 | a non-Alembic source or a missing property fails before any change. Success iff every key is added: the new camera carries the source's name, the copied properties and the six curves, goes first among the objects, and the time is restored. On `MemoryError` the camera stays, partly baked, at the first refused key |
| CameraBaker.BakeProperties | lib/cameraBaker.py:38-76 | the same, once the checks have passed |
| CameraBaker.BakedCamera | lib/cameraBaker.py:40-45 | the camera the bake leaves: a native camera with the source's name, the copied properties, the last world matrix and the curves. `Bake`'s ensures state where it goes |
| ImportCommon.DialogTextInjective | OmniscientImporter/lib/OmniscientImporter.py:32-43 | different dialogs show different words: the text gives back the kind and the file name |
| ImportCommon.DialogText | OmniscientImporter/lib/OmniscientImporter.py:32-43 | the words of each dialog: a definition, which `DialogTextInjective` shows tells every two dialogs apart |
| ImportCommon.SeqOfSet | OmniscientImporter/lib/OmniscientImporter.py:57-58 | iterating a set visits each element exactly once, in an unknown order |
| ImportCommon.RenameAll | OmniscientImporter/lib/OmniscientImporter.py:60-61 | exactly the named objects get the name; nodes are otherwise unchanged |
| ImportCommon.SetName | OmniscientImporter/lib/OmniscientImporter.py:61 | only the object's name changes |
| ImportCommon.InsertControlTag | OmniscientImporter/lib/OmniscientImporter.py:105-113 | a fresh control tag with the default settings goes in front of the camera's tags, linked to the first `Background_Omni` object, or unlinked when there is none |
| ImportCommon.AssignControlTag | OmniscientImporter/lib/OmniscientImporter.py:103-113 | each listed camera gets one fresh, default, background-linked tag in front per time it is listed; unlisted objects and all other fields are unchanged |
| ImportCommon.TagsSoFar | OmniscientImporter/lib/OmniscientImporter.py:105-113 | the loop invariant of `AssignControlTag`: one new tag in front per time a camera was listed so far, each among the tags created |
| ImportCommon.PrependStep | OmniscientImporter/lib/OmniscientImporter.py:105-107 | one more tag in front of the next camera keeps `TagsSoFar` over one more listed camera |
| ImportCommon.AssignNext | OmniscientImporter/lib/OmniscientImporter.py:105-113 | one iteration: `TagsSoFar` extends by the next camera; the only new tag is fresh, has the defaults and is linked to the background; the background search is unaffected |
| ImportCommon.AdjustedParams | OmniscientImporter/lib/OmniscientImporter.py:116-125 | the offset becomes the given number of frames; the speed becomes video/camera fps when both are given and is kept otherwise; no other parameter changes |
| ImportCommon.AdjustedIdempotent | OmniscientImporter/lib/OmniscientImporter.py:116-125 | adjusting twice is adjusting once, so the repeated camera operations do not compound |
| ImportCommon.AdjustedKeepsCameraProperties | lib/cameraBaker.py:15-32 | the adjustment leaves the properties the bake copies unchanged |
| ImportCommon.Adjusted | OmniscientImporter/lib/OmniscientImporter.py:116-125 | the node with its parameters adjusted, as `AdjustedParams` states, once only by `AdjustedIdempotent` |
| ImportCommon.AdjustAlembicCameraSettings | OmniscientImporter/lib/OmniscientImporter.py:116-125 | only an Alembic generator is adjusted; any other object is left alone |
| ImportCommon.LookThrough | OmniscientImporter/lib/OmniscientImporter.py:148-157 | the active viewport, if any, looks through the camera; its flags are kept |
| ImportCommon.TagAndReplace | OmniscientImporter/lib/OmniscientImporter.py:83-91 | the baked camera gets one new linked tag in front, the viewport looks through it when asked, and the Alembic object leaves the object list |
| ImportCommon.BakeWorks | lib/cameraBaker.py:34-76 | whether a bake ends with a camera: the properties are present and the host adds every key. `ReplaceWithBakedCamera` and `CameraStep` tie it to the bake |
| ImportCommon.BakedFrom | lib/cameraBaker.py:40-72 | the camera a working bake leaves at a given identity, as `ReplaceWithBakedCamera` states |
| ImportCommon.PartialBake | lib/cameraBaker.py:40-68 | the camera a raising bake leaves: a native camera named after the generator, with the copied properties and no tag, as `ReplaceWithBakedCamera` states |
| ImportCommon.StoppedBakeIsPartial | lib/cameraBaker.py:40-68 | a bake that stopped at the first key the host failed to add has left such a partial bake, named after the generator |
| ImportCommon.ReplaceWithBakedCamera | OmniscientImporter/lib/OmniscientImporter.py:77-93 | when the bake works, the Alembic object is replaced, at the front of the list, by the baked camera, tagged and, when asked, looked through, with the time restored. A bake that raises is swallowed: every object stays and the viewport is unchanged |
| ImportCommon.Section | OmniscientImporter/lib/OmniscientImporter.py:177 | a file without `data` reads an empty section; only a dict can be read |
| ImportCommon.MinimumVersion | OmniscientImporter/lib/OmniscientImporter.py:167 | without a `cinema4d` section the minimum is "0.0.0" |
| ImportCommon.VersionGate | OmniscientImporter/lib/OmniscientImporter.py:168-174 | no exception iff the minimum is a string parsing as a version; it refuses iff `check_plugin_version` raises, with the exception's message and update link |
| ImportCommon.OptionalFps | OmniscientImporter/lib/OmniscientImporter.py:177-178 | the fps is read only when the key is present, else it is none |
| ImportCommon.ProjectSettingsOf | OmniscientImporter/lib/OmniscientImporter.py:181-187 | a successful read gives project settings |
| ImportCommon.ProjectSettingsDefaults | OmniscientImporter/lib/OmniscientImporter.py:182-184 | without a video section the project is 1920 by 1080 at 30 fps |
| ImportCommon.VideoPath | OmniscientImporter/lib/OmniscientImporter.py:190 | the video path is a relative path joined to the `.omni` file's directory |
| ImportCommon.GeometryPaths | OmniscientImporter/lib/OmniscientImporter.py:200 | without a geometry section the list is empty |
| ImportCommon.CameraAction | OmniscientImporter/lib/OmniscientImporter.py:210-219 | at most one import: "Camera_Omni", as a camera, baked, with both frame rates |
| ImportCommon.Gate | OmniscientImporter/lib/OmniscientImporter.py:167-170 | a parsed file that is no dict raises `AttributeError` at the gate |
| ImportCommon.DefaultMinimumPasses | OmniscientImporter/lib/OmniscientImporter.py:167 | a file without a `cinema4d` section passes the gate |
| ImportCommon.GateRefuses | OmniscientImporter/lib/OmniscientImporter.py:167-174 | refused iff the minimum is a well-formed version above 1.0.1, with the exception's message and the update link |
| ImportCommon.FrameRates | OmniscientImporter/lib/OmniscientImporter.py:177-178 | video then camera fps, each read as above |
| CameraOperations.Prepared | OmniscientImporter/lib/OmniscientImporter.py:74 | the current importer always adjusts an Alembic generator; the legacy one only when both frame rates are given; only parameters change, and not the copied properties |
| CameraOperations.CameraStep | OmniscientImporter/lib/OmniscientImporter.py:70-99 | one iteration as a relation: only the handled node changes, names kept; a working bake puts its tagged camera at the front and drops the generator; a raising one may leave a partial camera; without baking the generator is tagged. `HandleCamera` ensures it |
| CameraOperations.NodeOps | OmniscientImporter/lib/OmniscientImporter.py:70-99 | what the calls make of one node: a handled generator adjusted once and, without baking, with tags in front; any other node kept but for its name. `NodeOpsCompose` and `NodeOpsKeeps` state its laws |
| CameraOperations.CameraOps | OmniscientImporter/lib/OmniscientImporter.py:60-101 | the relation of any number of calls interleaved with renamings to a set of names, as `HandleCameraOperations` states it: every node keeps its name or bears one of those names, and every new camera is named after the generator it was baked from, by its first name or one of those names. `CameraStepOps`, `CameraOpsCompose` and `CameraOpsRename` build it up |
| CameraOperations.NamedAfter | lib/cameraBaker.py:41 | a node bears the name another had, or one of the names given: a definition, used by `CameraOps` and kept by `ReplacementRenamed` and `CameraOpsSameButName` |
| CameraOperations.ViewOps | OmniscientImporter/lib/OmniscientImporter.py:84-99 | what the calls make of the viewport camera: in the current importer, after a generator has been looked through, a tagged baked camera that replaced one, or a tagged generator; otherwise unchanged. `ViewStepOps` and `ViewOpsCompose` build it up |
| CameraOperations.StepCamera | OmniscientImporter/lib/OmniscientImporter.py:84-99 | the viewport camera after one iteration: in the current importer, the tagged generator itself, or the camera baked from it when the bake works; otherwise the one before. `ViewStepOps` relates it to `ViewOps` |
| CameraOperations.PreparedStable | lib/OmniscientImporter.py:56-60 | preparing an already prepared node changes nothing more |
| CameraOperations.CameraOpsNone | OmniscientImporter/lib/OmniscientImporter.py:68-70 | no object handled, nothing changed |
| CameraOperations.CameraStepOps | OmniscientImporter/lib/OmniscientImporter.py:70-99 | one iteration, whether it tags the generator, bakes it or has its bake raise, is the camera-operations relation over its one object |
| CameraOperations.BakeWorksStepOps | OmniscientImporter/lib/OmniscientImporter.py:77-91 | an iteration whose bake works is the relation over its object |
| CameraOperations.BakeFailsStepOps | OmniscientImporter/lib/OmniscientImporter.py:77-93 | an iteration whose bake raises is the relation over its object: any camera left is a partial bake |
| CameraOperations.BakeStepCamera | OmniscientImporter/lib/OmniscientImporter.py:80-87 | the camera a working bake inserts is a top-level object, the tagged bake of the generator, and so a replacement camera |
| CameraOperations.BakedFromPrepared | OmniscientImporter/lib/OmniscientImporter.py:74-80 | the bake reads only what adjusting keeps: properties, success, the baked camera and a partial bake are the same from the adjusted generator |
| CameraOperations.ViewStepOps | OmniscientImporter/lib/OmniscientImporter.py:84-99 | one iteration moves the viewport as `ViewOps` over its one object says |
| CameraOperations.TaggedTwice | OmniscientImporter/lib/OmniscientImporter.py:94-96 | being tagged on two calls is again a tagging: only name and tags differ, more tags, the earlier ones kept at the end |
| CameraOperations.NodeOpsCompose | OmniscientImporter/lib/OmniscientImporter.py:60-63 | per node, two rounds of camera operations are one round over both sets of objects, and replacement does not depend on the round |
| CameraOperations.NodeOpsKeeps | OmniscientImporter/lib/OmniscientImporter.py:70-99 | per node, the calls keep the type and everything a bake reads, so replacement and the baked camera do not depend on earlier calls |
| CameraOperations.NewCameraIsCamera | lib/cameraBaker.py:40 | every camera the calls make is a native camera, which no later call handles |
| CameraOperations.ReplacementRenamed | OmniscientImporter/lib/OmniscientImporter.py:60-61 | a replacement camera stays one when renamed to one of the names allowed, and when more objects count as handled |
| CameraOperations.NewCameraRenamed | OmniscientImporter/lib/OmniscientImporter.py:60-61 | the same for any camera the calls made, a partial bake included |
| CameraOperations.GeneratorBack | OmniscientImporter/lib/OmniscientImporter.py:68-101 | a generator after some calls was a generator before them: the calls make only cameras |
| CameraOperations.ReplacementBack | OmniscientImporter/lib/OmniscientImporter.py:60-63 | a camera a later round baked is one baked over both rounds from the start |
| CameraOperations.NewCameraBack | OmniscientImporter/lib/OmniscientImporter.py:60-63 | the same for any camera a later round made |
| CameraOperations.CameraOpsCompose | OmniscientImporter/lib/OmniscientImporter.py:60-63 | calls over one set of objects and then another are calls over their union |
| CameraOperations.ComposeNewObjects | OmniscientImporter/lib/OmniscientImporter.py:60-63 | over two rounds, every object that appears is a camera from one of them |
| CameraOperations.ComposeNewNodes | OmniscientImporter/lib/OmniscientImporter.py:60-63 | over two rounds, every node that appears is a top-level object |
| CameraOperations.ComposeReplaced | OmniscientImporter/lib/OmniscientImporter.py:60-63 | over two rounds, every generator replaced has left its tagged baked camera, named after it |
| CameraOperations.LeftCameraForward | OmniscientImporter/lib/OmniscientImporter.py:60-63 | a tagged camera an earlier round left stays, tagged and named after its generator, through a later round |
| CameraOperations.LeftCameraBack | lib/cameraBaker.py:41 | a camera baked from a renamed generator is one baked from the generator as it was, with the new name among those allowed |
| CameraOperations.LooksThroughCompose | OmniscientImporter/lib/OmniscientImporter.py:60-63 | over two rounds, some generator is looked through iff one is in either round |
| CameraOperations.TargetBack | OmniscientImporter/lib/OmniscientImporter.py:60-63 | a camera the later round looks through is one the two rounds together look through |
| CameraOperations.TargetForward | OmniscientImporter/lib/OmniscientImporter.py:60-63 | a camera the earlier round looks through stays one after the later round |
| CameraOperations.ViewOpsCompose | OmniscientImporter/lib/OmniscientImporter.py:60-63 | the viewport relation composes like the camera operations |
| CameraOperations.CameraOpsRename | OmniscientImporter/lib/OmniscientImporter.py:60-61 | renaming an object to one of the names allowed keeps the relation |
| CameraOperations.CameraOpsSameButName | OmniscientImporter/lib/OmniscientImporter.py:60-61 | a state that differs only in names, each kept or one of a larger set of names allowed, keeps the relation for that set |
| CameraOperations.LeftCameraRenamed | OmniscientImporter/lib/OmniscientImporter.py:60-61 | a tagged camera left by a bake stays one when objects are renamed to names allowed |
| CameraOperations.ViewOpsRename | OmniscientImporter/lib/OmniscientImporter.py:60-61 | renaming an object to one of the names allowed keeps the viewport relation |
| CameraOperations.BakeBranch | OmniscientImporter/lib/OmniscientImporter.py:77-93 | with baking, the generator is prepared and then baked, tagged, looked through (current importer) and removed; a raising bake leaves it |
| CameraOperations.BakeStepOps | OmniscientImporter/lib/OmniscientImporter.py:77-93 | preparing and then the bake's effect make one iteration |
| CameraOperations.TagBranch | OmniscientImporter/lib/OmniscientImporter.py:94-99 | without baking, the prepared generator itself gets one new linked tag and is looked through in the current importer |
| CameraOperations.Prepare | lib/OmniscientImporter.py:59-60 | exactly the generator's node is prepared; the background search is unaffected |
| CameraOperations.TagAndLookThrough | OmniscientImporter/lib/OmniscientImporter.py:96-99 | a new linked tag in front of the object's tags; the viewport looks through it when asked |
| CameraOperations.TagStepOps | OmniscientImporter/lib/OmniscientImporter.py:94-99 | tagging the prepared generator in place is one iteration |
| CameraOperations.HandleCamera | OmniscientImporter/lib/OmniscientImporter.py:70-99 | one iteration, the relation `CameraStep`: only a type-1028083 object is touched. It is adjusted, then baked into a tagged camera that replaces it at the front of the list, or, without baking, tagged itself; a bake that raises leaves it. In the current importer the viewport then looks through the tagged camera (`StepCamera`); otherwise its camera is kept |
| CameraOperations.HandleCameraOperations | OmniscientImporter/lib/OmniscientImporter.py:68-101 | over the list, the relation `CameraOps` with no names allowed: every node keeps its name and every new camera bears its generator's name; each listed generator adjusted and, without baking, tagged; a listed object stays iff its bake did not work; every new object is a tagged replacement camera or a partial bake of a listed generator; every replaced generator has left a tagged camera baked from it. And `ViewOps`: in the current importer, once a generator has been looked through, the viewport looks through such a camera or tagged generator; otherwise, and always in the legacy importer, its camera is kept |
| CameraOperations.HandleNext | OmniscientImporter/lib/OmniscientImporter.py:70-99 | the relation and the viewport relation from the start extend by one object |
| CameraOperations.RenameNewObjects | OmniscientImporter/lib/OmniscientImporter.py:60-64 | every new object gets the default name. A scan import changes nothing else. A camera import runs the camera operations over all new objects, on each pass, and moves the viewport as `ViewOps` says; with no new objects, or in the legacy importer, the viewport camera is kept |
| CameraOperations.RenameSet | OmniscientImporter/lib/OmniscientImporter.py:56-63 | the same over the set of new objects, taken in any order: `RenamedOutcome` for the scene and `RenamedView` for the viewport |
| CameraOperations.RenamedOutcome | OmniscientImporter/lib/OmniscientImporter.py:56-63 | what the renaming loop makes of the scene: the new objects carry the name; a scan import changes nothing else; a camera import is `CameraOps` over them with that one name allowed, so every baked or partial camera bears its generator's merged name or the default name. `RenameSet` ensures it |
| CameraOperations.RenamedView | OmniscientImporter/lib/OmniscientImporter.py:56-63 | what it makes of the viewport camera: `ViewOps` over the new objects for a camera import, else unchanged. `RenameSet` ensures it |
| CameraOperations.RenameObjects | OmniscientImporter/lib/OmniscientImporter.py:60-61 | the scan loop only renames |
| CameraOperations.RenameCameraObjects | lib/OmniscientImporter.py:44-47 | the camera loop renames each object and runs the camera operations, viewport included, over all objects after each renaming; every baked or partial camera bears its generator's merged name or the default name |
| CameraOperations.RenameAndHandle | OmniscientImporter/lib/OmniscientImporter.py:60-63 | one pass: one object renamed, then the relation and the viewport relation over all objects, with the default name the one name allowed |
| CameraOperations.RoundOps | OmniscientImporter/lib/OmniscientImporter.py:60-63 | a renaming followed by a round over all objects extends the relation, with the default name the one name allowed |
| CameraOperations.RoundView | OmniscientImporter/lib/OmniscientImporter.py:60-63 | the same for the viewport relation |
| OmniscientImporter.ObjectDictKeys | OmniscientImporter/lib/OmniscientImporter.py:18-19 | the dictionary's keys are exactly the objects' GUIDs |
| OmniscientImporter.ObjectDictLast | OmniscientImporter/lib/OmniscientImporter.py:18-19 | each GUID maps to the last object bearing it |
| OmniscientImporter.HasGuidLast | OmniscientImporter/lib/OmniscientImporter.py:18-19 | a GUID that occurs has a last object |
| OmniscientImporter.ObjectDict | OmniscientImporter/lib/OmniscientImporter.py:18-19 | `get_object_dict`: a definition, whose keys and values `ObjectDictKeys` and `ObjectDictLast` state |
| OmniscientImporter.NewObjectSet | OmniscientImporter/lib/OmniscientImporter.py:57-58 | the new objects by GUID: a definition, stated by `NewObjectsMeaning` and `SharedGuidNotNew` |
| OmniscientImporter.NewByGuid | OmniscientImporter/lib/OmniscientImporter.py:53-58 | the same between two states, stated by `FreshGuidsAllNew`, `MergedIsNew` and `NewIsMerged` |
| OmniscientImporter.NewObjectsMeaning | OmniscientImporter/lib/OmniscientImporter.py:53-58 | an object is new iff it is the last of its GUID after the merge and no object before had that GUID |
| OmniscientImporter.SharedGuidNotNew | OmniscientImporter/lib/OmniscientImporter.py:57 | an object sharing its GUID with an object present before the merge is never new |
| OmniscientImporter.ObjectDictSameGuids | OmniscientImporter/lib/OmniscientImporter.py:18-19 | the dictionary reads only GUIDs |
| OmniscientImporter.AfterMergeShape | OmniscientImporter/lib/OmniscientImporter.py:54 | the merge keeps the objects before it and appends the merged ones at fresh consecutive identities |
| OmniscientImporter.FreshGuidsAllNew | OmniscientImporter/lib/OmniscientImporter.py:53-58 | with GUIDs distinct among themselves and from the existing ones, the new objects are exactly the merged ones |
| OmniscientImporter.MergeKeepsDict | OmniscientImporter/lib/OmniscientImporter.py:53-56 | the dictionary taken before the merge is unchanged by it |
| OmniscientImporter.MergedIsNew | OmniscientImporter/lib/OmniscientImporter.py:57-58 | under fresh distinct GUIDs each merged object is new |
| OmniscientImporter.NewIsMerged | OmniscientImporter/lib/OmniscientImporter.py:57-58 | only merged objects can be new |
| OmniscientImporter.MergedIsLast | OmniscientImporter/lib/OmniscientImporter.py:56 | a merged object with a unique GUID is the last of its GUID |
| OmniscientImporter.ProcessImport | OmniscientImporter/lib/OmniscientImporter.py:21-66 | a non-`.abc` camera path gives the camera-format dialog; a missing file gives the scan or file-missing dialog. Neither touches the objects. Otherwise both scales are set, then the merge. After a successful merge, the objects new by GUID are renamed, with the camera operations for a camera: each Alembic generator whose bake works is replaced by its tagged baked camera, which bears the generator's merged name or the default name (`RenamedOutcome`), and the viewport looks through that camera or the tagged generator (`RenamedView`) |
| OmniscientImporter.MissingFileDialog | OmniscientImporter/lib/OmniscientImporter.py:40-43 | the scan dialog for an `.obj` path, else the file dialog, both naming the base name: a definition, shown by `ProcessImport` |
| OmniscientImporter.MergeAndRename | OmniscientImporter/lib/OmniscientImporter.py:48-66 | scales first; a failed merge changes no object; after a merge, the renaming and camera pass of `ProcessImport`, viewport included |
| OmniscientImporter.NewObjectsInNodes | OmniscientImporter/lib/OmniscientImporter.py:58 | each new object is an object of the document |
| OmniscientImporter.ScanImports | OmniscientImporter/lib/OmniscientImporter.py:200-207 | no exception iff every entry is a string; a non-string raises `AttributeError` at `strip` |
| OmniscientImporter.ScanImportsContents | OmniscientImporter/lib/OmniscientImporter.py:203-207 | a scan "Scan_Omni" is imported for exactly the non-blank entries, joined to the file's directory |
| OmniscientImporter.ScanImportsPrefix | OmniscientImporter/lib/OmniscientImporter.py:202-207 | scans come in list order |
| OmniscientImporter.ScanImportsStops | OmniscientImporter/lib/OmniscientImporter.py:202-203 | the first non-string ends the loop after the scans of the entries before it |
| OmniscientImporter.GeometryActions | OmniscientImporter/lib/OmniscientImporter.py:199-207 | the geometry step: a definition, stated by `ScanActionsAreScans` and `PartialScansAreImports` |
| OmniscientImporter.VideoAction | OmniscientImporter/lib/OmniscientImporter.py:190-197 | the background when the video exists, else the video-missing dialog: a definition, placed second by `ImportPlanOrder` |
| OmniscientImporter.Body | OmniscientImporter/lib/OmniscientImporter.py:176-221 | the body after the gate: a definition, stated by `BodyLines` and `BareBody` |
| OmniscientImporter.Steps | OmniscientImporter/lib/OmniscientImporter.py:186-221 | the four stages in order: a definition, stated by `StepsLines` |
| OmniscientImporter.ImportPlan | OmniscientImporter/lib/OmniscientImporter.py:166-224 | the plan of a parsed file: a definition, stated by `ImportPlanRefused`, `ImportPlanOrder`, `LinesOnlyWhenCompleted` and `BareFilePlan` |
| OmniscientImporter.PlanOf | OmniscientImporter/lib/OmniscientImporter.py:166-224 | the plan from the gate and frame-rate results: a definition, stated by `CompletedPieces`, `PlanOfOrder`, `PlanOfLines` and `PlanOfCompleted` |
| OmniscientImporter.ImportFilePlan | OmniscientImporter/lib/OmniscientImporter.py:159-224 | the plan from a path: a definition, carried out by `ImportOmniFile` and stated by `RefusedFilePlanEmpty` |
| OmniscientImporter.PlanEvents | OmniscientImporter/lib/OmniscientImporter.py:186-221 | the host calls of the steps, in order: a definition, which `RunActions` and `Execute` ensure |
| OmniscientImporter.ImportPlanRefused | OmniscientImporter/lib/OmniscientImporter.py:166-174 | refused iff the minimum is a well-formed version above 1.0.1; then nothing is done, with the exception's message and link |
| OmniscientImporter.CompletedPieces | OmniscientImporter/lib/OmniscientImporter.py:176-221 | a completed import is: project settings, video, scans, camera, lines |
| OmniscientImporter.ImportPlanOrder | OmniscientImporter/lib/OmniscientImporter.py:181-221 | settings come first, the video step second and lines last; between them come scans, then at most one camera import |
| OmniscientImporter.PlanOfOrder | OmniscientImporter/lib/OmniscientImporter.py:181-221 | the same for any gate and frame-rate results |
| OmniscientImporter.ScanActionsAreScans | OmniscientImporter/lib/OmniscientImporter.py:200-207 | the geometry step only imports scans with the default options |
| OmniscientImporter.PartialScansAreImports | OmniscientImporter/lib/OmniscientImporter.py:200-207 | what the geometry step does before raising are imports |
| OmniscientImporter.LinesOnlyWhenCompleted | OmniscientImporter/lib/OmniscientImporter.py:221-224 | the viewport is set to lines iff the import completes |
| OmniscientImporter.PlanOfLines | OmniscientImporter/lib/OmniscientImporter.py:221-224 | the same for any gate and frame-rate results |
| OmniscientImporter.BodyLines | OmniscientImporter/lib/OmniscientImporter.py:186-221 | the body ends with lines and no interrupted body sets them |
| OmniscientImporter.StepsLines | OmniscientImporter/lib/OmniscientImporter.py:186-221 | the same over the four stages |
| OmniscientImporter.ScanPartialAreScans | OmniscientImporter/lib/OmniscientImporter.py:202-207 | scans done before an exception are imports |
| OmniscientImporter.BareFilePlan | OmniscientImporter/lib/OmniscientImporter.py:167-221 | a file with neither section: default 1920x1080 at 30 fps, the video step at the file's directory, no import, lines |
| OmniscientImporter.BareBody | OmniscientImporter/lib/OmniscientImporter.py:177-221 | without `data`: no frame rates and the default body |
| OmniscientImporter.PlanOfCompleted | OmniscientImporter/lib/OmniscientImporter.py:161-224 | a body that does not raise completes the import |
| OmniscientImporter.Perform | OmniscientImporter/lib/OmniscientImporter.py:186-221 | one step makes its host calls; only an import touches the objects |
| OmniscientImporter.RunActions | OmniscientImporter/lib/OmniscientImporter.py:186-221 | the steps' host calls in order; without imports no object changes |
| OmniscientImporter.RefusedFilePlanEmpty | OmniscientImporter/lib/OmniscientImporter.py:170-174 | a refused file does nothing before the refusal |
| OmniscientImporter.Execute | OmniscientImporter/lib/OmniscientImporter.py:166-221 | a refusal stores "Omniscient", the message and the link, then signals event 1063030; otherwise the steps run in order |
| OmniscientImporter.ImportOmniFile | OmniscientImporter/lib/OmniscientImporter.py:159-224 | outcome and host calls are the file's plan; an unopenable path raises `OSError`, a file that is no JSON raises `ValueError` |
| OmniscientImporter.ImportSelected | OmniscientImporter/lib/OmniscientImporter.py:226-237 | nothing selected does nothing; a non-`.omni` path gives only the extension dialog; otherwise the file is imported |
| LegacyImporter.ImportEvents | lib/OmniscientImporter.py:28-38 | the camera-format dialog iff a camera path is not `.abc`, else the two scale settings, file present or not |
| LegacyImporter.MissingFileEvents | lib/OmniscientImporter.py:35-52 | a missing file: the legacy importer sets the scales and shows no dialog, where the current one shows its missing-file dialog |
| LegacyImporter.MergedIds | lib/OmniscientImporter.py:39-43 | the identities a merge adds are a consecutive range |
| LegacyImporter.NewByIdIsMerged | lib/OmniscientImporter.py:39-43 | by identity, the new objects are exactly the merged ones, whatever their GUIDs |
| LegacyImporter.NewById | lib/OmniscientImporter.py:39-43 | the new objects by identity: a definition, stated by `NewByIdIsMerged` |
| LegacyImporter.ProcessImport | lib/OmniscientImporter.py:18-52 | the camera-format check, then scales, then the file test; a missing or unmerged file changes no object. After a merge, every added object is renamed, with the legacy camera operations for a camera: each Alembic generator whose bake works is replaced by its tagged baked camera, which bears the generator's merged name or the default name. The viewport camera never changes |
| LegacyImporter.MergeAndRename | lib/OmniscientImporter.py:38-50 | the merge and the renaming of what it added, with the legacy camera operations for a camera; the viewport camera never changes |
| LegacyImporter.AddedByIdentity | lib/OmniscientImporter.py:39-43 | the set difference after and before is the merged range, all of them objects |
| LegacyImporter.ScanImports | lib/OmniscientImporter.py:155-159 | no exception iff every entry is a string; otherwise `TypeError` from the join |
| LegacyImporter.ScanImportsContents | lib/OmniscientImporter.py:157-159 | one scan per entry in list order, blank entries included |
| LegacyImporter.ScanImportsStops | lib/OmniscientImporter.py:157-158 | the first non-string ends the loop after the scans before it |
| LegacyImporter.GeometryAreScans | lib/OmniscientImporter.py:155-159 | the geometry step, done or interrupted, imports only scans |
| LegacyImporter.ScanPrefixAreScans | lib/OmniscientImporter.py:157-159 | the loop's imports are scans |
| LegacyImporter.GeometryActions | lib/OmniscientImporter.py:154-159 | the geometry step: a definition, stated by `GeometryAreScans` |
| LegacyImporter.Steps | lib/OmniscientImporter.py:143-171 | the four stages in order: a definition, stated by `StepsLegacy` |
| LegacyImporter.Body | lib/OmniscientImporter.py:133-171 | the body after the gate: a definition, stated by `BareBody` |
| LegacyImporter.ImportPlan | lib/OmniscientImporter.py:123-174 | the plan of a parsed file: a definition, stated by `ImportPlanRefused` and `BareFilePlan` |
| LegacyImporter.PlanOf | lib/OmniscientImporter.py:123-171 | the plan from the gate and frame-rate results: a definition, stated by `PlanOfLegacy` and `PlanOfCompleted` |
| LegacyImporter.ImportFilePlan | lib/OmniscientImporter.py:116-174 | the plan from a path: a definition, stated by `ImportFilePlanLegacy` and `RefusedFilePlanEmpty` and carried out by `ImportOmniFile` |
| LegacyImporter.VideoActions | lib/OmniscientImporter.py:147-152 | the background is made iff the video exists; a missing one shows nothing |
| LegacyImporter.ImportFilePlanLegacy | lib/OmniscientImporter.py:116-174 | every step is settings, video or import: no dialog of its own, no lines |
| LegacyImporter.PlanOfLegacy | lib/OmniscientImporter.py:123-171 | the same for any gate and frame-rate results |
| LegacyImporter.StepsLegacy | lib/OmniscientImporter.py:144-171 | the same over the four stages |
| LegacyImporter.ImportPlanRefused | lib/OmniscientImporter.py:124-131 | refused iff the minimum is a well-formed version above 1.0.1, before the project settings change |
| LegacyImporter.RefusedFilePlanEmpty | lib/OmniscientImporter.py:127-131 | a refused file does nothing before the refusal |
| LegacyImporter.BareFilePlan | lib/OmniscientImporter.py:124-171 | an empty file: default settings, and the background only when the directory itself exists |
| LegacyImporter.BareBody | lib/OmniscientImporter.py:134-171 | an empty file has no frame rates and the default body |
| LegacyImporter.PlanOfCompleted | lib/OmniscientImporter.py:118-174 | a body that does not raise completes the import |
| LegacyImporter.ActionEvents | lib/OmniscientImporter.py:144-171 | a legacy step shows no dialog except the camera-format one and never sets lines |
| LegacyImporter.PlanEventsDialogs | lib/OmniscientImporter.py:144-171 | the same over all steps |
| LegacyImporter.Perform | lib/OmniscientImporter.py:144-171 | one step: its host calls, the viewport camera kept |
| LegacyImporter.RunActions | lib/OmniscientImporter.py:144-171 | the steps' host calls in order |
| LegacyImporter.Execute | lib/OmniscientImporter.py:124-171 | a refusal stores the message and link and signals 1063030; otherwise the steps run |
| LegacyImporter.ImportOmniFile | lib/OmniscientImporter.py:116-174 | outcome and host calls are the file's plan, all legacy steps |
| LegacyImporter.ImportSelected | lib/OmniscientImporter.py:176-187 | nothing selected does nothing; a non-`.omni` path gives only the extension dialog; otherwise the file is imported |
| PluginVersion.ParseVersion | OmniscientImporter/lib/plugin_version.py:28-29 | a version iff the string splits at '.' into exactly three parts that `int` accepts |
| PluginVersion.ParseFormatVersion | OmniscientImporter/lib/plugin_version.py:28-29 | parsing the canonical text of a version gives it back |
| PluginVersion.FormatVersion | OmniscientImporter/lib/plugin_version.py:7 | the canonical text of a version, whose parse `ParseFormatVersion` states |
| PluginVersion.SplitThreeParts | OmniscientImporter/lib/plugin_version.py:28 | three parts without dots, joined by dots, split back into themselves |
| PluginVersion.CheckPluginVersionUnderscore | OmniscientImporter/lib/plugin_version.py:28-42 | an underscore between digit groups of the major component parses as if absent, so the gate decides both texts alike |
| PluginVersion.CheckPluginVersionTenUnderscore | OmniscientImporter/lib/plugin_version.py:28-42 | "1_0.0.0" is version 10.0.0, which the gate refuses as too new rather than as malformed |
| PluginVersion.AtLeastIsNotLess | OmniscientImporter/lib/plugin_version.py:30 | tuple `>=` is the negation of lexicographic `<` |
| PluginVersion.Less | OmniscientImporter/lib/plugin_version.py:30 | the tuple `<`: a definition, related to `>=` by `AtLeastIsNotLess` |
| PluginVersion.AtLeast | OmniscientImporter/lib/plugin_version.py:30 | the tuple `>=`: a definition; the lemmas around it state that it is a total order |
| PluginVersion.AtLeastReflexive | OmniscientImporter/lib/plugin_version.py:30 | reflexive |
| PluginVersion.AtLeastTotal | OmniscientImporter/lib/plugin_version.py:30 | total |
| PluginVersion.AtLeastAntisymmetric | OmniscientImporter/lib/plugin_version.py:30 | antisymmetric |
| PluginVersion.AtLeastTransitive | OmniscientImporter/lib/plugin_version.py:30 | transitive |
| PluginVersion.VersionIsGreaterOrEqual | OmniscientImporter/lib/plugin_version.py:20-30 | defined iff both strings parse; then true iff the first is not lexicographically below the second |
| PluginVersion.RunningVersionText | OmniscientImporter/lib/plugin_version.py:7 | the running version is "1.0.1" |
| PluginVersion.CheckPluginVersion | OmniscientImporter/lib/plugin_version.py:32-42 | passes iff the minimum parses and 1.0.1 is at least it; otherwise the exception carries the minimum, "1.0.1" and the update URL; a malformed minimum raises `ValueError` |
| PluginVersion.CheckPluginVersionPasses | OmniscientImporter/lib/plugin_version.py:39-42 | "1.0.1" and "0.0.0" pass |
| PluginVersion.CheckPluginVersionRefuses | OmniscientImporter/lib/plugin_version.py:39-42 | "9.9.9" raises the exception with the running version and link |
| PluginVersion.CheckPluginVersionCanonical | OmniscientImporter/lib/plugin_version.py:39-42 | for canonical texts the gate passes iff 1.0.1 is at least the minimum |
| PluginVersion.CheckPluginVersionMalformed | OmniscientImporter/lib/plugin_version.py:28-29 | "1.0" and "" are malformed, not compared |
| PluginVersion.UnsupportedMessageLines | OmniscientImporter/lib/plugin_version.py:16 | split at the bar, the message gives exactly "Update needed: version … or higher." and "Current version: …." |
| PluginVersion.UnsupportedMessage | OmniscientImporter/lib/plugin_version.py:16 | the exception's message: a definition, whose two lines `UnsupportedMessageLines` states |
| PluginVersion.NoBarInLines | OmniscientImporter/lib/plugin_version.py:16 | the fixed words of both lines hold no bar |
| OmniscientMessage.DialogDataStorage.constructor | lib/OmniscientMessage.py:7-10 | title, message and link start empty |
| OmniscientMessage.DialogDataStorage.SetData | lib/OmniscientMessage.py:18-21 | sets all three fields, the link "" by default |
| OmniscientMessage.DialogDataStorage.ClearData | lib/OmniscientMessage.py:23-26 | resets all three fields to "" |
| OmniscientMessage.StorageSlot.constructor | lib/OmniscientMessage.py:7 | no instance yet |
| OmniscientMessage.StorageSlot.GetInstance | lib/OmniscientMessage.py:12-16 | returns the existing instance, or creates and keeps an empty one |
| OmniscientMessage.GetInstanceStable | lib/OmniscientMessage.py:12-16 | two calls return the same instance |
| OmniscientMessage.DialogButton | lib/OmniscientMessage.py:67-70 | the update button iff there is a link, else OK |
| OmniscientMessage.CreateLayout | lib/OmniscientMessage.py:52-74 | one static text per bar-separated segment, in order, then a separator, then the button |
| OmniscientMessage.Lines | lib/OmniscientMessage.py:58-60 | the texts of the layout's static-text widgets, in order, whose join `LayoutShowsMessage` states is the message |
| OmniscientMessage.LayoutShowsMessage | lib/OmniscientMessage.py:58-60 | at least one line; the lines joined at the bar give the message back |
| OmniscientMessage.Command | lib/OmniscientMessage.py:76-84 | handled iff OK, or UPDATE with a link; a link is opened iff UPDATE with a link, and it is the stored link |
| OmniscientMessage.OfferedButtonHandled | lib/OmniscientMessage.py:67-84 | the offered button is always handled and opens the link iff there is one |
| OmniscientMessage.CoreMessage | lib/OmniscientMessage.py:29-41 | always true; only event 1063030 shows the stored data and then clears the store; other ids change nothing |
| OmniscientMessage.MailboxRoundTrip | lib/OmniscientMessage.py:18-41 | set, then signal: the dialog shows exactly the data set and the store ends empty |
| OmniData.Get | OmniscientImporter/lib/OmniscientImporter.py:167 | `dict.get`: fails iff the value is no dict; the field when present, else the default |
| OmniData.Lookup | OmniscientImporter/lib/OmniscientImporter.py:181-184 | `get` on a known dict never fails |
| OmniData.Contains | OmniscientImporter/lib/OmniscientImporter.py:177 | `in` raises iff the value is not a dict, list or string; on a dict it tests the keys |
| OmniData.Elements | OmniscientImporter/lib/OmniscientImporter.py:202 | iterating a list visits its items; a string, its characters |
| Text.TrimLeft | OmniscientImporter/lib/OmniscientImporter.py:203 | leading white space removed, and only that |
| Text.TrimRight | OmniscientImporter/lib/OmniscientImporter.py:203 | trailing white space removed, and only that |
| Text.IsSpace | OmniscientImporter/lib/OmniscientImporter.py:203 | the characters `str.isspace()` accepts: a definition. `TrimLeft`, `TrimRight` and `StripEmptyIffBlank` state what `strip` removes with it |
| Text.Strip | OmniscientImporter/lib/OmniscientImporter.py:203 | `strip()`: a definition. `StripEmptyIffBlank` states when it is empty, `StripUnspaced` when it keeps the text |
| Text.StripEmptyIffBlank | OmniscientImporter/lib/OmniscientImporter.py:203 | `strip()` is empty iff every character is white space |
| Text.EndsWithIgnoreCaseMeaning | OmniscientImporter/lib/OmniscientImporter.py:31 | `lower().endswith` compares the lower-cased tail with the suffix |
| Text.Lower | OmniscientImporter/lib/OmniscientImporter.py:31 | the ASCII `str.lower()`: keeps the length, and `LowerIdempotent` shows a second pass changes nothing |
| Text.LowerIdempotent | OmniscientImporter/lib/OmniscientImporter.py:31 | lower-casing is idempotent |
| Text.EndsWithIgnoreCase | OmniscientImporter/lib/OmniscientImporter.py:31 | `lower().endswith`: a definition, whose meaning `EndsWithIgnoreCaseMeaning` states |
| Text.Split | OmniscientImporter/lib/plugin_version.py:28 | at least one part; no part holds the separator |
| Text.JoinWith | lib/OmniscientMessage.py:58 | `sep.join`, the inverse of the split the dialog and the version parser use: `JoinSplit` and `SplitJoin` state the two round trips |
| Text.JoinSplit | lib/OmniscientMessage.py:58 | joining the parts gives the text back |
| Text.SplitNoSeparator | lib/OmniscientMessage.py:58 | text without the separator is one part |
| Text.SplitAtSeparator | OmniscientImporter/lib/plugin_version.py:28-29 | the separator after a clean part cuts exactly there |
| Text.SplitJoin | lib/OmniscientMessage.py:58 | splitting joined clean parts gives them back |
| Text.ParseInt | OmniscientImporter/lib/plugin_version.py:28 | `int` accepts only text with a digit. Its definition follows the base-10 grammar: surrounding white space, an optional sign, digits grouped by single underscores. `ParseIntUnderscore` and `ParseIntNatToString` state the values it reads |
| Text.NatToString | OmniscientImporter/lib/plugin_version.py:7 | `str(n)` is a non-empty run of digits |
| Text.DigitsOfNatToString | OmniscientImporter/lib/plugin_version.py:7 | the digits of `str(n)` have value n |
| Text.ParseIntNatToString | OmniscientImporter/lib/plugin_version.py:28-29 | `int(str(n)) == n` |
| Text.StripDigits | OmniscientImporter/lib/plugin_version.py:28 | text that starts and ends with a digit has no white space to strip |
| Text.StripUnspaced | OmniscientImporter/lib/plugin_version.py:28 | text that neither starts nor ends with white space is its own `strip()` |
| Text.DigitsValueUnderscore | OmniscientImporter/lib/plugin_version.py:28 | an underscore between two runs of digits adds nothing to their value |
| Text.GroupedJoin | OmniscientImporter/lib/plugin_version.py:28 | two digit groups joined, with or without an underscore between them, are again a group |
| Text.ParseIntGrouped | OmniscientImporter/lib/plugin_version.py:28 | `int` reads a digit group as its value |
| Text.ParseIntMisplacedUnderscore | OmniscientImporter/lib/plugin_version.py:28 | a leading, trailing or doubled underscore raises `ValueError` |
| Text.ParseIntUnderscore | OmniscientImporter/lib/plugin_version.py:28 | `int(a + "_" + b) == int(a + b)` for digit groups `a` and `b` (PEP 515); an underscore anywhere else raises |
| Text.LastIndexOf | OmniscientImporter/lib/OmniscientImporter.py:190 | the last position of the character, or -1 |
| Text.BaseName | OmniscientImporter/lib/OmniscientImporter.py:41 | the base name holds no '/' and ends the path |
| Text.DirName | OmniscientImporter/lib/OmniscientImporter.py:190 | `os.path.dirname`: a definition. `DirNameSingleSlash` states it for an undoubled last slash, and `JoinDirNameBaseName` that the join with the base name gives the path back |
| Text.PathJoin | OmniscientImporter/lib/OmniscientImporter.py:190 | `os.path.join`: a definition. `BaseNameOfJoin` states the base name of a join, and `JoinDirNameBaseName` the round trip |
| Text.TrimTrailingSlashes | OmniscientImporter/lib/OmniscientImporter.py:190 | trailing slashes removed, and only those |
| Text.BaseNameOfJoin | OmniscientImporter/lib/OmniscientImporter.py:190-195 | a file name joined to a directory is the base name shown in the missing-video dialog |
| Text.TrimOneTrailingSlash | OmniscientImporter/lib/OmniscientImporter.py:190 | a single trailing slash is the one removed |
| Text.DirNameSingleSlash | OmniscientImporter/lib/OmniscientImporter.py:190 | the directory is everything before an undoubled last slash |
| Text.BaseNameNoLeadingSlash | OmniscientImporter/lib/OmniscientImporter.py:190 | a base name never starts with '/' |
| Text.JoinDirNameBaseNameNoSlash | OmniscientImporter/lib/OmniscientImporter.py:190 | a bare name is rebuilt by the join |
| Text.JoinDirNameBaseNameRoot | OmniscientImporter/lib/OmniscientImporter.py:190 | a root-level path is rebuilt by the join |
| Text.JoinDirNameBaseNameNested | OmniscientImporter/lib/OmniscientImporter.py:190 | a nested path is rebuilt by the join |
| Text.JoinDirNameBaseName | OmniscientImporter/lib/OmniscientImporter.py:190 | `join(dirname(p), basename(p)) == p` unless the last slash is doubled |

## Left out

- Floating point: fps, width and height stay the JSON values they were read as. Neither `float()` nor `int()` is applied, and their `ValueError` is not modelled. The film aspect is not computed.
- ImportCommon.Adjusted: the speed factor `video_fps / camera_fps` (OmniscientImporter/lib/OmniscientImporter.py:124, lib/OmniscientImporter.py:103) is a symbolic `SpeedRatio`, so the `ZeroDivisionError` of a zero camera fps is not modelled. In the source it is raised outside the bake's `try`, so it leaves `process_import` after the first generator is renamed, and `import_omni_file`'s `except` then ends the import; the current importer skips `set_viewport_to_lines`. The model always completes the camera operations.
- `update_project_settings` divides the width by the height (OmniscientImporter/lib/OmniscientImporter.py:132, lib/OmniscientImporter.py:111). For a zero height the source raises after writing resolution and frame rate, and the import ends; the model's settings step always completes.
- Frame times: `BaseTime` and `GetFps` are abstracted; the bake works on integer frames, and the animation offset is a number of frames.
- `MatrixToHPB` and world matrices come from the host as opaque values (`Host.mg`). `ExecutePasses` and `SetMg` are not modelled beyond the camera's final world matrix.
- Undo (`StartUndo`, `AddUndo`, `EndUndo`), `EventAdd`, logging and `print` are left out; they do not change the scene.
- `adjust_scale`, `create_background_with_video_material`, `set_project_settings_from_video`, `update_project_settings`, `set_viewport_to_lines`, `MessageDialog` and `SpecialEventAdd` are recorded as events in the document's log, in order. lib/videoBackground.py, lib/projectSettings.py and OmniscientImporter/lib/adjustScale.py are not part of this model. package.py is build tooling and is not part of this model.
- `create_background_with_video_material` (the `LoadVideo` action) also creates a video material and inserts a background object carrying a texture tag into the document (lib/videoBackground.py:57-78). The model records only the `VideoBackground` event and does not add that object to the document's `objects`.
- The dialog's rendering (`Open`, groups, borders), `LoadDialog` and `webbrowser.open` are left out. The opened link is the `openedUrl` of `Command`, and the selected path is a parameter of `ImportSelected`.
- Message dialogs are recorded by kind. `ImportCommon.DialogText` gives their words and `DialogTextInjective` shows that the words tell the kinds apart.
- `json.load` and `open`: the file system maps a path to a parsed JSON value, a scene file or other content. Parsing itself is not modelled.
- Dict key order: `OmniData.Elements` refuses to iterate a dict, which Python would iterate by key.
- `str.lower()` is the ASCII mapping only; other Unicode case mappings are not modelled.
- Paths are POSIX strings, without normalisation; Windows separators are not modelled.
- `SearchObject` searches the top-level objects only; child hierarchies are not modelled. The first child of a tag's host is a field of its node.
- GUIDs of merged objects are given by the scene file; the GUID of a baked camera comes from the host (`Host.guidFor`).
- The key order of a Python `set`: `SeqOfSet` leaves the order of the new objects open, and every contract holds for any order.
- CameraOperations.RenameNewObjects: the source tests `is_camera` inside the loop; the model tests it once before the loop, which gives the same result because the flag cannot change.
- OmniscientImporter.Perform, OmniscientImporter.RunActions and the plan interpreter stand for straight-line code in `import_omni_file`. They state each step's host calls and that only import steps touch objects. What an import does to the scene is stated by `ProcessImport`, not restated for the whole plan.
- CameraOperations.HandleCameraOperations: `CameraOps` states, per node, what becomes of every listed object, which objects stay, that every new object is a tagged replacement camera or a partial bake, and that every replaced generator left its tagged baked camera. It does not fix where a baked camera sits in the object list beyond the front insertion that `ReplaceWithBakedCamera` states for one step. `ViewOps` states that the viewport looks through one of the cameras looked through, not that it is the last one.
- Text.ParseInt: reads ASCII digits only. Python's `int` also accepts the other Unicode decimal digits (category Nd), which the model refuses. Underscores between digit groups are modelled.
- PluginVersion.ParseVersion: for the same reason, a version component written in non-ASCII decimal digits is refused as malformed, where the source would read it.
- CameraBaker.Bake: on `MemoryError` the document time stays at the failing frame, as in the source, where the exception skips the time restore.
- ImportCommon.ProjectSettingsOf: states only that a successful read gives project settings. The default values are stated by `ImportCommon.ProjectSettingsDefaults`.
- Visibility.Resolve: the constants `OMNISCIENTSCENECONTROL_VIEW_THROUGH_CAMERA`, `ALWAYS`, `NEVER` and `ONLY_NOT_THROUGH_CAM` come from the plugin's resource description, which is not part of this model. They are taken to be 0 to 3, as in `SafeFrameTag`.
- The camera's projection and focal length are copied as opaque values; a parameter missing at a property path is taken to raise (the source would read `None` and fail on `.x` or on the write).
