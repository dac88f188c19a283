# IFC viewer: model lifecycle

A Dafny model of the part of the IFC viewer's `ViewerComponent`
(`src/components/viewer.component.ts`) that manages the model lifecycle. It
covers four things:

- the one-time scene set-up (`initThree`);
- the three phases of loading an IFC file (`loadIFC`): its synchronous start, the
  parser's success callback and the parser's failure callback;
- the camera framing done in the success callback;
- the recursive subtree count behind the `nodeCount` metadata (`countNodes`).

Three.js, WebGL and the IFC parser are left out. What remains is a class,
`Viewer.ViewerComponent`, with these fields:

- the scene's child list (`scene`), made of three pieces of fixed furniture
  and the loaded models;
- `currentModel`;
- the "scene exists" guard (`initialized`) and whether a loader exists (`loaderReady`);
- the camera and the orbit controls' target;
- counts of started frame loops and registered resize listeners;
- the emitted events, oldest first;
- the set of live object URLs.

Parse results are trees of `SceneGraph.Node`. A node's `id` stands for its
object identity, because Three.js removes scene children by reference.
`Viewer.CountNodes` is the source's loop, proved equal to the recursive
function `SceneGraph.NodeCount`. Several lemmas about `NodeCount` follow:
preorder length, lower bounds, flat trees and sibling order.

The success and failure callbacks are separate methods. A caller may invoke
them in any order and for any request. Like the source, the model has no
generation counter. A stale success callback therefore still attaches its
model and becomes `currentModel` (`Scenarios.StaleCompletionWins`). So "at most
one model in the scene" is not claimed across overlapping loads.

Four behaviours of the code matter for anyone who expects a different design:

- The code has no generation check. A superseded load's completion still
  attaches its model and becomes current (lines 97-99).
- There is no minimum camera distance for a degenerate box.
  `Framing.FramePosition` places the camera exactly at the box centre when the
  largest extent is 0.
- The object URL is revoked only in the success callback (line 122). The
  model's `liveUrls` keeps the URL after a parse failure or a synchronous throw.
- The previous model is removed when a load starts (lines 89-92). After a
  failure the scene holds only its furniture
  (`Scenarios.FailedReloadLeavesNoModel`). Two loads that do not overlap leave
  exactly one model (`Scenarios.SequentialReloadReplaces`).

Inputs that come from outside the component are parameters:

- the parse result tree;
- the bounding box (centre and size), which `Box3.setFromObject` would compute;
- `tan`, an uninterpreted `real -> real` function;
- whether creating the WebGL renderer throws;
- whether `loader.load` throws synchronously.

## Model

| member | source | states |
|---|---|---|
| `Viewer.CountNodes` | src/components/viewer.component.ts:133-139 | the accumulator loop returns exactly `NodeCount(obj)`: 1 plus the subtree counts of the children |
| `SceneGraph.NodeCountIsPreorderLength` | src/components/viewer.component.ts:133-139 | the count equals the number of nodes a parent-before-children traversal of the subtree visits |
| `SceneGraph.SumCountsFront` | src/components/viewer.component.ts:135-137 | summing the children's counts from the front gives the same total as the loop's left-to-right accumulation |
| `SceneGraph.NodeCountLowerBound` | src/components/viewer.component.ts:133-139 | every count is at least 1 and at least the number of direct children plus 1 |
| `SceneGraph.NodeCountFlat` | src/components/viewer.component.ts:133-139 | a leaf counts 1; a root whose k children are leaves counts k + 1 |
| `SceneGraph.SumCountsPermutation` | src/components/viewer.component.ts:135-137 | reordering siblings does not change the total |
| `SceneGraph.Detach` | src/components/viewer.component.ts:90 | removing an object not in the scene leaves it unchanged; removing one that is there shortens the list by one |
| `SceneGraph.DetachMultiset` | src/components/viewer.component.ts:89-92 | removal takes out exactly one copy of the object and keeps every other scene object |
| `SceneGraph.DetachAfterPrefix` | src/components/viewer.component.ts:89-92 | objects before the removed one (the lights and grid) stay in place and in order |
| `SceneGraph.DetachUndoesAttach` | src/components/viewer.component.ts:90 | removing a model right after appending it restores the previous child list |
| `Framing.Max3` | src/components/viewer.component.ts:106 | the largest extent is at least each of the three and equal to one of them |
| `Framing.CameraDistance` | src/components/viewer.component.ts:106-109 | the distance is non-negative, is zero exactly when the largest extent is zero, and times abs(tan(fov/2)) equals that extent |
| `Framing.CameraDistanceMonotone` | src/components/viewer.component.ts:106-109 | a larger model is framed from at least as far away |
| `Framing.Offset` | src/components/viewer.component.ts:111 | the camera sits the same distance from the centre on all three axes |
| `Framing.FramePosition` | src/components/viewer.component.ts:102-111 | the offset from the box centre is the same non-negative d on each axis, and zero exactly when the box is degenerate |
| `Viewer.ViewerComponent.constructor` | src/components/viewer.component.ts:20-26 | a new viewer has no scene, camera, controls, loader, model, events or URLs |
| `Viewer.ViewerComponent.InitThree` | src/components/viewer.component.ts:42-82 | a second call changes nothing; the first adds exactly ambient light, directional light and grid, creates the loader and starts one frame loop and one resize listener; a renderer failure leaves an empty scene and no loader |
| `Viewer.ViewerComponent.StartLoad` | src/components/viewer.component.ts:84-131 | without a loader nothing changes and nothing is emitted; otherwise loading is emitted, the current model is removed from the scene and cleared (other objects unchanged), a fresh URL becomes live, and a synchronous throw adds the "An error occurred." event |
| `Viewer.ViewerComponent.OnParseSuccess` | src/components/viewer.component.ts:97-122 | the model is appended and becomes current; the camera is put at the framing position facing the box centre; the controls target the centre; exactly one loaded event carries the file name, the number of direct children and `NodeCount`; the URL is revoked |
| `Viewer.ViewerComponent.OnParseError` | src/components/viewer.component.ts:123-126 | exactly one "Failed to parse IFC file." event; scene, model and live URLs are unchanged |
| `Scenarios.LoadBeforeInit` | src/components/viewer.component.ts:85 | a load before the loader exists emits nothing and creates no URL |
| `Scenarios.InitThreeTwice` | src/components/viewer.component.ts:42-43 | two set-up calls leave the furniture once, one frame loop and one resize listener |
| `Scenarios.RendererFailureIsPermanent` | src/components/viewer.component.ts:43-54 | after the renderer fails, a retried set-up does nothing and loads are ignored |
| `Scenarios.StaleCompletionWins` | src/components/viewer.component.ts:97-99 | with two overlapping loads, the older completion finishing last becomes current, and both models stay in the scene |
| `Scenarios.FailedReloadLeavesNoModel` | src/components/viewer.component.ts:89-126 | a failed second load leaves only the furniture, no current model, and its URL still live |
| `Scenarios.SequentialReloadReplaces` | src/components/viewer.component.ts:89-99 | two loads one after the other leave the furniture and exactly the second model, which is current |
| `Scenarios.ThreeChildrenSevenNodes` | src/components/viewer.component.ts:116-120 | a root with three children and seven nodes in all is reported as elementCount 3, nodeCount 7 |

## Left out

- Rendering: the WebGL renderer, its size and pixel ratio, and the scene background colour are not modelled. The `animate` loop and `requestAnimationFrame` are reduced to a count of started loops. `ngOnDestroy` and `renderer.dispose` are not modelled. These are foreign calls and frame scheduling.
- `onResize` (lines 141-148) is not modelled. It does floating-point aspect division over DOM sizes.
- The camera's aspect ratio is not modelled (lines 45-46 and 51). It is a division of DOM sizes.
- The IFC parse itself, the WASM path set-up (line 77) and `Box3.setFromObject` are not modelled. Their results are the parameters named above.
- Floating point: `Math.tan`, `Math.PI` and the arithmetic are mathematical reals. Infinity and NaN are not represented. The success callback therefore requires `tan(fov/2)` to be non-zero.
- Viewer.ViewerComponent.OnParseSuccess: `controls.update()` (line 114) is not modelled. With damping enabled it can still move the camera after the framing position is set.
- Viewer.ViewerComponent.StartLoad: a throw from `URL.createObjectURL` (line 94, outside the `try`) is not modelled. Such a throw would reject the async method without emitting an error event.
- Viewer.ViewerComponent.OnParseSuccess: an exception inside a callback is not modelled. The `try` does not catch it.
- `scene.add` is modelled as appending. Three.js first removes an object from its old parent, but every parse yields a new object, so the effect is the same.
- Angular's `effect` and `ngOnChanges` triggers are explicit calls to `InitThree` and `StartLoad`. The `if (changes['file'] && this.file)` filter is on the caller's side.
- `console.error` logging is not modelled.
- `src/components/ai-assistant.component.ts` is not part of this model. It is a network call to a text-generation service.
- `src/app.component.ts` is not part of this model. It is UI wiring with no logic beyond assignments.
