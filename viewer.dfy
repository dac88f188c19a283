/**
 * The model-lifecycle part of ViewerComponent (src/components/viewer.component.ts):
 * one-time scene set-up, the three phases of loading an IFC file, and the
 * subtree count reported as `nodeCount`. Rendering, the parser and the
 * bounding-box computation are inputs; what is kept is the state they touch.
 */
module Viewer {
  import opened Framing
  import opened SceneGraph

  /** Something the component emits: `onLoading`, or `onLoaded` with metadata or with an error. */
  datatype Event =
    | Loading
    | Loaded(name: string, elementCount: nat, nodeCount: nat)
    | LoadError(error: string)

  const ParseErrorMessage: string := "Failed to parse IFC file."
  const UnexpectedErrorMessage: string := "An error occurred."

  /** The perspective camera: field of view in degrees, clipping planes, position, and the point it was last turned to. */
  datatype Camera = Camera(fov: real, near: real, far: real, position: Vec3, lookingAt: Option<Vec3>)

  const CameraFov: real := 45.0
  const InitialCamera: Camera := Camera(CameraFov, 0.1, 1000.0, Vec3(20.0, 20.0, 20.0), None)
  const Origin: Vec3 := Vec3(0.0, 0.0, 0.0)

  /** The fixed furniture initThree adds, in order: ambient light, directional light, grid. */
  const Furniture: seq<SceneObject> := [
    AmbientLight(0xffffff, 0.8),
    DirectionalLight(0xffffff, 1.0, Vec3(10.0, 20.0, 10.0)),
    GridHelper(100, 100, 0x334155, 0x1e293b)
  ]

  /** What a success or failure callback closes over: the object URL and the file's name. */
  datatype LoadRequest = LoadRequest(url: nat, fileName: string)

  /** How the synchronous part of loadIFC ended. */
  datatype StartOutcome =
    | NotReady                      // no loader yet: returned at once
    | Threw                         // loader.load threw synchronously: caught
    | Pending(request: LoadRequest) // the parser now owns the request; one of the callbacks may follow

  /**
   * countNodes: 1 for the node itself plus, child by child, the count of
   * each child's subtree.
   */
  method CountNodes(obj: Node) returns (count: nat)
    ensures count == NodeCount(obj)
    decreases obj
  {
    count := 1;
    for i := 0 to |obj.children|
      invariant count == 1 + SumCounts(obj.children[..i])
    {
      var c := CountNodes(obj.children[i]);
      assert obj.children[..i + 1][..i] == obj.children[..i];
      count := count + c;
    }
    assert obj.children[..|obj.children|] == obj.children;
  }

  class ViewerComponent {
    /** `this.scene` has been created: the guard of initThree. */
    var initialized: bool
    /** The scene's direct children, in the order they were added. */
    var scene: seq<SceneObject>
    var camera: Option<Camera>
    /** Target of the orbit controls; None until the controls exist. */
    var controlsTarget: Option<Vec3>
    /** `this.loader` has been created. */
    var loaderReady: bool
    /** Animation-frame loops started (animate) and resize listeners registered. */
    var frameLoops: nat
    var resizeListeners: nat
    var currentModel: Option<Node>
    /** Everything emitted on onLoading and onLoaded, oldest first. */
    var events: seq<Event>
    /** Object URLs created and not yet revoked, and the next handle createObjectURL hands out. */
    var liveUrls: set<nat>
    var nextUrl: nat

    ghost predicate Valid()
      reads this
    {
      (initialized <==> camera.Some?) &&
      (camera.Some? ==> camera.value.fov == CameraFov) &&
      (loaderReady ==> initialized) &&
      (loaderReady <==> controlsTarget.Some?) &&
      frameLoops == resizeListeners == (if loaderReady then 1 else 0) &&
      (loaderReady ==>
        |scene| >= 3 && scene[..3] == Furniture &&
        forall o :: o in scene[3..] ==> o.Model?) &&
      (!loaderReady ==> scene == [] && currentModel == None && events == [] && liveUrls == {}) &&
      (currentModel.Some? ==> Model(currentModel.value) in scene) &&
      (forall u :: u in liveUrls ==> u < nextUrl)
    }

    constructor ()
      ensures Valid()
      ensures !initialized && !loaderReady && camera == None && controlsTarget == None
      ensures scene == [] && currentModel == None && events == []
      ensures frameLoops == 0 && resizeListeners == 0
      ensures liveUrls == {} && nextUrl == 0
    {
      initialized, loaderReady := false, false;
      scene, camera, controlsTarget := [], None, None;
      frameLoops, resizeListeners := 0, 0;
      currentModel, events := None, [];
      liveUrls, nextUrl := {}, 0;
    }

    /**
     * initThree. A second call returns at once. On the first call, if creating
     * the WebGL renderer throws (`rendererFails`), the scene and camera already
     * exist but nothing was added and no loader was made; the exception leaves
     * the method, and because the guard now holds the viewer never gets a
     * loader.
     */
    method InitThree(rendererFails: bool)
      requires Valid()
      modifies this
      ensures Valid()
      ensures old(initialized) ==> unchanged(this)
      ensures !old(initialized) ==>
        initialized && camera == Some(InitialCamera) &&
        if rendererFails then
          !loaderReady && scene == [] && controlsTarget == None && frameLoops == 0 && resizeListeners == 0
        else
          loaderReady && scene == Furniture && controlsTarget == Some(Origin) &&
          frameLoops == 1 && resizeListeners == 1
      ensures currentModel == old(currentModel) && events == old(events)
      ensures liveUrls == old(liveUrls) && nextUrl == old(nextUrl)
    {
      if initialized {
        return;
      }
      initialized := true;
      scene := [];
      camera := Some(InitialCamera);
      if rendererFails {
        return;
      }
      controlsTarget := Some(Origin);
      scene := scene + [Furniture[0]];
      scene := scene + [Furniture[1]];
      scene := scene + [Furniture[2]];
      loaderReady := true;
      frameLoops := frameLoops + 1;
      resizeListeners := resizeListeners + 1;
    }

    /**
     * The synchronous part of loadIFC. Without a loader nothing happens.
     * Otherwise: emit loading, take the current model out of the scene, create
     * an object URL and hand it to the parser; a synchronous throw from the
     * parser is reported as an unexpected error and the URL stays live.
     */
    method StartLoad(fileName: string, loadThrows: bool) returns (outcome: StartOutcome)
      requires Valid()
      modifies this
      ensures Valid()
      ensures !old(loaderReady) ==> outcome == NotReady && unchanged(this)
      ensures old(loaderReady) ==>
        currentModel == None &&
        scene == (if old(currentModel).Some? then Detach(old(scene), Model(old(currentModel).value)) else old(scene)) &&
        events == old(events) + [Loading] + (if loadThrows then [LoadError(UnexpectedErrorMessage)] else []) &&
        nextUrl == old(nextUrl) + 1 && liveUrls == old(liveUrls) + {old(nextUrl)} &&
        outcome == if loadThrows then Threw else Pending(LoadRequest(old(nextUrl), fileName))
      ensures initialized == old(initialized) && loaderReady == old(loaderReady)
      ensures camera == old(camera) && controlsTarget == old(controlsTarget)
      ensures frameLoops == old(frameLoops) && resizeListeners == old(resizeListeners)
    {
      if !loaderReady {
        return NotReady;
      }
      events := events + [Loading];
      if currentModel.Some? {
        var m := Model(currentModel.value);
        assert scene == Furniture + scene[3..];
        DetachAfterPrefix(Furniture, scene[3..], m);
        forall o | o in Detach(scene[3..], m) ensures o.Model? {
          DetachSubset(scene[3..], m, o);
        }
        scene := Detach(scene, m);
        assert scene[3..] == Detach(old(scene)[3..], m);
        currentModel := None;
      }
      var url := nextUrl;
      nextUrl := nextUrl + 1;
      liveUrls := liveUrls + {url};
      if loadThrows {
        events := events + [LoadError(UnexpectedErrorMessage)];
        return Threw;
      }
      return Pending(LoadRequest(url, fileName));
    }

    /**
     * The parser's success callback. It attaches the model whatever has
     * happened since its load started: there is no check that the request is
     * still the latest one. The camera is moved to the box centre plus the
     * same distance on every axis and turned to the centre, the controls aim
     * at the centre, the metadata is emitted and the URL is revoked.
     */
    method OnParseSuccess(request: LoadRequest, model: Node, box: Box, tan: real -> real)
      requires Valid() && loaderReady
      requires tan(HalfFov(CameraFov)) != 0.0
      modifies this
      ensures Valid()
      ensures currentModel == Some(model)
      ensures scene == old(scene) + [Model(model)]
      ensures events == old(events) + [Loaded(request.fileName, |model.children|, NodeCount(model))]
      ensures liveUrls == old(liveUrls) - {request.url} && nextUrl == old(nextUrl)
      ensures camera == Some(old(camera).value.(position := FramePosition(box, CameraFov, tan),
                                                lookingAt := Some(box.center)))
      ensures controlsTarget == Some(box.center)
      ensures initialized == old(initialized) && loaderReady == old(loaderReady)
      ensures frameLoops == old(frameLoops) && resizeListeners == old(resizeListeners)
    {
      currentModel := Some(model);
      assert (scene + [Model(model)])[3..] == scene[3..] + [Model(model)];
      scene := scene + [Model(model)];

      var maxDim := Max3(box.size.x, box.size.y, box.size.z);
      var cameraZ := CameraDistance(maxDim, tan(HalfFov(camera.value.fov)));
      camera := Some(camera.value.(position := Offset(box.center, cameraZ), lookingAt := Some(box.center)));
      controlsTarget := Some(box.center);

      var nodeCount := CountNodes(model);
      events := events + [Loaded(request.fileName, |model.children|, nodeCount)];
      liveUrls := liveUrls - {request.url};
    }

    /** The parser's failure callback: only the error event; the URL is not revoked. */
    method OnParseError(request: LoadRequest)
      requires Valid() && loaderReady
      modifies this
      ensures Valid()
      ensures events == old(events) + [LoadError(ParseErrorMessage)]
      ensures scene == old(scene) && currentModel == old(currentModel)
      ensures liveUrls == old(liveUrls) && nextUrl == old(nextUrl)
      ensures camera == old(camera) && controlsTarget == old(controlsTarget)
      ensures initialized == old(initialized) && loaderReady == old(loaderReady)
      ensures frameLoops == old(frameLoops) && resizeListeners == old(resizeListeners)
    {
      events := events + [LoadError(ParseErrorMessage)];
    }
  }
}
