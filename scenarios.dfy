/**
 * Call sequences a host can drive the viewer through, with what the viewer's
 * contracts alone let a caller conclude about each. The Angular `effect` and
 * `ngOnChanges` hooks are the callers in the application; here they are
 * explicit calls.
 */
module Scenarios {
  import opened Framing
  import opened SceneGraph
  import opened Viewer

  /** A file dropped before the container is ready is ignored: no event, no URL. */
  method LoadBeforeInit() returns (outcome: StartOutcome, events: seq<Event>, live: set<nat>)
    ensures outcome == NotReady && events == [] && live == {}
  {
    var v := new ViewerComponent();
    outcome := v.StartLoad("early.ifc", false);
    events, live := v.events, v.liveUrls;
  }

  /** The effect may fire many times; the scene gets its furniture, one frame loop and one resize listener once. */
  method InitThreeTwice() returns (scene: seq<SceneObject>, loops: nat, listeners: nat)
    ensures scene == Furniture && loops == 1 && listeners == 1
  {
    var v := new ViewerComponent();
    v.InitThree(false);
    v.InitThree(false);
    scene, loops, listeners := v.scene, v.frameLoops, v.resizeListeners;
  }

  /** If the renderer cannot be created the guard still closes, so a retry does nothing and loads are ignored. */
  method RendererFailureIsPermanent() returns (outcome: StartOutcome, scene: seq<SceneObject>, loops: nat)
    ensures outcome == NotReady && scene == [] && loops == 0
  {
    var v := new ViewerComponent();
    v.InitThree(true);
    v.InitThree(false);
    outcome := v.StartLoad("model.ifc", false);
    scene, loops := v.scene, v.frameLoops;
  }

  /**
   * Two loads overlap and the older one's parse finishes last: its model is
   * attached after the newer one, becomes the current model, and the newer
   * model stays in the scene with nothing pointing at it.
   */
  method StaleCompletionWins(older: Node, newer: Node, box: Box, tan: real -> real)
    returns (scene: seq<SceneObject>, current: Option<Node>, events: seq<Event>)
    requires tan(HalfFov(CameraFov)) != 0.0
    ensures scene == Furniture + [Model(newer), Model(older)]
    ensures current == Some(older)
    ensures events == [Loading, Loading,
                       Loaded("b.ifc", |newer.children|, NodeCount(newer)),
                       Loaded("a.ifc", |older.children|, NodeCount(older))]
  {
    var v := new ViewerComponent();
    v.InitThree(false);
    var a := v.StartLoad("a.ifc", false);
    var b := v.StartLoad("b.ifc", false);
    v.OnParseSuccess(b.request, newer, box, tan);
    v.OnParseSuccess(a.request, older, box, tan);
    scene, current, events := v.scene, v.currentModel, v.events;
  }

  /**
   * A model is shown, then a second file fails to parse: the first model was
   * already taken out when the second load started, so the scene is left with
   * its furniture only, and the failed load's URL is never revoked.
   */
  method FailedReloadLeavesNoModel(first: Node, box: Box, tan: real -> real)
    returns (scene: seq<SceneObject>, current: Option<Node>, events: seq<Event>, live: set<nat>)
    requires tan(HalfFov(CameraFov)) != 0.0
    ensures scene == Furniture && current == None
    ensures events == [Loading, Loaded("a.ifc", |first.children|, NodeCount(first)),
                       Loading, LoadError(ParseErrorMessage)]
    ensures live == {1}
  {
    var v := new ViewerComponent();
    v.InitThree(false);
    var a := v.StartLoad("a.ifc", false);
    v.OnParseSuccess(a.request, first, box, tan);
    assert v.scene == Furniture + [Model(first)] && v.liveUrls == {};
    DetachUndoesAttach(Furniture, Model(first));
    var b := v.StartLoad("b.ifc", false);
    assert v.scene == Furniture && v.liveUrls == {1};
    v.OnParseError(b.request);
    scene, current, events, live := v.scene, v.currentModel, v.events, v.liveUrls;
  }

  /**
   * Two loads one after the other: the second start takes the first model
   * out, so after the second success the scene holds exactly one model.
   */
  method SequentialReloadReplaces(first: Node, second: Node, box: Box, tan: real -> real)
    returns (scene: seq<SceneObject>, current: Option<Node>)
    requires tan(HalfFov(CameraFov)) != 0.0
    ensures scene == Furniture + [Model(second)]
    ensures current == Some(second)
  {
    var v := new ViewerComponent();
    v.InitThree(false);
    var a := v.StartLoad("a.ifc", false);
    v.OnParseSuccess(a.request, first, box, tan);
    assert v.scene == Furniture + [Model(first)];
    DetachUndoesAttach(Furniture, Model(first));
    var b := v.StartLoad("b.ifc", false);
    assert v.scene == Furniture;
    v.OnParseSuccess(b.request, second, box, tan);
    scene, current := v.scene, v.currentModel;
  }

  /** A model whose root has three children and seven nodes in all is reported as {3, 7}. */
  method ThreeChildrenSevenNodes(box: Box, tan: real -> real) returns (events: seq<Event>)
    requires tan(HalfFov(CameraFov)) != 0.0
    ensures events == [Loading, Loaded("model.ifc", 3, 7)]
  {
    var leaf3, leaf4, leaf5, leaf6 := Node(3, []), Node(4, []), Node(5, []), Node(6, []);
    var model := Node(0, [Node(1, [leaf3, leaf4]), Node(2, [leaf5]), leaf6]);
    NodeCountFlat(model.children[0]);
    NodeCountFlat(model.children[1]);
    NodeCountFlat(model.children[2]);
    SumCountsFront(model.children);
    SumCountsFront(model.children[1..]);
    SumCountsFront(model.children[2..]);
    var v := new ViewerComponent();
    v.InitThree(false);
    var a := v.StartLoad("model.ifc", false);
    v.OnParseSuccess(a.request, model, box, tan);
    events := v.events;
  }
}
