/** `Scene` of src/scene.ts: an optional root and camera, the same
 *  first-match name search guarded by the root, and a guarded `render`. */
module Scenes {
  import opened Maths
  import SceneGraph
  import Lights

  class Scene {
    const name: string
    var rootNode: SceneGraph.Node?
    var mainCamera: SceneGraph.Node?
    /** The scene's own rosters, which start empty. */
    const lights: Lights.Rosters

    constructor (name: string, rootNode: SceneGraph.Node?, mainCamera: SceneGraph.Node?)
      ensures this.name == name && this.rootNode == rootNode && this.mainCamera == mainCamera
      ensures fresh(lights) && lights.pointLights == [] && lights.spotLights == [] && lights.directionalLights == []
    {
      this.name := name;
      this.rootNode := rootNode;
      this.mainCamera := mainCamera;
      lights := new Lights.Rosters();
    }

    /** `get_node(name)`: null without a root, else the first pre-order match. */
    method GetNode(n: string, ghost nodes: set<SceneGraph.Node>, ghost rank: map<SceneGraph.Node, nat>) returns (r: SceneGraph.Node?)
      requires rootNode != null ==> rootNode in nodes && SceneGraph.Ranked(nodes, rank)
      ensures rootNode == null ==> r == null
      ensures rootNode != null ==> r == SceneGraph.FirstNamed(SceneGraph.PreOrder(rootNode, nodes, rank), n)
    {
      if rootNode != null {
        r := SceneGraph.GetNodeSearch(n, rootNode, nodes, rank);
      } else {
        r := null;
      }
    }

    /** `render`: the root's pre-order render when there is a root, and no
     *  callback at all otherwise. */
    method Render(view: Mat, p3: Mat, p2: Mat, time: real, dt: real, trace: SceneGraph.Trace,
                  ghost nodes: set<SceneGraph.Node>, ghost rank: map<SceneGraph.Node, nat>)
      requires rootNode != null ==> rootNode in nodes && SceneGraph.Ranked(nodes, rank)
      modifies trace`events
      ensures rootNode == null ==> trace.events == old(trace.events)
      ensures rootNode != null ==> (trace.events == old(trace.events) +
        SceneGraph.RenderEvents(SceneGraph.PreOrder(rootNode, nodes, rank), view, p3, p2, time, dt))
    {
      if rootNode != null {
        SceneGraph.Render(rootNode, view, p3, p2, time, dt, trace, nodes, rank);
      }
    }
  }
}
