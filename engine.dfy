/** The engine of src/engine.ts as far as the scene graph and the lights
 *  need it: the root node, the main camera, the three light rosters, and
 *  `get_node`, the first-match pre-order search from the root. */
module Engines {
  import opened Maths
  import SceneGraph
  import Lights

  class Engine {
    const rootNode: SceneGraph.Node
    const mainCamera: SceneGraph.Node
    const lights: Lights.Rosters
    /** The callbacks the engine's nodes fire. */
    const trace: SceneGraph.Trace

    constructor (rootLocal: Mat, cameraLocal: Mat)
      ensures fresh(rootNode) && rootNode.name == "root_node" && rootNode.kind == SceneGraph.Plain
      ensures rootNode.parent == null && rootNode.children == []
      ensures fresh(mainCamera) && mainCamera.name == "camera0" && mainCamera.kind == SceneGraph.ThreeD
      ensures fresh(lights) && lights.pointLights == [] && lights.spotLights == [] && lights.directionalLights == []
      ensures fresh(trace) && trace.events == []
    {
      rootNode := new SceneGraph.Node("root_node", SceneGraph.Plain, rootLocal);
      mainCamera := new SceneGraph.Node("camera0", SceneGraph.ThreeD, cameraLocal);
      lights := new Lights.Rosters();
      trace := new SceneGraph.Trace();
    }

    /** `get_node(name)`: the first node in pre-order from the root with the
     *  name, or null when there is none. */
    method GetNode(name: string, ghost nodes: set<SceneGraph.Node>, ghost rank: map<SceneGraph.Node, nat>) returns (r: SceneGraph.Node?)
      requires rootNode in nodes && SceneGraph.Ranked(nodes, rank)
      ensures r == SceneGraph.FirstNamed(SceneGraph.PreOrder(rootNode, nodes, rank), name)
      ensures r != null ==> r.name == name
      ensures r == null <==> forall x :: x in SceneGraph.PreOrder(rootNode, nodes, rank) ==> x.name != name
    {
      r := SceneGraph.GetNodeSearch(name, rootNode, nodes, rank);
    }
  }
}
