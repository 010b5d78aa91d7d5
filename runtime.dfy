/** The traced computation graph handed over by the execution engine, as an arena: tensor nodes and
    function nodes addressed by index, with the runtime identities (`id(...)`) kept as integers. */
module Runtime {
  import opened Lists
  import opened Onnx

  /** A numpy array held by a link (BatchNormalization's running statistics), with its identity. */
  datatype Stat = Stat(id: int, value: Tensor)

  /** A `VariableNode`. `nodeId` is `id(node)`, `varId` is `id(node.get_variable())`; `name` is
      non-null only for parameters ("W", "b", "gamma", ...); `creator` indexes the producing
      function node. */
  datatype TensorNode = TensorNode(
    nodeId: int, varId: int, name: Option<string>, creator: Option<nat>, rank: int,
    elemType: int, shape: seq<int>)

  /** The class-specific attributes a translator reads from a function node. */
  datatype Config =
    | NoConfig
    | ConvConfig(sy: int, sx: int, ph: int, pw: int)
    | PoolConfig(kh: int, kw: int, sy: int, sx: int, ph: int, pw: int)
    | ReshapeConfig(shape: seq<int>)
    | BatchNormConfig(eps: real, decay: real, runningMean: Stat, runningVar: Stat)
    | SoftmaxConfig(axis: int)

  /** A `FunctionNode`: class name (the kind tag), rank, ordered inputs and outputs (indices of
      tensor nodes) and its class-specific attributes. */
  datatype FunctionNode = FunctionNode(
    className: string, rank: int, inputs: seq<nat>, outputs: seq<nat>, config: Config)

  datatype Graph = Graph(vars: seq<TensorNode>, funcs: seq<FunctionNode>)

  /** The attributes a runtime class always has. */
  predicate ConfigFits(className: string, c: Config)
  {
    && (className == "Convolution2DFunction" ==> c.ConvConfig?)
    && (className == "AveragePooling2D" ==> c.PoolConfig?)
    && (className == "MaxPooling2D" ==> c.PoolConfig?)
    && (className == "Reshape" ==> c.ReshapeConfig?)
    && (className == "BatchNormalization" ==> c.BatchNormConfig?)
    && (className == "Softmax" ==> c.SoftmaxConfig?)
  }

  predicate FuncValid(g: Graph, fn: FunctionNode)
  {
    && (forall i :: 0 <= i < |fn.inputs| ==> fn.inputs[i] < |g.vars|)
    && (forall i :: 0 <= i < |fn.outputs| ==> fn.outputs[i] < |g.vars|)
    && ConfigFits(fn.className, fn.config)
  }

  /** Every link of the arena points into it. Acyclicity is not needed by anything proved here. */
  predicate Valid(g: Graph)
  {
    && (forall v :: 0 <= v < |g.vars| && g.vars[v].creator.Some? ==> g.vars[v].creator.value < |g.funcs|)
    && (forall f :: 0 <= f < |g.funcs| ==> FuncValid(g, g.funcs[f]))
  }

  /** A worklist candidate: a tensor node or a function node. */
  datatype Cand = VarCand(v: nat) | FuncCand(f: nat)

  /** A (producer, consumer) pair as kept in `seen_edges`. */
  datatype Edge = Edge(from: Cand, to: Cand)

  predicate CandOk(g: Graph, c: Cand)
  {
    match c
    case VarCand(v) => v < |g.vars|
    case FuncCand(f) => f < |g.funcs|
  }

  function Rank(g: Graph, c: Cand): int
    requires CandOk(g, c)
  {
    match c
    case VarCand(v) => g.vars[v].rank
    case FuncCand(f) => g.funcs[f].rank
  }

  /** Edges from a function node to each tensor it created. */
  function CreatorEdges(g: Graph): set<Edge>
  {
    set v | 0 <= v < |g.vars| && g.vars[v].creator.Some? :: Edge(FuncCand(g.vars[v].creator.value), VarCand(v))
  }

  /** Edges from each input tensor to the function node consuming it. */
  function InputEdges(g: Graph): set<Edge>
  {
    set f, i | 0 <= f < |g.funcs| && 0 <= i < |g.funcs[f].inputs| :: Edge(VarCand(g.funcs[f].inputs[i]), FuncCand(f))
  }

  /** Every edge the walk can ever record: a finite set. */
  function AllEdges(g: Graph): set<Edge>
  {
    CreatorEdges(g) + InputEdges(g)
  }
}
