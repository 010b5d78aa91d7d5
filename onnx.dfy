/** The records the exporter populates (the target graph format's node, tensor and graph schema),
    the errors an export can end with, and the fixed translation table `_layers`. */
module Onnx {

  /** A raw tensor: element type code, shape and buffer. The buffer is carried unchanged and its
      numbers are never interpreted. */
  datatype Tensor = Tensor(elemType: int, shape: seq<int>, data: seq<int>)

  /** An element of a translator's `input_names` list: an object identity (a Python int) before the
      rewrite, a `str` after it. */
  datatype Entry = Ident(id: int) | Str(s: string)

  /** The attribute record of each kind of translated node. Floating-point values are opaque. */
  datatype Attrs =
    | NoAttrs
    | ConvAttrs(kernelShape: seq<int>, strides: seq<int>, pads: seq<int>)
    | GemmAttrs(alpha: real, beta: real, broadcast: bool, transA: bool, transB: bool)
    | ReshapeAttrs(shape: seq<int>)
    | PoolAttrs(kernelShape: seq<int>, pads: seq<int>, strides: seq<int>)
    | BatchNormAttrs(epsilon: real, isTest: bool, momentum: real, spatial: bool, consumedInputs: seq<bool>)
    | SoftmaxAttrs(axis: int)

  /** `helper.make_node(op_type, inputs, outputs, **attrs)`. */
  datatype OnnxNode = OnnxNode(opType: string, inputs: seq<string>, outputs: seq<string>, attrs: Attrs)

  /** `helper.make_tensor_value_info(name, elem_type, shape)`: a named, typed, shaped descriptor. */
  datatype ValueInfo = ValueInfo(name: string, elemType: int, shape: seq<int>)

  /** `numpy_helper.from_array(array, name)`: a named constant tensor. */
  datatype Initializer = Initializer(name: string, value: Tensor)

  /** `helper.make_graph(nodes, name, inputs, outputs, initializer=...)`. */
  datatype OnnxGraph = OnnxGraph(
    nodes: seq<OnnxNode>, name: string, inputs: seq<ValueInfo>, outputs: seq<ValueInfo>,
    initializers: seq<Initializer>)

  /** `helper.make_model(graph, producer_name=..., producer_version=...)`. */
  datatype OnnxModel = OnnxModel(graph: OnnxGraph, producerName: string, producerVersion: string)

  /** The exceptions an export can end with, one per Python error condition in the core. */
  datatype Error =
    | UnsupportedOperator(className: string)   // create_node: a kind tag outside its branches
    | MissingAttribute(attr: string)           // a link attribute (W, b, gamma, beta) the walk never attached
    | UnknownParameter(id: int)                // param_names[...] has no entry for this identity
    | NotInList(id: int)                       // input_names.index(...) does not find this identity
    | NotInTable(className: string)            // the operator table has no entry for this class name
    | NoInput                                  // func.inputs[0] on a function without inputs
    | UnboundOutput(id: int)                   // a model output whose slot was never rewritten

  datatype Result<+T> = Success(value: T) | Failure(error: Error)

  datatype Outcome = Pass | Fail(error: Error)

  /** `_layers`: runtime class name to target operator kind. */
  const Layers: map<string, string> := map[
    "LinearFunction" := "Gemm",
    "Reshape" := "Reshape",
    "Convolution2DFunction" := "Conv",
    "AveragePooling2D" := "AveragePool",
    "MaxPooling2D" := "MaxPool",
    "BatchNormalization" := "BatchNormalization",
    "ReLU" := "Relu",
    "Softmax" := "Softmax",
    "Add" := "Add",
    "Sub" := "Sub",
    "Mul" := "Mul",
    "Neg" := "Neg",
    "Absolute" := "Abs",
    "Div" := "Div"
  ]

  /** Every operator kind a translation can emit: the table's values and the two global pools. */
  const TranslatedOpTypes: set<string> := {
    "Gemm", "Reshape", "Conv", "AveragePool", "MaxPool", "BatchNormalization", "Relu", "Softmax",
    "Add", "Sub", "Mul", "Neg", "Abs", "Div", "GlobalAveragePool", "GlobalMaxPool"
  }

  lemma TranslatedOpTypesAreTableValues()
    ensures TranslatedOpTypes == Layers.Values + {"GlobalAveragePool", "GlobalMaxPool"}
  {
    assert Layers["LinearFunction"] == "Gemm";
    assert Layers["Reshape"] == "Reshape";
    assert Layers["Convolution2DFunction"] == "Conv";
    assert Layers["AveragePooling2D"] == "AveragePool";
    assert Layers["MaxPooling2D"] == "MaxPool";
    assert Layers["BatchNormalization"] == "BatchNormalization";
    assert Layers["ReLU"] == "Relu";
    assert Layers["Softmax"] == "Softmax";
    assert Layers["Add"] == "Add";
    assert Layers["Sub"] == "Sub";
    assert Layers["Mul"] == "Mul";
    assert Layers["Neg"] == "Neg";
    assert Layers["Absolute"] == "Abs";
    assert Layers["Div"] == "Div";
  }
}
