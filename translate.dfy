/** Operator translation: the `convert_*` translators, `create_node`'s dispatch, and the shared
    build context (`param_names`, `parameters`, `input_tensors`) they append to. */
module Translate {
  import opened Lists
  import opened Text
  import opened Onnx
  import opened Runtime

  /** A function node as its translator sees it: class name and class attributes, the parameter
      variables the walk attached to it under their input names (`setattr(cand, input_.name, ...)`),
      its input tensor nodes, and the identities of its output nodes. */
  datatype Link = Link(
    className: string, config: Config, attached: map<string, TensorNode>,
    inputs: seq<TensorNode>, outputIds: seq<int>)

  /** One entry of `model.namedparams()`: hierarchical name, identity of the parameter, its array. */
  datatype NamedParam = NamedParam(name: string, id: int, value: Tensor)

  /** The caller's `input_names` list, which the translators rewrite in place. */
  class NameList {
    var entries: seq<Entry>

    constructor (init: seq<Entry>)
      ensures entries == init
    {
      entries := init;
    }
  }

  // ---- input-name rewriting ----

  /** `str(x)` of an entry: an identity becomes its decimal text, a string stays as it is. */
  function AsText(e: Entry): string
  {
    match e
    case Ident(n) => IntToString(n)
    case Str(s) => s
  }

  /** The list after `for i, x in enumerate(l): if type(x) is not str: l[i] = str(x)`. */
  function Stringified(s: seq<Entry>): seq<Entry>
  {
    seq(|s|, i requires 0 <= i < |s| => Str(AsText(s[i])))
  }

  /** The strings a node receives as its input names. */
  function Texts(s: seq<Entry>): seq<string>
  {
    seq(|s|, i requires 0 <= i < |s| => AsText(s[i]))
  }

  predicate AllStr(s: seq<Entry>)
  {
    forall i :: 0 <= i < |s| ==> s[i].Str?
  }

  /** Stringification keeps length and positions, leaves strings alone, and is idempotent. */
  lemma StringifiedProperties(s: seq<Entry>)
    ensures |Stringified(s)| == |s| && AllStr(Stringified(s))
    ensures forall i :: 0 <= i < |s| && s[i].Str? ==> Stringified(s)[i] == s[i]
    ensures Stringified(Stringified(s)) == Stringified(s)
    ensures Texts(Stringified(s)) == Texts(s)
  {
  }

  method StringifyInPlace(names: NameList)
    modifies names
    ensures names.entries == Stringified(old(names.entries))
  {
    var i := 0;
    while i < |names.entries|
      invariant 0 <= i <= |names.entries| == |old(names.entries)|
      invariant forall k :: 0 <= k < i ==> names.entries[k] == Str(AsText(old(names.entries)[k]))
      invariant forall k :: i <= k < |names.entries| ==> names.entries[k] == old(names.entries)[k]
    {
      if names.entries[i].Ident? {
        names.entries := names.entries[i := Str(IntToString(names.entries[i].id))];
      }
      i := i + 1;
    }
  }

  /** `input_names[input_names.index(id(link.<key>))] = param_names[id(link.<key>)]`. Reading
      `link.<key>` fails first if the walk attached no such input; then either the name lookup
      (right-hand side first, as Python evaluates it) or the index search fails, in the order
      `indexFirst` selects. */
  function Substitute(
    entries: seq<Entry>, attached: map<string, TensorNode>, paramNames: map<int, string>,
    key: string, indexFirst: bool): (r: Result<seq<Entry>>)
    ensures r.Success? <==>
      key in attached && attached[key].varId in paramNames && Ident(attached[key].varId) in entries
    ensures key !in attached ==> r == Failure(MissingAttribute(key))
    ensures r.Failure? && key in attached ==>
      r.error == UnknownParameter(attached[key].varId) || r.error == NotInList(attached[key].varId)
    ensures r.Success? ==>
      var id := attached[key].varId;
      exists k :: 0 <= k < |entries| && entries[k] == Ident(id) && Ident(id) !in entries[..k]
        && r.value == entries[k := Str(paramNames[id])]
  {
    if key !in attached then Failure(MissingAttribute(key))
    else
      var id := attached[key].varId;
      var k := IndexOf(entries, Ident(id));
      if indexFirst && k.None? then Failure(NotInList(id))
      else if id !in paramNames then Failure(UnknownParameter(id))
      else if k.None? then Failure(NotInList(id))
      else Success(entries[k.value := Str(paramNames[id])])
  }

  method SubstituteInPlace(
    names: NameList, attached: map<string, TensorNode>, paramNames: map<int, string>,
    key: string, indexFirst: bool) returns (ok: Outcome)
    modifies names
    ensures match Substitute(old(names.entries), attached, paramNames, key, indexFirst)
      case Failure(e) => ok == Fail(e) && names.entries == old(names.entries)
      case Success(s) => ok == Pass && names.entries == s
  {
    if key !in attached {
      return Fail(MissingAttribute(key));
    }
    var id := attached[key].varId;
    var k := IndexOf(names.entries, Ident(id));
    if indexFirst && k.None? {
      return Fail(NotInList(id));
    }
    if id !in paramNames {
      return Fail(UnknownParameter(id));
    }
    if k.None? {
      return Fail(NotInList(id));
    }
    names.entries := names.entries[k.value := Str(paramNames[id])];
    ok := Pass;
  }

  /** The rewrite of Convolution2D and Linear: W always, b only if the link has one. */
  function WeightAndBias(entries: seq<Entry>, attached: map<string, TensorNode>, paramNames: map<int, string>): (r: Result<seq<Entry>>)
    ensures r.Success? ==> "W" in attached && |r.value| == |entries|
    ensures r.Failure? ==> r.error.MissingAttribute? || r.error.UnknownParameter? || r.error.NotInList?
  {
    match Substitute(entries, attached, paramNames, "W", false)
    case Failure(e) => Failure(e)
    case Success(s) =>
      if "b" in attached then Substitute(s, attached, paramNames, "b", false) else Success(s)
  }

  /** The rewrite of BatchNormalization: gamma, then beta, each searched for before its name is
      looked up. */
  function GammaBeta(entries: seq<Entry>, attached: map<string, TensorNode>, paramNames: map<int, string>): (r: Result<seq<Entry>>)
    ensures r.Success? ==> "gamma" in attached && "beta" in attached && |r.value| == |entries|
    ensures r.Failure? ==> r.error.MissingAttribute? || r.error.UnknownParameter? || r.error.NotInList?
  {
    match Substitute(entries, attached, paramNames, "gamma", true)
    case Failure(e) => Failure(e)
    case Success(s) => Substitute(s, attached, paramNames, "beta", true)
  }

  /** A slot of a rewritten list holds either its original entry stringified, or the name of
      one of the parameters `ids` whose identity it held. */
  predicate SlotRewritten(before: Entry, after: Entry, ids: set<int>, paramNames: map<int, string>)
  {
    || after == Str(AsText(before))
    || (before.Ident? && before.id in ids && before.id in paramNames && after == Str(paramNames[before.id]))
  }

  /** One substitution changes exactly one slot, which held the identity, and leaves every string
      where it was. */
  lemma SubstituteSlots(
    entries: seq<Entry>, attached: map<string, TensorNode>, paramNames: map<int, string>,
    key: string, indexFirst: bool)
    requires Substitute(entries, attached, paramNames, key, indexFirst).Success?
    ensures var s := Substitute(entries, attached, paramNames, key, indexFirst).value;
      var id := attached[key].varId;
      && |s| == |entries|
      && Str(paramNames[id]) in s
      && (forall j :: 0 <= j < |entries| ==> s[j] == entries[j] || (entries[j] == Ident(id) && s[j] == Str(paramNames[id])))
      && (forall j :: 0 <= j < |entries| && entries[j].Str? ==> s[j] == entries[j])
  {
    var s := Substitute(entries, attached, paramNames, key, indexFirst).value;
    var id := attached[key].varId;
    var k :| 0 <= k < |entries| && entries[k] == Ident(id) && Ident(id) !in entries[..k]
      && s == entries[k := Str(paramNames[id])];
    assert s[k] == Str(paramNames[id]);
  }

  /** Two substitutions followed by stringification: no identity is left, both parameter names
      appear, and every other slot is its original entry as text. */
  lemma SubstituteTwiceSlots(
    entries: seq<Entry>, attached: map<string, TensorNode>, paramNames: map<int, string>,
    key1: string, key2: string, indexFirst: bool)
    requires Substitute(entries, attached, paramNames, key1, indexFirst).Success?
    requires Substitute(Substitute(entries, attached, paramNames, key1, indexFirst).value,
                        attached, paramNames, key2, indexFirst).Success?
    ensures var s1 := Substitute(entries, attached, paramNames, key1, indexFirst).value;
      var out := Stringified(Substitute(s1, attached, paramNames, key2, indexFirst).value);
      var ids := {attached[key1].varId, attached[key2].varId};
      && |out| == |entries| && AllStr(out)
      && (forall id :: id in ids ==> id in paramNames && Str(paramNames[id]) in out)
      && (forall j :: 0 <= j < |entries| ==> SlotRewritten(entries[j], out[j], ids, paramNames))
  {
    var s1 := Substitute(entries, attached, paramNames, key1, indexFirst).value;
    var s2 := Substitute(s1, attached, paramNames, key2, indexFirst).value;
    var id1, id2 := attached[key1].varId, attached[key2].varId;
    SubstituteSlots(entries, attached, paramNames, key1, indexFirst);
    SubstituteSlots(s1, attached, paramNames, key2, indexFirst);
    StringifiedProperties(s2);
    var out := Stringified(s2);
    var k1 :| 0 <= k1 < |s1| && s1[k1] == Str(paramNames[id1]);
    assert out[k1] == Str(paramNames[id1]);
    var k2 :| 0 <= k2 < |s2| && s2[k2] == Str(paramNames[id2]);
    assert out[k2] == Str(paramNames[id2]);
  }

  /** The slots after Convolution2D's or Linear's rewrite. */
  lemma WeightAndBiasSlots(entries: seq<Entry>, attached: map<string, TensorNode>, paramNames: map<int, string>)
    requires WeightAndBias(entries, attached, paramNames).Success?
    ensures var out := Stringified(WeightAndBias(entries, attached, paramNames).value);
      var ids := if "b" in attached then {attached["W"].varId, attached["b"].varId} else {attached["W"].varId};
      && |out| == |entries| && AllStr(out)
      && (forall id :: id in ids ==> id in paramNames && Str(paramNames[id]) in out)
      && (forall j :: 0 <= j < |entries| ==> SlotRewritten(entries[j], out[j], ids, paramNames))
  {
    if "b" in attached {
      SubstituteTwiceSlots(entries, attached, paramNames, "W", "b", false);
    } else {
      var s := WeightAndBias(entries, attached, paramNames).value;
      SubstituteSlots(entries, attached, paramNames, "W", false);
      StringifiedProperties(s);
      var k :| 0 <= k < |s| && s[k] == Str(paramNames[attached["W"].varId]);
      assert Stringified(s)[k] == s[k];
    }
  }

  /** The slots after BatchNormalization's rewrite (before the statistics are appended). */
  lemma GammaBetaSlots(entries: seq<Entry>, attached: map<string, TensorNode>, paramNames: map<int, string>)
    requires GammaBeta(entries, attached, paramNames).Success?
    ensures var out := Stringified(GammaBeta(entries, attached, paramNames).value);
      var ids := {attached["gamma"].varId, attached["beta"].varId};
      && |out| == |entries| && AllStr(out)
      && (forall id :: id in ids ==> id in paramNames && Str(paramNames[id]) in out)
      && (forall j :: 0 <= j < |entries| ==> SlotRewritten(entries[j], out[j], ids, paramNames))
  {
    SubstituteTwiceSlots(entries, attached, paramNames, "gamma", "beta", true);
  }

  /** The identities of the parameters attached to a link. */
  function AttachedIds(attached: map<string, TensorNode>): set<int>
  {
    set key | key in attached :: attached[key].varId
  }

  lemma KeyIdAttached(attached: map<string, TensorNode>, key: string)
    requires key in attached
    ensures attached[key].varId in AttachedIds(attached)
  {
  }

  /** A node's input names follow the walk's bindings position by position: each is the binding
      as text, or, where the binding is the identity of an attached parameter, that parameter's
      name. Extra trailing names are allowed (BatchNormalization's statistics). */
  predicate NamesRewritten(before: seq<Entry>, after: seq<string>, ids: set<int>, paramNames: map<int, string>)
  {
    && |after| >= |before|
    && forall j :: 0 <= j < |before| ==>
         || after[j] == AsText(before[j])
         || (before[j].Ident? && before[j].id in ids && before[j].id in paramNames && after[j] == paramNames[before[j].id])
  }

  lemma SlotsToNames(before: seq<Entry>, after: seq<Entry>, ids: set<int>, allIds: set<int>, paramNames: map<int, string>)
    requires |after| >= |before| && ids <= allIds
    requires forall j :: 0 <= j < |before| ==> SlotRewritten(before[j], after[j], ids, paramNames)
    ensures NamesRewritten(before, Texts(after), allIds, paramNames)
  {
  }

  // ---- node construction ----

  /** `[str(id(out())) for out in link.outputs]`. */
  function OutNames(ids: seq<int>): seq<string>
  {
    seq(|ids|, i requires 0 <= i < |ids| => IntToString(ids[i]))
  }

  /** Distinct output identities give distinct output names, none of them a path. */
  lemma OutNamesDistinct(ids: seq<int>)
    ensures |OutNames(ids)| == |ids|
    ensures forall i, j :: 0 <= i < |ids| && 0 <= j < |ids| ==> (OutNames(ids)[i] == OutNames(ids)[j] <==> ids[i] == ids[j])
    ensures forall i :: 0 <= i < |ids| ==> '/' !in OutNames(ids)[i]
  {
    forall i, j | 0 <= i < |ids| && 0 <= j < |ids|
      ensures OutNames(ids)[i] == OutNames(ids)[j] <==> ids[i] == ids[j]
    {
      IntToStringInjective(ids[i], ids[j]);
    }
    forall i | 0 <= i < |ids|
      ensures '/' !in OutNames(ids)[i]
    {
      IntToStringHasNoSlash(ids[i]);
    }
  }

  /** `shape[2:]` with Python's slicing (empty when the shape is shorter). */
  function SpatialDims(shape: seq<int>): seq<int>
  {
    if |shape| >= 2 then shape[2..] else []
  }

  /** Python's `func.inputs[0].shape[2:] == (func.kh, func.kw)`. */
  predicate IsGlobalPool(inputShape: seq<int>, c: Config)
    requires c.PoolConfig?
  {
    SpatialDims(inputShape) == [c.kh, c.kw]
  }

  function ConvNode(opType: string, inputs: seq<string>, link: Link): OnnxNode
    requires "W" in link.attached && link.config.ConvConfig?
  {
    var c := link.config;
    OnnxNode(opType, inputs, OutNames(link.outputIds),
      ConvAttrs(SpatialDims(link.attached["W"].shape), [c.sy, c.sx], [c.ph, c.pw]))
  }

  const GemmDefaults: Attrs := GemmAttrs(1.0, 1.0, true, false, false)

  /** The node a pooling translator emits: the global variant without attributes exactly when the
      window covers the input's spatial shape, the windowed one otherwise. */
  function PoolNode(layer: string, inputs: seq<string>, outputs: seq<string>, c: Config, inputShape: seq<int>): (n: OnnxNode)
    requires c.PoolConfig?
    ensures n.inputs == inputs && n.outputs == outputs
    ensures n.opType == "Global" + layer <==> IsGlobalPool(inputShape, c)
    ensures n.attrs == NoAttrs <==> IsGlobalPool(inputShape, c)
    ensures !IsGlobalPool(inputShape, c) ==>
      n.opType == layer && n.attrs == PoolAttrs([c.kh, c.kw], [c.ph, c.pw], [c.sy, c.sx])
  {
    if !IsGlobalPool(inputShape, c) then
      OnnxNode(layer, inputs, outputs, PoolAttrs([c.kh, c.kw], [c.ph, c.pw], [c.sy, c.sx]))
    else
      assert |"Global" + layer| != |layer|;
      OnnxNode("Global" + layer, inputs, outputs, NoAttrs)
  }

  const ConsumedInputs: seq<bool> := [false, false, false, true, true]

  /** BatchNormalization's outputs: the link's own, then in training mode four names in the layer
      directory. */
  function BatchNormOutputs(outs: seq<string>, dir: string, train: bool): seq<string>
  {
    if train then outs + TrainingOutputs(dir) else outs
  }

  /** The four outputs training mode adds: mean, var, saved_mean and saved_var of the layer. */
  function TrainingOutputs(dir: string): seq<string>
  {
    [Join(dir, "mean"), Join(dir, "var"), Join(dir, "saved_mean"), Join(dir, "saved_var")]
  }

  function BatchNormAttrsOf(c: Config, train: bool): Attrs
    requires c.BatchNormConfig?
  {
    BatchNormAttrs(c.eps, !train, c.decay, true, ConsumedInputs)
  }

  /** Either the single node built under the table's name for the class, or the table's KeyError. */
  function InTable(className: string, node: OnnxNode): Result<seq<OnnxNode>>
  {
    if className in Layers then Success([node]) else Failure(NotInTable(className))
  }

  function LayerOf(className: string): string
  {
    if className in Layers then Layers[className] else ""
  }

  // ---- the translators ----

  method ConvertConvolution2D(link: Link, names: NameList, paramNames: map<int, string>) returns (r: Result<seq<OnnxNode>>)
    requires link.config.ConvConfig?
    modifies names
    ensures match WeightAndBias(old(names.entries), link.attached, paramNames)
      case Failure(e) => r == Failure(e)
      case Success(s) =>
        names.entries == Stringified(s)
        && r == InTable(link.className, ConvNode(LayerOf(link.className), Texts(s), link))
  {
    var ok := SubstituteInPlace(names, link.attached, paramNames, "W", false);
    if ok.Fail? {
      return Failure(ok.error);
    }
    if "b" in link.attached {
      ok := SubstituteInPlace(names, link.attached, paramNames, "b", false);
      if ok.Fail? {
        return Failure(ok.error);
      }
    }
    ghost var s := names.entries;
    StringifyInPlace(names);
    StringifiedProperties(s);
    if link.className !in Layers {
      return Failure(NotInTable(link.className));
    }
    var layer := Layers[link.className];
    r := Success([ConvNode(layer, Texts(names.entries), link)]);
  }

  method ConvertLinear(link: Link, names: NameList, paramNames: map<int, string>) returns (r: Result<seq<OnnxNode>>)
    modifies names
    ensures match WeightAndBias(old(names.entries), link.attached, paramNames)
      case Failure(e) => r == Failure(e)
      case Success(s) =>
        names.entries == Stringified(s)
        && r == InTable(link.className, OnnxNode(LayerOf(link.className), Texts(s), OutNames(link.outputIds), GemmDefaults))
  {
    var ok := SubstituteInPlace(names, link.attached, paramNames, "W", false);
    if ok.Fail? {
      return Failure(ok.error);
    }
    if "b" in link.attached {
      ok := SubstituteInPlace(names, link.attached, paramNames, "b", false);
      if ok.Fail? {
        return Failure(ok.error);
      }
    }
    ghost var s := names.entries;
    StringifyInPlace(names);
    StringifiedProperties(s);
    if link.className !in Layers {
      return Failure(NotInTable(link.className));
    }
    var layer := Layers[link.className];
    r := Success([OnnxNode(layer, Texts(names.entries), OutNames(link.outputIds), GemmDefaults)]);
  }

  method ConvertReshape(link: Link, names: NameList) returns (r: Result<seq<OnnxNode>>)
    requires link.config.ReshapeConfig?
    modifies names
    ensures names.entries == Stringified(old(names.entries))
    ensures r == InTable(link.className,
      OnnxNode(LayerOf(link.className), Texts(old(names.entries)), OutNames(link.outputIds), ReshapeAttrs(link.config.shape)))
  {
    StringifyInPlace(names);
    StringifiedProperties(old(names.entries));
    if link.className !in Layers {
      return Failure(NotInTable(link.className));
    }
    var layer := Layers[link.className];
    r := Success([OnnxNode(layer, Texts(names.entries), OutNames(link.outputIds), ReshapeAttrs(link.config.shape))]);
  }

  /** The body shared by `convert_average_pooling_2d` and `convert_max_pooling_2d`; the two differ
      only in the class name they look up. */
  method ConvertPooling2D(link: Link, names: NameList) returns (r: Result<seq<OnnxNode>>)
    requires link.config.PoolConfig?
    modifies names
    ensures names.entries == Stringified(old(names.entries))
    ensures link.className !in Layers ==> r == Failure(NotInTable(link.className))
    ensures link.className in Layers && |link.inputs| == 0 ==> r == Failure(NoInput)
    ensures link.className in Layers && |link.inputs| > 0 ==>
      r == Success([PoolNode(Layers[link.className], Texts(old(names.entries)), OutNames(link.outputIds),
                             link.config, link.inputs[0].shape)])
  {
    StringifyInPlace(names);
    StringifiedProperties(old(names.entries));
    if link.className !in Layers {
      return Failure(NotInTable(link.className));
    }
    var layer := Layers[link.className];
    if |link.inputs| == 0 {
      return Failure(NoInput);
    }
    r := Success([PoolNode(layer, Texts(names.entries), OutNames(link.outputIds), link.config, link.inputs[0].shape)]);
  }

  method ConvertAveragePooling2D(link: Link, names: NameList) returns (r: Result<seq<OnnxNode>>)
    requires link.config.PoolConfig?
    modifies names
    ensures names.entries == Stringified(old(names.entries))
    ensures link.className !in Layers ==> r == Failure(NotInTable(link.className))
    ensures link.className in Layers && |link.inputs| == 0 ==> r == Failure(NoInput)
    ensures link.className in Layers && |link.inputs| > 0 ==>
      r == Success([PoolNode(Layers[link.className], Texts(old(names.entries)), OutNames(link.outputIds),
                             link.config, link.inputs[0].shape)])
  {
    r := ConvertPooling2D(link, names);
  }

  method ConvertMaxPooling2D(link: Link, names: NameList) returns (r: Result<seq<OnnxNode>>)
    requires link.config.PoolConfig?
    modifies names
    ensures names.entries == Stringified(old(names.entries))
    ensures link.className !in Layers ==> r == Failure(NotInTable(link.className))
    ensures link.className in Layers && |link.inputs| == 0 ==> r == Failure(NoInput)
    ensures link.className in Layers && |link.inputs| > 0 ==>
      r == Success([PoolNode(Layers[link.className], Texts(old(names.entries)), OutNames(link.outputIds),
                             link.config, link.inputs[0].shape)])
  {
    r := ConvertPooling2D(link, names);
  }

  /** The input list BatchNormalization ends with: the rewritten inputs, then the names of the
      running mean and variance. */
  function BatchNormInputs(s: seq<Entry>, meanName: string, varName: string): (ins: seq<Entry>)
    ensures |ins| == |s| + 2
  {
    Stringified(s) + [Str(meanName), Str(varName)]
  }

  method ConvertBatchNormalization(link: Link, names: NameList, paramNames: map<int, string>, train: bool)
    returns (r: Result<seq<OnnxNode>>)
    requires link.config.BatchNormConfig?
    modifies names
    ensures match GammaBeta(old(names.entries), link.attached, paramNames)
      case Failure(e) => r == Failure(e)
      case Success(s) =>
        var meanId := link.config.runningMean.id;
        var varId := link.config.runningVar.id;
        if meanId !in paramNames then r == Failure(UnknownParameter(meanId))
        else if varId !in paramNames then r == Failure(UnknownParameter(varId))
        else
          var ins := BatchNormInputs(s, paramNames[meanId], paramNames[varId]);
          names.entries == ins
          && r == InTable(link.className,
               OnnxNode(LayerOf(link.className), Texts(ins),
                 BatchNormOutputs(OutNames(link.outputIds), Dirname(AsText(ins[1])), train),
                 BatchNormAttrsOf(link.config, train)))
  {
    var ok := SubstituteInPlace(names, link.attached, paramNames, "gamma", true);
    if ok.Fail? {
      return Failure(ok.error);
    }
    ok := SubstituteInPlace(names, link.attached, paramNames, "beta", true);
    if ok.Fail? {
      return Failure(ok.error);
    }
    StringifyInPlace(names);
    var meanId := link.config.runningMean.id;
    if meanId !in paramNames {
      return Failure(UnknownParameter(meanId));
    }
    names.entries := names.entries + [Str(paramNames[meanId])];
    var varId := link.config.runningVar.id;
    if varId !in paramNames {
      return Failure(UnknownParameter(varId));
    }
    names.entries := names.entries + [Str(paramNames[varId])];
    if link.className !in Layers {
      return Failure(NotInTable(link.className));
    }
    var layer := Layers[link.className];
    var uniqueLayerName := Dirname(AsText(names.entries[1]));
    var outNames := OutNames(link.outputIds);
    if train {
      outNames := outNames + [Join(uniqueLayerName, "mean"), Join(uniqueLayerName, "var"),
                              Join(uniqueLayerName, "saved_mean"), Join(uniqueLayerName, "saved_var")];
    }
    r := Success([OnnxNode(layer, Texts(names.entries), outNames, BatchNormAttrsOf(link.config, train))]);
  }

  /** `convert_relu`, `convert_softmax` and `convert_nonparametric_function` share this shape:
      stringify, name the outputs, attach `attrs`. */
  method ConvertPlain(link: Link, names: NameList, attrs: Attrs) returns (r: Result<seq<OnnxNode>>)
    modifies names
    ensures names.entries == Stringified(old(names.entries))
    ensures r == InTable(link.className, OnnxNode(LayerOf(link.className), Texts(old(names.entries)), OutNames(link.outputIds), attrs))
  {
    StringifyInPlace(names);
    StringifiedProperties(old(names.entries));
    if link.className !in Layers {
      return Failure(NotInTable(link.className));
    }
    var layer := Layers[link.className];
    r := Success([OnnxNode(layer, Texts(names.entries), OutNames(link.outputIds), attrs)]);
  }

  method ConvertReLU(link: Link, names: NameList) returns (r: Result<seq<OnnxNode>>)
    modifies names
    ensures names.entries == Stringified(old(names.entries))
    ensures r == InTable(link.className, OnnxNode(LayerOf(link.className), Texts(old(names.entries)), OutNames(link.outputIds), NoAttrs))
  {
    r := ConvertPlain(link, names, NoAttrs);
  }

  method ConvertSoftmax(link: Link, names: NameList) returns (r: Result<seq<OnnxNode>>)
    requires link.config.SoftmaxConfig?
    modifies names
    ensures names.entries == Stringified(old(names.entries))
    ensures r == InTable(link.className, OnnxNode(LayerOf(link.className), Texts(old(names.entries)), OutNames(link.outputIds), SoftmaxAttrs(link.config.axis)))
  {
    r := ConvertPlain(link, names, SoftmaxAttrs(link.config.axis));
  }

  method ConvertNonparametric(link: Link, names: NameList) returns (r: Result<seq<OnnxNode>>)
    modifies names
    ensures names.entries == Stringified(old(names.entries))
    ensures r == InTable(link.className, OnnxNode(LayerOf(link.className), Texts(old(names.entries)), OutNames(link.outputIds), NoAttrs))
  {
    r := ConvertPlain(link, names, NoAttrs);
  }

  // ---- dispatch and the build context ----

  /** `opType` is what translating a node of class `className` can produce. */
  predicate IsTranslationOf(className: string, opType: string)
  {
    && className in Layers
    && (opType == Layers[className]
        || ((className == "AveragePooling2D" || className == "MaxPooling2D") && opType == "Global" + Layers[className]))
  }

  lemma TranslationsAreKnownKinds(className: string, opType: string)
    requires IsTranslationOf(className, opType)
    ensures opType in TranslatedOpTypes
  {
    assert "Global" + "AveragePool" == "GlobalAveragePool";
    assert "Global" + "MaxPool" == "GlobalMaxPool";
  }

  function ParamNameMap(params: seq<NamedParam>): map<int, string>
  {
    if params == [] then map[]
    else ParamNameMap(params[..|params| - 1])[params[|params| - 1].id := params[|params| - 1].name]
  }

  function ParamInitializers(params: seq<NamedParam>): seq<Initializer>
  {
    seq(|params|, i requires 0 <= i < |params| => Initializer(params[i].name, params[i].value))
  }

  function ParamDescriptors(params: seq<NamedParam>): seq<ValueInfo>
  {
    seq(|params|, i requires 0 <= i < |params| => ValueInfo(params[i].name, params[i].value.elemType, params[i].value.shape))
  }

  lemma {:induction false} ParamNameMapKeys(params: seq<NamedParam>)
    ensures ParamNameMap(params).Keys == set i | 0 <= i < |params| :: params[i].id
  {
    if params != [] {
      var init := params[..|params| - 1];
      ParamNameMapKeys(init);
      assert forall i :: 0 <= i < |init| ==> init[i] == params[i];
    }
  }

  /** A parameter is named by its own path unless a later parameter has the same identity
      (the dictionary keeps the last assignment). */
  lemma {:induction false} ParamNameMapLookup(params: seq<NamedParam>, i: nat)
    requires i < |params|
    requires forall j :: i < j < |params| ==> params[j].id != params[i].id
    ensures params[i].id in ParamNameMap(params) && ParamNameMap(params)[params[i].id] == params[i].name
  {
    if i < |params| - 1 {
      var init := params[..|params| - 1];
      assert init[i] == params[i];
      assert forall j :: i < j < |init| ==> init[j] == params[j];
      ParamNameMapLookup(init, i);
    }
  }

  /** The names given to BatchNormalization's running statistics, in the directory of gamma's name. */
  function RunningMeanName(gammaName: string): string { Join(Dirname(gammaName), "running_mean") }
  function RunningVarName(gammaName: string): string { Join(Dirname(gammaName), "running_var") }

  /** One pass through create_node's BatchNormalization branch: the name gamma had at that moment,
      and the running statistics it registered. */
  datatype Registration = Registration(gammaName: string, mean: Stat, variance: Stat)

  /** The initializers the registrations added, two per registration, mean first. */
  function StatInitializers(regs: seq<Registration>): seq<Initializer>
  {
    if regs == [] then []
    else
      var r := regs[|regs| - 1];
      StatInitializers(regs[..|regs| - 1])
        + [Initializer(RunningMeanName(r.gammaName), r.mean.value), Initializer(RunningVarName(r.gammaName), r.variance.value)]
  }

  /** The graph inputs the registrations added, two per registration, mean first. */
  function StatDescriptors(regs: seq<Registration>): seq<ValueInfo>
  {
    if regs == [] then []
    else
      var r := regs[|regs| - 1];
      StatDescriptors(regs[..|regs| - 1])
        + [ValueInfo(RunningMeanName(r.gammaName), r.mean.value.elemType, r.mean.value.shape),
           ValueInfo(RunningVarName(r.gammaName), r.variance.value.elemType, r.variance.value.shape)]
  }

  /** Appending one registration's two initializers and two inputs keeps the accumulated lists
      equal to the parameters' entries followed by the registrations'. */
  lemma StatsAppend(params: seq<NamedParam>, regs: seq<Registration>, r: Registration,
                    ps: seq<Initializer>, its: seq<ValueInfo>)
    requires ps == ParamInitializers(params) + StatInitializers(regs)
    requires its == ParamDescriptors(params) + StatDescriptors(regs)
    ensures ps + [Initializer(RunningMeanName(r.gammaName), r.mean.value), Initializer(RunningVarName(r.gammaName), r.variance.value)]
            == ParamInitializers(params) + StatInitializers(regs + [r])
    ensures its + [ValueInfo(RunningMeanName(r.gammaName), r.mean.value.elemType, r.mean.value.shape),
                   ValueInfo(RunningVarName(r.gammaName), r.variance.value.elemType, r.variance.value.shape)]
            == ParamDescriptors(params) + StatDescriptors(regs + [r])
  {
    assert (regs + [r])[..|regs|] == regs;
  }

  /** The state `create_node` shares with `export`: the names map, the initializers, the graph
      inputs, and the registrations made so far. */
  type CtxState = (map<int, string>, seq<Initializer>, seq<ValueInfo>, seq<Registration>)

  /** The state once the parameter-naming loop is over and nothing is registered yet. */
  function InitialContext(params: seq<NamedParam>): CtxState
  {
    (ParamNameMap(params), ParamInitializers(params), ParamDescriptors(params), [])
  }

  /** The context after create_node's BatchNormalization branch: the running mean and variance are
      named after gamma's layer directory and appended, mean first, as initializers and inputs,
      and the registration is recorded. */
  function WithStats(link: Link, c: CtxState): CtxState
    requires link.config.BatchNormConfig? && "gamma" in link.attached && link.attached["gamma"].varId in c.0
  {
    var gammaName := c.0[link.attached["gamma"].varId];
    var rm := link.config.runningMean;
    var rv := link.config.runningVar;
    var m := RunningMeanName(gammaName);
    var v := RunningVarName(gammaName);
    (c.0[rm.id := m][rv.id := v],
     c.1 + [Initializer(m, rm.value), Initializer(v, rv.value)],
     c.2 + [ValueInfo(m, rm.value.elemType, rm.value.shape), ValueInfo(v, rv.value.elemType, rv.value.shape)],
     c.3 + [Registration(gammaName, rm, rv)])
  }

  ghost predicate StatsRegistered(link: Link, c0: CtxState, c1: CtxState)
  {
    && link.config.BatchNormConfig?
    && "gamma" in link.attached
    && link.attached["gamma"].varId in c0.0
    && c1 == WithStats(link, c0)
  }

  /** `create_node` on the context `c`: the result and the context it leaves. BatchNormalization
      first reads gamma's name and registers the statistics, so its translation runs with the
      statistics named, and a translation that then fails leaves them registered. Every other
      class leaves the context as it was. */
  function CreateStep(link: Link, entries: seq<Entry>, c: CtxState, train: bool): (Result<seq<OnnxNode>>, CtxState)
    requires ConfigFits(link.className, link.config)
  {
    match Registered(link, c)
    case Failure(e) => (Failure(e), c)
    case Success(c') => (Translation(link, entries, c'.0, train), c')
  }

  /** The context `create_node` translates with: BatchNormalization's registration of its
      statistics, which fails if gamma was never attached or has no name; any other class's
      context unchanged. */
  function Registered(link: Link, c: CtxState): Result<CtxState>
    requires ConfigFits(link.className, link.config)
  {
    if link.className != "BatchNormalization" then Success(c)
    else if "gamma" !in link.attached then Failure(MissingAttribute("gamma"))
    else if link.attached["gamma"].varId !in c.0 then Failure(UnknownParameter(link.attached["gamma"].varId))
    else Success(WithStats(link, c))
  }

  /** `create_node` keeps the accumulated lists equal to the parameters' entries followed by the
      registrations', changes the context only by one registration of the link's statistics, and
      reports UnsupportedOperator exactly for a class outside the table. */
  lemma CreateStepContext(params: seq<NamedParam>, link: Link, entries: seq<Entry>, c: CtxState, train: bool)
    requires ConfigFits(link.className, link.config)
    requires c.1 == ParamInitializers(params) + StatInitializers(c.3)
    requires c.2 == ParamDescriptors(params) + StatDescriptors(c.3)
    ensures var (r, c') := CreateStep(link, entries, c, train);
      && c'.1 == ParamInitializers(params) + StatInitializers(c'.3)
      && c'.2 == ParamDescriptors(params) + StatDescriptors(c'.3)
      && (c' == c || (link.className == "BatchNormalization" && StatsRegistered(link, c, c')))
      && (c' != c ==> |c'.3| == |c.3| + 1 && c'.3[..|c.3|] == c.3
                      && c'.3[|c.3|].mean == link.config.runningMean
                      && c'.3[|c.3|].variance == link.config.runningVar)
      && (link.className == "BatchNormalization" && r.Success? ==> StatsRegistered(link, c, c'))
      && (r.Failure? ==> (r.error.UnsupportedOperator? <==> link.className !in Layers))
      && (r.Success? ==> |r.value| == 1 && IsTranslationOf(link.className, r.value[0].opType))
  {
    LayersKeys();
    TranslationOutcome(link, entries, c.0, train);
    if link.className == "BatchNormalization" && "gamma" in link.attached && link.attached["gamma"].varId in c.0 {
      var c' := WithStats(link, c);
      var reg := Registration(c.0[link.attached["gamma"].varId], link.config.runningMean, link.config.runningVar);
      StatsAppend(params, c.3, reg, c.1, c.2);
      assert (c.3 + [reg])[..|c.3|] == c.3;
      TranslationOutcome(link, entries, c'.0, train);
    }
  }

  /** When gamma's identity is the second input, as in BatchNormalization's (x, gamma, beta),
      `input_names[1]` after the rewrite is gamma's name. */
  lemma GammaNameAtSecondSlot(
    entries: seq<Entry>, attached: map<string, TensorNode>, paramNames: map<int, string>,
    meanName: string, varName: string)
    requires GammaBeta(entries, attached, paramNames).Success?
    requires |entries| >= 2
    requires entries[0] != Ident(attached["gamma"].varId) && entries[1] == Ident(attached["gamma"].varId)
    ensures AsText(BatchNormInputs(GammaBeta(entries, attached, paramNames).value, meanName, varName)[1])
            == paramNames[attached["gamma"].varId]
  {
    var gid := attached["gamma"].varId;
    var gammaName := paramNames[gid];
    var s1 := Substitute(entries, attached, paramNames, "gamma", true).value;
    var k :| 0 <= k < |entries| && entries[k] == Ident(gid) && Ident(gid) !in entries[..k]
      && s1 == entries[k := Str(gammaName)];
    assert entries[..1] == [entries[0]];
    assert k == 1;
    SubstituteSlots(s1, attached, paramNames, "beta", true);
    var s2 := Substitute(s1, attached, paramNames, "beta", true).value;
    assert s2[1] == Str(gammaName);
    assert BatchNormInputs(s2, meanName, varName)[1] == Stringified(s2)[1];
  }

  /** The running statistics are named inside gamma's layer directory. */
  lemma RunningStatsInLayer(gammaName: string)
    ensures Dirname(RunningMeanName(gammaName)) == Dirname(gammaName)
    ensures Dirname(RunningVarName(gammaName)) == Dirname(gammaName)
  {
    LeafStaysInLayer(gammaName, "running_mean");
    LeafStaysInLayer(gammaName, "running_var");
  }

  /** The training outputs sit inside the layer directory. */
  lemma TrainingOutputsInLayer(gammaName: string)
    ensures |TrainingOutputs(Dirname(gammaName))| == 4
    ensures forall k :: 0 <= k < 4 ==> Dirname(TrainingOutputs(Dirname(gammaName))[k]) == Dirname(gammaName)
  {
    LeafStaysInLayer(gammaName, "mean");
    LeafStaysInLayer(gammaName, "var");
    LeafStaysInLayer(gammaName, "saved_mean");
    LeafStaysInLayer(gammaName, "saved_var");
  }

  /** BatchNormalization keeps the link's outputs first; in training mode it adds four more, all
      inside the layer directory. */
  lemma BatchNormOutputsInLayer(gammaName: string, outs: seq<string>, train: bool)
    ensures var bnOuts := BatchNormOutputs(outs, Dirname(gammaName), train);
      && |bnOuts| == |outs| + (if train then 4 else 0)
      && bnOuts[..|outs|] == outs
      && (forall k :: |outs| <= k < |bnOuts| ==> Dirname(bnOuts[k]) == Dirname(gammaName))
  {
    if train {
      var extra := TrainingOutputs(Dirname(gammaName));
      TrainingOutputsInLayer(gammaName);
      var bnOuts := outs + extra;
      assert bnOuts[..|outs|] == outs;
      assert forall k :: |outs| <= k < |bnOuts| ==> bnOuts[k] == extra[k - |outs|];
    }
  }

  lemma LeafStaysInLayer(gammaName: string, leaf: string)
    requires leaf in {"running_mean", "running_var", "mean", "var", "saved_mean", "saved_var"}
    ensures Dirname(Join(Dirname(gammaName), leaf)) == Dirname(gammaName)
  {
    assert '/' !in leaf;
    JoinDirnameStaysInLayer(gammaName, leaf);
  }

  /** The two together: with gamma as second input, the four extra training outputs and both
      running statistics are named inside gamma's layer. */
  lemma BatchNormSharesLayer(
    entries: seq<Entry>, attached: map<string, TensorNode>, paramNames: map<int, string>,
    meanName: string, varName: string, outs: seq<string>, train: bool)
    requires GammaBeta(entries, attached, paramNames).Success?
    requires |entries| >= 2
    requires entries[0] != Ident(attached["gamma"].varId) && entries[1] == Ident(attached["gamma"].varId)
    ensures var gammaName := paramNames[attached["gamma"].varId];
      var ins := BatchNormInputs(GammaBeta(entries, attached, paramNames).value, meanName, varName);
      var bnOuts := BatchNormOutputs(outs, Dirname(AsText(ins[1])), train);
      && Dirname(RunningMeanName(gammaName)) == Dirname(gammaName)
      && Dirname(RunningVarName(gammaName)) == Dirname(gammaName)
      && (forall k :: |outs| <= k < |bnOuts| ==> Dirname(bnOuts[k]) == Dirname(gammaName))
  {
    GammaNameAtSecondSlot(entries, attached, paramNames, meanName, varName);
    RunningStatsInLayer(paramNames[attached["gamma"].varId]);
    BatchNormOutputsInLayer(paramNames[attached["gamma"].varId], outs, train);
  }

  lemma WeightAndBiasRewritesNames(entries: seq<Entry>, attached: map<string, TensorNode>, paramNames: map<int, string>)
    requires WeightAndBias(entries, attached, paramNames).Success?
    ensures var out := Stringified(WeightAndBias(entries, attached, paramNames).value);
      NamesRewritten(entries, Texts(out), AttachedIds(attached), paramNames)
  {
    WeightAndBiasSlots(entries, attached, paramNames);
    KeyIdAttached(attached, "W");
    if "b" in attached {
      KeyIdAttached(attached, "b");
    }
    var ids := if "b" in attached then {attached["W"].varId, attached["b"].varId} else {attached["W"].varId};
    SlotsToNames(entries, Stringified(WeightAndBias(entries, attached, paramNames).value), ids, AttachedIds(attached), paramNames);
  }

  lemma GammaBetaRewritesNames(
    entries: seq<Entry>, attached: map<string, TensorNode>, paramNames: map<int, string>, after: seq<Entry>)
    requires GammaBeta(entries, attached, paramNames).Success?
    requires |after| >= |entries|
    requires after[..|entries|] == Stringified(GammaBeta(entries, attached, paramNames).value)
    ensures NamesRewritten(entries, Texts(after), AttachedIds(attached), paramNames)
  {
    GammaBetaSlots(entries, attached, paramNames);
    KeyIdAttached(attached, "gamma");
    KeyIdAttached(attached, "beta");
    var out := Stringified(GammaBeta(entries, attached, paramNames).value);
    assert forall j :: 0 <= j < |entries| ==> after[j] == out[j];
    SlotsToNames(entries, after, {attached["gamma"].varId, attached["beta"].varId}, AttachedIds(attached), paramNames);
  }

  /** The result `convert_convolution_2d` or `convert_linear` computes: W rewritten, b too if the
      link has one, then a Conv node with the link's kernel, strides and pads, or a Gemm node with
      the fixed attributes. */
  function WeightedTranslation(link: Link, entries: seq<Entry>, paramNames: map<int, string>): Result<seq<OnnxNode>>
    requires link.className == "Convolution2DFunction" ==> link.config.ConvConfig?
  {
    match WeightAndBias(entries, link.attached, paramNames)
    case Failure(e) => Failure(e)
    case Success(s) =>
      if link.className == "Convolution2DFunction" then
        InTable(link.className, ConvNode(LayerOf(link.className), Texts(s), link))
      else
        InTable(link.className, OnnxNode(LayerOf(link.className), Texts(s), OutNames(link.outputIds), GemmDefaults))
  }

  /** The result of the two pooling translators: the pooling node for the first input's shape. */
  function PoolTranslation(link: Link, entries: seq<Entry>): Result<seq<OnnxNode>>
    requires link.config.PoolConfig?
  {
    if link.className !in Layers then Failure(NotInTable(link.className))
    else if |link.inputs| == 0 then Failure(NoInput)
    else Success([PoolNode(Layers[link.className], Texts(entries), OutNames(link.outputIds), link.config, link.inputs[0].shape)])
  }

  /** The result `convert_batch_normalization` computes: gamma and beta rewritten, the running
      statistics' names appended, the training outputs added in training mode. */
  function BatchNormTranslation(link: Link, entries: seq<Entry>, paramNames: map<int, string>, train: bool): Result<seq<OnnxNode>>
    requires link.config.BatchNormConfig?
  {
    match GammaBeta(entries, link.attached, paramNames)
    case Failure(e) => Failure(e)
    case Success(s) =>
      var meanId := link.config.runningMean.id;
      var varId := link.config.runningVar.id;
      if meanId !in paramNames then Failure(UnknownParameter(meanId))
      else if varId !in paramNames then Failure(UnknownParameter(varId))
      else
        var ins := BatchNormInputs(s, paramNames[meanId], paramNames[varId]);
        InTable(link.className,
          OnnxNode(LayerOf(link.className), Texts(ins),
            BatchNormOutputs(OutNames(link.outputIds), Dirname(AsText(ins[1])), train),
            BatchNormAttrsOf(link.config, train)))
  }

  /** The result of the translators that only stringify their inputs: Reshape carries its target
      shape, Softmax its axis, the others no attributes. */
  function StringOnlyTranslation(link: Link, entries: seq<Entry>): Result<seq<OnnxNode>>
    requires link.className == "Reshape" ==> link.config.ReshapeConfig?
    requires link.className == "Softmax" ==> link.config.SoftmaxConfig?
  {
    var attrs :=
      if link.className == "Reshape" then ReshapeAttrs(link.config.shape)
      else if link.className == "Softmax" then SoftmaxAttrs(link.config.axis)
      else NoAttrs;
    InTable(link.className, OnnxNode(LayerOf(link.className), Texts(entries), OutNames(link.outputIds), attrs))
  }

  /** What `create_node`'s dispatch computes for a link, given the input list and the names in
      force: the selected translator's result, or UnsupportedOperator for a class outside the
      table. */
  function Translation(link: Link, entries: seq<Entry>, paramNames: map<int, string>, train: bool): Result<seq<OnnxNode>>
    requires ConfigFits(link.className, link.config)
  {
    var cn := link.className;
    if cn == "Convolution2DFunction" || cn == "LinearFunction" then WeightedTranslation(link, entries, paramNames)
    else if cn == "AveragePooling2D" || cn == "MaxPooling2D" then PoolTranslation(link, entries)
    else if cn == "BatchNormalization" then BatchNormTranslation(link, entries, paramNames, train)
    else if cn in {"Reshape", "ReLU", "Softmax", "Add", "Sub", "Mul", "Neg", "Div", "Absolute"} then
      StringOnlyTranslation(link, entries)
    else Failure(UnsupportedOperator(cn))
  }

  /** A successful translation is one node of the table's kind for the class, whose inputs are the
      bindings with attached parameters renamed, and whose outputs start with the link's. */
  ghost predicate EmitsOne(link: Link, entries: seq<Entry>, r: Result<seq<OnnxNode>>, paramNames: map<int, string>)
  {
    r.Success? ==>
      && |r.value| == 1 && IsTranslationOf(link.className, r.value[0].opType)
      && NamesRewritten(entries, r.value[0].inputs, AttachedIds(link.attached), paramNames)
      && |r.value[0].outputs| >= |link.outputIds|
      && r.value[0].outputs[..|link.outputIds|] == OutNames(link.outputIds)
  }

  /** Conv and Linear succeed exactly when W, and b if attached, can be rewritten. */
  lemma WeightedOutcome(link: Link, entries: seq<Entry>, paramNames: map<int, string>)
    requires link.className == "Convolution2DFunction" || link.className == "LinearFunction"
    requires link.className == "Convolution2DFunction" ==> link.config.ConvConfig?
    ensures var r := WeightedTranslation(link, entries, paramNames);
      && (r.Success? <==> WeightAndBias(entries, link.attached, paramNames).Success?)
      && (r.Failure? ==> r.error.MissingAttribute? || r.error.UnknownParameter? || r.error.NotInList?)
      && EmitsOne(link, entries, r, paramNames)
  {
    LayersKeys();
    if WeightAndBias(entries, link.attached, paramNames).Success? {
      WeightAndBiasRewritesNames(entries, link.attached, paramNames);
    }
  }

  /** The pooling classes fail only when the function has no input. */
  lemma PoolOutcome(link: Link, entries: seq<Entry>)
    requires link.className == "AveragePooling2D" || link.className == "MaxPooling2D"
    requires link.config.PoolConfig?
    ensures var r := PoolTranslation(link, entries);
      && (r.Success? <==> |link.inputs| > 0)
      && (r.Failure? ==> r.error == NoInput)
      && EmitsOne(link, entries, r, map[])
  {
    LayersKeys();
    StringifiedProperties(entries);
  }

  /** BatchNormalization succeeds exactly when gamma and beta can be rewritten and both
      statistics are named. */
  lemma BatchNormOutcome(link: Link, entries: seq<Entry>, paramNames: map<int, string>, train: bool)
    requires link.className == "BatchNormalization" && link.config.BatchNormConfig?
    ensures var r := BatchNormTranslation(link, entries, paramNames, train);
      && (r.Success? <==> && GammaBeta(entries, link.attached, paramNames).Success?
                          && link.config.runningMean.id in paramNames
                          && link.config.runningVar.id in paramNames)
      && (r.Failure? ==> r.error.MissingAttribute? || r.error.UnknownParameter? || r.error.NotInList?)
      && EmitsOne(link, entries, r, paramNames)
  {
    LayersKeys();
    var r := BatchNormTranslation(link, entries, paramNames, train);
    if r.Success? {
      var s := GammaBeta(entries, link.attached, paramNames).value;
      var ins := BatchNormInputs(s, paramNames[link.config.runningMean.id], paramNames[link.config.runningVar.id]);
      assert ins[..|entries|] == Stringified(s);
      GammaBetaRewritesNames(entries, link.attached, paramNames, ins);
      BatchNormOutputsInLayer(AsText(ins[1]), OutNames(link.outputIds), train);
    }
  }

  /** The classes that only stringify their list always succeed. */
  lemma StringOnlyOutcome(link: Link, entries: seq<Entry>)
    requires link.className in {"Reshape", "ReLU", "Softmax", "Add", "Sub", "Mul", "Neg", "Div", "Absolute"}
    requires link.className == "Reshape" ==> link.config.ReshapeConfig?
    requires link.className == "Softmax" ==> link.config.SoftmaxConfig?
    ensures StringOnlyTranslation(link, entries).Success?
    ensures EmitsOne(link, entries, StringOnlyTranslation(link, entries), map[])
  {
    LayersKeys();
    StringifiedProperties(entries);
  }

  /** When a translation succeeds, and what it emits. A class outside the table is always
      unsupported; the classes that only stringify always succeed; pooling fails only without an
      input; Conv and Linear succeed exactly when W (and b, if attached) can be rewritten;
      BatchNormalization exactly when gamma and beta can be rewritten and both statistics are
      named. A success is one node (`EmitsOne`). */
  lemma TranslationOutcome(link: Link, entries: seq<Entry>, paramNames: map<int, string>, train: bool)
    requires ConfigFits(link.className, link.config)
    ensures var r := Translation(link, entries, paramNames, train);
      var cn := link.className;
      && (cn !in Layers <==> r == Failure(UnsupportedOperator(cn)))
      && (r.Failure? && cn in Layers ==>
            r.error.MissingAttribute? || r.error.UnknownParameter? || r.error.NotInList? || r.error.NoInput?)
      && (cn in {"Reshape", "ReLU", "Softmax", "Add", "Sub", "Mul", "Neg", "Div", "Absolute"} ==> r.Success?)
      && (cn == "AveragePooling2D" || cn == "MaxPooling2D" ==> (r.Success? <==> |link.inputs| > 0))
      && (cn == "Convolution2DFunction" || cn == "LinearFunction" ==>
            (r.Success? <==> WeightAndBias(entries, link.attached, paramNames).Success?))
      && (cn == "BatchNormalization" ==>
            (r.Success? <==> && GammaBeta(entries, link.attached, paramNames).Success?
                             && link.config.runningMean.id in paramNames
                             && link.config.runningVar.id in paramNames))
      && EmitsOne(link, entries, r, paramNames)
  {
    LayersKeys();
    var cn := link.className;
    if cn == "Convolution2DFunction" || cn == "LinearFunction" {
      WeightedOutcome(link, entries, paramNames);
    } else if cn == "AveragePooling2D" || cn == "MaxPooling2D" {
      PoolOutcome(link, entries);
    } else if cn == "BatchNormalization" {
      BatchNormOutcome(link, entries, paramNames, train);
    } else if cn in {"Reshape", "ReLU", "Softmax", "Add", "Sub", "Mul", "Neg", "Div", "Absolute"} {
      StringOnlyOutcome(link, entries);
    }
  }

  /** What every translator of a table class guarantees: it never reports the class as
      unsupported, and a node it emits is of the table's kind for the class, takes the rewritten
      `input_names` (the bindings, parameter identities replaced by parameter names) and starts
      its outputs with the link's output names. */
  ghost predicate Translated(
    link: Link, before: seq<Entry>, after: seq<Entry>, r: Result<seq<OnnxNode>>, paramNames: map<int, string>)
  {
    && (r.Failure? ==> !r.error.UnsupportedOperator? && !r.error.UnboundOutput?)
    && (r.Success? ==>
          && |r.value| == 1 && IsTranslationOf(link.className, r.value[0].opType)
          && AllStr(after) && r.value[0].inputs == Texts(after)
          && NamesRewritten(before, r.value[0].inputs, AttachedIds(link.attached), paramNames)
          && |r.value[0].outputs| >= |link.outputIds|
          && r.value[0].outputs[..|link.outputIds|] == OutNames(link.outputIds))
  }

  method TranslateWeighted(link: Link, names: NameList, paramNames: map<int, string>) returns (r: Result<seq<OnnxNode>>)
    requires link.className == "Convolution2DFunction" || link.className == "LinearFunction"
    requires link.className == "Convolution2DFunction" ==> link.config.ConvConfig?
    modifies names
    ensures r == WeightedTranslation(link, old(names.entries), paramNames)
    ensures Translated(link, old(names.entries), names.entries, r, paramNames)
  {
    ghost var s0 := names.entries;
    if link.className == "Convolution2DFunction" {
      r := ConvertConvolution2D(link, names, paramNames);
    } else {
      r := ConvertLinear(link, names, paramNames);
    }
    if WeightAndBias(s0, link.attached, paramNames).Success? {
      WeightAndBiasRewritesNames(s0, link.attached, paramNames);
    }
  }

  method TranslateBatchNorm(link: Link, names: NameList, paramNames: map<int, string>, train: bool) returns (r: Result<seq<OnnxNode>>)
    requires link.className == "BatchNormalization" && link.config.BatchNormConfig?
    modifies names
    ensures r == BatchNormTranslation(link, old(names.entries), paramNames, train)
    ensures Translated(link, old(names.entries), names.entries, r, paramNames)
  {
    ghost var s0 := names.entries;
    r := ConvertBatchNormalization(link, names, paramNames, train);
    if r.Success? {
      GammaBetaRewritesNames(s0, link.attached, paramNames, names.entries);
      BatchNormOutputsInLayer(AsText(names.entries[1]), OutNames(link.outputIds), train);
    }
  }

  method TranslatePooling(link: Link, names: NameList, paramNames: map<int, string>) returns (r: Result<seq<OnnxNode>>)
    requires link.className == "AveragePooling2D" || link.className == "MaxPooling2D"
    requires link.config.PoolConfig?
    modifies names
    ensures r == PoolTranslation(link, old(names.entries))
    ensures Translated(link, old(names.entries), names.entries, r, paramNames)
  {
    if link.className == "AveragePooling2D" {
      r := ConvertAveragePooling2D(link, names);
    } else {
      r := ConvertMaxPooling2D(link, names);
    }
  }

  method TranslateStringOnly(link: Link, names: NameList, paramNames: map<int, string>) returns (r: Result<seq<OnnxNode>>)
    requires link.className in {"Reshape", "ReLU", "Softmax", "Add", "Sub", "Mul", "Neg", "Div", "Absolute"}
    requires link.className == "Reshape" ==> link.config.ReshapeConfig?
    requires link.className == "Softmax" ==> link.config.SoftmaxConfig?
    modifies names
    ensures r == StringOnlyTranslation(link, old(names.entries))
    ensures Translated(link, old(names.entries), names.entries, r, paramNames)
  {
    var cn := link.className;
    if cn == "Reshape" {
      r := ConvertReshape(link, names);
    } else if cn == "ReLU" {
      r := ConvertReLU(link, names);
    } else if cn == "Softmax" {
      r := ConvertSoftmax(link, names);
    } else {
      r := ConvertNonparametric(link, names);
    }
  }

  /** create_node's dispatch on the class name, once any BatchNormalization statistics are
      registered: every class of the table goes to its translator; any other is an
      UnsupportedOperator error. */
  method Dispatch(link: Link, names: NameList, paramNames: map<int, string>, train: bool) returns (r: Result<seq<OnnxNode>>)
    requires ConfigFits(link.className, link.config)
    modifies names
    ensures r == Translation(link, old(names.entries), paramNames, train)
    ensures link.className !in Layers ==> r == Failure(UnsupportedOperator(link.className))
    ensures link.className in Layers ==> Translated(link, old(names.entries), names.entries, r, paramNames)
  {
    LayersKeys();
    var cn := link.className;
    if cn == "Convolution2DFunction" || cn == "LinearFunction" {
      r := TranslateWeighted(link, names, paramNames);
    } else if cn == "AveragePooling2D" || cn == "MaxPooling2D" {
      r := TranslatePooling(link, names, paramNames);
    } else if cn == "BatchNormalization" {
      r := TranslateBatchNorm(link, names, paramNames, train);
    } else if cn in {"Reshape", "ReLU", "Softmax", "Add", "Sub", "Mul", "Neg", "Div", "Absolute"} {
      r := TranslateStringOnly(link, names, paramNames);
    } else {
      r := Failure(UnsupportedOperator(cn));
    }
  }

  /** The classes of the table. */
  lemma LayersKeys()
    ensures Layers.Keys == {
      "LinearFunction", "Reshape", "Convolution2DFunction", "AveragePooling2D", "MaxPooling2D",
      "BatchNormalization", "ReLU", "Softmax", "Add", "Sub", "Mul", "Neg", "Absolute", "Div"}
  {
  }

  /** The accumulators `create_node` shares with `export`. */
  class BuildContext {
    var paramNames: map<int, string>
    var parameters: seq<Initializer>
    var inputTensors: seq<ValueInfo>
    ghost const params: seq<NamedParam>
    ghost var registered: seq<Registration>

    /** The initializers and inputs are the parameters' followed by the statistics registered so
        far, in the order of registration. */
    ghost predicate Accumulated()
      reads this
    {
      && parameters == ParamInitializers(params) + StatInitializers(registered)
      && inputTensors == ParamDescriptors(params) + StatDescriptors(registered)
    }

    /** The parameter-naming loop at the start of an export: one name, one initializer and one
        input descriptor per named parameter. */
    constructor (params: seq<NamedParam>)
      ensures paramNames == ParamNameMap(params)
      ensures parameters == ParamInitializers(params)
      ensures inputTensors == ParamDescriptors(params)
      ensures this.params == params && registered == []
      ensures Accumulated() && State() == InitialContext(params)
    {
      var pn: map<int, string> := map[];
      var ps: seq<Initializer> := [];
      var its: seq<ValueInfo> := [];
      var i := 0;
      while i < |params|
        invariant 0 <= i <= |params|
        invariant pn == ParamNameMap(params[..i])
        invariant ps == ParamInitializers(params[..i])
        invariant its == ParamDescriptors(params[..i])
      {
        var p := params[i];
        assert params[..i + 1][..i] == params[..i];
        pn := pn[p.id := p.name];
        ps := ps + [Initializer(pn[p.id], p.value)];
        its := its + [ValueInfo(p.name, p.value.elemType, p.value.shape)];
        i := i + 1;
      }
      assert params[..|params|] == params;
      paramNames, parameters, inputTensors := pn, ps, its;
      this.params := params;
      registered := [];
    }

    ghost function State(): CtxState
      reads this
    {
      (paramNames, parameters, inputTensors, registered)
    }

    /** The first half of create_node's BatchNormalization branch: name the running statistics
        after gamma's layer and register them. Reading gamma fails if the walk never attached it
        or it has no name. */
    method RegisterRunningStats(link: Link) returns (ok: Outcome)
      requires link.config.BatchNormConfig?
      requires Accumulated()
      modifies this
      ensures Accumulated()
      ensures ok.Pass? <==> "gamma" in link.attached && link.attached["gamma"].varId in old(paramNames)
      ensures ok.Pass? ==> StatsRegistered(link, old(State()), State())
      ensures ok.Fail? ==> State() == old(State())
      ensures "gamma" !in link.attached ==> ok == Fail(MissingAttribute("gamma"))
      ensures "gamma" in link.attached && ok.Fail? ==> ok == Fail(UnknownParameter(link.attached["gamma"].varId))
    {
      if "gamma" !in link.attached {
        return Fail(MissingAttribute("gamma"));
      }
      var gammaId := link.attached["gamma"].varId;
      if gammaId !in paramNames {
        return Fail(UnknownParameter(gammaId));
      }
      var gammaName := paramNames[gammaId];
      var rm := link.config.runningMean;
      var rv := link.config.runningVar;
      var reg := Registration(gammaName, rm, rv);
      StatsAppend(params, registered, reg, parameters, inputTensors);
      paramNames := paramNames[rm.id := RunningMeanName(gammaName)][rv.id := RunningVarName(gammaName)];
      parameters := parameters + [Initializer(RunningMeanName(reg.gammaName), reg.mean.value), Initializer(RunningVarName(reg.gammaName), reg.variance.value)];
      inputTensors := inputTensors + [ValueInfo(RunningMeanName(reg.gammaName), reg.mean.value.elemType, reg.mean.value.shape),
                                      ValueInfo(RunningVarName(reg.gammaName), reg.variance.value.elemType, reg.variance.value.shape)];
      registered := registered + [reg];
      ok := Pass;
    }

    /** `create_node`. Only BatchNormalization touches the context, and only by registering its
        statistics; the node's inputs are the rewritten `input_names`. */
    method CreateNode(link: Link, names: NameList, train: bool) returns (r: Result<seq<OnnxNode>>)
      requires ConfigFits(link.className, link.config)
      requires Accumulated()
      modifies this, names
      ensures Accumulated()
      ensures link.className !in Layers ==> r == Failure(UnsupportedOperator(link.className))
      ensures link.className in Layers ==> Translated(link, old(names.entries), names.entries, r, paramNames)
      ensures link.className != "BatchNormalization" ==> State() == old(State())
      ensures link.className == "BatchNormalization" ==>
        State() == old(State()) || StatsRegistered(link, old(State()), State())
      ensures link.className == "BatchNormalization" && r.Success? ==> StatsRegistered(link, old(State()), State())
      ensures (r, State()) == CreateStep(link, old(names.entries), old(State()), train)
    {
      if link.className == "BatchNormalization" {
        var ok := RegisterRunningStats(link);
        if ok.Fail? {
          return Failure(ok.error);
        }
      }
      r := Dispatch(link, names, paramNames, train);
    }
  }
}
