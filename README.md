# onnx-chainer export core, modelled in Dafny

This project models the core of onnx-chainer's exporter. Given the computation graph a Chainer
forward pass has traced, the exporter produces an ONNX model:

- **Parameter naming.** Each parameter identity gets its hierarchical name, plus one initializer
  and one input descriptor.
- **Backward walk.** It starts from the model outputs and uses one max-priority heap over tensor
  nodes and function nodes. The key is `(-rank, push_count)`. A set of seen (producer, consumer)
  edges guards every push.
- **Binding.** The walk binds every input of a function node to an identity: a parameter, an
  argument of the call, or an intermediate node.
- **Output slots.** It rewrites model-output slots into descriptors.
- **Translation.** Every function node of a class in the translation table `_layers` is handed to
  `create_node`.
- **Translators.** The `convert_*` functions, and the separate PReLU translator, rewrite the
  caller's `input_names` list in place. They put parameter names where parameter identities were,
  stringify the other entries, and emit one node with its attributes.
- **BatchNormalization.** It also registers its running statistics under names in gamma's layer
  directory. In training mode it adds four outputs in that directory.
- **Assembly.** Input descriptors come in the order parameters, then statistics, then arguments.
  Initializers are dropped when parameters are not exported. The node list is reversed.

Object identities (`id(...)`) are integers:

- The traced graph is an arena (`Runtime.Graph`) of tensor nodes and function nodes addressed by
  index.
- `str(id(x))` is `Text.IntToString`. It is proved injective and free of `/`, so an identity name
  never collides with a path-shaped parameter name.
- `os.path.dirname` and `os.path.join` are modelled as their POSIX definitions (`Text.Dirname`,
  `Text.Join`).

Mutable state is modelled as classes:

- the caller's `input_names` list: `Translate.NameList`;
- the shared `param_names`/`parameters`/`input_tensors`: `Translate.BuildContext`;
- the heap with its push counter: `Worklist.CandidateHeap`;
- the walk's local state (`seen_edges`, `nodes`, `output_tensor_ids`, `graph`): `Export.Walker`.

Each Python exception the core can raise is one `Onnx.Error` variant. Translators return
`Onnx.Result`. Python evaluates `a[a.index(x)] = d[x]` with the right-hand side first, so:

- Convolution2D, Linear and PReLU report a missing parameter name before a missing list entry;
- BatchNormalization searches first and then looks up;
- reading an attribute the walk never attached fails before either.

Module layout, one file per module: `lists.dfy`, `text.dfy`, `onnx.dfy`, `runtime.dfy`,
`worklist.dfy`, `translate.dfy`, `prelu.dfy` and `export.dfy`.

### Behaviour of the code that the model keeps

- An unsupported operator kind does not abort the export. `export` only calls `create_node` for
  classes in `_layers` (onnx_chainer/export.py:420), so other classes are skipped silently. The
  error branch of `create_node` exists and is modelled, but `export` never reaches it.
- Operators are not visited exactly once. The walk guards edges, not nodes. A function node is
  pushed once per output edge it is reached through, and it is re-translated each time it is
  popped. Nothing in the model assumes a function node is popped once. What is proved is which
  nodes the walk processes: when no translation fails, a function node is processed iff it is
  reachable backward from the outputs (`Export.Walker.Run`, `Export.WalkComplete`).
- A model output whose slot is never rewritten ends the export with an error
  (`UnboundOutput`). In Python this is the `TypeError` from unpacking an integer at
  onnx_chainer/export.py:434.
- A variable returned twice as a model output is one such case. Its node is pushed twice, but
  only the first pop records the creator edge, so the creator is reached once through it. The
  rewrite at onnx_chainer/export.py:414-418 then fills only the first of the two slots, and
  the second one keeps the identity (`Export.RewriteSlotsLeavesLaterCopy`). The model ends such
  an export with `UnboundOutput`, as Python ends it with the `TypeError` at line 434.
- The test `input_ is not cand` always holds, because an input is a tensor node and `cand` is a
  function node. The model leaves it out.

## Model

| member | source | states |
|---|---|---|
| Lists.IndexOf | onnx_chainer/export.py:415 | `list.index`: the first position holding the value. None exactly when the value is absent. |
| Text.IntToStringRoundTrip | onnx_chainer/export.py:428 | An identity's decimal name parses back to the identity. |
| Text.IntToStringInjective | onnx_chainer/export.py:70 | Two identities get the same `str(id)` name iff they are equal. |
| Text.IntToStringHasNoSlash | onnx_chainer/export.py:70 | An identity name is non-empty and contains no `/`. |
| Text.IdNameIsNotPath | onnx_chainer/export.py:62 | An identity name never equals a name containing `/`, such as a parameter path. |
| Text.DirnameIsDir | onnx_chainer/export.py:239 | `dirname` yields empty, a path not ending in `/`, or all slashes. |
| Text.DirnameOfJoin | onnx_chainer/export.py:242-243 | For a directory and a slash-free leaf, `dirname(join(d, leaf)) == d`. |
| Text.JoinDirnameStaysInLayer | onnx_chainer/export.py:239-243 | A name made as `join(dirname(p), leaf)` has the same directory as `p`. |
| Onnx.TranslatedOpTypesAreTableValues | onnx_chainer/export.py:21-36 | The kinds a translation can emit are the table's values plus `GlobalAveragePool` and `GlobalMaxPool`. |
| Worklist.ArgMin | onnx_chainer/export.py:380 | Returns a position whose key is no greater than any other in the queue. |
| Worklist.RemovedAt | onnx_chainer/export.py:380 | Removing the popped position drops exactly one occurrence of its entry, keeps every other entry, and keeps push counts distinct. No entry left shares the popped count. |
| Worklist.CandidateHeap.constructor | onnx_chainer/export.py:364-367 | Empty queue, counter 0. |
| Worklist.CandidateHeap.Push | onnx_chainer/export.py:369-371 | Appends `(-rank, push_count, cand)` and increments the counter. Keeps counts unique and below the counter. |
| Worklist.CandidateHeap.Pop | onnx_chainer/export.py:380 | Removes and returns an entry whose key is least among all queued entries. Every entry left has a strictly greater key: a lower rank, or an equal rank and a later push. The new queue is the old multiset minus that entry. The counter is unchanged. |
| Translate.StringifiedProperties | onnx_chainer/export.py:65-67 | Stringifying keeps length and positions, makes every entry a string, leaves strings alone, and is idempotent. |
| Translate.StringifyInPlace | onnx_chainer/export.py:65-67 | The `enumerate` loop leaves the list equal to its stringified old contents. |
| Translate.Substitute | onnx_chainer/export.py:62-64 | Succeeds iff the attribute is attached, has a name and its identity is in the list. Missing attribute → MissingAttribute. Otherwise UnknownParameter or NotInList. On success only the first slot holding that identity changes, to the name. |
| Translate.SubstituteInPlace | onnx_chainer/export.py:62 | Outcome and new list agree with `Substitute`. On failure the list is unchanged. |
| Translate.WeightAndBias | onnx_chainer/export.py:62-64 | W is required; b is rewritten only if attached. Length is preserved. Failures are attribute, name or index errors. |
| Translate.GammaBeta | onnx_chainer/export.py:160-163 | gamma and beta are both required. Length is preserved. Failures are attribute, name or index errors. |
| Translate.SubstituteSlots | onnx_chainer/export.py:62 | On success the list keeps its length and the name appears in it. One slot that held the identity (the first) takes the name, and every other slot is unchanged. Every string stays where it was. |
| Translate.SubstituteTwiceSlots | onnx_chainer/export.py:62-67 | After two substitutions and stringification, no identity is left. Both names appear. Every other slot is its old entry as text. |
| Translate.WeightAndBiasSlots | onnx_chainer/export.py:62-67 | Conv/Linear: all entries are strings. W's (and b's, if attached) name appears. Other slots are their old entry as text. |
| Translate.GammaBetaSlots | onnx_chainer/export.py:160-166 | BatchNormalization: the same for gamma and beta. |
| Translate.OutNamesDistinct | onnx_chainer/export.py:70 | One output name per output, in order. Names are equal iff the identities are. No name contains `/`. |
| Translate.PoolNode | onnx_chainer/export.py:123-135 | The kind is `Global`+kind with no attributes iff `inputs[0].shape[2:] == (kh, kw)`. Otherwise the windowed kind with kernel `(kh,kw)`, pads `(ph,pw)`, strides `(sy,sx)`. Inputs and outputs are passed through. |
| Translate.ConvertConvolution2D | onnx_chainer/export.py:61-77 | On a rewrite failure, that error. Otherwise the list is the stringified rewrite. The node has table kind `Conv`, those inputs, the outputs' names, kernel `W.shape[2:]`, strides `(sy,sx)` and pads `(ph,pw)`. |
| Translate.ConvertLinear | onnx_chainer/export.py:80-100 | As for Conv, with the fixed Gemm attributes (alpha 1, beta 1, broadcast, no transposes). |
| Translate.ConvertReshape | onnx_chainer/export.py:103-114 | Stringified list. One Reshape node carrying the function's target shape. |
| Translate.ConvertPooling2D | onnx_chainer/export.py:117-135 | Stringified list. Not in the table: NotInTable. No inputs: NoInput. Otherwise the `PoolNode` for `inputs[0]`'s shape. |
| Translate.ConvertAveragePooling2D | onnx_chainer/export.py:117-135 | The shared pooling contract for AveragePooling2D. |
| Translate.ConvertMaxPooling2D | onnx_chainer/export.py:138-156 | The same contract for MaxPooling2D. |
| Translate.BatchNormInputs | onnx_chainer/export.py:164-168 | The rewritten inputs plus the two statistics names: two more than the bindings. With BatchNormalization's three inputs that is the five `consumed_inputs` cover. |
| Translate.ConvertBatchNormalization | onnx_chainer/export.py:159-188 | Rewrite failures, then an unnamed statistic, are reported in source order. Otherwise the list is the rewrite plus the mean and variance names. The node's outputs follow `BatchNormOutputs` around `dirname(input_names[1])`; `is_test = not train`; epsilon and momentum come from the link. |
| Translate.ConvertPlain | onnx_chainer/export.py:215-223 | The shape shared by ReLU, Softmax and the elementwise translators: stringified list, one node of the table kind with the given attributes. |
| Translate.ConvertReLU | onnx_chainer/export.py:191-198 | A Relu node without attributes. |
| Translate.ConvertSoftmax | onnx_chainer/export.py:201-212 | A Softmax node with the function's axis. |
| Translate.ConvertNonparametric | onnx_chainer/export.py:215-223 | An Add/Sub/Mul/Neg/Div/Abs node without attributes. |
| Translate.TranslationsAreKnownKinds | onnx_chainer/export.py:21-36 | Every kind a table class translates to is a known output kind. |
| Translate.ParamNameMapKeys | onnx_chainer/export.py:351-352 | The named identities are exactly those of the parameters. |
| Translate.ParamNameMapLookup | onnx_chainer/export.py:351-352 | A parameter is named by its own path unless a later parameter shares its identity. |
| Translate.GammaNameAtSecondSlot | onnx_chainer/export.py:171 | When gamma is the second input, `input_names[1]` after the rewrite is gamma's name. |
| Translate.RunningStatsInLayer | onnx_chainer/export.py:239-256 | `running_mean` and `running_var` sit in gamma's layer directory. |
| Translate.StatsAppend | onnx_chainer/export.py:244-266 | Appending one registration's mean and variance, as initializers and as input descriptors, keeps each list equal to the parameters' entries followed by the registrations' entries, in registration order. |
| Translate.TrainingOutputsInLayer | onnx_chainer/export.py:173-179 | The four training outputs sit in the layer directory. |
| Translate.BatchNormOutputsInLayer | onnx_chainer/export.py:172-179 | The link's outputs come first. Exactly four more follow iff training, all in the layer directory. |
| Translate.BatchNormSharesLayer | onnx_chainer/export.py:171-179 | With gamma second, both statistics and all extra outputs are named inside gamma's layer. |
| Translate.WeightAndBiasRewritesNames | onnx_chainer/export.py:62-67 | Conv/Linear node inputs follow the bindings position by position: the binding as text, or an attached parameter's name where it held that parameter's identity. |
| Translate.GammaBetaRewritesNames | onnx_chainer/export.py:160-168 | The same for BatchNormalization, whose two appended statistics names come after. |
| Translate.WeightedOutcome | onnx_chainer/export.py:61-100 | A Conv or Linear translation succeeds iff W (and b, if attached) can be rewritten. Its failures are attribute, name or index errors. A success is one node of the class's kind whose inputs are the rewritten bindings and whose outputs are the link's (`EmitsOne`). |
| Translate.PoolOutcome | onnx_chainer/export.py:117-156 | A pooling translation succeeds iff the function has an input, and otherwise fails with NoInput. A success is `EmitsOne`. |
| Translate.BatchNormOutcome | onnx_chainer/export.py:159-188 | A BatchNormalization translation succeeds iff gamma and beta can be rewritten and both statistics are named. Its failures are attribute, name or index errors. A success is `EmitsOne`. |
| Translate.StringOnlyOutcome | onnx_chainer/export.py:103-223 | Reshape, ReLU, Softmax and the elementwise translations always succeed, with `EmitsOne`. |
| Translate.TranslationOutcome | onnx_chainer/export.py:226-292 | A class is outside the table iff the translation is UnsupportedOperator with its name. A table class's failure is an attribute, name, index or missing-input error. The success condition of each class is that of its per-class lemma above, and a success is `EmitsOne`. |
| Translate.TranslateWeighted | onnx_chainer/export.py:228-231 | The result is exactly `WeightedTranslation` of the list as it was: Conv's node with kernel, strides and pads, or Linear's Gemm node, taking the rewritten list, or the rewrite's error. It also meets `Translated`: the list is left as that node's inputs, and the error is never UnsupportedOperator. |
| Translate.TranslatePooling | onnx_chainer/export.py:234-237 | The result is exactly `PoolTranslation` of the list as it was: the `PoolNode` for the first input's shape, or NoInput. It also meets `Translated`. |
| Translate.TranslateBatchNorm | onnx_chainer/export.py:268 | The result is exactly `BatchNormTranslation` of the list as it was: the rewrite plus the statistics' names as inputs, `BatchNormOutputs` as outputs, epsilon, momentum and `is_test`; or the first error in source order. It also meets `Translated`. |
| Translate.TranslateStringOnly | onnx_chainer/export.py:269-284 | The result is exactly `StringOnlyTranslation` of the list as it was: one node of the table kind on the stringified list, with the Reshape shape or the Softmax axis as attributes. It also meets `Translated`. |
| Translate.Dispatch | onnx_chainer/export.py:228-286 | The result is exactly `Translation` of the list as it was: the branch of the class's translator, or UnsupportedOperator with the class name outside the table. It also meets `Translated`. |
| Translate.LayersKeys | onnx_chainer/export.py:21-36 | The table's classes are the fourteen `create_node` branches. |
| Translate.BuildContext.constructor | onnx_chainer/export.py:347-356 | Names map, initializers and input descriptors equal those of the parameter list, in order. No statistics are registered yet, so the lists are the parameters' entries followed by the (empty) registrations' entries. |
| Translate.BuildContext.RegisterRunningStats | onnx_chainer/export.py:238-266 | Succeeds iff gamma is attached and named. Then the context is `StatsRegistered`: both statistics named `dirname(gamma)/running_mean` and `/running_var`, appended as initializers and input descriptors, mean first, and the registration recorded. The lists stay the parameters' entries followed by the registrations'. On failure (MissingAttribute or UnknownParameter) nothing changes. |
| Translate.BuildContext.CreateNode | onnx_chainer/export.py:226-292 | The result and the new context are exactly `CreateStep` of the old list and the old context. An unknown class gives UnsupportedOperator. A table class meets `Translated`. Only BatchNormalization changes the context, and a successful one always registers its statistics. The lists stay the parameters' entries followed by the registrations'. |
| Translate.CreateStepContext | onnx_chainer/export.py:226-292 | `create_node` on a context keeps the lists the parameters' entries followed by the registrations'. The context either stays or, for BatchNormalization, is `StatsRegistered`: exactly one registration appended, holding the link's running mean and variance. A successful BatchNormalization always registers. A failure is UnsupportedOperator iff the class is outside the table. A success is one node of the class's kind. |
| PRelu.SlopeRewrite | onnx_chainer/functions/activation/prelu.py:11 | Succeeds iff W is attached, named and in the list. The failures are MissingAttribute, UnknownParameter (checked before the index) and NotInList. |
| PRelu.ConvertPReLUFunction | onnx_chainer/functions/activation/prelu.py:9-18 | On failure, that error with the list unchanged. Otherwise the list is the stringified rewrite. One node of kind `operators[class]` with those inputs, the outputs' names and no attributes, or NotInTable. |
| PRelu.SlopeRewriteSlots | onnx_chainer/functions/activation/prelu.py:11-14 | Same length, all strings, W's name present. Every other slot is its old entry as text. |
| Export.AttachedHasLastParameter | onnx_chainer/export.py:400-402 | A named input is attached under its name unless a later input has the same name. |
| Export.AttachedOnlyParameters | onnx_chainer/export.py:400-402 | Only named inputs are attached, each under its own name. |
| Export.RewriteSlotsBindsFirst | onnx_chainer/export.py:410-418 | Take an output whose variable's identity is still in a slot, where no earlier output of the node shares that identity. After the rewrite, the first slot that held the identity holds that output's descriptor. |
| Export.RewriteSlotsFrame | onnx_chainer/export.py:414-418 | The rewrite never touches a descriptor. A slot that changes held the identity of one of the outputs and now holds that output's descriptor. |
| Export.RewriteSlotsAppend | onnx_chainer/export.py:410-418 | Rewriting for outputs `a` and then for `b` is rewriting for `a + b`. |
| Export.RewriteSlotsKeepsPending | onnx_chainer/export.py:414 | If no output has the identity, exactly the slots that held it still hold it. |
| Export.RewriteSlotsLeavesLaterCopy | onnx_chainer/export.py:414-418 | Two slots hold the same identity and at most one output has it. One pass of the rewrite leaves the later slot holding the identity. |
| Export.IndexOfFirst | onnx_chainer/export.py:415 | A position holding the value with none before it is what `list.index` finds. |
| Export.RewriteTraceKeeps | onnx_chainer/export.py:410-418 | Processing more function nodes never changes a slot that already holds a descriptor. |
| Export.OutputRewriteFrame | onnx_chainer/export.py:410-418 | For a function node of the graph: the rewrite keeps the length and every descriptor. A changed slot describes one of that node's outputs. |
| Export.RewriteLoop | onnx_chainer/export.py:410-418 | The loop over the outputs leaves exactly `RewriteSlots` of the slots for those outputs. Every slot stays the identity or a descriptor of a node of that variable. |
| Export.InEdgesStep | onnx_chainer/export.py:392-397 | The edges from the first `i+1` inputs are those from the first `i` plus the `i`-th input's. |
| Export.PushesStep | onnx_chainer/export.py:392-397 | From input `i` on, a seen edge pushes nothing for that input. A new edge pushes `(-rank, count, input)` first, then counts on with the edge seen. |
| Export.InputAccountStart | onnx_chainer/export.py:391-397 | Before the first input the loop's account holds: nothing recorded, nothing reached, nothing pushed. |
| Export.InputTurnSeen | onnx_chainer/export.py:393 | An input whose edge is already seen moves the account on without change. |
| Export.InputTurnNew | onnx_chainer/export.py:393-397 | An input whose edge is new, once `Recorded`, moves the account on with that edge, its ends and its push. |
| Export.InputAccountEnd | onnx_chainer/export.py:392-397 | After the last input, the loop has recorded the edges from all the inputs, reached their ends, and pushed all of `Pushes`. |
| Export.CreatorEdgeEnds | onnx_chainer/export.py:382-387 | The ends a tensor node's pop adds are its creator and the node itself, exactly when that edge is new. |
| Export.NewEdgeEnds | onnx_chainer/export.py:386-387 | Recording one more edge adds its two ends to the ends of the edges recorded so far. |
| Export.BindingsStep | onnx_chainer/export.py:399-408 | The bindings and attributes for one more input are the old ones extended by that input's binding and, if it is named, its attachment. |
| Export.TranslateFunction | onnx_chainer/export.py:420-423 | The result and the new context are exactly `CreateStep` on the node's link, its bindings and the old context. On success it appends `Emitted`: one node of the class's kind, inputs rewritten from the bindings, outputs named after the node's outputs. It never fails with UnsupportedOperator. A class other than BatchNormalization leaves the context as it was. A successful BatchNormalization registers its two statistics (`StatsRegistered`); a failed one either changes nothing or has registered them. The lists stay the parameters' entries followed by the registrations'. |
| Export.CollectStep | onnx_chainer/export.py:379-424 | Processing one more function node continues from what the earlier ones left: `Collect` of `fs + [f]` is `EmitStep` of `Collect` of `fs`. |
| Export.AbsorbProvenance | onnx_chainer/export.py:422-423 | Taking in a `create_node` result by `graph.extend` adds at most one node, of the class's kind, and at most one registration, holding the node's running statistics. The lists stay the parameters' entries followed by the registrations'. |
| Export.AbsorbNodes | onnx_chainer/export.py:422-423 | `graph.extend` with a `create_node` result adds no node, or one node of the class's kind. |
| Export.AbsorbContext | onnx_chainer/export.py:422-423 | After taking in a step, the registrations are unchanged or gain one holding the node's running statistics, and the lists stay the parameters' entries followed by the registrations'. |
| Export.EmitStepProvenance | onnx_chainer/export.py:420-423 | Processing one function node adds at most one node, of a kind its class translates to, and at most one registration, holding its running statistics if it is a BatchNormalization node. The lists stay the parameters' entries followed by the registrations'. |
| Export.CollectProvenance | onnx_chainer/export.py:379-424 | Over any list of processed function nodes: the lists stay the parameters' entries followed by the registrations', the starting registrations are kept, every collected node is of a kind some processed node's class translates to, and every new registration holds the statistics of some processed BatchNormalization node. |
| Export.Walker.constructor | onnx_chainer/export.py:362-377 | Every output slot holds its variable's identity. Each output node is pushed in order with push counts 0,1,…. `nodes` starts as the outputs. No function node has been processed yet. `roots` is the set of output nodes and `nodes` starts equal to it. `Valid` and `CoverOk` hold: every output node is queued and reachable from the outputs. |
| Export.Walker.Run | onnx_chainer/export.py:379-424 | Terminates (it decreases `2·|unseen edges| + |queue|`) and keeps `Valid`. `Valid` includes `push_count = #outputs + |seen_edges|`, both ends of every recorded edge in `nodes`, every slot still an identity or a descriptor of a node of that variable, and only known op kinds collected. It keeps `CollectedOk`: the node list and context are `Collect` of the function nodes processed (`visited`, in the order processed), from the starting context, and the outcome is that of the last one processed. It keeps `CoverOk`: every reached candidate is reachable backward from the outputs, and is still queued or done with (every edge into it recorded, and a function node processed). So every processed function node is reachable from the outputs, and on a pass a function node is processed iff it is reachable from the outputs. So a failure is the last node's translation error, never UnsupportedOperator; a pass ends with an empty queue. The slots are the rewrite for the same nodes (`RewriteTrace`). Described slots stay fixed. |
| Export.Walker.Advance | onnx_chainer/export.py:379-424 | One pass of the loop: `Valid`, `CollectedOk` and `CoverOk` hold again, the measure decreases, a failure is never UnsupportedOperator or UnboundOutput, and the processed list, the node list and the context's lists only grow. |
| Export.RootReachable | onnx_chainer/export.py:373-377 | Every output node is reachable from the outputs. |
| Export.ReachFeed | onnx_chainer/export.py:382-397 | What feeds a reachable candidate (a tensor node's creator, a function node's input) is reachable. |
| Export.PushesCands | onnx_chainer/export.py:392-397 | Every entry pushed by a function node's input loop is one of its inputs whose edge was not yet recorded. |
| Export.PushesCover | onnx_chainer/export.py:392-397 | Every input whose edge was not yet recorded is pushed by the input loop, including when it occurs more than once. |
| Export.VarStepCovered | onnx_chainer/export.py:382-387 | Popping a tensor node keeps `Covered`. |
| Export.VarStepClosed | onnx_chainer/export.py:382-387 | After popping a tensor node, every reached candidate is queued or done with; the popped node is done with. |
| Export.FuncStepCovered | onnx_chainer/export.py:388-397 | Popping a function node keeps `Covered`. |
| Export.FuncStepNew | onnx_chainer/export.py:392-397 | The candidates newly reached by popping a function node are inputs whose edges were not yet recorded. |
| Export.FuncStepEntries | onnx_chainer/export.py:392-397 | After popping a function node, every queued entry is a reached candidate. |
| Export.FuncStepClosed | onnx_chainer/export.py:388-397 | After popping a function node, every reached candidate is queued or done with; the popped node is done with. |
| Export.FuncStepReach | onnx_chainer/export.py:392-397 | After popping a function node, every reached candidate is reachable from the outputs. |
| Export.CoveredComplete | onnx_chainer/export.py:379-397 | With an empty queue, every candidate reachable from the outputs has been reached and is done with. |
| Export.WalkComplete | onnx_chainer/export.py:379-397 | With an empty queue, a function node has been processed iff it is reachable from the outputs. |
| Export.PathReached | onnx_chainer/export.py:379-397 | With an empty queue, every candidate on a backward path from the outputs has been reached and is done with. |
| Export.Walker.Step | onnx_chainer/export.py:380-424 | Returns the popped entry: one of the queue, with a key no greater than any queued one. For a tensor node: the creator edge is recorded iff there is a creator and the edge is new, its ends join `nodes`, the queue loses the entry and gains the creator, and nothing else changes. For a function node: it joins the processed list, the edges from its inputs are recorded, their ends join `nodes`, the queue loses the entry and gains `Pushes`, the slots are rewritten for its outputs (`RewriteSlots`), and the node list, context and outcome are exactly `EmitStep` of the old ones. `Valid` and `CollectedOk` hold and the measure decreases. |
| Export.Walker.AddEdge | onnx_chainer/export.py:383-387 | Records the new edge, adds both ends to `nodes`, and pushes the candidate with its rank and the next count (`Recorded`). The measure decreases. |
| Export.Walker.VisitVar | onnx_chainer/export.py:381-387 | Popping a tensor node: the creator edge is recorded iff the node has a creator and the edge is unseen. Then both ends join `nodes` and the creator is pushed with the next count (`CreatorPush`). Otherwise nothing changes. Slots, node list and processed list are unchanged. |
| Export.Walker.VisitInput | onnx_chainer/export.py:392-408 | One turn of the input loop keeps `InputAccount` one input further on: the edges from the inputs so far are recorded, their ends reached, and the pushes so far followed by the rest of `Pushes` are the whole loop's. It returns the bindings and attributes one input further on. Slots and node list are unchanged. |
| Export.Walker.ProcessFunction | onnx_chainer/export.py:388-424 | The node list, the context and the outcome are exactly `EmitStep` of the old ones for this node, and `CollectedOk` carries on: they are `Collect` of the processed list, which the node joins. The edges, nodes and queue end as `WalkInputs` leaves them, and the slots as `RewriteSlots` for the node's outputs. A class outside the table is passed over: no node, no context change, no error. A table class that translates appends one `Emitted` node. |
| Export.Walker.EmitNode | onnx_chainer/export.py:420-424 | The translate-and-extend step alone: the node list, the context and the outcome are exactly `EmitStep` of the old ones for this node. The edges, nodes, slots and processed list are unchanged. |
| Export.Walker.WalkInputs | onnx_chainer/export.py:391-408 | The recorded edges gain exactly the edges from the node's inputs, `nodes` gains their ends, and the queue gains exactly `Pushes`: in input order, each input whose edge was unseen, with consecutive counts. The returned list is the function's bindings. The attributes are the named inputs. The measure does not grow, and slots, node list and processed list are unchanged. |
| Export.Walker.RewriteOutputs | onnx_chainer/export.py:410-418 | The slots become exactly `RewriteSlots` of the old slots for the node's outputs, and the node joins the processed list. A slot changes only from an identity to the descriptor of one of this function's outputs, and rewritten slots never change again. |
| Export.Reversed | onnx_chainer/export.py:440 | Same length; element `i` is element `n-1-i`. |
| Export.ReversedElements | onnx_chainer/export.py:440 | Reversal keeps the same elements. |
| Export.Assemble | onnx_chainer/export.py:427-448 | Succeeds iff every slot is a descriptor. Otherwise UnboundOutput for the first identity left. On success: nodes reversed, inputs = context inputs then arguments' descriptors, outputs = the slots' descriptors, initializers only if exporting parameters, producer "Chainer" and the given version. |
| Export.Finish | onnx_chainer/export.py:427-448 | Succeeds iff every slot is a descriptor. On success the nodes are the collected list reversed, the inputs are the context's inputs followed by the arguments' descriptors, the outputs are the slots' descriptors, and initializers ship only if exporting parameters. From the walk's invariant, the outputs describe, in order, a tensor node of each output's variable. A failure is an UnboundOutput for an identity still in a slot, which names one of the outputs. |
| Export.OutputsDescribed | onnx_chainer/export.py:432-434 | Once every slot is a descriptor, slot `i` describes a tensor node of output `i`'s variable. |
| Export.Export | onnx_chainer/export.py:295-459 | Also returns the registrations made and the function nodes processed (`trace`). With `t` = `Collect` of `trace` from the parameters' context: the registrations are `t`'s; the export succeeds iff every translation in `t` passed and every slot is a descriptor after the rewrite for `trace`; a failed translation is the export's error; any other failure is an UnboundOutput naming one of the outputs. A model has producer "Chainer", its graph name, and nodes `t`'s list reversed. Its inputs are the parameter descriptors, then the registered statistics' descriptors, then the arguments'. Its initializers are the parameters' then the statistics', or none. Its outputs are exactly the slots' descriptors, each describing that output's variable. Every collected node is of a kind some processed node's class translates to, and every registration holds the running statistics of some processed BatchNormalization node. Every node in `trace` is reachable backward from the outputs; when no translation failed, a function node is in `trace` iff it is reachable from the outputs. Never UnsupportedOperator. |

## Left out

- ONNX library calls (`helper.make_*`, `numpy_helper.from_array`, `checker.check_*`): nodes, descriptors, initializers and models are plain records, and the checker is not modelled. It is foreign code.
- The forward pass, `model.to_cpu()` and the wrapping of arguments into variables: the traced graph, the arguments and the outputs are inputs to `Export.Export`. They belong to the execution engine.
- The dict branch of `export` and its `ValueError` (onnx_chainer/export.py:336-343): `args` is always a list by then, so the branch is unreachable.
- Writing the model and its text dump to files: I/O.
- `onnx_chainer/export_testcase.py` and its test: these are file output around `export`, written against a different signature. export_testcase.py is not part of this model.
- Number contents: array buffers, `eps`, `decay` and Gemm's `alpha`/`beta` are carried as opaque values, and the dtype mapping `_dtype` is an explicit element-type field.
- Weak-reference expiry of `out()` and `get_variable()` returning `None`: every output handle is treated as live.
- The binary-heap layout of `heapq`: the queue is an unordered sequence popped at its least key. With unique push counts this gives the same pop order.
- `mapping.operators` (used by the PReLU translator) is a parameter. The `parameters` and `input_tensors` arguments of `convert_PReLUFunction` are left out because it never uses them.
- `chainer.config.train` and `chainer.__version__` are parameters (`train`, `producerVersion`).
- `isinstance` dispatch in `convert_parameter`: every named parameter carries its array directly, so the name lookup is all that is left of it.
- Export.Walker.Run: the processed list is characterised as a set (on a pass, exactly the function nodes reachable from the outputs), not as a sequence. How often a function node occurs in it is not stated: the walk pushes a function node once per new edge out of it, so a node with several reached outputs is processed more than once. On a failure the list holds reachable nodes, but which ones is not stated.
- Export.Export: the node list is stated as the translations of `trace` in processing order, reversed, and `trace` is stated as a set: on a pass, exactly the function nodes reachable from the outputs. The order of `trace` and how often a node occurs in it are not stated, so the model does not state that the node order is topological: the walk's order depends on the runtime's ranks, and each step is proved to pop the least key (`Export.Walker.Step`, `Worklist.CandidateHeap.Pop`), but the whole sequence of pops is not related to the graph's edges. On a failed translation, which reachable nodes `trace` holds is not stated.
- `_check_available()` and its `ImportError` when the onnx package is missing (onnx_chainer/export.py:43-48, 328): the model assumes the package is present. It is an environment check.
- The default arguments of `export` (onnx_chainer/export.py:295-296): `exportParams` and `graphName` are always passed to `Export.Export` (the defaults are `True` and `"Graph"`), and `filename` and `save_text` only concern file output.
- The normalisation of `outputs` (onnx_chainer/export.py:358-361): a dict's values are taken and a single output is wrapped in a tuple before the walk. `Export.Export` receives the list of output tensor nodes that results.
