/** `export`: name the parameters, walk the graph backwards from the outputs in rank order,
    translate every function node of a supported class, then assemble the model. */
module Export {
  import opened Lists
  import opened Text
  import opened Onnx
  import opened Runtime
  import opened Worklist
  import opened Translate

  /** An element of `output_tensor_ids`: the identity of a model output until a function node that
      produces it is translated, its descriptor afterwards. */
  datatype OutSlot = Pending(id: int) | Described(info: ValueInfo)

  /** A tensor node described under the name its producer's node gives it, `str(id(node))`. */
  function Descriptor(v: TensorNode): ValueInfo
  {
    ValueInfo(IntToString(v.nodeId), v.elemType, v.shape)
  }

  /** The graph inputs for the call's arguments, named `str(id(arg))`. */
  function ArgDescriptors(args: seq<TensorNode>): seq<ValueInfo>
  {
    seq(|args|, i requires 0 <= i < |args| => ValueInfo(IntToString(args[i].varId), args[i].elemType, args[i].shape))
  }

  /** What a function node's input list records for one input tensor: a parameter or an argument
      of the call by the identity of its variable, anything else by the identity of its node. As
      text, an argument's entry is the name of its graph input (`ArgDescriptors`), and an
      intermediate tensor's is the output name its producer gives it (`OutNames`) and the name of
      its `Descriptor`. */
  function BindInput(v: TensorNode, inputTensorIds: seq<int>): Entry
  {
    if v.name.Some? then Ident(v.varId)
    else if v.varId in inputTensorIds then Ident(v.varId)
    else Ident(v.nodeId)
  }

  function InputNodes(g: Graph, ins: seq<nat>): (vs: seq<TensorNode>)
    requires forall i :: 0 <= i < |ins| ==> ins[i] < |g.vars|
    ensures |vs| == |ins|
  {
    seq(|ins|, i requires 0 <= i < |ins| => g.vars[ins[i]])
  }

  /** The input list a function node's translator starts from. */
  function Bindings(vs: seq<TensorNode>, inputTensorIds: seq<int>): seq<Entry>
  {
    seq(|vs|, i requires 0 <= i < |vs| => BindInput(vs[i], inputTensorIds))
  }

  /** The attributes `setattr(cand, input_.name, ...)` leaves on a function node: each named input
      under its name, a later one replacing an earlier one of the same name. */
  function Attached(vs: seq<TensorNode>): map<string, TensorNode>
  {
    if vs == [] then map[]
    else
      var m := Attached(vs[..|vs| - 1]);
      var v := vs[|vs| - 1];
      if v.name.Some? then m[v.name.value := v] else m
  }

  lemma {:induction false} AttachedHasLastParameter(vs: seq<TensorNode>, i: nat)
    requires i < |vs| && vs[i].name.Some?
    requires forall j :: i < j < |vs| ==> vs[j].name != vs[i].name
    ensures vs[i].name.value in Attached(vs) && Attached(vs)[vs[i].name.value] == vs[i]
  {
    if i < |vs| - 1 {
      var init := vs[..|vs| - 1];
      assert init[i] == vs[i];
      assert forall j :: i < j < |init| ==> init[j] == vs[j];
      AttachedHasLastParameter(init, i);
    }
  }

  lemma {:induction false} AttachedOnlyParameters(vs: seq<TensorNode>, key: string)
    requires key in Attached(vs)
    ensures exists i :: 0 <= i < |vs| && vs[i].name == Some(key) && Attached(vs)[key] == vs[i]
  {
    var init := vs[..|vs| - 1];
    var v := vs[|vs| - 1];
    if v.name == Some(key) {
      assert vs[|vs| - 1].name == Some(key);
    } else {
      AttachedOnlyParameters(init, key);
      var i :| 0 <= i < |init| && init[i].name == Some(key) && Attached(init)[key] == init[i];
      assert vs[i] == init[i];
    }
  }

  /** A slot either still holds the output's identity, or describes the tensor node `v` of that
      variable. */
  predicate SlotOk(g: Graph, id: int, s: OutSlot, v: int)
  {
    || s == Pending(id)
    || (0 <= v < |g.vars| && g.vars[v].varId == id && s == Described(Descriptor(g.vars[v])))
  }

  lemma BindingsStep(vs: seq<TensorNode>, i: nat, inputTensorIds: seq<int>)
    requires i < |vs|
    ensures Bindings(vs[..i + 1], inputTensorIds) == Bindings(vs[..i], inputTensorIds) + [BindInput(vs[i], inputTensorIds)]
    ensures Attached(vs[..i + 1]) == (if vs[i].name.Some? then Attached(vs[..i])[vs[i].name.value := vs[i]] else Attached(vs[..i]))
  {
    assert vs[..i + 1][..i] == vs[..i];
  }

  /** Every edge the walk can record lies in `universe`, a finite set. */
  predicate EdgesIn(g: Graph, universe: set<Edge>)
  {
    && (forall v :: 0 <= v < |g.vars| && g.vars[v].creator.Some? ==>
          Edge(FuncCand(g.vars[v].creator.value), VarCand(v)) in universe)
    && (forall f, j :: 0 <= f < |g.funcs| && 0 <= j < |g.funcs[f].inputs| ==>
          Edge(VarCand(g.funcs[f].inputs[j]), FuncCand(f)) in universe)
  }

  /** Recording a new edge shrinks the set of edges not yet seen by one. */
  lemma NewEdgeShrinks(all: set<Edge>, seen: set<Edge>, e: Edge)
    requires e in all && e !in seen
    ensures |all - (seen + {e})| == |all - seen| - 1
  {
    assert all - seen == (all - (seen + {e})) + {e};
  }

  /** The tensor nodes a function node outputs. */
  function OutputNodes(g: Graph, f: nat): (vs: seq<TensorNode>)
    requires Runtime.Valid(g) && f < |g.funcs|
    ensures |vs| == |g.funcs[f].outputs|
  {
    assert FuncValid(g, g.funcs[f]);
    InputNodes(g, g.funcs[f].outputs)
  }

  /** `output_tensor_ids` before the walk: every output's variable identity. */
  function InitialSlots(ids: seq<int>): seq<OutSlot>
  {
    seq(|ids|, i requires 0 <= i < |ids| => Pending(ids[i]))
  }

  /** `output_tensor_ids` after the loop over a function node's outputs `outs`: for each output in
      turn, the first slot still holding its variable's identity takes its descriptor. */
  function RewriteSlots(slots: seq<OutSlot>, outs: seq<TensorNode>): (r: seq<OutSlot>)
    ensures |r| == |slots|
  {
    if outs == [] then slots
    else
      var s := RewriteSlots(slots, outs[..|outs| - 1]);
      var out := outs[|outs| - 1];
      match IndexOf(s, Pending(out.varId))
      case None => s
      case Some(i) => s[i := Described(Descriptor(out))]
  }

  /** `output_tensor_ids` after the function nodes `fs` were processed in this order. */
  function RewriteTrace(g: Graph, slots: seq<OutSlot>, fs: seq<nat>): (r: seq<OutSlot>)
    requires Runtime.Valid(g) && forall k :: 0 <= k < |fs| ==> fs[k] < |g.funcs|
    ensures |r| == |slots|
  {
    if fs == [] then slots
    else RewriteSlots(RewriteTrace(g, slots, fs[..|fs| - 1]), OutputNodes(g, fs[|fs| - 1]))
  }

  /** Processing more function nodes never touches a slot that already holds a descriptor. */
  lemma {:induction false} RewriteTraceKeeps(g: Graph, slots: seq<OutSlot>, fs: seq<nat>, gs: seq<nat>)
    requires Runtime.Valid(g) && fs <= gs && forall k :: 0 <= k < |gs| ==> gs[k] < |g.funcs|
    ensures forall i :: 0 <= i < |slots| && RewriteTrace(g, slots, fs)[i].Described? ==>
      RewriteTrace(g, slots, gs)[i] == RewriteTrace(g, slots, fs)[i]
    decreases |gs|
  {
    if |gs| > |fs| {
      var prefix := gs[..|gs| - 1];
      assert fs <= prefix;
      RewriteTraceKeeps(g, slots, fs, prefix);
      RewriteSlotsFrame(RewriteTrace(g, slots, prefix), OutputNodes(g, gs[|gs| - 1]));
    } else {
      assert fs == gs;
    }
  }

  /** The rewrite never touches a descriptor, and a slot changes only from the identity of one of
      the outputs to that output's descriptor. */
  lemma {:induction false} RewriteSlotsFrame(slots: seq<OutSlot>, outs: seq<TensorNode>)
    ensures forall k :: 0 <= k < |slots| && slots[k].Described? ==> RewriteSlots(slots, outs)[k] == slots[k]
    ensures forall k :: 0 <= k < |slots| && RewriteSlots(slots, outs)[k] != slots[k] ==>
      exists l :: 0 <= l < |outs| && slots[k] == Pending(outs[l].varId)
                  && RewriteSlots(slots, outs)[k] == Described(Descriptor(outs[l]))
  {
    if outs != [] {
      var init := outs[..|outs| - 1];
      RewriteSlotsFrame(slots, init);
      var s := RewriteSlots(slots, init);
      var r := RewriteSlots(slots, outs);
      forall k | 0 <= k < |slots| && r[k] != slots[k]
        ensures exists l :: 0 <= l < |outs| && slots[k] == Pending(outs[l].varId)
                            && r[k] == Described(Descriptor(outs[l]))
      {
        if s[k] != slots[k] {
          var l :| 0 <= l < |init| && slots[k] == Pending(init[l].varId) && s[k] == Described(Descriptor(init[l]));
          assert outs[l] == init[l];
          assert r[k] == s[k];
        } else {
          assert r[k] == Described(Descriptor(outs[|outs| - 1]));
        }
      }
    }
  }

  /** Rewriting for `a` and then for `b` is rewriting for `a + b`. */
  lemma {:induction false} RewriteSlotsAppend(slots: seq<OutSlot>, a: seq<TensorNode>, b: seq<TensorNode>)
    ensures RewriteSlots(slots, a + b) == RewriteSlots(RewriteSlots(slots, a), b)
    decreases |b|
  {
    if b == [] {
      assert a + b == a;
    } else {
      assert (a + b)[..|a + b| - 1] == a + b[..|b| - 1];
      RewriteSlotsAppend(slots, a, b[..|b| - 1]);
    }
  }

  /** Rewriting for outputs none of which has the identity `id` leaves exactly the slots that held
      `id` holding it. */
  lemma RewriteSlotsKeepsPending(slots: seq<OutSlot>, outs: seq<TensorNode>, id: int)
    requires forall l :: 0 <= l < |outs| ==> outs[l].varId != id
    ensures forall k :: 0 <= k < |slots| ==> (RewriteSlots(slots, outs)[k] == Pending(id) <==> slots[k] == Pending(id))
  {
    RewriteSlotsFrame(slots, outs);
  }

  /** A model output listed twice: when at most one output of the node has its identity, one
      pass of the rewrite leaves the later of two slots holding the identity as it was. */
  lemma {:induction false} RewriteSlotsLeavesLaterCopy(slots: seq<OutSlot>, outs: seq<TensorNode>, id: int, i: nat, j: nat)
    requires i < j < |slots| && slots[i] == Pending(id) && slots[j] == Pending(id)
    requires forall l, m :: 0 <= l < m < |outs| ==> !(outs[l].varId == id && outs[m].varId == id)
    ensures RewriteSlots(slots, outs)[j] == Pending(id)
    decreases |outs|
  {
    if outs != [] {
      var init, last := outs[..|outs| - 1], outs[|outs| - 1];
      assert forall l :: 0 <= l < |init| ==> init[l] == outs[l];
      RewriteSlotsLeavesLaterCopy(slots, init, id, i, j);
      var s := RewriteSlots(slots, init);
      if last.varId == id {
        assert forall l :: 0 <= l < |init| ==> init[l].varId != id;
        RewriteSlotsKeepsPending(slots, init, id);
        assert s[i] == Pending(id);
      }
      match IndexOf(s, Pending(last.varId))
      case None =>
      case Some(p) =>
        assert p != j by {
          if last.varId == id {
            assert s[..j][i] == Pending(id);
          }
        }
    }
  }

  /** The first position holding `x` is what `IndexOf` finds. */
  lemma IndexOfFirst<T>(s: seq<T>, x: T, i: nat)
    requires i < |s| && s[i] == x && forall k :: 0 <= k < i ==> s[k] != x
    ensures IndexOf(s, x) == Some(i)
  {
    assert x !in s[..i];
  }

  /** An output whose variable's identity is still in a slot, and which no earlier output of the
      node shares, ends with the first such slot describing it. */
  lemma RewriteSlotsBindsFirst(slots: seq<OutSlot>, outs: seq<TensorNode>, j: nat)
    requires j < |outs| && Pending(outs[j].varId) in slots
    requires forall l :: 0 <= l < j ==> outs[l].varId != outs[j].varId
    ensures IndexOf(slots, Pending(outs[j].varId)).Some?
    ensures RewriteSlots(slots, outs)[IndexOf(slots, Pending(outs[j].varId)).value] == Described(Descriptor(outs[j]))
  {
    var id := outs[j].varId;
    var i := IndexOf(slots, Pending(id)).value;
    var pre := outs[..j];
    RewriteSlotsKeepsPending(slots, pre, id);
    var s := RewriteSlots(slots, pre);
    assert IndexOf(s, Pending(id)) == Some(i) by {
      assert slots[i] == Pending(id) && forall k :: 0 <= k < i ==> slots[k] != Pending(id);
      IndexOfFirst(s, Pending(id), i);
    }
    var t := RewriteSlots(slots, outs[..j + 1]);
    assert t[i] == Described(Descriptor(outs[j])) by {
      assert outs[..j + 1][..j] == pre && outs[..j + 1][j] == outs[j];
    }
    var rest := outs[j + 1..];
    assert RewriteSlots(slots, outs) == RewriteSlots(t, rest) by {
      assert outs == outs[..j + 1] + rest;
      RewriteSlotsAppend(slots, outs[..j + 1], rest);
    }
    RewriteSlotsFrame(t, rest);
  }

  /** The edges from the listed inputs to the function node `f`. */
  function InEdges(ins: seq<nat>, f: nat): set<Edge>
  {
    set i | 0 <= i < |ins| :: Edge(VarCand(ins[i]), FuncCand(f))
  }

  lemma InEdgesStep(ins: seq<nat>, i: nat, f: nat)
    requires i < |ins|
    ensures InEdges(ins[..i + 1], f) == InEdges(ins[..i], f) + {Edge(VarCand(ins[i]), FuncCand(f))}
  {
    var a, b := ins[..i + 1], ins[..i];
    assert a[i] == ins[i];
    forall e | e in InEdges(a, f)
      ensures e in InEdges(b, f) + {Edge(VarCand(ins[i]), FuncCand(f))}
    {
      var k :| 0 <= k < |a| && e == Edge(VarCand(a[k]), FuncCand(f));
      if k < i {
        assert b[k] == a[k];
      }
    }
    forall e | e in InEdges(b, f)
      ensures e in InEdges(a, f)
    {
      var k :| 0 <= k < |b| && e == Edge(VarCand(b[k]), FuncCand(f));
      assert a[k] == b[k];
    }
  }

  /** Both ends of every edge in `es`: what `nodes` gains with them. */
  function EdgeEnds(es: set<Edge>): set<Cand>
  {
    (set e | e in es :: e.from) + (set e | e in es :: e.to)
  }

  lemma EdgeEndsAdd(es: set<Edge>, e: Edge)
    ensures EdgeEnds(es + {e}) == EdgeEnds(es) + {e.from, e.to}
  {
    assert e in es + {e};
  }

  /** The entries the loop over a function node's inputs pushes, counting on from `count`: one for
      each input whose edge to the node is not yet seen, so an input listed twice is pushed once. */
  function Pushes(g: Graph, ins: seq<nat>, f: nat, seen: set<Edge>, count: nat): seq<HeapEntry>
    requires forall i :: 0 <= i < |ins| ==> ins[i] < |g.vars|
    decreases |ins|
  {
    if ins == [] then []
    else
      var e := Edge(VarCand(ins[0]), FuncCand(f));
      if e in seen then Pushes(g, ins[1..], f, seen, count)
      else [HeapEntry(-Rank(g, VarCand(ins[0])), count, VarCand(ins[0]))] + Pushes(g, ins[1..], f, seen + {e}, count + 1)
  }

  lemma PushesStep(g: Graph, ins: seq<nat>, i: nat, f: nat, seen: set<Edge>, count: nat)
    requires forall k :: 0 <= k < |ins| ==> ins[k] < |g.vars|
    requires i < |ins|
    ensures Pushes(g, ins[i..], f, seen, count) ==
      var e := Edge(VarCand(ins[i]), FuncCand(f));
      if e in seen then Pushes(g, ins[i + 1..], f, seen, count)
      else [HeapEntry(-Rank(g, VarCand(ins[i])), count, VarCand(ins[i]))] + Pushes(g, ins[i + 1..], f, seen + {e}, count + 1)
  {
    assert ins[i..][1..] == ins[i + 1..];
  }

  /** The bookkeeping of one new edge `e`: it is recorded, both its ends are reached, and the
      candidate `c` of rank `rank` is pushed with the next count. */
  predicate Recorded(e: Edge, c: Cand, rank: int, seen: set<Edge>, seen': set<Edge>, nodes: set<Cand>, nodes': set<Cand>,
                     entries: seq<HeapEntry>, entries': seq<HeapEntry>, count: nat, count': nat)
  {
    && seen' == seen + {e}
    && nodes' == nodes + {e.from, e.to}
    && entries' == entries + [HeapEntry(-rank, count, c)]
    && count' == count + 1
  }

  /** The loop over the inputs `ins` of the function node `f`, at its `i`-th turn, has recorded
      the edges from the inputs before `i`, reached their ends, and pushed since it began with
      `seenStart`, `nodesStart` and `start` what makes `start` into `entries`; `all` is what the
      whole loop pushes. */
  ghost predicate InputAccount(g: Graph, ins: seq<nat>, i: nat, f: nat, seenStart: set<Edge>, nodesStart: set<Cand>,
                               start: seq<HeapEntry>, all: seq<HeapEntry>,
                               seen: set<Edge>, nodes: set<Cand>, entries: seq<HeapEntry>, count: nat)
  {
    && (forall k :: 0 <= k < |ins| ==> ins[k] < |g.vars|)
    && i <= |ins|
    && seen == seenStart + InEdges(ins[..i], f)
    && nodes == nodesStart + EdgeEnds(seen - seenStart)
    && start + all == entries + Pushes(g, ins[i..], f, seen, count)
  }

  lemma AppendAssoc<T>(a: seq<T>, b: seq<T>, c: seq<T>)
    ensures (a + b) + c == a + (b + c)
  {
  }

  /** The account holds before the first turn. */
  lemma InputAccountStart(g: Graph, ins: seq<nat>, f: nat, seen: set<Edge>, nodes: set<Cand>, entries: seq<HeapEntry>, count: nat)
    requires forall k :: 0 <= k < |ins| ==> ins[k] < |g.vars|
    ensures InputAccount(g, ins, 0, f, seen, nodes, entries, Pushes(g, ins, f, seen, count), seen, nodes, entries, count)
  {
    assert ins[..0] == [] && ins[0..] == ins;
    assert InEdges([], f) == {};
    assert EdgeEnds({}) == {};
  }

  /** After the last turn the loop has recorded the edges from all the inputs and pushed all it
      pushes. */
  lemma InputAccountEnd(
    g: Graph, ins: seq<nat>, f: nat, seenStart: set<Edge>, nodesStart: set<Cand>,
    start: seq<HeapEntry>, all: seq<HeapEntry>, seen: set<Edge>, nodes: set<Cand>, entries: seq<HeapEntry>, count: nat)
    requires InputAccount(g, ins, |ins|, f, seenStart, nodesStart, start, all, seen, nodes, entries, count)
    ensures seen == seenStart + InEdges(ins, f)
    ensures nodes == nodesStart + EdgeEnds(seen - seenStart)
    ensures entries == start + all
  {
    assert ins[..|ins|] == ins && ins[|ins|..] == [];
  }

  /** A turn of the loop over a function node's inputs whose edge was already seen keeps the
      loop's account. */
  lemma InputTurnSeen(
    g: Graph, ins: seq<nat>, i: nat, f: nat, seenStart: set<Edge>, nodesStart: set<Cand>,
    start: seq<HeapEntry>, all: seq<HeapEntry>, seen: set<Edge>, nodes: set<Cand>, entries: seq<HeapEntry>, count: nat)
    requires i < |ins| && Edge(VarCand(ins[i]), FuncCand(f)) in seen
    requires InputAccount(g, ins, i, f, seenStart, nodesStart, start, all, seen, nodes, entries, count)
    ensures InputAccount(g, ins, i + 1, f, seenStart, nodesStart, start, all, seen, nodes, entries, count)
  {
    PushesStep(g, ins, i, f, seen, count);
    InEdgesStep(ins, i, f);
  }

  /** The same for a turn that records the new edge and pushes the input. */
  lemma InputTurnNew(
    g: Graph, ins: seq<nat>, i: nat, f: nat, seenStart: set<Edge>, nodesStart: set<Cand>,
    start: seq<HeapEntry>, all: seq<HeapEntry>, seen: set<Edge>, nodes: set<Cand>, entries: seq<HeapEntry>, count: nat,
    seen': set<Edge>, nodes': set<Cand>, entries': seq<HeapEntry>, count': nat)
    requires i < |ins| && Edge(VarCand(ins[i]), FuncCand(f)) !in seen
    requires InputAccount(g, ins, i, f, seenStart, nodesStart, start, all, seen, nodes, entries, count)
    requires Recorded(Edge(VarCand(ins[i]), FuncCand(f)), VarCand(ins[i]), Rank(g, VarCand(ins[i])),
                      seen, seen', nodes, nodes', entries, entries', count, count')
    ensures InputAccount(g, ins, i + 1, f, seenStart, nodesStart, start, all, seen', nodes', entries', count')
  {
    var e := Edge(VarCand(ins[i]), FuncCand(f));
    var pushed := HeapEntry(-Rank(g, VarCand(ins[i])), count, VarCand(ins[i]));
    var rest := Pushes(g, ins[i + 1..], f, seen', count');
    PushesStep(g, ins, i, f, seen, count);
    assert Pushes(g, ins[i..], f, seen, count) == [pushed] + rest;
    AppendAssoc(entries, [pushed], rest);
    InEdgesStep(ins, i, f);
    NewEdgeEnds(seenStart, seen, e);
  }

  /** The entry popping the tensor node `v` pushes: its creator, unless that edge was seen. */
  function CreatorPush(g: Graph, v: nat, seen: set<Edge>, count: nat): seq<HeapEntry>
    requires Runtime.Valid(g) && v < |g.vars|
  {
    var c := g.vars[v].creator;
    if c.Some? && Edge(FuncCand(c.value), VarCand(v)) !in seen then
      [HeapEntry(-Rank(g, FuncCand(c.value)), count, FuncCand(c.value))]
    else []
  }

  /** The edge popping the tensor node `v` records, if any. */
  function CreatorEdge(g: Graph, v: nat, seen: set<Edge>): set<Edge>
    requires v < |g.vars|
  {
    var c := g.vars[v].creator;
    if c.Some? && Edge(FuncCand(c.value), VarCand(v)) !in seen then {Edge(FuncCand(c.value), VarCand(v))} else {}
  }

  lemma CreatorEdgeEnds(g: Graph, v: nat, seen: set<Edge>)
    requires v < |g.vars|
    ensures var c := g.vars[v].creator;
      EdgeEnds(CreatorEdge(g, v, seen)) ==
        if c.Some? && Edge(FuncCand(c.value), VarCand(v)) !in seen then {FuncCand(c.value), VarCand(v)} else {}
  {
    var c := g.vars[v].creator;
    if c.Some? && Edge(FuncCand(c.value), VarCand(v)) !in seen {
      EdgeEndsAdd({}, Edge(FuncCand(c.value), VarCand(v)));
      assert {} + {Edge(FuncCand(c.value), VarCand(v))} == CreatorEdge(g, v, seen);
    }
  }

  /** Recording one more edge `e` adds its two ends to the ends of the edges recorded since `s0`. */
  lemma NewEdgeEnds(s0: set<Edge>, s: set<Edge>, e: Edge)
    requires s0 <= s && e !in s
    ensures EdgeEnds((s + {e}) - s0) == EdgeEnds(s - s0) + {e.from, e.to}
  {
    assert (s + {e}) - s0 == (s - s0) + {e};
    EdgeEndsAdd(s - s0, e);
  }

  /** What translating the function node `f` appends to the collected nodes: one node of the
      table's kind for its class, whose inputs are the node's bindings with every attached
      parameter's identity replaced by its name, and whose outputs start with the names of the
      node's outputs. */
  ghost predicate Emitted(
    g: Graph, f: nat, inputTensorIds: seq<int>, before: seq<OnnxNode>, after: seq<OnnxNode>,
    paramNames: map<int, string>)
    requires Runtime.Valid(g) && f < |g.funcs|
  {
    var fn := g.funcs[f];
    assert FuncValid(g, fn);
    var vs := InputNodes(g, fn.inputs);
    && |after| == |before| + 1 && after[..|before|] == before
    && IsTranslationOf(fn.className, after[|before|].opType)
    && NamesRewritten(Bindings(vs, inputTensorIds), after[|before|].inputs, AttachedIds(Attached(vs)), paramNames)
    && |after[|before|].outputs| >= |fn.outputs|
    && after[|before|].outputs[..|fn.outputs|] == OutNames(NodeIds(InputNodes(g, fn.outputs)))
  }

  /** The link `create_node` receives for the function node `f`: its class name and attributes,
      the parameters attached by name, its inputs and its outputs' identities. */
  function LinkOf(g: Graph, f: nat): Link
    requires Runtime.Valid(g) && f < |g.funcs|
  {
    var fn := g.funcs[f];
    assert FuncValid(g, fn);
    Link(fn.className, fn.config, Attached(InputNodes(g, fn.inputs)), InputNodes(g, fn.inputs), NodeIds(InputNodes(g, fn.outputs)))
  }

  /** What the walk has collected once it has processed some function nodes: the translated
      nodes in the order they were appended, the build context, and how the last translation
      ended. */
  datatype Collected = Collected(nodes: seq<OnnxNode>, ctx: CtxState, outcome: Outcome)

  /** Processing the function node `f`: a class outside the table adds nothing; a table class is
      translated on its link and its bindings, and `graph.extend` appends the result on success. */
  function EmitStep(g: Graph, inputTensorIds: seq<int>, train: bool, acc: Collected, f: nat): Collected
    requires Runtime.Valid(g) && f < |g.funcs|
  {
    var fn := g.funcs[f];
    assert FuncValid(g, fn);
    if fn.className !in Layers then Collected(acc.nodes, acc.ctx, Pass)
    else Absorb(acc, CreateStep(LinkOf(g, f), Bindings(InputNodes(g, fn.inputs), inputTensorIds), acc.ctx, train))
  }

  /** What `create_node` returned, taken in: the context it left, and on success its nodes
      appended by `graph.extend`. */
  function Absorb(acc: Collected, step: (Result<seq<OnnxNode>>, CtxState)): Collected
  {
    match step.0
    case Failure(e) => Collected(acc.nodes, step.1, Fail(e))
    case Success(ns) => Collected(acc.nodes + ns, step.1, Pass)
  }

  /** Processing the function nodes `fs` in order, starting from the context `c0`. */
  function Collect(g: Graph, inputTensorIds: seq<int>, c0: CtxState, train: bool, fs: seq<nat>): Collected
    requires Runtime.Valid(g) && forall k :: 0 <= k < |fs| ==> fs[k] < |g.funcs|
    decreases |fs|, 1
  {
    if fs == [] then Collected([], c0, Pass)
    else EmitLast(g, inputTensorIds, c0, train, fs)
  }

  /** `Collect` on a non-empty list: the last node processed on what its predecessors left. The
      two functions recurse into each other so that the verifier unfolds a translation only where a
      proof asks for it. */
  function EmitLast(g: Graph, inputTensorIds: seq<int>, c0: CtxState, train: bool, fs: seq<nat>): Collected
    requires Runtime.Valid(g) && fs != [] && forall k :: 0 <= k < |fs| ==> fs[k] < |g.funcs|
    decreases |fs|, 0
  {
    EmitStep(g, inputTensorIds, train, Collect(g, inputTensorIds, c0, train, fs[..|fs| - 1]), fs[|fs| - 1])
  }

  lemma CollectStep(g: Graph, inputTensorIds: seq<int>, c0: CtxState, train: bool, fs: seq<nat>, f: nat)
    requires Runtime.Valid(g) && f < |g.funcs| && forall k :: 0 <= k < |fs| ==> fs[k] < |g.funcs|
    ensures Collect(g, inputTensorIds, c0, train, fs + [f])
            == EmitStep(g, inputTensorIds, train, Collect(g, inputTensorIds, c0, train, fs), f)
  {
    assert (fs + [f])[..|fs|] == fs;
  }

  /** One function node's share of `CollectProvenance`: the lists stay accumulated, at most one
      node is appended, of a kind `f`'s class translates to, and at most one registration, holding
      `f`'s statistics. */
  lemma EmitStepProvenance(params: seq<NamedParam>, g: Graph, inputTensorIds: seq<int>, train: bool, acc: Collected, f: nat)
    requires Runtime.Valid(g) && f < |g.funcs|
    requires acc.ctx.1 == ParamInitializers(params) + StatInitializers(acc.ctx.3)
    requires acc.ctx.2 == ParamDescriptors(params) + StatDescriptors(acc.ctx.3)
    ensures var t := EmitStep(g, inputTensorIds, train, acc, f);
      && t.ctx.1 == ParamInitializers(params) + StatInitializers(t.ctx.3)
      && t.ctx.2 == ParamDescriptors(params) + StatDescriptors(t.ctx.3)
      && (t.nodes == acc.nodes
          || (exists n :: t.nodes == acc.nodes + [n] && IsTranslationOf(g.funcs[f].className, n.opType)))
      && (t.ctx.3 == acc.ctx.3
          || (exists gammaName :: && g.funcs[f].className == "BatchNormalization" && g.funcs[f].config.BatchNormConfig?
                                  && t.ctx.3 == acc.ctx.3 + [Registration(gammaName, g.funcs[f].config.runningMean, g.funcs[f].config.runningVar)]))
  {
    var fn := g.funcs[f];
    assert FuncValid(g, fn);
    if fn.className in Layers {
      var link := LinkOf(g, f);
      var entries := Bindings(InputNodes(g, fn.inputs), inputTensorIds);
      CreateStepContext(params, link, entries, acc.ctx, train);
      AbsorbProvenance(params, fn, acc, CreateStep(link, entries, acc.ctx, train));
    }
  }

  /** `Absorb`'s share of `EmitStepProvenance`, given what `CreateStepContext` states about the
      step of `fn`'s link. */
  lemma AbsorbProvenance(params: seq<NamedParam>, fn: FunctionNode, acc: Collected, step: (Result<seq<OnnxNode>>, CtxState))
    requires step.1.1 == ParamInitializers(params) + StatInitializers(step.1.3)
    requires step.1.2 == ParamDescriptors(params) + StatDescriptors(step.1.3)
    requires step.1 == acc.ctx || (fn.className == "BatchNormalization" && fn.config.BatchNormConfig?)
    requires step.1 != acc.ctx ==>
      && |step.1.3| == |acc.ctx.3| + 1 && step.1.3[..|acc.ctx.3|] == acc.ctx.3
      && step.1.3[|acc.ctx.3|].mean == fn.config.runningMean
      && step.1.3[|acc.ctx.3|].variance == fn.config.runningVar
    requires step.0.Success? ==> |step.0.value| == 1 && IsTranslationOf(fn.className, step.0.value[0].opType)
    ensures var t := Absorb(acc, step);
      && t.ctx.1 == ParamInitializers(params) + StatInitializers(t.ctx.3)
      && t.ctx.2 == ParamDescriptors(params) + StatDescriptors(t.ctx.3)
      && (t.nodes == acc.nodes
          || (exists n :: t.nodes == acc.nodes + [n] && IsTranslationOf(fn.className, n.opType)))
      && (t.ctx.3 == acc.ctx.3
          || (exists gammaName :: && fn.className == "BatchNormalization" && fn.config.BatchNormConfig?
                                  && t.ctx.3 == acc.ctx.3 + [Registration(gammaName, fn.config.runningMean, fn.config.runningVar)]))
  {
    AbsorbNodes(fn, acc, step);
    AbsorbContext(params, fn, acc, step);
  }

  /** The nodes `Absorb` adds: none, or the one node of a successful step. */
  lemma AbsorbNodes(fn: FunctionNode, acc: Collected, step: (Result<seq<OnnxNode>>, CtxState))
    requires step.0.Success? ==> |step.0.value| == 1 && IsTranslationOf(fn.className, step.0.value[0].opType)
    ensures var t := Absorb(acc, step);
      || t.nodes == acc.nodes
      || (exists n :: t.nodes == acc.nodes + [n] && IsTranslationOf(fn.className, n.opType))
  {
    if step.0.Success? {
      assert Absorb(acc, step).nodes == acc.nodes + [step.0.value[0]];
    }
  }

  /** The context `Absorb` keeps is the step's: the same registrations, or one more holding
      `fn`'s running statistics. */
  lemma AbsorbContext(params: seq<NamedParam>, fn: FunctionNode, acc: Collected, step: (Result<seq<OnnxNode>>, CtxState))
    requires step.1.1 == ParamInitializers(params) + StatInitializers(step.1.3)
    requires step.1.2 == ParamDescriptors(params) + StatDescriptors(step.1.3)
    requires step.1 == acc.ctx || (fn.className == "BatchNormalization" && fn.config.BatchNormConfig?)
    requires step.1 != acc.ctx ==>
      && |step.1.3| == |acc.ctx.3| + 1 && step.1.3[..|acc.ctx.3|] == acc.ctx.3
      && step.1.3[|acc.ctx.3|].mean == fn.config.runningMean
      && step.1.3[|acc.ctx.3|].variance == fn.config.runningVar
    ensures var t := Absorb(acc, step);
      && t.ctx.1 == ParamInitializers(params) + StatInitializers(t.ctx.3)
      && t.ctx.2 == ParamDescriptors(params) + StatDescriptors(t.ctx.3)
      && (t.ctx.3 == acc.ctx.3
          || (exists gammaName :: && fn.className == "BatchNormalization" && fn.config.BatchNormConfig?
                                  && t.ctx.3 == acc.ctx.3 + [Registration(gammaName, fn.config.runningMean, fn.config.runningVar)]))
  {
    assert Absorb(acc, step).ctx == step.1;
    if step.1 != acc.ctx {
      var last := step.1.3[|acc.ctx.3|];
      assert step.1.3 == acc.ctx.3 + [Registration(last.gammaName, fn.config.runningMean, fn.config.runningVar)];
    }
  }

  /** `n` is of a kind the class of one of the function nodes `fs` translates to. */
  ghost predicate NodeFrom(g: Graph, fs: seq<nat>, n: OnnxNode)
  {
    exists j :: 0 <= j < |fs| && fs[j] < |g.funcs| && IsTranslationOf(g.funcs[fs[j]].className, n.opType)
  }

  /** `reg` holds the running statistics of one of the BatchNormalization nodes among `fs`. */
  ghost predicate RegistrationFrom(g: Graph, fs: seq<nat>, reg: Registration)
  {
    exists j :: 0 <= j < |fs| && fs[j] < |g.funcs| && HoldsStats(g.funcs[fs[j]], reg)
  }

  predicate HoldsStats(fn: FunctionNode, reg: Registration)
  {
    && fn.className == "BatchNormalization" && fn.config.BatchNormConfig?
    && reg.mean == fn.config.runningMean && reg.variance == fn.config.runningVar
  }

  /** Where the collected nodes and registrations come from: the accumulated lists stay the
      parameters' entries followed by the registrations'; each node is of a kind the class of
      some processed node translates to; and each registration made holds the running statistics
      of some processed BatchNormalization node. */
  lemma {:induction false} CollectProvenance(
    params: seq<NamedParam>, g: Graph, inputTensorIds: seq<int>, c0: CtxState, train: bool, fs: seq<nat>)
    requires Runtime.Valid(g) && forall k :: 0 <= k < |fs| ==> fs[k] < |g.funcs|
    requires c0.1 == ParamInitializers(params) + StatInitializers(c0.3)
    requires c0.2 == ParamDescriptors(params) + StatDescriptors(c0.3)
    ensures var t := Collect(g, inputTensorIds, c0, train, fs);
      && t.ctx.1 == ParamInitializers(params) + StatInitializers(t.ctx.3)
      && t.ctx.2 == ParamDescriptors(params) + StatDescriptors(t.ctx.3)
      && c0.3 <= t.ctx.3
      && (forall n :: n in t.nodes ==> NodeFrom(g, fs, n))
      && (forall k :: |c0.3| <= k < |t.ctx.3| ==> RegistrationFrom(g, fs, t.ctx.3[k]))
    decreases |fs|
  {
    if fs != [] {
      var init := fs[..|fs| - 1];
      var f := fs[|fs| - 1];
      CollectProvenance(params, g, inputTensorIds, c0, train, init);
      var t0 := Collect(g, inputTensorIds, c0, train, init);
      var t := Collect(g, inputTensorIds, c0, train, fs);
      assert t == EmitLast(g, inputTensorIds, c0, train, fs);
      assert t == EmitStep(g, inputTensorIds, train, t0, f);
      EmitStepProvenance(params, g, inputTensorIds, train, t0, f);
      FromPrefix(g, fs);
      forall n | n in t.nodes
        ensures NodeFrom(g, fs, n)
      {
        if n !in t0.nodes {
          assert IsTranslationOf(g.funcs[fs[|fs| - 1]].className, n.opType);
        }
      }
      forall k | |c0.3| <= k < |t.ctx.3|
        ensures RegistrationFrom(g, fs, t.ctx.3[k])
      {
        if k >= |t0.ctx.3| {
          assert HoldsStats(g.funcs[fs[|fs| - 1]], t.ctx.3[k]);
        }
      }
    }
  }

  /** What comes from a prefix of `fs` comes from `fs`. */
  lemma FromPrefix(g: Graph, fs: seq<nat>)
    requires fs != []
    ensures forall n :: NodeFrom(g, fs[..|fs| - 1], n) ==> NodeFrom(g, fs, n)
    ensures forall reg :: RegistrationFrom(g, fs[..|fs| - 1], reg) ==> RegistrationFrom(g, fs, reg)
  {
    var init := fs[..|fs| - 1];
    assert forall j :: 0 <= j < |init| ==> init[j] == fs[j];
  }

  /** `create_node` on the link built from a function node of a table class. */
  method TranslateFunction(
    g: Graph, f: nat, inputTensorIds: seq<int>, entries: seq<Entry>, attached: map<string, TensorNode>,
    ctx: BuildContext, train: bool, before: seq<OnnxNode>)
    returns (res: Result<seq<OnnxNode>>)
    requires Runtime.Valid(g) && f < |g.funcs| && g.funcs[f].className in Layers
    requires entries == Bindings(InputNodes(g, g.funcs[f].inputs), inputTensorIds)
    requires attached == Attached(InputNodes(g, g.funcs[f].inputs))
    requires ctx.Accumulated()
    modifies ctx
    ensures ctx.Accumulated()
    ensures res.Failure? ==> !res.error.UnsupportedOperator? && !res.error.UnboundOutput?
    ensures old(ctx.parameters) <= ctx.parameters && old(ctx.inputTensors) <= ctx.inputTensors
    ensures old(ctx.registered) <= ctx.registered
    ensures g.funcs[f].className != "BatchNormalization" ==> ctx.State() == old(ctx.State())
    ensures g.funcs[f].className == "BatchNormalization" ==>
      ctx.State() == old(ctx.State()) || StatsRegistered(LinkOf(g, f), old(ctx.State()), ctx.State())
    ensures g.funcs[f].className == "BatchNormalization" && res.Success? ==>
      StatsRegistered(LinkOf(g, f), old(ctx.State()), ctx.State())
    ensures res.Success? ==>
      && Emitted(g, f, inputTensorIds, before, before + res.value, ctx.paramNames)
      && forall n :: n in res.value ==> n.opType in TranslatedOpTypes
    ensures (res, ctx.State()) == CreateStep(LinkOf(g, f), entries, old(ctx.State()), train)
  {
    var link := LinkOf(g, f);
    var names := new NameList(entries);
    res := ctx.CreateNode(link, names, train);
    if res.Success? {
      assert res.value == [res.value[0]];
      TranslationsAreKnownKinds(g.funcs[f].className, res.value[0].opType);
      assert (before + res.value)[..|before|] == before;
    }
  }

  /** The rewrite for the function node `f` keeps every descriptor and changes a slot only to
      the descriptor of one of `f`'s outputs. */
  lemma OutputRewriteFrame(g: Graph, f: nat, slots: seq<OutSlot>)
    requires Runtime.Valid(g) && f < |g.funcs|
    ensures |RewriteSlots(slots, OutputNodes(g, f))| == |slots|
    ensures forall i :: 0 <= i < |slots| && slots[i].Described? ==> RewriteSlots(slots, OutputNodes(g, f))[i] == slots[i]
    ensures forall i :: 0 <= i < |slots| && RewriteSlots(slots, OutputNodes(g, f))[i] != slots[i] ==>
      exists k :: 0 <= k < |g.funcs[f].outputs| && RewriteSlots(slots, OutputNodes(g, f))[i] == Described(Descriptor(g.vars[g.funcs[f].outputs[k]]))
  {
    var outs := OutputNodes(g, f);
    var r := RewriteSlots(slots, outs);
    assert FuncValid(g, g.funcs[f]);
    RewriteSlotsFrame(slots, outs);
    forall i | 0 <= i < |slots| && r[i] != slots[i]
      ensures exists k :: 0 <= k < |g.funcs[f].outputs| && r[i] == Described(Descriptor(g.vars[g.funcs[f].outputs[k]]))
    {
      var l :| 0 <= l < |outs| && slots[i] == Pending(outs[l].varId) && r[i] == Described(Descriptor(outs[l]));
      assert outs[l] == g.vars[g.funcs[f].outputs[l]];
    }
  }

  /** The loop over a function node's outputs `outs`: for each in turn, the first slot still
      holding its variable's identity takes its descriptor. `srcs` records, for the proof, which
      tensor node each described slot describes. */
  method RewriteLoop(g: Graph, ghost ids: seq<int>, slots: seq<OutSlot>, ghost srcs: seq<int>, outs: seq<nat>)
    returns (newSlots: seq<OutSlot>, ghost newSources: seq<int>)
    requires forall k :: 0 <= k < |outs| ==> outs[k] < |g.vars|
    requires |slots| == |ids| == |srcs|
    requires forall i :: 0 <= i < |slots| ==> SlotOk(g, ids[i], slots[i], srcs[i])
    ensures newSlots == RewriteSlots(slots, InputNodes(g, outs))
    ensures |newSources| == |slots|
    ensures forall i :: 0 <= i < |slots| ==> SlotOk(g, ids[i], newSlots[i], newSources[i])
  {
    ghost var vs := InputNodes(g, outs);
    newSlots, newSources := slots, srcs;
    var k := 0;
    while k < |outs|
      invariant 0 <= k <= |outs|
      invariant newSlots == RewriteSlots(slots, vs[..k])
      invariant |newSources| == |slots|
      invariant forall i :: 0 <= i < |slots| ==> SlotOk(g, ids[i], newSlots[i], newSources[i])
    {
      var out := g.vars[outs[k]];
      assert out == vs[k];
      assert vs[..k + 1][..k] == vs[..k];
      var idx := IndexOf(newSlots, Pending(out.varId));
      if idx.Some? {
        var i := idx.value;
        assert SlotOk(g, ids[i], newSlots[i], newSources[i]);
        newSlots := newSlots[i := Described(Descriptor(out))];
        newSources := newSources[i := outs[k]];
      }
      k := k + 1;
    }
    assert vs[..k] == vs;
  }

  /** The local state of the walk in `export`. */
  /** The candidates a walk starts from: the output tensor nodes. */
  function Roots(outputs: seq<nat>): set<Cand>
  {
    set i | 0 <= i < |outputs| :: VarCand(outputs[i])
  }

  /** `b` feeds `a`: `b` is the creator of the tensor node `a`, or an input of the function node
      `a`. These are the candidates popping `a` pushes, each along the edge `(b, a)`. */
  predicate Feeds(g: Graph, b: Cand, a: Cand)
  {
    match a
    case VarCand(v) => v < |g.vars| && g.vars[v].creator.Some? && b == FuncCand(g.vars[v].creator.value)
    case FuncCand(f) => f < |g.funcs| && b.VarCand? && b.v in g.funcs[f].inputs
  }

  /** `p` goes backward from a root, each candidate fed by the next. */
  ghost predicate IsPath(g: Graph, roots: set<Cand>, p: seq<Cand>)
  {
    && |p| > 0 && p[0] in roots
    && forall k :: 0 <= k < |p| - 1 ==> Feeds(g, p[k + 1], p[k])
  }

  /** `c` is reachable backward from the roots. */
  ghost predicate Reachable(g: Graph, roots: set<Cand>, c: Cand)
  {
    exists p :: IsPath(g, roots, p) && p[|p| - 1] == c
  }

  /** The walk is done with `c`: the edge from everything that feeds it is recorded, and a
      function node has been processed. */
  ghost predicate Handled(g: Graph, seen: set<Edge>, visited: seq<nat>, c: Cand)
  {
    && (forall b :: Feeds(g, b, c) ==> Edge(b, c) in seen)
    && (c.FuncCand? ==> c.f in visited)
  }

  ghost predicate Queued(entries: seq<HeapEntry>, c: Cand)
  {
    exists x :: x in entries && x.cand == c
  }

  /** The coverage part of the walk's invariant: the roots are reached; the queue and the processed
      nodes are reached candidates; every reached candidate is still queued or handled; and every
      reached candidate is reachable from the roots. */
  ghost predicate Covered(g: Graph, roots: set<Cand>, nodes: set<Cand>, seen: set<Edge>, visited: seq<nat>, entries: seq<HeapEntry>)
  {
    && roots <= nodes
    && (forall x :: x in entries ==> x.cand in nodes)
    && (forall k :: 0 <= k < |visited| ==> FuncCand(visited[k]) in nodes)
    && (forall c :: c in nodes ==> Queued(entries, c) || Handled(g, seen, visited, c))
    && (forall c :: c in nodes ==> Reachable(g, roots, c))
  }

  /** A root is reachable. */
  lemma RootReachable(g: Graph, roots: set<Cand>, c: Cand)
    requires c in roots
    ensures Reachable(g, roots, c)
  {
    assert IsPath(g, roots, [c]);
  }

  /** What feeds a reachable candidate is reachable. */
  lemma ReachFeed(g: Graph, roots: set<Cand>, a: Cand, b: Cand)
    requires Reachable(g, roots, a) && Feeds(g, b, a)
    ensures Reachable(g, roots, b)
  {
    var p :| IsPath(g, roots, p) && p[|p| - 1] == a;
    var q := p + [b];
    assert forall k :: 0 <= k < |p| ==> q[k] == p[k];
    assert IsPath(g, roots, q);
  }

  /** Every entry the loop over the inputs pushes is an input whose edge was not yet seen. */
  lemma {:induction false} PushesCands(g: Graph, ins: seq<nat>, f: nat, seen: set<Edge>, count: nat, x: HeapEntry)
    requires forall i :: 0 <= i < |ins| ==> ins[i] < |g.vars|
    requires x in Pushes(g, ins, f, seen, count)
    ensures exists k :: 0 <= k < |ins| && x.cand == VarCand(ins[k]) && Edge(VarCand(ins[k]), FuncCand(f)) !in seen
    decreases |ins|
  {
    var e := Edge(VarCand(ins[0]), FuncCand(f));
    var rest := ins[1..];
    if e in seen {
      PushesCands(g, rest, f, seen, count, x);
      var k :| 0 <= k < |rest| && x.cand == VarCand(rest[k]) && Edge(VarCand(rest[k]), FuncCand(f)) !in seen;
      assert rest[k] == ins[k + 1];
    } else if x != HeapEntry(-Rank(g, VarCand(ins[0])), count, VarCand(ins[0])) {
      PushesCands(g, rest, f, seen + {e}, count + 1, x);
      var k :| 0 <= k < |rest| && x.cand == VarCand(rest[k]) && Edge(VarCand(rest[k]), FuncCand(f)) !in seen + {e};
      assert rest[k] == ins[k + 1];
    }
  }

  /** Every input whose edge was not yet seen is pushed by the loop over the inputs. */
  lemma {:induction false} PushesCover(g: Graph, ins: seq<nat>, f: nat, seen: set<Edge>, count: nat, k: nat)
    requires forall i :: 0 <= i < |ins| ==> ins[i] < |g.vars|
    requires k < |ins| && Edge(VarCand(ins[k]), FuncCand(f)) !in seen
    ensures Queued(Pushes(g, ins, f, seen, count), VarCand(ins[k]))
    decreases |ins|
  {
    var e := Edge(VarCand(ins[0]), FuncCand(f));
    var rest := ins[1..];
    var first := HeapEntry(-Rank(g, VarCand(ins[0])), count, VarCand(ins[0]));
    if e in seen {
      assert rest[k - 1] == ins[k];
      PushesCover(g, rest, f, seen, count, k - 1);
    } else if ins[k] == ins[0] {
      assert first in Pushes(g, ins, f, seen, count);
    } else {
      assert rest[k - 1] == ins[k];
      PushesCover(g, rest, f, seen + {e}, count + 1, k - 1);
      var x :| x in Pushes(g, rest, f, seen + {e}, count + 1) && x.cand == VarCand(ins[k]);
      assert x in Pushes(g, ins, f, seen, count);
    }
  }

  /** An entry other than the popped one stays queued. */
  lemma StaysQueued(entries0: seq<HeapEntry>, e: HeapEntry, pushed: seq<HeapEntry>, entries: seq<HeapEntry>, x: HeapEntry)
    requires multiset(entries) == multiset(entries0) - multiset{e} + multiset(pushed)
    requires x in entries0 && x != e
    ensures x in entries
  {
    assert x in multiset(entries0);
    assert x in multiset(entries);
  }

  /** A queued entry was queued before or was pushed now. */
  lemma QueuedBefore(entries0: seq<HeapEntry>, e: HeapEntry, pushed: seq<HeapEntry>, entries: seq<HeapEntry>, x: HeapEntry)
    requires multiset(entries) == multiset(entries0) - multiset{e} + multiset(pushed)
    requires x in entries
    ensures x in entries0 || x in pushed
  {
    assert x in multiset(entries);
  }

  /** Popping the tensor node `v` keeps the walk's coverage. */
  lemma VarStepCovered(
    g: Graph, roots: set<Cand>, nodes0: set<Cand>, seen0: set<Edge>, visited: seq<nat>, entries0: seq<HeapEntry>,
    count0: nat, e: HeapEntry, nodes: set<Cand>, seen: set<Edge>, entries: seq<HeapEntry>)
    requires Runtime.Valid(g)
    requires Covered(g, roots, nodes0, seen0, visited, entries0)
    requires e in entries0 && e.cand.VarCand? && e.cand.v < |g.vars|
    requires seen == seen0 + CreatorEdge(g, e.cand.v, seen0)
    requires nodes == nodes0 + EdgeEnds(CreatorEdge(g, e.cand.v, seen0))
    requires multiset(entries) == multiset(entries0) - multiset{e} + multiset(CreatorPush(g, e.cand.v, seen0, count0))
    ensures Covered(g, roots, nodes, seen, visited, entries)
  {
    var v := e.cand.v;
    CreatorEdgeEnds(g, v, seen0);
    VarStepClosed(g, v, seen0, visited, count0, e, entries0, entries, nodes0, nodes, seen);
    forall x | x in entries
      ensures x.cand in nodes
    {
      QueuedBefore(entries0, e, CreatorPush(g, v, seen0, count0), entries, x);
    }
    forall c | c in nodes && c !in nodes0 && c != e.cand
      ensures Reachable(g, roots, c)
    {
      ReachFeed(g, roots, e.cand, c);
    }
  }

  /** After popping the tensor node `v`, every reached candidate is queued or handled. */
  lemma VarStepClosed(
    g: Graph, v: nat, seen0: set<Edge>, visited: seq<nat>, count0: nat, e: HeapEntry,
    entries0: seq<HeapEntry>, entries: seq<HeapEntry>, nodes0: set<Cand>, nodes: set<Cand>, seen: set<Edge>)
    requires Runtime.Valid(g) && v < |g.vars| && e.cand == VarCand(v)
    requires forall c :: c in nodes0 ==> Queued(entries0, c) || Handled(g, seen0, visited, c)
    requires seen == seen0 + CreatorEdge(g, v, seen0)
    requires nodes == nodes0 + EdgeEnds(CreatorEdge(g, v, seen0))
    requires multiset(entries) == multiset(entries0) - multiset{e} + multiset(CreatorPush(g, v, seen0, count0))
    ensures forall c :: c in nodes ==> Queued(entries, c) || Handled(g, seen, visited, c)
  {
    var pushed := CreatorPush(g, v, seen0, count0);
    CreatorEdgeEnds(g, v, seen0);
    var cr := g.vars[v].creator;
    assert Handled(g, seen, visited, e.cand);
    forall c | c in nodes && c != e.cand
      ensures Queued(entries, c) || Handled(g, seen, visited, c)
    {
      if c in nodes0 {
        if Queued(entries0, c) {
          var x :| x in entries0 && x.cand == c;
          StaysQueued(entries0, e, pushed, entries, x);
        }
      } else {
        assert cr.Some? && Edge(FuncCand(cr.value), VarCand(v)) !in seen0 && c == FuncCand(cr.value);
        assert pushed[0] in multiset(entries);
      }
    }
  }

  /** Every input names a tensor node of `g`. */
  predicate InputsOk(g: Graph, ins: seq<nat>)
  {
    forall i :: 0 <= i < |ins| ==> ins[i] < |g.vars|
  }

  /** Popping the function node `f` keeps the walk's coverage. */
  lemma FuncStepCovered(
    g: Graph, roots: set<Cand>, nodes0: set<Cand>, seen0: set<Edge>, visited0: seq<nat>, entries0: seq<HeapEntry>,
    count0: nat, e: HeapEntry, nodes: set<Cand>, seen: set<Edge>, visited: seq<nat>, entries: seq<HeapEntry>)
    requires e.cand.FuncCand? && e.cand.f < |g.funcs| && InputsOk(g, g.funcs[e.cand.f].inputs)
    requires Covered(g, roots, nodes0, seen0, visited0, entries0) && e in entries0
    requires visited == visited0 + [e.cand.f]
    requires seen == seen0 + InEdges(g.funcs[e.cand.f].inputs, e.cand.f)
    requires nodes == nodes0 + EdgeEnds(seen - seen0)
    requires multiset(entries) == multiset(entries0) - multiset{e}
               + multiset(Pushes(g, g.funcs[e.cand.f].inputs, e.cand.f, seen0, count0))
    ensures Covered(g, roots, nodes, seen, visited, entries)
  {
    var f := e.cand.f;
    AppendVisited(nodes0, nodes, visited0, f);
    FuncStepEntries(g, f, seen0, count0, e, entries0, entries, nodes0, nodes);
    FuncStepClosed(g, f, seen0, visited0, count0, e, entries0, entries, nodes0, nodes, seen, visited);
    FuncStepReach(g, roots, f, seen0, seen, nodes0, nodes);
  }

  /** Processing `f` keeps every processed function node among the reached candidates. */
  lemma AppendVisited(nodes0: set<Cand>, nodes: set<Cand>, visited0: seq<nat>, f: nat)
    requires nodes0 <= nodes && FuncCand(f) in nodes0
    requires forall k :: 0 <= k < |visited0| ==> FuncCand(visited0[k]) in nodes0
    ensures forall k :: 0 <= k < |visited0 + [f]| ==> FuncCand((visited0 + [f])[k]) in nodes
  {
  }

  /** After popping `f`, every reached candidate is reachable. */
  lemma FuncStepReach(g: Graph, roots: set<Cand>, f: nat, seen0: set<Edge>, seen: set<Edge>, nodes0: set<Cand>, nodes: set<Cand>)
    requires f < |g.funcs| && FuncCand(f) in nodes0
    requires forall c :: c in nodes0 ==> Reachable(g, roots, c)
    requires seen == seen0 + InEdges(g.funcs[f].inputs, f)
    requires nodes == nodes0 + EdgeEnds(seen - seen0)
    ensures forall c :: c in nodes ==> Reachable(g, roots, c)
  {
    FuncStepNew(g, f, seen0, seen, nodes0, nodes);
    forall c | c in nodes
      ensures Reachable(g, roots, c)
    {
      if c !in nodes0 && c != FuncCand(f) {
        ReachFeed(g, roots, FuncCand(f), c);
      }
    }
  }

  /** The candidates popping `f` adds to the reached set are `f` and its inputs whose edges are new. */
  lemma FuncStepNew(g: Graph, f: nat, seen0: set<Edge>, seen: set<Edge>, nodes0: set<Cand>, nodes: set<Cand>)
    requires f < |g.funcs|
    requires seen == seen0 + InEdges(g.funcs[f].inputs, f)
    requires nodes == nodes0 + EdgeEnds(seen - seen0)
    ensures forall c :: c in nodes && c !in nodes0 && c != FuncCand(f) ==>
      exists k :: 0 <= k < |g.funcs[f].inputs| && c == VarCand(g.funcs[f].inputs[k])
        && Edge(c, FuncCand(f)) !in seen0
  {
    var ins := g.funcs[f].inputs;
    forall c | c in nodes && c !in nodes0 && c != FuncCand(f)
      ensures exists k :: 0 <= k < |ins| && c == VarCand(ins[k]) && Edge(c, FuncCand(f)) !in seen0
    {
      var ed :| ed in seen - seen0 && (c == ed.from || c == ed.to);
      var k :| 0 <= k < |ins| && ed == Edge(VarCand(ins[k]), FuncCand(f));
    }
  }

  /** After popping `f`, every queued entry is a reached candidate. */
  lemma FuncStepEntries(
    g: Graph, f: nat, seen0: set<Edge>, count0: nat, e: HeapEntry, entries0: seq<HeapEntry>, entries: seq<HeapEntry>,
    nodes0: set<Cand>, nodes: set<Cand>)
    requires f < |g.funcs| && InputsOk(g, g.funcs[f].inputs)
    requires forall x :: x in entries0 ==> x.cand in nodes0
    requires multiset(entries) == multiset(entries0) - multiset{e}
               + multiset(Pushes(g, g.funcs[f].inputs, f, seen0, count0))
    requires nodes == nodes0 + EdgeEnds(InEdges(g.funcs[f].inputs, f) - seen0)
    ensures forall x :: x in entries ==> x.cand in nodes
  {
    var ins := g.funcs[f].inputs;
    var pushed := Pushes(g, ins, f, seen0, count0);
    forall x | x in entries
      ensures x.cand in nodes
    {
      QueuedBefore(entries0, e, pushed, entries, x);
      if x !in entries0 {
        PushesCands(g, ins, f, seen0, count0, x);
        var k :| 0 <= k < |ins| && x.cand == VarCand(ins[k]) && Edge(VarCand(ins[k]), FuncCand(f)) !in seen0;
        assert Edge(VarCand(ins[k]), FuncCand(f)) in InEdges(ins, f) - seen0;
      }
    }
  }

  /** After popping `f`, every reached candidate is queued or handled. */
  lemma FuncStepClosed(
    g: Graph, f: nat, seen0: set<Edge>, visited0: seq<nat>, count0: nat, e: HeapEntry,
    entries0: seq<HeapEntry>, entries: seq<HeapEntry>, nodes0: set<Cand>, nodes: set<Cand>, seen: set<Edge>, visited: seq<nat>)
    requires f < |g.funcs| && InputsOk(g, g.funcs[f].inputs) && e.cand == FuncCand(f)
    requires forall c :: c in nodes0 ==> Queued(entries0, c) || Handled(g, seen0, visited0, c)
    requires seen == seen0 + InEdges(g.funcs[f].inputs, f)
    requires nodes == nodes0 + EdgeEnds(seen - seen0)
    requires visited == visited0 + [f]
    requires multiset(entries) == multiset(entries0) - multiset{e}
               + multiset(Pushes(g, g.funcs[f].inputs, f, seen0, count0))
    ensures forall c :: c in nodes ==> Queued(entries, c) || Handled(g, seen, visited, c)
  {
    FuncStepNew(g, f, seen0, seen, nodes0, nodes);
    var ins := g.funcs[f].inputs;
    var pushed := Pushes(g, ins, f, seen0, count0);
    forall b | Feeds(g, b, e.cand)
      ensures Edge(b, e.cand) in seen
    {
      var k :| 0 <= k < |ins| && ins[k] == b.v;
      assert Edge(VarCand(ins[k]), FuncCand(f)) in InEdges(ins, f);
    }
    assert Handled(g, seen, visited, e.cand);
    forall c | c in nodes && c != e.cand
      ensures Queued(entries, c) || Handled(g, seen, visited, c)
    {
      if c in nodes0 {
        if Queued(entries0, c) {
          var x :| x in entries0 && x.cand == c;
          StaysQueued(entries0, e, pushed, entries, x);
        } else {
          assert Handled(g, seen0, visited0, c);
        }
      } else {
        var k :| 0 <= k < |ins| && c == VarCand(ins[k]) && Edge(c, FuncCand(f)) !in seen0;
        PushesCover(g, ins, f, seen0, count0, k);
        var x :| x in pushed && x.cand == c;
        assert x in multiset(entries);
      }
    }
  }

  /** Once the queue is empty, every reachable candidate has been reached and handled. */
  lemma CoveredComplete(g: Graph, roots: set<Cand>, nodes: set<Cand>, seen: set<Edge>, visited: seq<nat>, c: Cand)
    requires Covered(g, roots, nodes, seen, visited, [])
    requires forall ed :: ed in seen ==> ed.from in nodes
    requires Reachable(g, roots, c)
    ensures c in nodes && Handled(g, seen, visited, c)
  {
    var p :| IsPath(g, roots, p) && p[|p| - 1] == c;
    PathReached(g, roots, nodes, seen, visited, p, |p| - 1);
  }

  /** Once the queue is empty, the processed function nodes are exactly those reachable from the roots. */
  lemma WalkComplete(g: Graph, roots: set<Cand>, nodes: set<Cand>, seen: set<Edge>, visited: seq<nat>)
    requires Covered(g, roots, nodes, seen, visited, [])
    requires forall ed :: ed in seen ==> ed.from in nodes
    ensures forall f :: 0 <= f < |g.funcs| ==> (f in visited <==> Reachable(g, roots, FuncCand(f)))
  {
    forall f | 0 <= f < |g.funcs|
      ensures f in visited <==> Reachable(g, roots, FuncCand(f))
    {
      if Reachable(g, roots, FuncCand(f)) {
        CoveredComplete(g, roots, nodes, seen, visited, FuncCand(f));
      }
      if f in visited {
        var k :| 0 <= k < |visited| && visited[k] == f;
        assert FuncCand(visited[k]) in nodes;
      }
    }
  }

  lemma {:induction false} PathReached(
    g: Graph, roots: set<Cand>, nodes: set<Cand>, seen: set<Edge>, visited: seq<nat>, p: seq<Cand>, k: nat)
    requires Covered(g, roots, nodes, seen, visited, [])
    requires forall ed :: ed in seen ==> ed.from in nodes
    requires IsPath(g, roots, p) && k < |p|
    ensures p[k] in nodes && Handled(g, seen, visited, p[k])
  {
    if k > 0 {
      PathReached(g, roots, nodes, seen, visited, p, k - 1);
      assert Feeds(g, p[k], p[k - 1]);
      assert Edge(p[k], p[k - 1]) in seen;
    }
    assert !Queued([], p[k]);
  }

  class Walker {
    const g: Graph
    const inputTensorIds: seq<int>
    const ctx: BuildContext
    const train: bool
    const heap: CandidateHeap
    ghost const initialIds: seq<int>
    ghost const universe: set<Edge>
    /** The output tensor nodes the walk starts from. */
    ghost const roots: set<Cand>
    /** The build context when the walk began. */
    ghost const initialCtx: CtxState
    ghost var sources: seq<int>
    /** The function nodes processed so far, in the order they were popped. */
    ghost var visited: seq<nat>
    var seenEdges: set<Edge>
    var nodes: set<Cand>
    var outputTensorIds: seq<OutSlot>
    var graph: seq<OnnxNode>

    /** The facts about the immutable part of the walk. */
    ghost predicate Fixed()
    {
      Runtime.Valid(g) && EdgesIn(g, universe)
    }

    /** The queue holds well-formed entries of valid candidates. */
    ghost predicate QueueOk()
      reads heap
    {
      heap.Valid() && forall x :: x in heap.entries ==> CandOk(g, x.cand)
    }

    /** Every recorded edge is one the graph has, and both of its ends are in `nodes`. */
    ghost predicate EdgesOk()
      reads this`seenEdges, this`nodes
    {
      && seenEdges <= universe
      && (forall c :: c in nodes ==> CandOk(g, c))
      && (forall e :: e in seenEdges ==> e.from in nodes && e.to in nodes)
    }

    /** Every push after the initial outputs went with a new edge: the pushes so far are the
        outputs plus the recorded edges. */
    ghost predicate CountOk()
      reads heap, this`seenEdges
    {
      heap.pushCount == |initialIds| + |seenEdges|
    }

    ghost predicate SlotsOk()
      reads this`outputTensorIds, this`sources
    {
      && |outputTensorIds| == |initialIds| == |sources|
      && (forall i :: 0 <= i < |outputTensorIds| ==> SlotOk(g, initialIds[i], outputTensorIds[i], sources[i]))
    }

    /** The slots are what rewriting for the function nodes processed so far, in order, gives. */
    ghost predicate TraceOk()
      reads this`outputTensorIds, this`visited
    {
      && Runtime.Valid(g)
      && (forall k :: 0 <= k < |visited| ==> visited[k] < |g.funcs|)
      && outputTensorIds == RewriteTrace(g, InitialSlots(initialIds), visited)
    }

    /** Every collected node is of a kind the translators emit. */
    ghost predicate GraphOk()
      reads this`graph
    {
      forall n :: n in graph ==> n.opType in TranslatedOpTypes
    }

    /** The part of the walk's invariant about the queue and the recorded edges. */
    ghost predicate QueueState()
      reads this, heap
    {
      Fixed() && QueueOk() && CountOk() && EdgesOk()
    }

    ghost predicate Valid()
      reads this, heap
    {
      QueueState() && SlotsOk() && TraceOk() && GraphOk()
    }

    /** The candidates reached so far are reachable from the outputs, and each is still queued
        or done with. */
    ghost predicate CoverOk()
      reads this, heap
    {
      Covered(g, roots, nodes, seenEdges, visited, heap.entries)
    }

    /** The collected nodes and the context are what processing the visited function nodes, in
        order, from the context the walk began with gives, and `r` is how the last translation
        ended. */
    ghost predicate CollectedOk(r: Outcome)
      reads this, ctx
    {
      && Runtime.Valid(g) && (forall k :: 0 <= k < |visited| ==> visited[k] < |g.funcs|)
      && Collect(g, inputTensorIds, initialCtx, train, visited) == Collected(graph, ctx.State(), r)
    }

    /** Each step either pops without pushing, or records a new edge for every push. */
    ghost function Measure(): nat
      reads this, heap
    {
      2 * |universe - seenEdges| + |heap.entries|
    }

    /** `output_tensor_ids` and the initial candidates: every output's node is pushed, in order. */
    constructor (g: Graph, outputs: seq<nat>, inputTensorIds: seq<int>, ctx: BuildContext, train: bool)
      requires Runtime.Valid(g)
      requires forall i :: 0 <= i < |outputs| ==> outputs[i] < |g.vars|
      ensures Valid() && fresh(heap)
      ensures this.g == g && this.inputTensorIds == inputTensorIds && this.ctx == ctx && this.train == train
      ensures outputTensorIds == InitialSlots(VarIds(g, outputs))
      ensures initialIds == VarIds(g, outputs)
      ensures heap.entries == seq(|outputs|, i requires 0 <= i < |outputs| => HeapEntry(-g.vars[outputs[i]].rank, i, VarCand(outputs[i])))
      ensures seenEdges == {} && graph == [] && visited == []
      ensures nodes == roots == Roots(outputs) && CoverOk()
      ensures initialCtx == ctx.State() && CollectedOk(Pass)
    {
      var h := new CandidateHeap();
      var ns: set<Cand> := {};
      var i := 0;
      while i < |outputs|
        invariant 0 <= i <= |outputs|
        invariant h.Valid() && h.pushCount == i
        invariant h.entries == seq(i, k requires 0 <= k < i => HeapEntry(-g.vars[outputs[k]].rank, k, VarCand(outputs[k])))
        invariant ns == set k | 0 <= k < i :: VarCand(outputs[k])
      {
        h.Push(g.vars[outputs[i]].rank, VarCand(outputs[i]));
        ns := ns + {VarCand(outputs[i])};
        i := i + 1;
      }
      this.g := g;
      this.inputTensorIds := inputTensorIds;
      this.ctx := ctx;
      this.train := train;
      heap := h;
      initialIds := VarIds(g, outputs);
      outputTensorIds := InitialSlots(VarIds(g, outputs));
      ghost var all := AllEdges(g);
      forall v | 0 <= v < |g.vars| && g.vars[v].creator.Some?
        ensures Edge(FuncCand(g.vars[v].creator.value), VarCand(v)) in all
      {
        assert Edge(FuncCand(g.vars[v].creator.value), VarCand(v)) in CreatorEdges(g);
      }
      forall f, j | 0 <= f < |g.funcs| && 0 <= j < |g.funcs[f].inputs|
        ensures Edge(VarCand(g.funcs[f].inputs[j]), FuncCand(f)) in all
      {
        assert Edge(VarCand(g.funcs[f].inputs[j]), FuncCand(f)) in InputEdges(g);
      }
      universe := all;
      sources := seq(|outputs|, k requires 0 <= k < |outputs| => -1);
      visited := [];
      initialCtx := ctx.State();
      seenEdges := {};
      nodes := ns;
      graph := [];
      roots := ns;
      forall c | c in ns
        ensures Queued(h.entries, c) && Reachable(g, ns, c)
      {
        var k :| 0 <= k < |outputs| && c == VarCand(outputs[k]);
        assert h.entries[k] in h.entries;
        RootReachable(g, ns, c);
      }
    }

    /** The walk: pop until the queue is empty, stopping at the first translator error. The
        output slots stay the rewriting for the function nodes processed, in order; the context
        gains the statistics of the BatchNormalization nodes translated. */
    method Run() returns (r: Outcome)
      requires Valid() && ctx.Accumulated() && CollectedOk(Pass) && CoverOk()
      modifies this, heap, ctx
      ensures Valid() && ctx.Accumulated() && CollectedOk(r) && CoverOk()
      ensures forall k :: 0 <= k < |visited| ==> Reachable(g, roots, FuncCand(visited[k]))
      ensures r.Pass? ==> forall f :: 0 <= f < |g.funcs| ==> (f in visited <==> Reachable(g, roots, FuncCand(f)))
      ensures r.Pass? ==> heap.entries == []
      ensures r.Fail? ==> !r.error.UnsupportedOperator? && !r.error.UnboundOutput?
      ensures old(ctx.parameters) <= ctx.parameters && old(ctx.inputTensors) <= ctx.inputTensors
      ensures old(ctx.registered) <= ctx.registered
      ensures old(visited) <= visited
      ensures outputTensorIds == RewriteTrace(g, InitialSlots(initialIds), visited)
      ensures |outputTensorIds| == |old(outputTensorIds)|
      ensures forall i :: 0 <= i < |outputTensorIds| && old(outputTensorIds)[i].Described? ==>
        outputTensorIds[i] == old(outputTensorIds)[i]
      ensures old(graph) <= graph
    {
      while heap.entries != []
        invariant Valid() && ctx.Accumulated() && CollectedOk(Pass) && CoverOk()
        invariant old(ctx.parameters) <= ctx.parameters && old(ctx.inputTensors) <= ctx.inputTensors
        invariant old(ctx.registered) <= ctx.registered
        invariant old(visited) <= visited
        invariant old(graph) <= graph
        decreases Measure()
      {
        var s := Advance();
        if s.Fail? {
          RewriteTraceKeeps(g, InitialSlots(initialIds), old(visited), visited);
          return s;
        }
      }
      RewriteTraceKeeps(g, InitialSlots(initialIds), old(visited), visited);
      WalkComplete(g, roots, nodes, seenEdges, visited);
      r := Pass;
    }

    /** One iteration of the walk's loop, seen from the loop: the invariants hold again, the
        measure decreases, and what was collected or registered is kept. */
    method Advance() returns (r: Outcome)
      requires Valid() && ctx.Accumulated() && CollectedOk(Pass) && CoverOk() && heap.entries != []
      modifies this, heap, ctx
      ensures Valid() && ctx.Accumulated() && CollectedOk(r) && CoverOk()
      ensures Measure() < old(Measure())
      ensures r.Fail? ==> !r.error.UnsupportedOperator? && !r.error.UnboundOutput?
      ensures old(ctx.parameters) <= ctx.parameters && old(ctx.inputTensors) <= ctx.inputTensors
      ensures old(ctx.registered) <= ctx.registered
      ensures old(visited) <= visited
      ensures old(graph) <= graph
    {
      ghost var nodes0, seen0, visited0, entries0, count0 := nodes, seenEdges, visited, heap.entries, heap.pushCount;
      var e;
      e, r := Step();
      if e.cand.VarCand? {
        VarStepCovered(g, roots, nodes0, seen0, visited0, entries0, count0, e, nodes, seenEdges, heap.entries);
      } else {
        FuncStepCovered(g, roots, nodes0, seen0, visited0, entries0, count0, e, nodes, seenEdges, visited, heap.entries);
      }
    }

    /** One iteration of the walk's loop: pop the entry of least key and visit its candidate. */
    method Step() returns (e: HeapEntry, r: Outcome)
      requires Valid() && ctx.Accumulated() && CollectedOk(Pass) && heap.entries != []
      modifies this, heap, ctx
      ensures Valid() && ctx.Accumulated() && CollectedOk(r)
      ensures Measure() < old(Measure())
      ensures e in old(heap.entries) && CandOk(g, e.cand)
      ensures forall x :: x in old(heap.entries) ==> KeyLe(e, x)
      ensures e.cand.VarCand? ==>
        && r == Pass && ctx.State() == old(ctx.State())
        && seenEdges == old(seenEdges) + CreatorEdge(g, e.cand.v, old(seenEdges))
        && nodes == old(nodes) + EdgeEnds(CreatorEdge(g, e.cand.v, old(seenEdges)))
        && multiset(heap.entries) == multiset(old(heap.entries)) - multiset{e}
                                     + multiset(CreatorPush(g, e.cand.v, old(seenEdges), old(heap.pushCount)))
        && outputTensorIds == old(outputTensorIds) && graph == old(graph) && visited == old(visited)
      ensures e.cand.FuncCand? ==>
        && FuncValid(g, g.funcs[e.cand.f])
        && visited == old(visited) + [e.cand.f]
        && seenEdges == old(seenEdges) + InEdges(g.funcs[e.cand.f].inputs, e.cand.f)
        && nodes == old(nodes) + EdgeEnds(seenEdges - old(seenEdges))
        && multiset(heap.entries) == multiset(old(heap.entries)) - multiset{e}
             + multiset(Pushes(g, g.funcs[e.cand.f].inputs, e.cand.f, old(seenEdges), old(heap.pushCount)))
        && outputTensorIds == RewriteSlots(old(outputTensorIds), OutputNodes(g, e.cand.f))
        && Collected(graph, ctx.State(), r) == EmitStep(g, inputTensorIds, train, Collected(old(graph), old(ctx.State()), Pass), e.cand.f)
      ensures r.Fail? ==> !r.error.UnsupportedOperator? && !r.error.UnboundOutput?
      ensures old(ctx.parameters) <= ctx.parameters && old(ctx.inputTensors) <= ctx.inputTensors
      ensures old(ctx.registered) <= ctx.registered
      ensures old(visited) <= visited
      ensures |outputTensorIds| == |old(outputTensorIds)|
      ensures forall i :: 0 <= i < |outputTensorIds| && old(outputTensorIds)[i].Described? ==>
        outputTensorIds[i] == old(outputTensorIds)[i]
      ensures old(graph) <= graph
    {
      e := heap.Pop();
      match e.cand
      case VarCand(v) =>
        VisitVar(v);
        r := Pass;
      case FuncCand(f) =>
        r := ProcessFunction(f);
    }

    /** The branch for a tensor node: push its creator unless the walk has been along that edge. */
    method VisitVar(v: nat)
      requires QueueState() && v < |g.vars|
      modifies this, heap
      ensures QueueState() && sources == old(sources)
      ensures Measure() <= old(Measure())
      ensures seenEdges == old(seenEdges) + CreatorEdge(g, v, old(seenEdges))
      ensures nodes == old(nodes) + EdgeEnds(CreatorEdge(g, v, old(seenEdges)))
      ensures heap.entries == old(heap.entries) + CreatorPush(g, v, old(seenEdges), old(heap.pushCount))
      ensures outputTensorIds == old(outputTensorIds) && graph == old(graph) && visited == old(visited)
    {
      CreatorEdgeEnds(g, v, seenEdges);
      ghost var pushed, recorded := CreatorPush(g, v, seenEdges, heap.pushCount), CreatorEdge(g, v, seenEdges);
      ghost var entries0, seen0, nodes0 := heap.entries, seenEdges, nodes;
      var creator := g.vars[v].creator;
      if creator.Some? && Edge(FuncCand(creator.value), VarCand(v)) !in seenEdges {
        var c := FuncCand(creator.value);
        assert pushed == [HeapEntry(-Rank(g, c), heap.pushCount, c)];
        assert recorded == {Edge(c, VarCand(v))} && EdgeEnds(recorded) == {c, VarCand(v)};
        AddEdge(c, VarCand(v), c);
        assert heap.entries == entries0 + pushed;
        assert nodes == nodes0 + EdgeEnds(recorded);
      } else {
        assert pushed == [] && recorded == {} && EdgeEnds(recorded) == {};
        assert heap.entries == entries0 + pushed;
        assert nodes == nodes0 + EdgeEnds(recorded);
        assert seenEdges == seen0 + recorded;
      }
    }

    /** `add_cand(c)` together with the bookkeeping of a new edge. */
    method AddEdge(from: Cand, to: Cand, c: Cand)
      requires QueueState()
      requires Edge(from, to) in universe && Edge(from, to) !in seenEdges
      requires c == from || c == to
      requires CandOk(g, from) && CandOk(g, to)
      modifies this, heap
      ensures QueueState()
      ensures Measure() < old(Measure())
      ensures Recorded(Edge(from, to), c, Rank(g, c), old(seenEdges), seenEdges, old(nodes), nodes,
                       old(heap.entries), heap.entries, old(heap.pushCount), heap.pushCount)
      ensures outputTensorIds == old(outputTensorIds) && graph == old(graph)
      ensures visited == old(visited) && sources == old(sources)
    {
      NewEdgeShrinks(universe, seenEdges, Edge(from, to));
      heap.Push(Rank(g, c), c);
      seenEdges := seenEdges + {Edge(from, to)};
      nodes := nodes + {from, to};
    }

    /** The branch for a function node: walk its inputs, rewrite the output slots it produces, and
        translate it if its class is in the table (other classes are passed over silently). */
    method ProcessFunction(f: nat) returns (r: Outcome)
      requires Valid() && ctx.Accumulated() && CollectedOk(Pass) && f < |g.funcs|
      modifies this, heap, ctx
      ensures Valid() && ctx.Accumulated() && CollectedOk(r)
      ensures Collected(graph, ctx.State(), r) == EmitStep(g, inputTensorIds, train, Collected(old(graph), old(ctx.State()), Pass), f)
      ensures Measure() <= old(Measure())
      ensures FuncValid(g, g.funcs[f])
      ensures visited == old(visited) + [f]
      ensures seenEdges == old(seenEdges) + InEdges(g.funcs[f].inputs, f)
      ensures nodes == old(nodes) + EdgeEnds(seenEdges - old(seenEdges))
      ensures heap.entries == old(heap.entries) + Pushes(g, g.funcs[f].inputs, f, old(seenEdges), old(heap.pushCount))
      ensures outputTensorIds == RewriteSlots(old(outputTensorIds), OutputNodes(g, f))
      ensures r.Fail? ==> !r.error.UnsupportedOperator? && !r.error.UnboundOutput?
      ensures g.funcs[f].className !in Layers ==>
        r == Pass && graph == old(graph) && ctx.State() == old(ctx.State())
      ensures g.funcs[f].className != "BatchNormalization" ==> ctx.State() == old(ctx.State())
      ensures g.funcs[f].className == "BatchNormalization" ==>
        ctx.State() == old(ctx.State()) || StatsRegistered(LinkOf(g, f), old(ctx.State()), ctx.State())
      ensures g.funcs[f].className == "BatchNormalization" && r.Pass? ==>
        StatsRegistered(LinkOf(g, f), old(ctx.State()), ctx.State())
      ensures old(ctx.parameters) <= ctx.parameters && old(ctx.inputTensors) <= ctx.inputTensors
      ensures old(ctx.registered) <= ctx.registered
      ensures |outputTensorIds| == |old(outputTensorIds)|
      ensures forall i :: 0 <= i < |outputTensorIds| && old(outputTensorIds)[i].Described? ==>
        outputTensorIds[i] == old(outputTensorIds)[i]
      ensures r.Pass? && g.funcs[f].className in Layers ==>
        Emitted(g, f, inputTensorIds, old(graph), graph, ctx.paramNames)
      ensures r.Fail? ==> graph == old(graph)
    {
      var entries, attached := WalkInputs(f);
      RewriteOutputs(f);
      r := EmitNode(f, entries, attached);
      CollectStep(g, inputTensorIds, initialCtx, train, old(visited), f);
    }

    /** `create_node` for a function node whose class is in the table, and `graph.extend`. */
    method EmitNode(f: nat, entries: seq<Entry>, attached: map<string, TensorNode>) returns (r: Outcome)
      requires Valid() && ctx.Accumulated() && f < |g.funcs|
      requires entries == Bindings(InputNodes(g, g.funcs[f].inputs), inputTensorIds)
      requires attached == Attached(InputNodes(g, g.funcs[f].inputs))
      modifies this, ctx
      ensures Valid() && ctx.Accumulated()
      ensures seenEdges == old(seenEdges) && nodes == old(nodes) && outputTensorIds == old(outputTensorIds)
      ensures sources == old(sources) && visited == old(visited)
      ensures r.Fail? ==> !r.error.UnsupportedOperator? && !r.error.UnboundOutput?
      ensures g.funcs[f].className !in Layers ==>
        r == Pass && graph == old(graph) && ctx.State() == old(ctx.State())
      ensures g.funcs[f].className != "BatchNormalization" ==> ctx.State() == old(ctx.State())
      ensures g.funcs[f].className == "BatchNormalization" ==>
        ctx.State() == old(ctx.State()) || StatsRegistered(LinkOf(g, f), old(ctx.State()), ctx.State())
      ensures g.funcs[f].className == "BatchNormalization" && r.Pass? ==>
        StatsRegistered(LinkOf(g, f), old(ctx.State()), ctx.State())
      ensures old(ctx.parameters) <= ctx.parameters && old(ctx.inputTensors) <= ctx.inputTensors
      ensures old(ctx.registered) <= ctx.registered
      ensures r.Pass? && g.funcs[f].className in Layers ==>
        Emitted(g, f, inputTensorIds, old(graph), graph, ctx.paramNames)
      ensures r.Fail? ==> graph == old(graph)
      ensures Collected(graph, ctx.State(), r) == EmitStep(g, inputTensorIds, train, Collected(old(graph), old(ctx.State()), Pass), f)
    {
      if g.funcs[f].className in Layers {
        var res := TranslateFunction(g, f, inputTensorIds, entries, attached, ctx, train, graph);
        if res.Failure? {
          return Fail(res.error);
        }
        graph := graph + res.value;
      }
      r := Pass;
    }

    /** One turn of the loop over a function node's inputs: push the `i`-th input unless the walk
        has been along its edge to the node, record its binding and attach it by name if it is a
        parameter. The loop keeps account of what it has done since it began with the edges
        `seenStart`, the nodes `nodesStart` and the entries `start`; `all` is what the whole loop
        pushes. */
    method VisitInput(f: nat, i: nat, ghost seenStart: set<Edge>, ghost nodesStart: set<Cand>,
                      ghost start: seq<HeapEntry>, ghost all: seq<HeapEntry>,
                      entries: seq<Entry>, attached: map<string, TensorNode>)
      returns (entries': seq<Entry>, attached': map<string, TensorNode>)
      requires QueueState() && f < |g.funcs| && i < |g.funcs[f].inputs|
      requires FuncValid(g, g.funcs[f])
      requires InputAccount(g, g.funcs[f].inputs, i, f, seenStart, nodesStart, start, all, seenEdges, nodes, heap.entries, heap.pushCount)
      requires entries == Bindings(InputNodes(g, g.funcs[f].inputs)[..i], inputTensorIds)
      requires attached == Attached(InputNodes(g, g.funcs[f].inputs)[..i])
      modifies this, heap
      ensures QueueState()
      ensures Measure() <= old(Measure())
      ensures outputTensorIds == old(outputTensorIds) && graph == old(graph)
      ensures visited == old(visited) && sources == old(sources)
      ensures InputAccount(g, g.funcs[f].inputs, i + 1, f, seenStart, nodesStart, start, all, seenEdges, nodes, heap.entries, heap.pushCount)
      ensures entries' == Bindings(InputNodes(g, g.funcs[f].inputs)[..i + 1], inputTensorIds)
      ensures attached' == Attached(InputNodes(g, g.funcs[f].inputs)[..i + 1])
    {
      var x := g.funcs[f].inputs[i];
      if Edge(VarCand(x), FuncCand(f)) !in seenEdges {
        ghost var entries0, count0, seen0, nodes0 := heap.entries, heap.pushCount, seenEdges, nodes;
        AddEdge(VarCand(x), FuncCand(f), VarCand(x));
        InputTurnNew(g, g.funcs[f].inputs, i, f, seenStart, nodesStart, start, all, seen0, nodes0, entries0, count0,
                     seenEdges, nodes, heap.entries, heap.pushCount);
      } else {
        InputTurnSeen(g, g.funcs[f].inputs, i, f, seenStart, nodesStart, start, all, seenEdges, nodes, heap.entries, heap.pushCount);
      }
      var input := g.vars[x];
      ghost var vs := InputNodes(g, g.funcs[f].inputs);
      assert input == vs[i];
      BindingsStep(vs, i, inputTensorIds);
      var binding: Entry;
      attached' := attached;
      if input.name.Some? {
        binding := Ident(input.varId);
        attached' := attached[input.name.value := input];
      } else if input.varId in inputTensorIds {
        binding := Ident(input.varId);
      } else {
        binding := Ident(input.nodeId);
      }
      entries' := entries + [binding];
    }

    /** The loop over a function node's inputs: push each input not yet reached through its edge,
        record its binding, and attach the parameters by name. */
    method WalkInputs(f: nat) returns (entries: seq<Entry>, attached: map<string, TensorNode>)
      requires QueueState() && f < |g.funcs|
      modifies this, heap
      ensures QueueState()
      ensures Measure() <= old(Measure())
      ensures outputTensorIds == old(outputTensorIds) && graph == old(graph)
      ensures visited == old(visited) && sources == old(sources)
      ensures FuncValid(g, g.funcs[f])
      ensures seenEdges == old(seenEdges) + InEdges(g.funcs[f].inputs, f)
      ensures nodes == old(nodes) + EdgeEnds(seenEdges - old(seenEdges))
      ensures heap.entries == old(heap.entries) + Pushes(g, g.funcs[f].inputs, f, old(seenEdges), old(heap.pushCount))
      ensures entries == Bindings(InputNodes(g, g.funcs[f].inputs), inputTensorIds)
      ensures attached == Attached(InputNodes(g, g.funcs[f].inputs))
    {
      assert FuncValid(g, g.funcs[f]);
      ghost var all := Pushes(g, g.funcs[f].inputs, f, seenEdges, heap.pushCount);
      InputAccountStart(g, g.funcs[f].inputs, f, seenEdges, nodes, heap.entries, heap.pushCount);
      entries := [];
      attached := map[];
      var i := 0;
      while i < |g.funcs[f].inputs|
        invariant 0 <= i <= |g.funcs[f].inputs|
        invariant QueueState()
        invariant Measure() <= old(Measure())
        invariant outputTensorIds == old(outputTensorIds) && graph == old(graph)
        invariant visited == old(visited) && sources == old(sources)
        invariant InputAccount(g, g.funcs[f].inputs, i, f, old(seenEdges), old(nodes), old(heap.entries), all,
                               seenEdges, nodes, heap.entries, heap.pushCount)
        invariant entries == Bindings(InputNodes(g, g.funcs[f].inputs)[..i], inputTensorIds)
        invariant attached == Attached(InputNodes(g, g.funcs[f].inputs)[..i])
      {
        entries, attached := VisitInput(f, i, old(seenEdges), old(nodes), old(heap.entries), all, entries, attached);
        i := i + 1;
      }
      assert InputNodes(g, g.funcs[f].inputs)[..i] == InputNodes(g, g.funcs[f].inputs);
      InputAccountEnd(g, g.funcs[f].inputs, f, old(seenEdges), old(nodes), old(heap.entries), all,
                      seenEdges, nodes, heap.entries, heap.pushCount);
    }

    /** The loop over a function node's outputs: the first slot still holding an output's variable
        identity is rewritten to that output's descriptor. */
    method RewriteOutputs(f: nat)
      requires Valid() && f < |g.funcs|
      modifies this
      ensures Valid()
      ensures seenEdges == old(seenEdges) && nodes == old(nodes) && graph == old(graph)
      ensures visited == old(visited) + [f]
      ensures outputTensorIds == RewriteSlots(old(outputTensorIds), OutputNodes(g, f))
      ensures |outputTensorIds| == |old(outputTensorIds)|
      ensures forall i :: 0 <= i < |outputTensorIds| && old(outputTensorIds)[i].Described? ==>
        outputTensorIds[i] == old(outputTensorIds)[i]
      ensures forall i :: 0 <= i < |outputTensorIds| && outputTensorIds[i] != old(outputTensorIds)[i] ==>
        exists k :: 0 <= k < |g.funcs[f].outputs| && outputTensorIds[i] == Described(Descriptor(g.vars[g.funcs[f].outputs[k]]))
    {
      var fn := g.funcs[f];
      assert FuncValid(g, fn);
      outputTensorIds, sources := RewriteLoop(g, initialIds, outputTensorIds, sources, fn.outputs);
      visited := visited + [f];
      assert visited[..|visited| - 1] == old(visited);
      OutputRewriteFrame(g, f, old(outputTensorIds));
    }
  }

  /** The variable identities of the tensor nodes `ns` (the call's arguments or outputs). */
  function VarIds(g: Graph, ns: seq<nat>): seq<int>
    requires forall i :: 0 <= i < |ns| ==> ns[i] < |g.vars|
  {
    seq(|ns|, i requires 0 <= i < |ns| => g.vars[ns[i]].varId)
  }

  function NodeIds(vs: seq<TensorNode>): seq<int>
  {
    seq(|vs|, i requires 0 <= i < |vs| => vs[i].nodeId)
  }

  /** `reversed(graph)`: the node translated last comes first. */
  function Reversed<T>(s: seq<T>): (r: seq<T>)
    ensures |r| == |s|
  {
    seq(|s|, i requires 0 <= i < |s| => s[|s| - 1 - i])
  }

  /** Reversal neither adds nor drops a node. */
  lemma ReversedElements<T>(s: seq<T>)
    ensures forall x :: x in Reversed(s) <==> x in s
  {
    forall x | x in s
      ensures x in Reversed(s)
    {
      var i :| 0 <= i < |s| && s[i] == x;
      assert Reversed(s)[|s| - 1 - i] == x;
    }
  }

  function SlotInfos(slots: seq<OutSlot>): seq<ValueInfo>
    requires forall i :: 0 <= i < |slots| ==> slots[i].Described?
  {
    seq(|slots|, i requires 0 <= i < |slots| => slots[i].info)
  }

  /** The end of `export`: the argument inputs are appended after the parameter and statistics
      inputs, every output slot must by now be a descriptor (an identity left over makes
      `make_tensor_value_info(*out_)` fail), parameters ship only on request, and the node list is
      reversed. */
  method Assemble(
    nodes: seq<OnnxNode>, graphName: string, inputTensors: seq<ValueInfo>, args: seq<TensorNode>,
    slots: seq<OutSlot>, parameters: seq<Initializer>, exportParams: bool, producerVersion: string)
    returns (r: Result<OnnxModel>)
    ensures r.Success? <==> forall i :: 0 <= i < |slots| ==> slots[i].Described?
    ensures r.Failure? ==> r.error.UnboundOutput?
    ensures r.Failure? ==>
      exists i :: 0 <= i < |slots| && slots[i] == Pending(r.error.id) && (forall j :: 0 <= j < i ==> slots[j].Described?)
    ensures r.Success? ==>
      r.value == OnnxModel(
        OnnxGraph(Reversed(nodes), graphName, inputTensors + ArgDescriptors(args), SlotInfos(slots),
                  if exportParams then parameters else []),
        "Chainer", producerVersion)
  {
    var ins := inputTensors;
    var i := 0;
    while i < |args|
      invariant 0 <= i <= |args|
      invariant ins == inputTensors + ArgDescriptors(args[..i])
    {
      assert ArgDescriptors(args[..i + 1]) == ArgDescriptors(args[..i]) + [ValueInfo(IntToString(args[i].varId), args[i].elemType, args[i].shape)];
      ins := ins + [ValueInfo(IntToString(args[i].varId), args[i].elemType, args[i].shape)];
      i := i + 1;
    }
    assert args[..|args|] == args;
    var outs: seq<ValueInfo> := [];
    var k := 0;
    while k < |slots|
      invariant 0 <= k <= |slots|
      invariant forall j :: 0 <= j < k ==> slots[j].Described?
      invariant outs == seq(k, j requires 0 <= j < k => slots[j].info)
    {
      if slots[k].Pending? {
        return Failure(UnboundOutput(slots[k].id));
      }
      outs := outs + [slots[k].info];
      k := k + 1;
    }
    var initializers := if exportParams then parameters else [];
    var onnxGraph := OnnxGraph(Reversed(nodes), graphName, ins, outs, initializers);
    r := Success(OnnxModel(onnxGraph, "Chainer", producerVersion));
  }

  /** `export(model, args, ...)` once the forward pass has produced the graph `g`: `params` are
      the model's named parameters, `args` and `outputs` index the argument and output tensor
      nodes, `train` is the global training flag, and `producerVersion` the runtime's version. */
  method Export(
    g: Graph, params: seq<NamedParam>, args: seq<nat>, outputs: seq<nat>, exportParams: bool,
    graphName: string, train: bool, producerVersion: string)
    returns (r: Result<OnnxModel>, ghost regs: seq<Registration>, ghost trace: seq<nat>)
    requires Runtime.Valid(g)
    requires forall i :: 0 <= i < |args| ==> args[i] < |g.vars|
    requires forall i :: 0 <= i < |outputs| ==> outputs[i] < |g.vars|
    ensures forall k :: 0 <= k < |trace| ==> trace[k] < |g.funcs|
    ensures forall k :: 0 <= k < |trace| ==> Reachable(g, Roots(outputs), FuncCand(trace[k]))
    ensures r.Failure? ==> !r.error.UnsupportedOperator?
    ensures r.Failure? && r.error.UnboundOutput? ==>
      && (exists i :: 0 <= i < |outputs| && r.error.id == g.vars[outputs[i]].varId)
      && Pending(r.error.id) in RewriteTrace(g, InitialSlots(VarIds(g, outputs)), trace)
    ensures r.Success? ==>
      var m := r.value;
      var slots := RewriteTrace(g, InitialSlots(VarIds(g, outputs)), trace);
      && m.producerName == "Chainer" && m.producerVersion == producerVersion
      && m.graph.name == graphName
      && m.graph.inputs == ParamDescriptors(params) + StatDescriptors(regs) + ArgDescriptors(InputNodes(g, args))
      && m.graph.initializers == (if exportParams then ParamInitializers(params) + StatInitializers(regs) else [])
      && (forall i :: 0 <= i < |slots| ==> slots[i].Described?)
      && m.graph.outputs == SlotInfos(slots)
      && DescribesOutputs(g, outputs, m.graph.outputs)
      && (forall n :: n in m.graph.nodes ==> n.opType in TranslatedOpTypes)
    ensures var t := Collect(g, VarIds(g, args), InitialContext(params), train, trace);
      && regs == t.ctx.3
      && (r.Success? <==>
            t.outcome.Pass? &&
            forall i :: 0 <= i < |outputs| ==> RewriteTrace(g, InitialSlots(VarIds(g, outputs)), trace)[i].Described?)
      && (t.outcome.Fail? ==> r == Failure(t.outcome.error))
      && (t.outcome.Pass? && r.Failure? ==> r.error.UnboundOutput?)
      && (t.outcome.Pass? ==> forall f :: 0 <= f < |g.funcs| ==> (f in trace <==> Reachable(g, Roots(outputs), FuncCand(f))))
      && (r.Success? ==> r.value.graph.nodes == Reversed(t.nodes))
      && (forall n :: n in t.nodes ==> NodeFrom(g, trace, n))
      && (forall k :: 0 <= k < |regs| ==> RegistrationFrom(g, trace, regs[k]))
  {
    var argNodes := InputNodes(g, args);
    var inputTensorIds := VarIds(g, args);
    var ctx := new BuildContext(params);
    var walker := new Walker(g, outputs, inputTensorIds, ctx, train);
    var w := walker.Run();
    regs, trace := ctx.registered, walker.visited;
    CollectProvenance(params, g, inputTensorIds, InitialContext(params), train, trace);
    if w.Fail? {
      return Failure(w.error), regs, trace;
    }
    ghost var srcs := walker.sources;
    assert forall i :: 0 <= i < |walker.outputTensorIds| ==>
      SlotOk(g, walker.initialIds[i], walker.outputTensorIds[i], srcs[i]);
    r := Finish(
      g, args, argNodes, outputs, walker.graph, walker.outputTensorIds, walker.initialIds, srcs, graphName,
      ctx.inputTensors, ctx.parameters, exportParams, producerVersion);
  }

  /** The model's outputs, in order, describe a tensor node of each variable the caller passed
      as an output. */
  ghost predicate DescribesOutputs(g: Graph, outputs: seq<nat>, infos: seq<ValueInfo>)
    requires forall i :: 0 <= i < |outputs| ==> outputs[i] < |g.vars|
  {
    && |infos| == |outputs|
    && forall i :: 0 <= i < |outputs| ==>
         exists v :: 0 <= v < |g.vars| && g.vars[v].varId == g.vars[outputs[i]].varId
                     && infos[i] == Descriptor(g.vars[v])
  }

  /** The end of `export` once the walk is over: assemble the model and relate its outputs to
      the variables the caller passed. */
  method Finish(
    g: Graph, args: seq<nat>, argNodes: seq<TensorNode>, outputs: seq<nat>, nodes: seq<OnnxNode>,
    slots: seq<OutSlot>, ghost ids: seq<int>, ghost srcs: seq<int>, graphName: string,
    inputTensors: seq<ValueInfo>, parameters: seq<Initializer>, exportParams: bool, producerVersion: string)
    returns (r: Result<OnnxModel>)
    requires forall i :: 0 <= i < |args| ==> args[i] < |g.vars|
    requires forall i :: 0 <= i < |outputs| ==> outputs[i] < |g.vars|
    requires argNodes == InputNodes(g, args)
    requires forall n :: n in nodes ==> n.opType in TranslatedOpTypes
    requires |slots| == |ids| == |srcs| == |outputs|
    requires ids == seq(|outputs|, i requires 0 <= i < |outputs| => g.vars[outputs[i]].varId)
    requires forall i :: 0 <= i < |slots| ==> SlotOk(g, ids[i], slots[i], srcs[i])
    ensures r.Success? <==> forall i :: 0 <= i < |slots| ==> slots[i].Described?
    ensures r.Failure? ==> r.error.UnboundOutput? && Pending(r.error.id) in slots
    ensures r.Failure? ==> exists i :: 0 <= i < |outputs| && r.error.id == g.vars[outputs[i]].varId
    ensures r.Success? ==>
      var m := r.value;
      && m.producerName == "Chainer" && m.producerVersion == producerVersion
      && m.graph.name == graphName
      && m.graph.inputs == inputTensors + ArgDescriptors(argNodes)
      && m.graph.initializers == (if exportParams then parameters else [])
      && m.graph.outputs == SlotInfos(slots)
      && (forall n :: n in m.graph.nodes ==> n.opType in TranslatedOpTypes)
    ensures r.Success? ==> DescribesOutputs(g, outputs, r.value.graph.outputs)
    ensures r.Success? ==> r.value.graph.nodes == Reversed(nodes)
  {
    r := Assemble(nodes, graphName, inputTensors, argNodes, slots, parameters, exportParams, producerVersion);
    if r.Success? {
      OutputsDescribed(g, outputs, ids, slots, srcs);
      ReversedElements(nodes);
    } else {
      var i :| 0 <= i < |slots| && slots[i] == Pending(r.error.id);
      assert SlotOk(g, ids[i], slots[i], srcs[i]);
      assert r.error.id == ids[i] == g.vars[outputs[i]].varId;
    }
  }

  /** Once every slot is a descriptor, each model output describes a tensor node of the variable
      the caller passed as that output. */
  lemma OutputsDescribed(g: Graph, outputs: seq<nat>, ids: seq<int>, slots: seq<OutSlot>, srcs: seq<int>)
    requires forall i :: 0 <= i < |outputs| ==> outputs[i] < |g.vars|
    requires |slots| == |ids| == |srcs| == |outputs|
    requires ids == seq(|outputs|, i requires 0 <= i < |outputs| => g.vars[outputs[i]].varId)
    requires forall i :: 0 <= i < |slots| ==> SlotOk(g, ids[i], slots[i], srcs[i])
    requires forall i :: 0 <= i < |slots| ==> slots[i].Described?
    ensures DescribesOutputs(g, outputs, SlotInfos(slots))
  {
    var infos := SlotInfos(slots);
    forall i | 0 <= i < |outputs|
      ensures exists v :: 0 <= v < |g.vars| && g.vars[v].varId == g.vars[outputs[i]].varId
                          && infos[i] == Descriptor(g.vars[v])
    {
      assert SlotOk(g, ids[i], slots[i], srcs[i]);
      assert infos[i] == Descriptor(g.vars[srcs[i]]);
    }
    assert |infos| == |outputs|;
    assert forall i :: 0 <= i < |outputs| ==>
         exists v :: 0 <= v < |g.vars| && g.vars[v].varId == g.vars[outputs[i]].varId
                     && infos[i] == Descriptor(g.vars[v]);
  }
}
