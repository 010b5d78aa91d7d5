/** The separately packaged PReLU translator. It looks the operator kind up in the operator
    mapping module, which is not part of this model and is therefore a parameter. */
module PRelu {
  import opened Onnx
  import opened Runtime
  import opened Translate

  /** PReLU's rewrite: only the slope parameter W. */
  function SlopeRewrite(entries: seq<Entry>, attached: map<string, TensorNode>, paramNames: map<int, string>): (r: Result<seq<Entry>>)
    ensures r.Success? <==>
      "W" in attached && attached["W"].varId in paramNames && Ident(attached["W"].varId) in entries
    ensures "W" !in attached ==> r == Failure(MissingAttribute("W"))
    ensures "W" in attached && attached["W"].varId !in paramNames ==>
      r == Failure(UnknownParameter(attached["W"].varId))
    ensures "W" in attached && attached["W"].varId in paramNames && Ident(attached["W"].varId) !in entries ==>
      r == Failure(NotInList(attached["W"].varId))
  {
    Substitute(entries, attached, paramNames, "W", false)
  }

  /** `convert_PReLUFunction`: rewrite W's slot to its name, stringify the rest, and emit one node
      of the kind `operators` gives the class, without attributes. The parameter and
      input-descriptor accumulators it receives are left untouched, so they are not parameters
      here. */
  method ConvertPReLUFunction(link: Link, names: NameList, paramNames: map<int, string>, operators: map<string, string>)
    returns (r: Result<seq<OnnxNode>>)
    modifies names
    ensures match SlopeRewrite(old(names.entries), link.attached, paramNames)
      case Failure(e) => r == Failure(e) && names.entries == old(names.entries)
      case Success(s) =>
        names.entries == Stringified(s)
        && (if link.className in operators
            then r == Success([OnnxNode(operators[link.className], Texts(s), OutNames(link.outputIds), NoAttrs)])
            else r == Failure(NotInTable(link.className)))
  {
    var ok := SubstituteInPlace(names, link.attached, paramNames, "W", false);
    if ok.Fail? {
      return Failure(ok.error);
    }
    ghost var s := names.entries;
    StringifyInPlace(names);
    StringifiedProperties(s);
    if link.className !in operators {
      return Failure(NotInTable(link.className));
    }
    var layerName := operators[link.className];
    r := Success([OnnxNode(layerName, Texts(names.entries), OutNames(link.outputIds), NoAttrs)]);
  }

  /** After the translator, W's identity slot holds W's name and every other slot is its original
      entry as text. */
  lemma SlopeRewriteSlots(entries: seq<Entry>, attached: map<string, TensorNode>, paramNames: map<int, string>)
    requires SlopeRewrite(entries, attached, paramNames).Success?
    ensures var out := Stringified(SlopeRewrite(entries, attached, paramNames).value);
      var w := attached["W"].varId;
      && |out| == |entries| && AllStr(out)
      && Str(paramNames[w]) in out
      && (forall j :: 0 <= j < |entries| ==> SlotRewritten(entries[j], out[j], {w}, paramNames))
  {
    var s := SlopeRewrite(entries, attached, paramNames).value;
    SubstituteSlots(entries, attached, paramNames, "W", false);
    StringifiedProperties(s);
    var k :| 0 <= k < |s| && s[k] == Str(paramNames[attached["W"].varId]);
    assert Stringified(s)[k] == s[k];
  }
}
