/** Two walks over a ComfyUI document: collecting assets with an early cutoff,
    and filling in workflow parameters (src/generation.rs:797-830, 1136-1143, 1763-1798). */
module WorkflowTree {
  import opened Json
  import opened Limits

  datatype Asset = Asset(filename: string, subfolder: string, kind: string)

  /** The asset an object with a string `filename` stands for. */
  function AssetAt(v: Value): Option<Asset>
  {
    var filename := GetStr(v, "filename");
    if filename.None? then None
    else Some(Asset(filename.value, GetOr(GetStr(v, "subfolder"), ""), GetOr(GetStr(v, "type"), "output")))
  }

  /** Every asset of the tree in preorder; an asset is not searched further. */
  function AllAssets(v: Value): seq<Asset>
    decreases v, 1, 0
  {
    if AssetAt(v).Some? then [AssetAt(v).value]
    else match v
      case Object(fields) => AssetsOf(Values(fields), v)
      case Array(items) => AssetsOf(items, v)
      case _ => []
  }

  function AssetsOf(children: seq<Value>, ghost outer: Value): seq<Asset>
    requires forall i | 0 <= i < |children| :: children[i] < outer
    decreases outer, 0, |children|
  {
    if children == [] then []
    else AssetsOf(children[..|children| - 1], outer) + AllAssets(children[|children| - 1])
  }

  function Values(fields: Fields): (r: seq<Value>)
    ensures |r| == |fields|
  {
    seq(|fields|, i requires 0 <= i < |fields| => fields[i].1)
  }

  /** The walk stops growing one past the limit. */
  function Cut(assets: seq<Asset>): seq<Asset>
  {
    if |assets| > MAX_COMFY_ASSETS then assets[..MAX_COMFY_ASSETS + 1] else assets
  }

  lemma {:induction false} CutTwice(a: seq<Asset>, b: seq<Asset>)
    ensures Cut(Cut(a) + b) == Cut(a + b)
  {
  }

  /** `find_comfy_assets`: returns at once when the output already overflows. */
  method FindComfyAssets(value: Value, output: seq<Asset>) returns (out: seq<Asset>)
    requires |output| <= MAX_COMFY_ASSETS + 1
    ensures out == Cut(output + AllAssets(value))
    decreases value, 1
  {
    out := output;
    if |output| > MAX_COMFY_ASSETS { return; }
    match value
    case Object(fields) =>
      var filename := GetStr(value, "filename");
      if filename.Some? {
        var subfolder, kind := GetOr(GetStr(value, "subfolder"), ""), GetOr(GetStr(value, "type"), "output");
        out := output + [Asset(filename.value, subfolder, kind)];
      } else {
        out := FindInChildren(Values(fields), output, value);
      }
    case Array(items) =>
      out := FindInChildren(items, output, value);
    case _ =>
      assert output + [] == output;
  }

  /** The loop over an object's values or an array's elements. */
  method FindInChildren(children: seq<Value>, output: seq<Asset>, ghost outer: Value) returns (out: seq<Asset>)
    requires forall i | 0 <= i < |children| :: children[i] < outer
    requires |output| <= MAX_COMFY_ASSETS + 1
    ensures out == Cut(output + AssetsOf(children, outer))
    decreases outer, 0
  {
    out := output;
    assert children[..0] == [] && output + [] == output;
    for i := 0 to |children|
      invariant |out| <= MAX_COMFY_ASSETS + 1
      invariant out == Cut(output + AssetsOf(children[..i], outer))
    {
      ChildStep(children, i, output, outer);
      out := FindComfyAssets(children[i], out);
    }
    assert children[..|children|] == children;
  }

  lemma {:induction false} ChildStep(children: seq<Value>, i: nat, output: seq<Asset>, outer: Value)
    requires i < |children| && forall j | 0 <= j < |children| :: children[j] < outer
    ensures Cut(Cut(output + AssetsOf(children[..i], outer)) + AllAssets(children[i]))
            == Cut(output + AssetsOf(children[..i + 1], outer))
  {
    var before, here := AssetsOf(children[..i], outer), AllAssets(children[i]);
    assert AssetsOf(children[..i + 1], outer) == before + here by { assert children[..i + 1][..i] == children[..i]; }
    CutTwice(output + before, here);
    assert output + before + here == output + (before + here);
  }

  /** The poller's use of the walk: its verdict is that of counting every asset,
      and an accepted list is complete. */
  method CollectAssets(entry: Value) returns (assets: seq<Asset>, tooMany: bool)
    ensures tooMany <==> |AllAssets(entry)| > MAX_COMFY_ASSETS
    ensures !tooMany ==> assets == AllAssets(entry)
    ensures tooMany ==> assets == AllAssets(entry)[..MAX_COMFY_ASSETS + 1]
  {
    assets := FindComfyAssets(entry, []);
    assert [] + AllAssets(entry) == AllAssets(entry);
    tooMany := |assets| > MAX_COMFY_ASSETS;
  }

  // --------------------------------------------------------------- parameters

  /** The parameter a one-field `{"$mtc_param": "name"}` object asks for. */
  function Placeholder(v: Value): Option<string>
  {
    if v.Object? && |v.fields| == 1 then GetStr(v, "$mtc_param") else None
  }

  /** `apply_workflow_parameters`; nothing when a named parameter is missing. */
  function Filled(v: Value, parameters: Fields): Option<Value>
    decreases v, 1, 0
  {
    if Placeholder(v).Some? then Find(parameters, Placeholder(v).value)
    else match v
      case Object(fields) =>
        var children := FilledAll(Values(fields), parameters, v);
        if children.None? then None
        else Some(Object(seq(|fields|, i requires 0 <= i < |fields| => (fields[i].0, children.value[i]))))
      case Array(items) =>
        var children := FilledAll(items, parameters, v);
        if children.None? then None else Some(Array(children.value))
      case _ => Some(v)
  }

  function FilledAll(children: seq<Value>, parameters: Fields, ghost outer: Value): (r: Option<seq<Value>>)
    requires forall i | 0 <= i < |children| :: children[i] < outer
    ensures r.Some? ==> |r.value| == |children|
    decreases outer, 0, |children|
  {
    if children == [] then Some([])
    else
      var first := Filled(children[0], parameters);
      if first.None? then None
      else
        var rest := FilledAll(children[1..], parameters, outer);
        if rest.None? then None else Some([first.value] + rest.value)
  }

  /** Does a placeholder stand anywhere in the tree? */
  ghost predicate HasPlaceholder(v: Value)
  {
    Placeholder(v).Some? || match v
      case Object(fields) => exists i :: 0 <= i < |fields| && HasPlaceholder(fields[i].1)
      case Array(items) => exists i :: 0 <= i < |items| && HasPlaceholder(items[i])
      case _ => false
  }

  /** Every placeholder names a parameter that is there. */
  ghost predicate AllNamed(v: Value, parameters: Fields)
  {
    if Placeholder(v).Some? then Find(parameters, Placeholder(v).value).Some?
    else match v
      case Object(fields) => forall i | 0 <= i < |fields| :: AllNamed(fields[i].1, parameters)
      case Array(items) => forall i | 0 <= i < |items| :: AllNamed(items[i], parameters)
      case _ => true
  }

  /** A `$mtc_param` object whose only field is itself a placeholder for a string
      parameter: filling the inner one makes the outer one a placeholder. */
  ghost predicate Nested(v: Value, parameters: Fields)
  {
    && Placeholder(v).None?
    && match v
       case Object(fields) =>
         || (|fields| == 1 && fields[0].0 == "$mtc_param" && Placeholder(fields[0].1).Some?
             && AsStr(Find(parameters, Placeholder(fields[0].1).value)).Some?)
         || exists i :: 0 <= i < |fields| && Nested(fields[i].1, parameters)
       case Array(items) => exists i :: 0 <= i < |items| && Nested(items[i], parameters)
       case _ => false
  }

  /** Parameter values are scalars, as the worker checks before filling. */
  ghost predicate ScalarValues(parameters: Fields)
  {
    forall f | f in parameters :: !f.1.Array? && !f.1.Object?
  }

  lemma {:induction false} FoundIsScalar(parameters: Fields, name: string)
    requires ScalarValues(parameters)
    ensures Find(parameters, name).Some? ==>
      !Find(parameters, name).value.Array? && !Find(parameters, name).value.Object?
  {
    if parameters != [] && parameters[0].0 != name { FoundIsScalar(parameters[1..], name); }
  }

  lemma {:induction false} FilledAllAre(children: seq<Value>, parameters: Fields, outer: Value)
    requires forall i | 0 <= i < |children| :: children[i] < outer
    ensures var r := FilledAll(children, parameters, outer);
            && (r.Some? <==> forall i | 0 <= i < |children| :: Filled(children[i], parameters).Some?)
            && (r.Some? ==> forall i | 0 <= i < |children| :: Filled(children[i], parameters) == Some(r.value[i]))
    decreases |children|
  {
    if children != [] {
      FilledAllAre(children[1..], parameters, outer);
      assert forall i | 0 < i < |children| :: children[i] == children[1..][i - 1];
      if forall i | 0 <= i < |children| :: Filled(children[i], parameters).Some? {
        forall i | 0 <= i < |children[1..]| ensures Filled(children[1..][i], parameters).Some? {
          assert children[1..][i] == children[i + 1];
        }
      }
    }
  }

  /** Filling succeeds exactly when every placeholder is named. */
  lemma {:induction false} FilledIffNamed(v: Value, parameters: Fields)
    ensures Filled(v, parameters).Some? <==> AllNamed(v, parameters)
    decreases v
  {
    if Placeholder(v).None? {
      match v
      case Object(fields) =>
        var children := Values(fields);
        FilledAllAre(children, parameters, v);
        forall i | 0 <= i < |fields|
          ensures Filled(children[i], parameters).Some? <==> AllNamed(fields[i].1, parameters)
        {
          FilledIffNamed(fields[i].1, parameters);
        }
      case Array(items) =>
        FilledAllAre(items, parameters, v);
        forall i | 0 <= i < |items| ensures Filled(items[i], parameters).Some? <==> AllNamed(items[i], parameters) {
          FilledIffNamed(items[i], parameters);
        }
      case _ =>
    }
  }

  /** A placeholder is left in the filled document exactly when the template
      nested one in another for a string parameter. */
  lemma {:induction false} PlaceholderLeft(v: Value, parameters: Fields)
    requires ScalarValues(parameters) && Filled(v, parameters).Some?
    ensures HasPlaceholder(Filled(v, parameters).value) <==> Nested(v, parameters)
    decreases v
  {
    var r := Filled(v, parameters).value;
    if Placeholder(v).Some? {
      FoundIsScalar(parameters, Placeholder(v).value);
    } else {
      match v
      case Object(fields) =>
        var children := Values(fields);
        FilledAllAre(children, parameters, v);
        forall i | 0 <= i < |fields|
          ensures Filled(fields[i].1, parameters) == Some(r.fields[i].1)
          ensures HasPlaceholder(r.fields[i].1) <==> Nested(fields[i].1, parameters)
        {
          assert children[i] == fields[i].1;
          PlaceholderLeft(fields[i].1, parameters);
        }
        OuterPlaceholder(fields, r.fields, parameters);
      case Array(items) =>
        FilledAllAre(items, parameters, v);
        forall i | 0 <= i < |items|
          ensures HasPlaceholder(r.items[i]) <==> Nested(items[i], parameters)
        {
          PlaceholderLeft(items[i], parameters);
        }
      case _ =>
    }
  }

  lemma {:induction false} OuterPlaceholder(fields: Fields, filled: Fields, parameters: Fields)
    requires |fields| == |filled| && Placeholder(Object(fields)).None?
    requires forall i | 0 <= i < |fields| ::
      filled[i].0 == fields[i].0 && Filled(fields[i].1, parameters) == Some(filled[i].1)
    ensures Placeholder(Object(filled)).Some? <==>
      |fields| == 1 && fields[0].0 == "$mtc_param" && Placeholder(fields[0].1).Some?
      && AsStr(Find(parameters, Placeholder(fields[0].1).value)).Some?
  {
    if |fields| == 1 {
      assert filled[1..] == [] && fields[1..] == [];
    }
  }

  /** Such a template exists: the promise that none is left is not kept for it. */
  lemma {:induction false} NestedTemplate()
    ensures var inner := Object([("$mtc_param", String("x"))]);
            var template := Object([("$mtc_param", inner)]);
            var parameters := [("x", String("y"))];
            Filled(template, parameters).Some? && HasPlaceholder(Filled(template, parameters).value)
  {
    var inner := Object([("$mtc_param", String("x"))]);
    var template := Object([("$mtc_param", inner)]);
    var parameters := [("x", String("y"))];
    assert Filled(inner, parameters) == Some(String("y"));
    FilledIffNamed(template, parameters);
    assert ScalarValues(parameters);
    assert Placeholder(template).None?;
    assert AllNamed(template, parameters);
    PlaceholderLeft(template, parameters);
  }

  // ------------------------------------------------------------- path by path

  function Ask(name: string): Value
  {
    Object([("$mtc_param", String(name))])
  }

  predicate Asks(v: Value)
  {
    v.Object? && |v.fields| == 1 && v.fields[0].0 == "$mtc_param" && v.fields[0].1.String?
  }

  /** What the children of a value are: fields or elements by position. */
  function ChildAt(v: Value, i: nat): Option<Value>
  {
    match v
    case Object(fields) => if i < |fields| then Some(fields[i].1) else None
    case Array(items) => if i < |items| then Some(items[i]) else None
    case _ => None
  }

  /** This value stands at this path, and nothing on the way asks for a parameter. */
  predicate StandsAt(v: Value, path: seq<nat>, here: Value)
    decreases |path|
  {
    if path == [] then here == v
    else !Asks(v) && ChildAt(v, path[0]).Some? && StandsAt(ChildAt(v, path[0]).value, path[1..], here)
  }

  /** The parameter of this name; the first, if several. */
  ghost predicate Given(parameters: Fields, name: string, value: Value)
  {
    exists i :: 0 <= i < |parameters| && parameters[i] == (name, value)
                && forall j | 0 <= j < i :: parameters[j].0 != name
  }

  predicate NotGiven(parameters: Fields, name: string)
  {
    forall i | 0 <= i < |parameters| :: parameters[i].0 != name
  }

  /** What is left where `here` was: the named parameter, or the same shape, with the
      same keys in the same order, or the same scalar. */
  ghost predicate LeftFor(here: Value, there: Value, parameters: Fields)
  {
    if Asks(here) then Given(parameters, here.fields[0].1.s, there)
    else match here
      case Object(fields) =>
        there.Object? && |there.fields| == |fields|
        && forall i | 0 <= i < |fields| :: there.fields[i].0 == fields[i].0
      case Array(items) => there.Array? && |there.items| == |items|
      case _ => there == here
  }

  /** The value at a path of a filled document. */
  function Below(v: Value, path: seq<nat>): Option<Value>
    decreases |path|
  {
    if path == [] then Some(v)
    else if ChildAt(v, path[0]).None? then None
    else Below(ChildAt(v, path[0]).value, path[1..])
  }

  lemma {:induction false} FoundIsGiven(parameters: Fields, name: string)
    ensures Find(parameters, name).Some? ==> Given(parameters, name, Find(parameters, name).value)
    ensures Find(parameters, name).None? ==> NotGiven(parameters, name)
  {
    if parameters != [] && parameters[0].0 != name {
      var rest := parameters[1..];
      FoundIsGiven(rest, name);
      assert parameters == [parameters[0]] + rest;
      if Find(rest, name).Some? {
        var value := Find(rest, name).value;
        var i :| 0 <= i < |rest| && rest[i] == (name, value) && forall j | 0 <= j < i :: rest[j].0 != name;
        assert parameters[i + 1] == (name, value);
        forall j | 0 <= j < i + 1 ensures parameters[j].0 != name {
          if j > 0 { assert parameters[j] == rest[j - 1]; }
        }
      }
    }
  }

  lemma {:induction false} AskIsPlaceholder(v: Value)
    ensures Asks(v) <==> Placeholder(v).Some?
    ensures Asks(v) ==> v == Ask(v.fields[0].1.s) && Placeholder(v) == Some(v.fields[0].1.s)
  {
    if v.Object? && |v.fields| == 1 {
      assert v.fields[1..] == [];
      assert Find(v.fields[1..], "$mtc_param").None?;
      assert Get(v, "$mtc_param") == if v.fields[0].0 == "$mtc_param" then Some(v.fields[0].1) else None;
      assert Asks(v) ==> v.fields == [("$mtc_param", String(v.fields[0].1.s))];
    }
  }

  /** Filling keeps the shape of what asks for nothing, and fills its children. */
  lemma {:induction false} FilledChildren(v: Value, parameters: Fields)
    requires Filled(v, parameters).Some? && !Asks(v)
    ensures var r := Filled(v, parameters).value;
            && LeftFor(v, r, parameters)
            && forall i: nat | ChildAt(v, i).Some? ::
                 ChildAt(r, i).Some? && Filled(ChildAt(v, i).value, parameters) == ChildAt(r, i)
  {
    AskIsPlaceholder(v);
    match v
    case Object(fields) => FilledAllAre(Values(fields), parameters, v);
    case Array(items) => FilledAllAre(items, parameters, v);
    case _ =>
  }

  /** Path by path, a filled document is the template with each asked-for parameter put
      in its place, and everything else as it was. */
  lemma {:induction false} FilledAt(v: Value, parameters: Fields, path: seq<nat>, here: Value)
    requires Filled(v, parameters).Some? && StandsAt(v, path, here)
    ensures var there := Below(Filled(v, parameters).value, path);
            there.Some? && LeftFor(here, there.value, parameters)
    decreases |path|
  {
    AskIsPlaceholder(v);
    if path != [] {
      FilledChildren(v, parameters);
      FilledAt(ChildAt(v, path[0]).value, parameters, path[1..], here);
    } else if Asks(v) {
      FoundIsGiven(parameters, v.fields[0].1.s);
    } else {
      FilledChildren(v, parameters);
    }
  }

  predicate AskedInVain(v: Value, path: seq<nat>, name: string, parameters: Fields)
  {
    StandsAt(v, path, Ask(name)) && NotGiven(parameters, name)
  }

  /** Filling fails exactly when some place asks for a parameter that is not there. */
  lemma {:induction false} MissingExactly(v: Value, parameters: Fields)
    ensures Filled(v, parameters).None? <==>
      exists path: seq<nat>, name :: AskedInVain(v, path, name, parameters)
  {
    if Filled(v, parameters).None? {
      var path, name := MissingPlace(v, parameters);
      assert AskedInVain(v, path, name, parameters);
    } else {
      forall path: seq<nat>, name | StandsAt(v, path, Ask(name)) ensures !NotGiven(parameters, name) {
        FilledAt(v, parameters, path, Ask(name));
        assert Ask(name).fields[0].1.s == name;
        assert Given(parameters, name, Below(Filled(v, parameters).value, path).value);
      }
    }
  }

  lemma {:induction false} MissingPlace(v: Value, parameters: Fields) returns (path: seq<nat>, name: string)
    requires Filled(v, parameters).None?
    ensures StandsAt(v, path, Ask(name)) && NotGiven(parameters, name)
    decreases v
  {
    AskIsPlaceholder(v);
    if Asks(v) {
      path, name := [], v.fields[0].1.s;
      FoundIsGiven(parameters, name);
    } else {
      var i := MissingChild(v, parameters);
      var rest, n := MissingPlace(ChildAt(v, i).value, parameters);
      path, name := [i] + rest, n;
      assert path[1..] == rest;
    }
  }

  lemma {:induction false} MissingChild(v: Value, parameters: Fields) returns (i: nat)
    requires Filled(v, parameters).None? && !Asks(v)
    ensures ChildAt(v, i).Some? && ChildAt(v, i).value < v && Filled(ChildAt(v, i).value, parameters).None?
  {
    AskIsPlaceholder(v);
    var children := if v.Object? then Values(v.fields) else v.items;
    FilledAllAre(children, parameters, v);
    var k :| 0 <= k < |children| && Filled(children[k], parameters).None?;
    i := k;
  }
}
