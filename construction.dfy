/** What `datafunction.__init__` computes from a function's signature and resolved
    hints, and the order in which it rejects a malformed declaration. */
module Construction {
  import opened Runtime
  import opened Schemas

  /** The name of the single field of the return schema. */
  const ReturnField: string := "_return"

  /** The hint key `typing.get_type_hints` uses for the return annotation. */
  const ReturnKey: string := "return"

  /** What `__init__` derives: `hinted_names` and the two schema triples
      (no return triple when the function returns None). */
  datatype Derived = Derived(hintedNames: seq<string>, paramsSchemas: Schemas, returnSchemas: Option<Schemas>)

  /** How many leading parameters the wrapper leaves unconverted. */
  function Offset(isMethod: bool): nat {
    if isMethod then 1 else 0
  }

  const DelIndexError: Error := Exc(IndexError, "list assignment index out of range")

  function MissingAnnotationError(name: string): Error {
    Exc(TypeError, "Missing annotation for " + name)
  }

  function InvalidKindError(name: string, kind: ParamKind): Error {
    Exc(TypeError, "Parameter " + name + " is of invalid kind: " + KindName(kind))
  }

  /** `list(signature.parameters)`, less its first entry for a method; deleting the
      first entry of an empty list raises IndexError. */
  function HintedNames(params: seq<Param>, isMethod: bool): (r: Result<seq<string>, Error>)
    ensures r.Failure? <==> isMethod && params == []
    ensures r.Failure? ==> r.error == DelIndexError
    ensures r.Success? ==>
      && |r.value| == |params| - Offset(isMethod)
      && forall i :: 0 <= i < |r.value| ==> r.value[i] == params[i + Offset(isMethod)].name
  {
    var names := ParamNames(params);
    if !isMethod then Success(names)
    else if names == [] then Failure(DelIndexError)
    else
      assert forall i :: 0 <= i < |names| - 1 ==> names[1..][i] == params[i + 1].name;
      Success(names[1..])
  }

  /** The first of `names` that is not in `present`. */
  function FirstMissing(names: seq<string>, present: set<string>): (r: Option<string>)
    ensures r.None? <==> forall i :: 0 <= i < |names| ==> names[i] in present
    ensures r.Some? ==>
      r.value !in present && exists i :: 0 <= i < |names| && names[i] == r.value && forall i' :: 0 <= i' < i ==> names[i'] in present
  {
    if names == [] then None
    else if names[0] !in present then Some(names[0])
    else
      var r := FirstMissing(names[1..], present);
      assert forall i :: 1 <= i < |names| ==> names[i] == names[1..][i - 1];
      if r.Some? then
        var i :| 0 <= i < |names[1..]| && names[1..][i] == r.value && forall i' :: 0 <= i' < i ==> names[1..][i'] in present;
        assert names[i + 1] == r.value && forall i' :: 0 <= i' < i + 1 ==> names[i'] in present;
        r
      else r
  }

  predicate HasParam(params: seq<Param>, name: string) {
    exists i :: 0 <= i < |params| && params[i].name == name
  }

  /** `signature.parameters[name]` */
  function ParamNamed(params: seq<Param>, name: string): (p: Param)
    requires HasParam(params, name)
    ensures p.name == name
    ensures exists i :: 0 <= i < |params| && params[i] == p
  {
    if params[0].name == name then params[0]
    else
      assert HasParam(params[1..], name) by {
        var i :| 0 <= i < |params| && params[i].name == name;
        assert params[1..][i - 1].name == name;
      }
      var p := ParamNamed(params[1..], name);
      var i :| 0 <= i < |params[1..]| && params[1..][i] == p;
      assert params[i + 1] == p;
      p
  }

  /** In a signature without repeated names, the lookup finds the parameter at its position. */
  lemma ParamNamedAt(params: seq<Param>, i: nat)
    requires DistinctNames(params) && i < |params|
    ensures HasParam(params, params[i].name) && ParamNamed(params, params[i].name) == params[i]
  {
    var p := ParamNamed(params, params[i].name);
    var k :| 0 <= k < |params| && params[k] == p;
    assert params[k].name == params[i].name;
  }


  /** The first parameter of `ps` whose kind the wrapper refuses. */
  function FirstInvalidKind(ps: seq<Param>): (r: Option<Param>)
    ensures r.None? <==> forall i :: 0 <= i < |ps| ==> IsSimpleKind(ps[i].kind)
    ensures r.Some? ==> !IsSimpleKind(r.value.kind) && exists i :: (
      && 0 <= i < |ps| && ps[i] == r.value
      && forall i' :: 0 <= i' < i ==> IsSimpleKind(ps[i'].kind))
  {
    if ps == [] then None
    else if !IsSimpleKind(ps[0].kind) then Some(ps[0])
    else
      var r := FirstInvalidKind(ps[1..]);
      assert forall i :: 1 <= i < |ps| ==> ps[i] == ps[1..][i - 1];
      if r.Some? then
        var i :| 0 <= i < |ps[1..]| && ps[1..][i] == r.value && forall i' :: 0 <= i' < i ==> IsSimpleKind(ps[1..][i'].kind);
        assert ps[i + 1] == r.value;
        r
      else r
  }

  /** `{k: hints[k] for k in hinted_names}`, in order. */
  function HintFields(names: seq<string>, hints: map<string, TypeHint>): (fields: seq<(string, TypeHint)>)
    requires forall i :: 0 <= i < |names| ==> names[i] in hints
    ensures |fields| == |names|
    ensures forall i :: 0 <= i < |names| ==> fields[i] == (names[i], hints[names[i]])
  {
    seq(|names|, i requires 0 <= i < |names| => (names[i], hints[names[i]]))
  }

  lemma AllPresentAppend(names: seq<string>, present: set<string>, extra: string)
    ensures (forall i :: 0 <= i < |names + [extra]| ==> (names + [extra])[i] in present)
      <==> (forall i :: 0 <= i < |names| ==> names[i] in present) && extra in present
  {
    assert forall i :: 0 <= i < |names| ==> (names + [extra])[i] == names[i];
    assert (names + [extra])[|names|] == extra;
  }

  /** The checks of `__init__`, in order: dropping the receiver, then the
      annotations of the hinted names and of the return, then the kinds of the
      hinted parameters. On success, the hinted names. The kind check looks each
      hinted name up in the signature; in a signature, where names are distinct,
      that finds the parameters after the receiver in order (see `CheckKinds`). */
  function Validate(params: seq<Param>, hints: map<string, TypeHint>, isMethod: bool): (r: Result<seq<string>, Error>)
    ensures r.Success? ==> HintedNames(params, isMethod) == r
    ensures r.Success? ==> (forall i :: 0 <= i < |r.value| ==> r.value[i] in hints) && ReturnKey in hints
  {
    match HintedNames(params, isMethod)
    case Failure(e) => Failure(e)
    case Success(names) =>
      match FirstMissing(names + [ReturnKey], hints.Keys)
      case Some(n) => Failure(MissingAnnotationError(n))
      case None =>
        AllPresentAppend(names, hints.Keys, ReturnKey);
        match FirstInvalidKind(params[Offset(isMethod)..])
        case Some(bad) => Failure(InvalidKindError(bad.name, bad.kind))
        case None => Success(names)
  }

  /** The two `make_schema` calls. */
  function Derive(engine: Engine, funcName: string, names: seq<string>, hints: map<string, TypeHint>): Derived
    requires forall i :: 0 <= i < |names| ==> names[i] in hints
    requires ReturnKey in hints
  {
    var returnHint := hints[ReturnKey];
    Derived(
      names,
      MakeSchema(engine, funcName, "params", HintFields(names, hints)),
      if returnHint != NoneType then Some(MakeSchema(engine, funcName, "return", [(ReturnField, returnHint)])) else None)
  }

  /** `__init__` as a value: the derived state, or the exception it raises. */
  function Construct(engine: Engine, funcName: string, params: seq<Param>, hints: map<string, TypeHint>, isMethod: bool): Result<Derived, Error> {
    match Validate(params, hints, isMethod)
    case Failure(e) => Failure(e)
    case Success(names) => Success(Derive(engine, funcName, names, hints))
  }

  /** The state of a constructed wrapper, whatever the engine: the hinted names are
      the parameters after the receiver, all of them annotated and of an accepted
      kind, the parameter schema has one field per hinted name, and a return schema
      with the single field `_return` exists exactly when the return hint is not None. */
  predicate WellFormed(funcName: string, params: seq<Param>, hints: map<string, TypeHint>, isMethod: bool, d: Derived) {
    && |params| >= Offset(isMethod)
    && |d.hintedNames| == |params| - Offset(isMethod)
    && (forall i :: 0 <= i < |d.hintedNames| ==> d.hintedNames[i] == params[i + Offset(isMethod)].name)
    && (forall i :: 0 <= i < |d.hintedNames| ==> d.hintedNames[i] in hints)
    && ReturnKey in hints
    && (forall i :: Offset(isMethod) <= i < |params| ==> IsSimpleKind(params[i].kind))
    && Coherent(d.paramsSchemas, funcName + "_params_schema", HintFields(d.hintedNames, hints))
    && (d.returnSchemas.Some? <==> hints[ReturnKey] != NoneType)
    && (d.returnSchemas.Some? ==>
          Coherent(d.returnSchemas.value, funcName + "_return_schema", [(ReturnField, hints[ReturnKey])]))
  }

  /** What a declaration must satisfy for `__init__` to return. */
  predicate Admissible(params: seq<Param>, hints: map<string, TypeHint>, isMethod: bool) {
    && |params| >= Offset(isMethod)
    && (forall i :: Offset(isMethod) <= i < |params| ==> params[i].name in hints && IsSimpleKind(params[i].kind))
    && ReturnKey in hints
  }

  // ---------------------------------------------------------------------------
  // Steps of `Validate`, each stated on its own

  lemma ConstructFails(engine: Engine, funcName: string, params: seq<Param>, hints: map<string, TypeHint>, isMethod: bool, e: Error)
    requires Validate(params, hints, isMethod) == Failure(e)
    ensures Construct(engine, funcName, params, hints, isMethod) == Failure(e)
  {
  }

  /** The annotated prefix of the parameters is an annotated prefix of the names checked. */
  lemma AnnotatedPrefix(params: seq<Param>, hints: map<string, TypeHint>, isMethod: bool, upto: nat)
    requires Offset(isMethod) <= upto <= |params|
    requires forall i :: Offset(isMethod) <= i < upto ==> params[i].name in hints
    ensures HintedNames(params, isMethod).Success?
    ensures var all := HintedNames(params, isMethod).value + [ReturnKey];
      && |all| == |params| - Offset(isMethod) + 1
      && (forall i :: 0 <= i < upto - Offset(isMethod) ==> all[i] in hints.Keys)
      && (upto < |params| ==> all[upto - Offset(isMethod)] == params[upto].name)
      && all[|all| - 1] == ReturnKey
  {
  }

  /** Every hinted name is annotated exactly when every parameter after the receiver is. */
  lemma AnnotatedIff(params: seq<Param>, hints: map<string, TypeHint>, isMethod: bool)
    requires HintedNames(params, isMethod).Success?
    ensures var names := HintedNames(params, isMethod).value;
      (forall i :: 0 <= i < |names| ==> names[i] in hints)
      <==> (forall i :: Offset(isMethod) <= i < |params| ==> params[i].name in hints)
  {
    var names := HintedNames(params, isMethod).value;
    if forall i :: 0 <= i < |names| ==> names[i] in hints {
      forall i | Offset(isMethod) <= i < |params| ensures params[i].name in hints {
        assert names[i - Offset(isMethod)] == params[i].name;
      }
    }
  }

  /** The kind check passes exactly when every parameter after the receiver has an accepted kind. */
  lemma KindsIff(params: seq<Param>, isMethod: bool)
    requires Offset(isMethod) <= |params|
    ensures FirstInvalidKind(params[Offset(isMethod)..]).None?
      <==> forall i :: Offset(isMethod) <= i < |params| ==> IsSimpleKind(params[i].kind)
  {
    var ps := params[Offset(isMethod)..];
    assert forall i :: Offset(isMethod) <= i < |params| ==> params[i] == ps[i - Offset(isMethod)];
  }

  lemma ValidateMissing(params: seq<Param>, hints: map<string, TypeHint>, isMethod: bool, n: string)
    requires HintedNames(params, isMethod).Success?
    requires FirstMissing(HintedNames(params, isMethod).value + [ReturnKey], hints.Keys) == Some(n)
    ensures Validate(params, hints, isMethod) == Failure(MissingAnnotationError(n))
  {
  }

  lemma ValidateKinds(params: seq<Param>, hints: map<string, TypeHint>, isMethod: bool)
    requires HintedNames(params, isMethod).Success?
    requires FirstMissing(HintedNames(params, isMethod).value + [ReturnKey], hints.Keys).None?
    ensures Validate(params, hints, isMethod) ==
      match FirstInvalidKind(params[Offset(isMethod)..])
      case Some(bad) => Failure(InvalidKindError(bad.name, bad.kind))
      case None => Success(HintedNames(params, isMethod).value)
  {
  }

  // ---------------------------------------------------------------------------

  /** Construction succeeds exactly on admissible declarations. */
  lemma ConstructSucceedsIff(engine: Engine, funcName: string, params: seq<Param>, hints: map<string, TypeHint>, isMethod: bool)
    ensures Construct(engine, funcName, params, hints, isMethod).Success? <==> Admissible(params, hints, isMethod)
  {
    var h := HintedNames(params, isMethod);
    if h.Success? {
      var all := h.value + [ReturnKey];
      assert FirstMissing(all, hints.Keys).None? <==>
        (forall i :: Offset(isMethod) <= i < |params| ==> params[i].name in hints) && ReturnKey in hints by {
        AllPresentAppend(h.value, hints.Keys, ReturnKey);
        AnnotatedIff(params, hints, isMethod);
      }
      KindsIff(params, isMethod);
      if FirstMissing(all, hints.Keys).None? {
        ValidateKinds(params, hints, isMethod);
      } else {
        ValidateMissing(params, hints, isMethod, FirstMissing(all, hints.Keys).value);
      }
    }
  }

  /** A constructed wrapper is well-formed. */
  lemma ConstructWellFormed(engine: Engine, funcName: string, params: seq<Param>, hints: map<string, TypeHint>, isMethod: bool)
    requires Construct(engine, funcName, params, hints, isMethod).Success?
    ensures WellFormed(funcName, params, hints, isMethod, Construct(engine, funcName, params, hints, isMethod).value)
  {
    var names := HintedNames(params, isMethod).value;
    ConstructSucceedsIff(engine, funcName, params, hints, isMethod);
    MakeSchemaCoherent(engine, funcName, "params", HintFields(names, hints));
    MakeSchemaCoherent(engine, funcName, "return", [(ReturnField, hints[ReturnKey])]);
  }

  /** The parameter schema of a constructed wrapper declares, in order, one field for
      each parameter after the receiver, typed by that parameter's annotation. */
  lemma ConstructFields(engine: Engine, funcName: string, params: seq<Param>, hints: map<string, TypeHint>, isMethod: bool)
    requires Construct(engine, funcName, params, hints, isMethod).Success?
    ensures var fields := Construct(engine, funcName, params, hints, isMethod).value.paramsSchemas.dataclass.fields;
      && |fields| == |params| - Offset(isMethod)
      && forall i :: Offset(isMethod) <= i < |params| ==>
           params[i].name in hints && fields[i - Offset(isMethod)] == (params[i].name, hints[params[i].name])
  {
    ConstructWellFormed(engine, funcName, params, hints, isMethod);
    var d := Construct(engine, funcName, params, hints, isMethod).value;
    var off := Offset(isMethod);
    assert d.paramsSchemas.dataclass.fields == HintFields(d.hintedNames, hints);
    forall i | off <= i < |params|
      ensures params[i].name in hints && d.paramsSchemas.dataclass.fields[i - off] == (params[i].name, hints[params[i].name])
    {
      assert d.hintedNames[i - off] == params[i].name;
    }
  }

  /** Annotations are checked before kinds: a declaration missing an annotation is
      refused naming the first unannotated hinted parameter, whatever the kinds. */
  lemma MissingAnnotationFirst(engine: Engine, funcName: string, params: seq<Param>, hints: map<string, TypeHint>, isMethod: bool, i: nat)
    requires Offset(isMethod) <= i < |params|
    requires params[i].name !in hints
    requires forall i' :: Offset(isMethod) <= i' < i ==> params[i'].name in hints
    ensures Construct(engine, funcName, params, hints, isMethod) == Failure(MissingAnnotationError(params[i].name))
  {
    var all := HintedNames(params, isMethod).value + [ReturnKey];
    assert FirstMissing(all, hints.Keys) == Some(params[i].name) by {
      AnnotatedPrefix(params, hints, isMethod, i);
      FirstMissingIs(all, hints.Keys, i - Offset(isMethod));
    }
    ValidateMissing(params, hints, isMethod, params[i].name);
    ConstructFails(engine, funcName, params, hints, isMethod, MissingAnnotationError(params[i].name));
  }

  /** With every parameter annotated, a missing return annotation is refused as such. */
  lemma MissingReturnAnnotation(engine: Engine, funcName: string, params: seq<Param>, hints: map<string, TypeHint>, isMethod: bool)
    requires |params| >= Offset(isMethod)
    requires forall i :: Offset(isMethod) <= i < |params| ==> params[i].name in hints
    requires ReturnKey !in hints
    ensures Construct(engine, funcName, params, hints, isMethod) == Failure(MissingAnnotationError(ReturnKey))
  {
    AnnotatedPrefix(params, hints, isMethod, |params|);
    var all := HintedNames(params, isMethod).value + [ReturnKey];
    FirstMissingIs(all, hints.Keys, |all| - 1);
    ValidateMissing(params, hints, isMethod, ReturnKey);
    ConstructFails(engine, funcName, params, hints, isMethod, MissingAnnotationError(ReturnKey));
  }

  /** With everything annotated, the first hinted parameter of a refused kind is
      named together with its kind. */
  lemma InvalidKindReported(engine: Engine, funcName: string, params: seq<Param>, hints: map<string, TypeHint>, isMethod: bool, i: nat)
    requires Offset(isMethod) <= i < |params|
    requires forall i' :: Offset(isMethod) <= i' < |params| ==> params[i'].name in hints
    requires ReturnKey in hints
    requires !IsSimpleKind(params[i].kind)
    requires forall i' :: Offset(isMethod) <= i' < i ==> IsSimpleKind(params[i'].kind)
    ensures Construct(engine, funcName, params, hints, isMethod) == Failure(InvalidKindError(params[i].name, params[i].kind))
  {
    var off := Offset(isMethod);
    var e := InvalidKindError(params[i].name, params[i].kind);
    assert Validate(params, hints, isMethod) == Failure(e) by {
      assert FirstMissing(HintedNames(params, isMethod).value + [ReturnKey], hints.Keys).None? by {
        AllPresentAppend(HintedNames(params, isMethod).value, hints.Keys, ReturnKey);
        AnnotatedIff(params, hints, isMethod);
      }
      FirstInvalidKindAfter(params, off, i);
      ValidateKinds(params, hints, isMethod);
    }
    ConstructFails(engine, funcName, params, hints, isMethod, e);
  }

  /** The receiver of a method is never kind-checked: giving it another kind or
      default changes nothing about construction. */
  lemma ReceiverNotChecked(engine: Engine, funcName: string, params: seq<Param>, hints: map<string, TypeHint>, kind: ParamKind, default: Option<Value>)
    requires |params| > 0
    ensures var params' := params[0 := Param(params[0].name, kind, default)];
      Construct(engine, funcName, params', hints, true) == Construct(engine, funcName, params, hints, true)
  {
    var params' := params[0 := Param(params[0].name, kind, default)];
    assert ParamNames(params') == ParamNames(params);
    assert params'[1..] == params[1..];
  }

  /** `FirstInvalidKindIs` for the parameters from `off` on. */
  lemma FirstInvalidKindAfter(params: seq<Param>, off: nat, i: nat)
    requires off <= i < |params| && !IsSimpleKind(params[i].kind)
    requires forall i' :: off <= i' < i ==> IsSimpleKind(params[i'].kind)
    ensures FirstInvalidKind(params[off..]) == Some(params[i])
  {
    var ps := params[off..];
    assert forall i' :: 0 <= i' <= i - off ==> ps[i'] == params[i' + off];
    FirstInvalidKindIs(ps, i - off);
  }

  lemma {:induction false} FirstInvalidKindIs(ps: seq<Param>, i: nat)
    requires i < |ps| && !IsSimpleKind(ps[i].kind)
    requires forall i' :: 0 <= i' < i ==> IsSimpleKind(ps[i'].kind)
    ensures FirstInvalidKind(ps) == Some(ps[i])
  {
    if i > 0 {
      assert forall i' :: 0 <= i' < i - 1 ==> ps[1..][i'] == ps[i' + 1];
      FirstInvalidKindIs(ps[1..], i - 1);
    }
  }

  lemma {:induction false} FirstMissingIs(names: seq<string>, present: set<string>, i: nat)
    requires i < |names| && names[i] !in present
    requires forall i' :: 0 <= i' < i ==> names[i'] in present
    ensures FirstMissing(names, present) == Some(names[i])
  {
    if i > 0 {
      assert forall i' :: 0 <= i' < i - 1 ==> names[1..][i'] == names[i' + 1];
      FirstMissingIs(names[1..], present, i - 1);
    }
  }

  // ---------------------------------------------------------------------------
  // The two validation loops of `__init__`

  /** `for name in [*hinted_names, "return"]: if name not in hints: raise ...` */
  method CheckAnnotations(names: seq<string>, hints: map<string, TypeHint>) returns (missing: Option<string>)
    ensures missing == FirstMissing(names, hints.Keys)
  {
    var i := 0;
    while i < |names|
      invariant 0 <= i <= |names|
      invariant forall i' :: 0 <= i' < i ==> names[i'] in hints
    {
      if names[i] !in hints {
        FirstMissingIs(names, hints.Keys, i);
        return Some(names[i]);
      }
      i := i + 1;
    }
    return None;
  }

  /** `for name in hinted_names: param = signature.parameters[name]; if param.kind not in (...): raise ...`:
      looking each hinted name up finds the parameters after the receiver, in order. */
  method CheckKinds(params: Signature, isMethod: bool, names: seq<string>) returns (bad: Option<Param>)
    requires HintedNames(params, isMethod) == Success(names)
    ensures bad == FirstInvalidKind(params[Offset(isMethod)..])
  {
    var off := Offset(isMethod);
    var i := 0;
    while i < |names|
      invariant 0 <= i <= |names|
      invariant FirstInvalidKind(params[off..]) == FirstInvalidKind(params[off + i..])
    {
      ParamNamedAt(params, i + off);
      var p := ParamNamed(params, names[i]);
      assert p == params[off + i] == params[off + i..][0];
      if !IsSimpleKind(p.kind) {
        return Some(p);
      }
      assert params[off + i..][1..] == params[off + i + 1..];
      i := i + 1;
    }
    return None;
  }
}
