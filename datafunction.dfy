/** The `datafunction` wrapper object: its construction, the binding of a call's
    arguments, the four conversions with their error translation, and the call path. */
module Datafunctions {
  import opened Runtime
  import opened Schemas
  import opened Construction
  import Binding

  /** The AttributeError `getattr` raises for a field the loaded record lacks. */
  function NoAttributeError(record: RecordType, field: string): Error {
    Exc(AttributeError, "'" + record.name + "' object has no attribute '" + field + "'")
  }

  /** The KeyError `result_data["_return"]` raises. */
  const NoReturnKeyError: Error := Exc(KeyError, "'_return'")

  /** The name of the instance parameter of the closure `__get__` builds. */
  const InstanceSelf: string := "instance_self"

  /** The TypeError Python raises when a call of that closure also passes
      `instance_self` by keyword (the name of the function is left out of the message). */
  const InstanceSelfClash: Error := Exc(TypeError, "got multiple values for argument 'instance_self'")

  /** The name of the first parameter of the wrapper's own methods `__call__`,
      `dump_arguments` and `load_arguments`, each declared `(self, *args, **kwargs)`. */
  const WrapperSelf: string := "self"

  /** The TypeError Python raises when a call of one of those methods also passes
      `self` by keyword, before the method body runs (the name of the method is left
      out of the message). */
  const SelfClash: Error := Exc(TypeError, "got multiple values for argument 'self'")

  /** The four conversions, for the table of what each one translates. */
  datatype Conversion = DumpArgumentsOp | LoadArgumentsOp | DumpResultOp | LoadResultOp

  /** Which exceptions a conversion's `except` clause catches: every exception for
      the two dumps, TypeError and ValidationError for `load_arguments`, and only
      ValidationError for `load_result`. */
  predicate Catches(op: Conversion, e: Error) {
    match op
    case DumpArgumentsOp => true
    case DumpResultOp => true
    case LoadArgumentsOp => IsKind(e, TypeError) || IsKind(e, ValidationError)
    case LoadResultOp => IsKind(e, ValidationError)
  }

  /** What leaves a conversion's `try` block when `e` is raised inside it: the
      repository's own error, with `e` as its cause, or `e` itself. */
  function Translate(op: Conversion, e: Error): (r: Error)
    ensures Catches(op, e) ==> (r.ArgumentError? || r.ReturnError?) && r.cause == e
    ensures Catches(op, e) && (op == DumpArgumentsOp || op == LoadArgumentsOp) ==> r.ArgumentError?
    ensures Catches(op, e) && (op == DumpResultOp || op == LoadResultOp) ==> r.ReturnError?
    ensures !Catches(op, e) ==> r == e
  {
    if !Catches(op, e) then e
    else if op == DumpArgumentsOp || op == LoadArgumentsOp then ArgumentError(e)
    else ReturnError(e)
  }

  /** `{k: v for k in names}` over the names `m` has. */
  function Restrict(m: Fields, names: seq<string>): (r: Fields)
    ensures forall k :: k in r <==> k in m && k in names
    ensures forall k :: k in r ==> r[k] == m[k]
  {
    map k | k in m && k in names :: m[k]
  }

  /** Two maps that agree on `names` restrict to the same map. */
  lemma RestrictAgree(m1: Fields, m2: Fields, names: seq<string>)
    requires forall k :: k in names ==> k in m1 && k in m2 && m1[k] == m2[k]
    ensures Restrict(m1, names) == Restrict(m2, names)
  {
  }

  /** The parameter schema's dump undoes its load at the raw map `raw`: if `raw`
      loads, dumping the fields `names` of the loaded record gives `raw` back. Raw
      arguments the schema coerces do not meet this; arguments already in the
      schema's own form do. */
  predicate DumpUndoesLoadAt(si: SchemaInstance, names: seq<string>, raw: Fields) {
    si.load(raw).Success? ==> si.dump(Restrict(si.load(raw).value, names)) == Success(raw)
  }

  class Datafunction {
    const func: PyFunction
    const isMethod: bool
    const hints: map<string, TypeHint>
    const signature: Signature
    const hintedNames: seq<string>
    const paramsSchemas: Schemas
    const returnSchemas: Option<Schemas>

    constructor (func: PyFunction, isMethod: bool, hints: map<string, TypeHint>, signature: Signature,
                 hintedNames: seq<string>, paramsSchemas: Schemas, returnSchemas: Option<Schemas>)
      ensures this.func == func && this.isMethod == isMethod && this.hints == hints && this.signature == signature
      ensures this.hintedNames == hintedNames && this.paramsSchemas == paramsSchemas && this.returnSchemas == returnSchemas
    {
      this.func := func;
      this.isMethod := isMethod;
      this.hints := hints;
      this.signature := signature;
      this.hintedNames := hintedNames;
      this.paramsSchemas := paramsSchemas;
      this.returnSchemas := returnSchemas;
    }

    /** The fields `__init__` derives. */
    function State(): Derived {
      Derived(hintedNames, paramsSchemas, returnSchemas)
    }

    /** The invariant every constructed wrapper keeps: its hints and signature are
        the function's, and the derived fields are well-formed for them. */
    predicate Valid() {
      && hints == func.hints
      && signature == func.params
      && WellFormed(func.name, signature, hints, isMethod, State())
    }

    /** `datafunction.__init__`: the IndexError of the `del`, the two validation
        loops with their early raises, then the two schema triples. */
    static method New(engine: Engine, func: PyFunction, isMethod: bool) returns (r: Result<Datafunction, Error>)
      ensures var c := Construct(engine, func.name, func.params, func.hints, isMethod);
        && (r.Success? <==> c.Success?)
        && (r.Failure? ==> r.error == c.error)
        && (r.Success? ==>
              && fresh(r.value) && r.value.func == func && r.value.isMethod == isMethod
              && r.value.Valid() && r.value.State() == c.value)
    {
      var hints := func.hints;
      var signature := func.params;
      var hintedNames := ParamNames(signature);
      if isMethod {
        if hintedNames == [] {
          return Failure(DelIndexError);
        }
        hintedNames := hintedNames[1..];
      }
      assert HintedNames(signature, isMethod) == Success(hintedNames);
      var missing := CheckAnnotations(hintedNames + [ReturnKey], hints);
      if missing.Some? {
        ValidateMissing(signature, hints, isMethod, missing.value);
        return Failure(MissingAnnotationError(missing.value));
      }
      AllPresentAppend(hintedNames, hints.Keys, ReturnKey);
      var bad := CheckKinds(signature, isMethod, hintedNames);
      ValidateKinds(signature, hints, isMethod);
      if bad.Some? {
        return Failure(InvalidKindError(bad.value.name, bad.value.kind));
      }
      var paramsSchemas := MakeSchema(engine, func.name, "params", HintFields(hintedNames, hints));
      var returnSchemas := None;
      if hints[ReturnKey] != NoneType {
        returnSchemas := Some(MakeSchema(engine, func.name, "return", [(ReturnField, hints[ReturnKey])]));
      }
      var d := new Datafunction(func, isMethod, hints, signature, hintedNames, paramsSchemas, returnSchemas);
      ConstructWellFormed(engine, func.name, signature, hints, isMethod);
      return Success(d);
    }

    /** The signatures the binder handles (the receiver included). */
    predicate Bindable() {
      Binding.Bindable(signature)
    }

    /** What a call binds each parameter to, by the reference description of binding. */
    function BoundArguments(args: seq<Value>, kwargs: Kwargs): (m: Fields)
      ensures m.Keys == Binding.NamesBetween(signature, 0, |signature|)
      ensures forall j :: 0 <= j < |signature| ==> m[signature[j].name] == Binding.BoundValue(signature, args, kwargs, j)
    {
      var m := map j | 0 <= j < |signature| :: signature[j].name := Binding.BoundValue(signature, args, kwargs, j);
      forall j | 0 <= j < |signature| ensures signature[j].name in m && m[signature[j].name] == Binding.BoundValue(signature, args, kwargs, j) {
        assert forall j' :: 0 <= j' < |signature| && signature[j'].name == signature[j].name ==> j' == j;
      }
      m
    }

    /** `arguments_dicts`: bind the call, apply the defaults, and pick out the hinted
        names. A call binds exactly when it is acceptable, every parameter is then
        bound to what the reference description says, and every hinted name is
        present; a call that does not bind raises a TypeError that the call earns. */
    function ArgumentsDicts(args: seq<Value>, kwargs: Kwargs): (r: Result<(Fields, Fields), Error>)
      requires Valid() && Bindable()
      ensures r.Success? <==> Binding.Acceptable(signature, args, kwargs)
      ensures r.Failure? ==> exists e :: r.error == Binding.AsTypeError(e) && Binding.Justified(signature, args, kwargs, e)
      ensures r.Success? ==> r.value.1 == BoundArguments(args, kwargs)
      ensures r.Success? ==> r.value.0 == HintedArguments(args, kwargs)
      ensures r.Success? ==> forall k :: k in r.value.0 <==> k in hintedNames
    {
      Binding.BindSucceedsIff(signature, args, kwargs);
      match Binding.Bind(signature, args, kwargs)
      case Failure(e) =>
        Binding.BindErrorJustified(signature, args, kwargs);
        Failure(Binding.AsTypeError(e))
      case Success(all) =>
        BindIsReference(args, kwargs);
        HintedAreParameters();
        Success((Restrict(all, hintedNames), all))
    }

    /** The binder binds every parameter as the reference description says. */
    lemma BindIsReference(args: seq<Value>, kwargs: Kwargs)
      requires Bindable() && Binding.Bind(signature, args, kwargs).Success?
      ensures Binding.Bind(signature, args, kwargs).value == BoundArguments(args, kwargs)
    {
      Binding.BindValues(signature, args, kwargs);
      var m := Binding.Bind(signature, args, kwargs).value;
      var ref := BoundArguments(args, kwargs);
      forall k | k in m ensures m[k] == ref[k] {
        var j :| 0 <= j < |signature| && signature[j].name == k;
        assert m[signature[j].name] == ref[signature[j].name];
      }
    }

    /** The hinted part of what a call binds. */
    function HintedArguments(args: seq<Value>, kwargs: Kwargs): Fields {
      Restrict(BoundArguments(args, kwargs), hintedNames)
    }

    /** Every hinted name is a parameter name. */
    lemma HintedAreParameters()
      requires Valid()
      ensures forall k :: k in hintedNames ==> k in Binding.NamesBetween(signature, 0, |signature|)
    {
      forall k | k in hintedNames ensures k in Binding.NamesBetween(signature, 0, |signature|) {
        var i :| 0 <= i < |hintedNames| && hintedNames[i] == k;
        assert signature[i + Offset(isMethod)].name == k;
      }
    }

    /** `dump_arguments`: the dump of the hinted arguments; any exception, from the
        binding or from the dump, becomes an ArgumentError. A keyword `self` clashes
        with the method's own `self` before the `try` is entered. */
    function DumpArguments(args: seq<Value>, kwargs: Kwargs): (r: Result<Fields, Error>)
      requires Valid() && Bindable()
      ensures HasKey(kwargs, WrapperSelf) ==> r == Failure(SelfClash)
      ensures !HasKey(kwargs, WrapperSelf) && r.Failure? ==> r.error.ArgumentError?
    {
      if HasKey(kwargs, WrapperSelf) then Failure(SelfClash) else
      match ArgumentsDicts(args, kwargs)
      case Failure(e) => Failure(Translate(DumpArgumentsOp, e))
      case Success(dicts) =>
        match paramsSchemas.schemaInstance.dump(dicts.0)
        case Failure(e) => Failure(Translate(DumpArgumentsOp, e))
        case Success(raw) => Success(raw)
    }

    /** `load_arguments`: every bound argument, with each hinted one replaced by the
        field of the loaded record. A keyword `self` clashes with the method's own
        `self` before the `try` is entered. */
    function LoadArguments(args: seq<Value>, kwargs: Kwargs): (r: Result<Fields, Error>)
      requires Valid() && Bindable()
      ensures HasKey(kwargs, WrapperSelf) ==> r == Failure(SelfClash)
      ensures r.Success? ==> r.value.Keys == Binding.NamesBetween(signature, 0, |signature|)
    {
      if HasKey(kwargs, WrapperSelf) then Failure(SelfClash) else
      match ArgumentsDicts(args, kwargs)
      case Failure(e) => Failure(Translate(LoadArgumentsOp, e))
      case Success(dicts) =>
        match paramsSchemas.schemaInstance.load(dicts.0)
        case Failure(e) => Failure(Translate(LoadArgumentsOp, e))
        case Success(record) =>
          match FirstMissing(hintedNames, record.Keys)
          case Some(f) => Failure(NoAttributeError(paramsSchemas.dataclass, f))
          case None =>
            HintedAreParameters();
            Success(dicts.1 + Restrict(record, hintedNames))
    }

    /** `dump_result`: None without a return schema; otherwise the `_return`
        field of the dump of `{"_return": result}`. */
    function DumpResult(result: Value): (r: Result<Value, Error>)
      ensures returnSchemas.None? ==> r == Success(PyNone)
      ensures r.Failure? ==> r.error.ReturnError? || r.error == NoReturnKeyError
    {
      match returnSchemas
      case None => Success(PyNone)
      case Some(s) =>
        match s.schemaInstance.dump(map[ReturnField := result])
        case Failure(e) => Failure(Translate(DumpResultOp, e))
        case Success(data) =>
          if ReturnField in data then Success(data[ReturnField]) else Failure(NoReturnKeyError)
    }

    /** `load_result`: None without a return schema; otherwise the `_return`
        attribute of the record loaded from `{"_return": result}`. */
    function LoadResult(result: Value): (r: Result<Value, Error>)
      ensures returnSchemas.None? ==> r == Success(PyNone)
    {
      match returnSchemas
      case None => Success(PyNone)
      case Some(s) =>
        match s.schemaInstance.load(map[ReturnField := result])
        case Failure(e) => Failure(Translate(LoadResultOp, e))
        case Success(record) =>
          if ReturnField in record then Success(record[ReturnField])
          else Failure(NoAttributeError(s.dataclass, ReturnField))
    }

    /** `__call__`: load the arguments, call the function by keyword, dump its
        result. A keyword `self` clashes with `__call__`'s own `self`. */
    function Call(args: seq<Value>, kwargs: Kwargs): (r: Result<Value, Error>)
      requires Valid() && Bindable()
    {
      if HasKey(kwargs, WrapperSelf) then Failure(SelfClash) else
      match LoadArguments(args, kwargs)
      case Failure(e) => Failure(e)
      case Success(data) =>
        match func.body(data)
        case Failure(e) => Failure(e)
        case Success(v) => DumpResult(v)
    }

    // -------------------------------------------------------------------------
    // Properties of the conversions and of the call path

    /** The receiver of a method is not a hinted name. */
    lemma ReceiverNotHinted()
      requires Valid() && isMethod
      ensures |signature| > 0 && signature[0].name !in hintedNames
    {
      forall i | 0 <= i < |hintedNames| ensures hintedNames[i] != signature[0].name {
        assert hintedNames[i] == signature[i + 1].name;
      }
    }

    /** A keyword argument named `self` clashes with the wrappers' own `self`:
        `__call__`, `load_arguments` and `dump_arguments` all raise a plain TypeError,
        not an ArgumentError, whatever the rest of the call. */
    lemma SelfRefused(args: seq<Value>, kwargs: Kwargs)
      requires Valid() && Bindable() && HasKey(kwargs, WrapperSelf)
      ensures LoadArguments(args, kwargs) == Failure(SelfClash)
      ensures DumpArguments(args, kwargs) == Failure(SelfClash)
      ensures Call(args, kwargs) == Failure(SelfClash)
      ensures IsKind(SelfClash, TypeError) && !SelfClash.ArgumentError?
    {
    }

    /** A call that does not bind: unless it clashes on `self`, every conversion of
        the arguments raises an ArgumentError caused by the TypeError the binder
        reports. */
    lemma UnboundArguments(args: seq<Value>, kwargs: Kwargs)
      requires Valid() && Bindable()
      requires !Binding.Acceptable(signature, args, kwargs)
      ensures HasKey(kwargs, WrapperSelf) ==>
        && LoadArguments(args, kwargs) == Failure(SelfClash)
        && DumpArguments(args, kwargs) == Failure(SelfClash)
        && Call(args, kwargs) == Failure(SelfClash)
      ensures !HasKey(kwargs, WrapperSelf) ==> exists e :: (
        && Binding.Justified(signature, args, kwargs, e)
        && LoadArguments(args, kwargs) == Failure(ArgumentError(Binding.AsTypeError(e)))
        && DumpArguments(args, kwargs) == Failure(ArgumentError(Binding.AsTypeError(e)))
        && Call(args, kwargs) == Failure(ArgumentError(Binding.AsTypeError(e))))
    {
      if !HasKey(kwargs, WrapperSelf) {
        var r := ArgumentsDicts(args, kwargs);
        var e :| r.error == Binding.AsTypeError(e) && Binding.Justified(signature, args, kwargs, e);
        assert Translate(LoadArgumentsOp, r.error) == ArgumentError(Binding.AsTypeError(e));
      }
    }

    /** A required first parameter left out surfaces as an ArgumentError caused by
        `TypeError("missing a required argument: 'x'")`, unless the call clashes on
        `self`. */
    lemma MissingRequiredArgument(kwargs: Kwargs)
      requires Valid() && Bindable()
      requires |signature| > 0 && signature[0].default.None? && !HasKey(kwargs, signature[0].name)
      ensures HasKey(kwargs, WrapperSelf) ==>
        && LoadArguments([], kwargs) == Failure(SelfClash)
        && DumpArguments([], kwargs) == Failure(SelfClash)
        && Call([], kwargs) == Failure(SelfClash)
      ensures !HasKey(kwargs, WrapperSelf) ==>
        var e := ArgumentError(Exc(TypeError, "missing a required argument: '" + signature[0].name + "'"));
        && LoadArguments([], kwargs) == Failure(e)
        && DumpArguments([], kwargs) == Failure(e)
        && Call([], kwargs) == Failure(e)
    {
      Binding.MissingFirstArgument(signature, kwargs);
      var n := signature[0].name;
      assert Binding.Message(Binding.MissingArgument(n)) == "missing a required argument: '" + n + "'";
    }

    /** `dump_arguments` of a call that binds: unless it clashes on `self`, the dump
        of the hinted arguments, any exception of the dump becoming an ArgumentError
        that keeps it as its cause. */
    lemma DumpArgumentsBound(args: seq<Value>, kwargs: Kwargs)
      requires Valid() && Bindable() && Binding.Acceptable(signature, args, kwargs)
      ensures DumpArguments(args, kwargs) ==
        if HasKey(kwargs, WrapperSelf) then Failure(SelfClash) else
        match paramsSchemas.schemaInstance.dump(HintedArguments(args, kwargs))
        case Failure(e) => Failure(ArgumentError(e))
        case Success(raw) => Success(raw)
    {
    }

    /** `load_arguments` of a call that binds, when the load raises and the call does
        not clash on `self`: a TypeError or a ValidationError becomes an ArgumentError
        that keeps it as its cause; any other exception propagates unchanged. */
    lemma LoadArgumentsRaises(args: seq<Value>, kwargs: Kwargs, e: Error)
      requires Valid() && Bindable() && Binding.Acceptable(signature, args, kwargs)
      requires paramsSchemas.schemaInstance.load(HintedArguments(args, kwargs)) == Failure(e)
      ensures HasKey(kwargs, WrapperSelf) ==> LoadArguments(args, kwargs) == Failure(SelfClash)
      ensures !HasKey(kwargs, WrapperSelf) && (IsKind(e, TypeError) || IsKind(e, ValidationError)) ==>
        LoadArguments(args, kwargs) == Failure(ArgumentError(e))
      ensures !HasKey(kwargs, WrapperSelf) && !(IsKind(e, TypeError) || IsKind(e, ValidationError)) ==>
        LoadArguments(args, kwargs) == Failure(e)
    {
    }

    /** `load_arguments` of a call that binds, when the load returns a record and the
        call does not clash on `self`: exactly the bound names, each hinted one holding
        the record's field and the receiver its bound value. A record lacking a hinted
        field raises the AttributeError of `getattr`, which is not translated. */
    lemma LoadArgumentsLoads(args: seq<Value>, kwargs: Kwargs, record: Fields)
      requires Valid() && Bindable() && Binding.Acceptable(signature, args, kwargs)
      requires paramsSchemas.schemaInstance.load(HintedArguments(args, kwargs)) == Success(record)
      ensures HasKey(kwargs, WrapperSelf) ==> LoadArguments(args, kwargs) == Failure(SelfClash)
      ensures !HasKey(kwargs, WrapperSelf) ==>
        (LoadArguments(args, kwargs).Success? <==> forall k :: k in hintedNames ==> k in record)
      ensures !HasKey(kwargs, WrapperSelf) && LoadArguments(args, kwargs).Failure? ==>
        IsKind(LoadArguments(args, kwargs).error, AttributeError)
      ensures LoadArguments(args, kwargs).Success? ==>
        var data := LoadArguments(args, kwargs).value;
        && data.Keys == Binding.NamesBetween(signature, 0, |signature|)
        && (forall k :: k in hintedNames ==> k in record && data[k] == record[k])
        && (isMethod ==> data[signature[0].name] == Binding.BoundValue(signature, args, kwargs, 0))
    {
      var r := LoadArguments(args, kwargs);
      if r.Success? {
        assert r.value == BoundArguments(args, kwargs) + Restrict(record, hintedNames);
        Merged(args, kwargs, record);
      }
    }

    /** The bound arguments overridden by the record's hinted fields. */
    lemma Merged(args: seq<Value>, kwargs: Kwargs, record: Fields)
      requires Valid()
      requires forall k :: k in hintedNames ==> k in record
      ensures var data := BoundArguments(args, kwargs) + Restrict(record, hintedNames);
        && (forall k :: k in hintedNames ==> data[k] == record[k])
        && (isMethod ==> |signature| > 0 && data[signature[0].name] == Binding.BoundValue(signature, args, kwargs, 0))
    {
      if isMethod {
        ReceiverNotHinted();
      }
    }

    /** The method form passes the instance through unconverted: the function
        receives it as its receiver, which no schema sees. */
    lemma ReceiverPassesThrough(instance: Value, args: seq<Value>, kwargs: Kwargs)
      requires Valid() && Bindable() && isMethod
      requires LoadArguments([instance] + args, kwargs).Success?
      ensures signature[0].name !in hintedNames
      ensures var data := LoadArguments([instance] + args, kwargs).value;
        && data[signature[0].name] == instance
        && (!HasKey(kwargs, InstanceSelf) ==>
              BoundCall(instance, args, kwargs) ==
                (match func.body(data)
                 case Failure(e) => Failure(e)
                 case Success(v) => DumpResult(v)))
    {
      ReceiverNotHinted();
      var all := [instance] + args;
      var record := paramsSchemas.schemaInstance.load(HintedArguments(all, kwargs)).value;
      LoadArgumentsLoads(all, kwargs, record);
      assert Binding.BoundValue(signature, all, kwargs, 0) == instance;
    }

    /** The method form refuses a keyword argument named `instance_self` with a
        plain TypeError, whatever the wrapper would make of the call. */
    lemma InstanceSelfRefused(instance: Value, args: seq<Value>, kwargs: Kwargs)
      requires Valid() && Bindable() && HasKey(kwargs, InstanceSelf)
      ensures BoundCall(instance, args, kwargs).Failure?
      ensures var e := BoundCall(instance, args, kwargs).error;
        e == InstanceSelfClash && IsKind(e, TypeError) && !e.ArgumentError?
    {
    }

    /** Passing some positional arguments by keyword instead converts and calls the
        same: one spelling binds exactly when the other does, and then both give
        the same arguments, the same dumps and the same call, unless the respelling
        names `self`, which clashes with the wrappers' own. */
    lemma SpellingIndependent(args: seq<Value>, kwargs: Kwargs, k: nat)
      requires Valid() && Bindable()
      requires k <= |args| <= |signature|
      requires forall j :: 0 <= j < |args| ==> signature[j].kind == PositionalOrKeyword
      requires forall j :: k <= j < |args| ==> !HasKey(kwargs, signature[j].name)
      ensures var kw' := Binding.AsKeywords(signature, args, k) + kwargs;
        && (Binding.Acceptable(signature, args, kwargs) <==> Binding.Acceptable(signature, args[..k], kw'))
        && (HasKey(kw', WrapperSelf) <==>
              HasKey(kwargs, WrapperSelf) || WrapperSelf in Binding.NamesBetween(signature, k, |args|))
        && (HasKey(kw', WrapperSelf) ==>
              && LoadArguments(args[..k], kw') == Failure(SelfClash)
              && DumpArguments(args[..k], kw') == Failure(SelfClash)
              && Call(args[..k], kw') == Failure(SelfClash))
        && (Binding.Acceptable(signature, args, kwargs) && !HasKey(kw', WrapperSelf) ==>
              && LoadArguments(args, kwargs) == LoadArguments(args[..k], kw')
              && DumpArguments(args, kwargs) == DumpArguments(args[..k], kw')
              && Call(args, kwargs) == Call(args[..k], kw'))
    {
      var kw' := Binding.AsKeywords(signature, args, k) + kwargs;
      Binding.SpelledKeySet(signature, args, k, kwargs);
      if Binding.Acceptable(signature, args, kwargs) || Binding.Acceptable(signature, args[..k], kw') {
        SpelledDictsAgree(args, kwargs, k);
      } else {
        Binding.PositionalAsKeyword(signature, args, kwargs, k);
      }
    }

    /** The two spellings of a call that binds give the same `arguments_dicts`. */
    lemma SpelledDictsAgree(args: seq<Value>, kwargs: Kwargs, k: nat)
      requires Valid() && Bindable()
      requires k <= |args| <= |signature|
      requires forall j :: 0 <= j < |args| ==> signature[j].kind == PositionalOrKeyword
      requires forall j :: k <= j < |args| ==> !HasKey(kwargs, signature[j].name)
      ensures var kw' := Binding.AsKeywords(signature, args, k) + kwargs;
        && (Binding.Acceptable(signature, args, kwargs) <==> Binding.Acceptable(signature, args[..k], kw'))
        && (Binding.Acceptable(signature, args, kwargs) ==> ArgumentsDicts(args, kwargs) == ArgumentsDicts(args[..k], kw'))
    {
      var kw' := Binding.AsKeywords(signature, args, k) + kwargs;
      Binding.PositionalAsKeyword(signature, args, kwargs, k);
      Binding.BindSucceedsIff(signature, args, kwargs);
      Binding.BindSucceedsIff(signature, args[..k], kw');
      if Binding.Acceptable(signature, args, kwargs) {
        assert ArgumentsDicts(args, kwargs) == ArgumentsDicts(args[..k], kw');
      }
    }

    /** Without a return schema (the function returns None) both result conversions
        give None for every input without raising, and so does every call that
        loads its arguments and whose function returns. */
    lemma NoneReturn(args: seq<Value>, kwargs: Kwargs)
      requires Valid() && Bindable() && hints[ReturnKey] == NoneType
      ensures forall v :: DumpResult(v) == Success(PyNone) && LoadResult(v) == Success(PyNone)
      ensures LoadArguments(args, kwargs).Success? && func.body(LoadArguments(args, kwargs).value).Success? ==>
        Call(args, kwargs) == Success(PyNone)
    {
      assert returnSchemas.None?;
    }

    /** With a return schema, `dump_result` wraps the value as `{"_return": v}`; a
        failure of the dump, whatever its kind, becomes a ReturnError that keeps it as
        its cause, and a dump lacking `_return` raises an untranslated KeyError. */
    lemma DumpResultWraps(v: Value)
      requires Valid() && hints[ReturnKey] != NoneType
      ensures returnSchemas.Some? && returnSchemas.value.dataclass.fields == [(ReturnField, hints[ReturnKey])]
      ensures DumpResult(v) ==
        match returnSchemas.value.schemaInstance.dump(map[ReturnField := v])
        case Failure(e) => Failure(ReturnError(e))
        case Success(data) => if ReturnField in data then Success(data[ReturnField]) else Failure(NoReturnKeyError)
    {
    }

    /** With a return schema, `load_result` wraps the value as `{"_return": v}`; only
        a ValidationError of the load becomes a ReturnError, any other exception
        propagates unchanged. */
    lemma LoadResultWraps(v: Value)
      requires Valid() && hints[ReturnKey] != NoneType
      ensures returnSchemas.Some?
      ensures var s := returnSchemas.value;
        LoadResult(v) ==
        match s.schemaInstance.load(map[ReturnField := v])
        case Failure(e) => Failure(if IsKind(e, ValidationError) then ReturnError(e) else e)
        case Success(record) =>
          if ReturnField in record then Success(record[ReturnField]) else Failure(NoAttributeError(s.dataclass, ReturnField))
    {
    }

    /** `load_result(dump_result(v)) == v` for a result `v` at which the return
        schema's load undoes its dump. */
    lemma ResultRoundTrip(v: Value)
      requires Valid() && returnSchemas.Some? && RoundTripsAt(returnSchemas.value.schemaInstance, ReturnField, v)
      requires DumpResult(v).Success?
      ensures LoadResult(DumpResult(v).value) == Success(v)
    {
      var si := returnSchemas.value.schemaInstance;
      var data := si.dump(map[ReturnField := v]).value;
      assert si.load(map[ReturnField := data[ReturnField]]) == Success(map[ReturnField := v]);
    }

    /** How Python passes a loaded map back to the wrapper: a method's receiver by
        position, as a bound method's call does, and every hinted parameter by
        keyword. This is the positional part. */
    function ReceiverPart(data: Fields): (pos: seq<Value>)
      requires Valid()
      ensures |pos| == Offset(isMethod)
      ensures isMethod && signature[0].name in data ==> pos == [data[signature[0].name]]
    {
      Binding.ValuesOf(signature, data)[..Offset(isMethod)]
    }

    /** The keyword part of passing a loaded map back: the hinted parameters. */
    function HintedKeywords(data: Fields): Kwargs
      requires Valid()
    {
      Binding.KeywordCall(signature, data, Offset(isMethod))
    }

    /** The hinted names are exactly the parameter names after the receiver. */
    lemma HintedNamesAfterReceiver()
      requires Valid()
      ensures Binding.NamesBetween(signature, Offset(isMethod), |signature|) == (set n | n in hintedNames)
    {
      var off := Offset(isMethod);
      forall n | n in Binding.NamesBetween(signature, off, |signature|) ensures n in hintedNames {
        var j :| off <= j < |signature| && signature[j].name == n;
        assert hintedNames[j - off] == n;
      }
      forall n | n in hintedNames ensures n in Binding.NamesBetween(signature, off, |signature|) {
        var i :| 0 <= i < |hintedNames| && hintedNames[i] == n;
        assert signature[i + off].name == n;
      }
    }

    /** Passing a map of every parameter back, the receiver by position, binds each
        parameter to its value in the map, and names by keyword exactly the hinted
        parameters. */
    lemma ReceiverCallBindsData(data: Fields)
      requires Valid()
      requires isMethod ==> signature[0].kind == PositionalOrKeyword
      requires data.Keys == Binding.NamesBetween(signature, 0, |signature|)
      ensures KeySet(HintedKeywords(data)) == (set n | n in hintedNames)
      ensures Binding.Acceptable(signature, ReceiverPart(data), HintedKeywords(data))
      ensures BoundArguments(ReceiverPart(data), HintedKeywords(data)) == data
    {
      var pos := ReceiverPart(data);
      var kw := HintedKeywords(data);
      Binding.KeywordCallBinds(signature, data, Offset(isMethod));
      HintedNamesAfterReceiver();
      var b := BoundArguments(pos, kw);
      assert b.Keys == data.Keys;
      forall k | k in data ensures b[k] == data[k] {
        var j :| 0 <= j < |signature| && signature[j].name == k;
        assert b[signature[j].name] == Binding.BoundValue(signature, pos, kw, j);
      }
    }

    /** The argument round trip: when the parameter schema's dump undoes its load at
        the call's hinted arguments, passing what `load_arguments` returned back to
        `dump_arguments` (a method's receiver by position, the hinted parameters by
        keyword) gives the hinted arguments of the original call. A hinted parameter
        named `self` would clash with `dump_arguments`'s own instead. */
    lemma ArgumentsRoundTrip(args: seq<Value>, kwargs: Kwargs)
      requires Valid() && Bindable()
      requires isMethod ==> signature[0].kind == PositionalOrKeyword
      requires WrapperSelf !in hintedNames
      requires DumpUndoesLoadAt(paramsSchemas.schemaInstance, hintedNames, HintedArguments(args, kwargs))
      requires LoadArguments(args, kwargs).Success?
      ensures var data := LoadArguments(args, kwargs).value;
        DumpArguments(ReceiverPart(data), HintedKeywords(data)) == Success(HintedArguments(args, kwargs))
    {
      var data := LoadArguments(args, kwargs).value;
      var raw := HintedArguments(args, kwargs);
      LoadedArguments(args, kwargs);
      var record := paramsSchemas.schemaInstance.load(raw).value;
      var pos := ReceiverPart(data);
      var kw := HintedKeywords(data);
      ReceiverCallBindsData(data);
      assert !HasKey(kw, WrapperSelf);
      RestrictAgree(data, record, hintedNames);
      DumpArgumentsBound(pos, kw);
    }

    /** Passing a method's loaded arguments back all by keyword, as `f(**data)` does,
        clashes on `self` when that is the receiver's name: `dump_arguments` raises
        the plain TypeError instead of dumping. */
    lemma KeywordRoundTripClash(args: seq<Value>, kwargs: Kwargs)
      requires Valid() && Bindable()
      requires isMethod && signature[0].name == WrapperSelf
      requires LoadArguments(args, kwargs).Success?
      ensures DumpArguments([], Binding.KeywordCall(signature, LoadArguments(args, kwargs).value, 0)) == Failure(SelfClash)
    {
      var data := LoadArguments(args, kwargs).value;
      Binding.KeywordCallBinds(signature, data, 0);
      assert WrapperSelf in Binding.NamesBetween(signature, 0, |signature|);
    }

    /** What a successful `load_arguments` went through: the call binds, its hinted
        arguments hold exactly the hinted names and load, and the result agrees with
        the loaded record on every hinted name. */
    lemma LoadedArguments(args: seq<Value>, kwargs: Kwargs)
      requires Valid() && Bindable()
      requires LoadArguments(args, kwargs).Success?
      ensures Binding.Acceptable(signature, args, kwargs)
      ensures HintedArguments(args, kwargs).Keys == (set n | n in hintedNames)
      ensures paramsSchemas.schemaInstance.load(HintedArguments(args, kwargs)).Success?
      ensures var data := LoadArguments(args, kwargs).value;
        var record := paramsSchemas.schemaInstance.load(HintedArguments(args, kwargs)).value;
        && data.Keys == Binding.NamesBetween(signature, 0, |signature|)
        && forall k :: k in hintedNames ==> k in data && k in record && data[k] == record[k]
    {
      var record := paramsSchemas.schemaInstance.load(HintedArguments(args, kwargs)).value;
      LoadArgumentsLoads(args, kwargs, record);
      HintedAreParameters();
    }

    /** An exception raised by the function itself leaves the call untranslated. */
    lemma BodyErrorsPropagate(args: seq<Value>, kwargs: Kwargs, e: Error)
      requires Valid() && Bindable()
      requires LoadArguments(args, kwargs).Success? && func.body(LoadArguments(args, kwargs).value) == Failure(e)
      ensures Call(args, kwargs) == Failure(e)
    {
    }

    /** Where a failing call's exception comes from: the clash of a keyword `self`
        with `__call__`'s own, the loading of the arguments, the function itself
        (unchanged), or the dumping of its result. */
    lemma CallErrorOrigin(args: seq<Value>, kwargs: Kwargs)
      requires Valid() && Bindable()
      requires Call(args, kwargs).Failure?
      ensures var e := Call(args, kwargs).error;
        || (HasKey(kwargs, WrapperSelf) && e == SelfClash)
        || LoadArguments(args, kwargs) == Failure(e)
        || (LoadArguments(args, kwargs).Success? && func.body(LoadArguments(args, kwargs).value) == Failure(e))
        || (exists v :: (
              && LoadArguments(args, kwargs).Success? && func.body(LoadArguments(args, kwargs).value) == Success(v)
              && DumpResult(v) == Failure(e) && (e.ReturnError? || e == NoReturnKeyError)))
    {
    }

    /** `__get__(instance, owner)` then a call: the method it returns calls the
        wrapper with the instance in front of the positional arguments, unless the
        call also names the closure's own `instance_self`, which Python refuses
        before the wrapper runs. */
    function BoundCall(instance: Value, args: seq<Value>, kwargs: Kwargs): (r: Result<Value, Error>)
      requires Valid() && Bindable()
    {
      if HasKey(kwargs, InstanceSelf) then Failure(InstanceSelfClash)
      else Call([instance] + args, kwargs)
    }
  }
}
