/** Binding a call's positional and keyword arguments to a signature, as
    `inspect.Signature.bind` followed by `BoundArguments.apply_defaults` does it
    (the call-binding rules of section 6.3.4, "Calls", of the Python Language
    Reference), restricted to POSITIONAL_OR_KEYWORD and KEYWORD_ONLY parameters. */
module Binding {
  import opened Runtime

  /** The four ways binding fails; each is raised as a TypeError. */
  datatype BindError =
    | TooManyPositional
    | MultipleValues(name: string)
    | MissingArgument(name: string)
    | UnexpectedKeyword(name: string)

  /** `repr` of a parameter name. */
  function Quoted(name: string): string {
    "'" + name + "'"
  }

  /** The TypeError message `inspect` gives for each failure. */
  function Message(e: BindError): string {
    match e
    case TooManyPositional => "too many positional arguments"
    case MultipleValues(n) => "multiple values for argument " + Quoted(n)
    case MissingArgument(n) => "missing a required argument: " + Quoted(n)
    case UnexpectedKeyword(n) => "got an unexpected keyword argument " + Quoted(n)
  }

  function AsTypeError(e: BindError): Error {
    Exc(TypeError, Message(e))
  }

  /** The signatures this binder handles: no positional-only or variadic parameter. */
  predicate Bindable(params: seq<Param>) {
    forall i :: 0 <= i < |params| ==> IsSimpleKind(params[i].kind)
  }

  function NamesBetween(params: seq<Param>, lo: nat, hi: nat): set<string>
    requires lo <= hi <= |params|
  {
    set j | lo <= j < hi :: params[j].name
  }

  /** The names of the parameters from index `lo` on that a keyword argument binds. */
  function KeywordBound(params: seq<Param>, kwargs: Kwargs, lo: nat): set<string>
    requires lo <= |params|
  {
    set j | lo <= j < |params| && HasKey(kwargs, params[j].name) :: params[j].name
  }

  /** First phase of `Signature._bind`: walk the parameters and the positional
      arguments together. When the positional arguments run out, the parameter
      reached must be given by keyword or have a default. */
  function BindPositional(params: seq<Param>, args: seq<Value>, kwargs: Kwargs, i: nat, bound: Fields): Result<Fields, BindError>
    requires i <= |params| && i <= |args|
    decreases |params| - i
  {
    if i == |args| then
      if i < |params| && !HasKey(kwargs, params[i].name) && params[i].default.None? then
        Failure(MissingArgument(params[i].name))
      else
        BindKeywords(params, kwargs, i, bound)
    else if i == |params| || params[i].kind == KeywordOnly then
      Failure(TooManyPositional)
    else if HasKey(kwargs, params[i].name) then
      Failure(MultipleValues(params[i].name))
    else
      BindPositional(params, args, kwargs, i + 1, bound[params[i].name := args[i]])
  }

  /** Second phase: each remaining parameter pops its keyword argument or, lacking
      one, needs a default; a keyword argument left over is unexpected. */
  function BindKeywords(params: seq<Param>, kwargs: Kwargs, i: nat, bound: Fields): Result<Fields, BindError>
    requires i <= |params|
    decreases |params| - i
  {
    if i == |params| then
      if kwargs == [] then Success(bound) else Failure(UnexpectedKeyword(kwargs[0].0))
    else if HasKey(kwargs, params[i].name) then
      BindKeywords(params, Pop(kwargs, params[i].name), i + 1, bound[params[i].name := Lookup(kwargs, params[i].name)])
    else if params[i].default.None? then
      Failure(MissingArgument(params[i].name))
    else
      BindKeywords(params, kwargs, i + 1, bound)
  }

  /** `BoundArguments.apply_defaults`: every unbound parameter with a default gets it. */
  function ApplyDefaults(params: seq<Param>, i: nat, bound: Fields): Fields
    decreases |params| - i
  {
    if i >= |params| then bound
    else
      var p := params[i];
      ApplyDefaults(params, i + 1, if p.name !in bound && p.default.Some? then bound[p.name := p.default.value] else bound)
  }

  /** `signature.bind(*args, **kwargs)` then `apply_defaults()`: the `arguments` map. */
  function Bind(params: seq<Param>, args: seq<Value>, kwargs: Kwargs): Result<Fields, BindError>
    requires Bindable(params)
  {
    match BindPositional(params, args, kwargs, 0, map[])
    case Failure(e) => Failure(e)
    case Success(bound) => Success(ApplyDefaults(params, 0, bound))
  }

  // ---------------------------------------------------------------------------
  // Reference description of binding, independent of the two-phase algorithm

  /** When a call binds: the positional arguments fit positional-or-keyword
      parameters, every keyword names a parameter not already filled by position,
      and every parameter left over is given by keyword or has a default. */
  predicate Acceptable(params: seq<Param>, args: seq<Value>, kwargs: Kwargs) {
    && |args| <= |params|
    && (forall j :: 0 <= j < |args| ==> params[j].kind == PositionalOrKeyword)
    && KeySet(kwargs) <= NamesBetween(params, |args|, |params|)
    && (forall j :: |args| <= j < |params| ==> HasKey(kwargs, params[j].name) || params[j].default.Some?)
  }

  /** The value an acceptable call binds to parameter `j`. */
  function BoundValue(params: seq<Param>, args: seq<Value>, kwargs: Kwargs, j: nat): Value
    requires j < |params|
  {
    if j < |args| then args[j]
    else if HasKey(kwargs, params[j].name) then Lookup(kwargs, params[j].name)
    else match params[j].default
      case Some(v) => v
      case None => PyNone
  }

  /** What makes each binding error legitimate. */
  predicate Justified(params: seq<Param>, args: seq<Value>, kwargs: Kwargs, e: BindError) {
    match e
    case TooManyPositional =>
      |args| > |params| || exists j :: 0 <= j < |args| && j < |params| && params[j].kind == KeywordOnly
    case MultipleValues(n) =>
      HasKey(kwargs, n) && exists j :: 0 <= j < |args| && j < |params| && params[j].name == n
    case MissingArgument(n) =>
      !HasKey(kwargs, n) && exists j :: |args| <= j < |params| && params[j].name == n && params[j].default.None?
    case UnexpectedKeyword(n) =>
      HasKey(kwargs, n) && forall j :: 0 <= j < |params| ==> params[j].name != n
  }

  // ---------------------------------------------------------------------------
  // Set helpers

  lemma NamesBetweenSplit(params: seq<Param>, lo: nat, hi: nat)
    requires lo < hi <= |params|
    ensures NamesBetween(params, lo, hi) == {params[lo].name} + NamesBetween(params, lo + 1, hi)
  {
    var a := NamesBetween(params, lo, hi);
    var b := NamesBetween(params, lo + 1, hi);
    forall n | n in a ensures n in {params[lo].name} + b {
      var j :| lo <= j < hi && params[j].name == n;
      if j > lo { assert params[j].name in b; }
    }
  }

  /** In a signature without repeated names, a parameter's name is not among the
      names of a range of parameters that leaves it out. */
  lemma NotInNamesBetween(params: seq<Param>, j: nat, lo: nat, hi: nat)
    requires DistinctNames(params) && lo <= hi <= |params| && j < |params|
    requires j < lo || hi <= j
    ensures params[j].name !in NamesBetween(params, lo, hi)
  {
    assert forall j' :: lo <= j' < hi ==> params[j'].name != params[j].name;
  }

  lemma KeywordBoundSplit(params: seq<Param>, kwargs: Kwargs, lo: nat)
    requires lo < |params|
    ensures KeywordBound(params, kwargs, lo) ==
      (if HasKey(kwargs, params[lo].name) then {params[lo].name} else {}) + KeywordBound(params, kwargs, lo + 1)
  {
    var a := KeywordBound(params, kwargs, lo);
    var b := KeywordBound(params, kwargs, lo + 1);
    forall n | n in a ensures n in (if HasKey(kwargs, params[lo].name) then {params[lo].name} else {}) + b {
      var j :| lo <= j < |params| && HasKey(kwargs, params[j].name) && params[j].name == n;
      if j > lo { assert params[j].name in b; }
    }
  }

  lemma NotKeywordBound(params: seq<Param>, kwargs: Kwargs, lo: nat, j: nat)
    requires DistinctNames(params) && lo <= |params| && j < |params|
    requires !HasKey(kwargs, params[j].name)
    ensures params[j].name !in KeywordBound(params, kwargs, lo)
  {
    assert forall j' :: lo <= j' < |params| && HasKey(kwargs, params[j'].name) ==> params[j'].name != params[j].name;
  }

  /** Popping a keyword that no later parameter has does not change which later parameters keywords bind. */
  lemma KeywordBoundPop(params: seq<Param>, kwargs: Kwargs, lo: nat, name: string)
    requires lo <= |params|
    requires forall j :: lo <= j < |params| ==> params[j].name != name
    ensures KeywordBound(params, Pop(kwargs, name), lo) == KeywordBound(params, kwargs, lo)
  {
    var a := KeywordBound(params, Pop(kwargs, name), lo);
    var b := KeywordBound(params, kwargs, lo);
    forall n | n in a ensures n in b {
      var j :| lo <= j < |params| && HasKey(Pop(kwargs, name), params[j].name) && params[j].name == n;
      assert params[j].name in b;
    }
    forall n | n in b ensures n in a {
      var j :| lo <= j < |params| && HasKey(kwargs, params[j].name) && params[j].name == n;
      assert HasKey(Pop(kwargs, name), params[j].name);
      assert params[j].name in a;
    }
  }

  // ---------------------------------------------------------------------------
  // The keyword phase

  /** What the keyword phase needs from index `i` on. */
  predicate KeywordsFit(params: seq<Param>, kwargs: Kwargs, i: nat)
    requires i <= |params|
  {
    && KeySet(kwargs) <= NamesBetween(params, i, |params|)
    && forall j :: i <= j < |params| ==> HasKey(kwargs, params[j].name) || params[j].default.Some?
  }

  lemma {:induction false} BindKeywordsSucceeds(params: seq<Param>, kwargs: Kwargs, i: nat, bound: Fields)
    requires DistinctNames(params) && i <= |params|
    ensures BindKeywords(params, kwargs, i, bound).Success? <==> KeywordsFit(params, kwargs, i)
    decreases |params| - i
  {
    if i == |params| {
      if kwargs != [] {
        assert kwargs[0].0 in KeySet(kwargs);
      } else {
        assert KeySet(kwargs) == {};
      }
    } else {
      var p := params[i];
      NamesBetweenSplit(params, i, |params|);
      if HasKey(kwargs, p.name) {
        BindKeywordsSucceeds(params, Pop(kwargs, p.name), i + 1, bound[p.name := Lookup(kwargs, p.name)]);
        assert forall j :: i < j < |params| ==> params[j].name != p.name;
      } else if p.default.Some? {
        BindKeywordsSucceeds(params, kwargs, i + 1, bound);
      }
    }
  }

  lemma {:induction false} BindKeywordsValues(params: seq<Param>, kwargs: Kwargs, i: nat, bound: Fields)
    requires DistinctNames(params) && i <= |params|
    requires forall j :: i <= j < |params| ==> params[j].name !in bound
    requires BindKeywords(params, kwargs, i, bound).Success?
    ensures var m := BindKeywords(params, kwargs, i, bound).value;
      && m.Keys == bound.Keys + KeywordBound(params, kwargs, i)
      && (forall k :: k in bound ==> m[k] == bound[k])
      && (forall j :: i <= j < |params| && HasKey(kwargs, params[j].name) ==>
            m[params[j].name] == Lookup(kwargs, params[j].name))
    decreases |params| - i
  {
    if i < |params| {
      var p := params[i];
      KeywordBoundSplit(params, kwargs, i);
      assert forall j :: i < j < |params| ==> params[j].name != p.name;
      if HasKey(kwargs, p.name) {
        var kw' := Pop(kwargs, p.name);
        BindKeywordsValues(params, kw', i + 1, bound[p.name := Lookup(kwargs, p.name)]);
        KeywordBoundPop(params, kwargs, i + 1, p.name);
      } else {
        BindKeywordsValues(params, kwargs, i + 1, bound);
      }
    }
  }

  lemma {:induction false} BindKeywordsError(params: seq<Param>, kwargs: Kwargs, i: nat, bound: Fields)
    requires DistinctNames(params) && i <= |params|
    requires BindKeywords(params, kwargs, i, bound).Failure?
    ensures match BindKeywords(params, kwargs, i, bound).error
      case MissingArgument(n) =>
        !HasKey(kwargs, n) && exists j :: i <= j < |params| && params[j].name == n && params[j].default.None?
      case UnexpectedKeyword(n) =>
        HasKey(kwargs, n) && n !in NamesBetween(params, i, |params|)
      case _ => false
    decreases |params| - i
  {
    if i == |params| {
      assert kwargs[0].0 in KeySet(kwargs);
    } else {
      var p := params[i];
      NamesBetweenSplit(params, i, |params|);
      assert forall j :: i < j < |params| ==> params[j].name != p.name;
      if HasKey(kwargs, p.name) {
        var kw' := Pop(kwargs, p.name);
        BindKeywordsError(params, kw', i + 1, bound[p.name := Lookup(kwargs, p.name)]);
      } else if p.default.Some? {
        BindKeywordsError(params, kwargs, i + 1, bound);
      }
    }
  }

  // ---------------------------------------------------------------------------
  // The positional phase

  /** What the positional phase needs of the arguments from index `i` on. */
  predicate PositionalFit(params: seq<Param>, args: seq<Value>, kwargs: Kwargs, i: nat) {
    && |args| <= |params|
    && forall j :: i <= j < |args| ==> params[j].kind != KeywordOnly && !HasKey(kwargs, params[j].name)
  }

  lemma {:induction false} BindPositionalSucceeds(params: seq<Param>, args: seq<Value>, kwargs: Kwargs, i: nat, bound: Fields)
    requires DistinctNames(params) && i <= |params| && i <= |args|
    ensures BindPositional(params, args, kwargs, i, bound).Success? <==>
      PositionalFit(params, args, kwargs, i) && KeywordsFit(params, kwargs, |args|)
    decreases |params| - i
  {
    if i == |args| {
      BindKeywordsSucceeds(params, kwargs, i, bound);
    } else if i < |params| && params[i].kind != KeywordOnly && !HasKey(kwargs, params[i].name) {
      BindPositionalSucceeds(params, args, kwargs, i + 1, bound[params[i].name := args[i]]);
    }
  }

  lemma {:induction false} BindPositionalValues(params: seq<Param>, args: seq<Value>, kwargs: Kwargs, i: nat, bound: Fields)
    requires DistinctNames(params) && i <= |args| <= |params|
    requires forall j :: i <= j < |params| ==> params[j].name !in bound
    requires BindPositional(params, args, kwargs, i, bound).Success?
    ensures var m := BindPositional(params, args, kwargs, i, bound).value;
      && m.Keys == bound.Keys + NamesBetween(params, i, |args|) + KeywordBound(params, kwargs, |args|)
      && (forall k :: k in bound ==> m[k] == bound[k])
      && (forall j :: i <= j < |args| ==> m[params[j].name] == args[j])
      && (forall j :: |args| <= j < |params| && HasKey(kwargs, params[j].name) ==>
            m[params[j].name] == Lookup(kwargs, params[j].name))
    decreases |params| - i
  {
    if i == |args| {
      BindKeywordsValues(params, kwargs, i, bound);
    } else {
      var p := params[i];
      assert forall j :: i < j < |params| ==> params[j].name != p.name;
      BindPositionalValues(params, args, kwargs, i + 1, bound[p.name := args[i]]);
      NamesBetweenSplit(params, i, |args|);
    }
  }

  lemma {:induction false} BindPositionalError(params: seq<Param>, args: seq<Value>, kwargs: Kwargs, i: nat, bound: Fields)
    requires DistinctNames(params) && i <= |params| && i <= |args|
    requires BindPositional(params, args, kwargs, i, bound).Failure?
    ensures match BindPositional(params, args, kwargs, i, bound).error
      case TooManyPositional =>
        |args| > |params| || exists j :: i <= j < |args| && j < |params| && params[j].kind == KeywordOnly
      case MultipleValues(n) =>
        HasKey(kwargs, n) && exists j :: i <= j < |args| && j < |params| && params[j].name == n
      case MissingArgument(n) =>
        !HasKey(kwargs, n) && exists j :: |args| <= j < |params| && params[j].name == n && params[j].default.None?
      case UnexpectedKeyword(n) =>
        HasKey(kwargs, n) && n !in NamesBetween(params, i, |params|)
    decreases |params| - i
  {
    if i == |args| {
      if !(i < |params| && !HasKey(kwargs, params[i].name) && params[i].default.None?) {
        BindKeywordsError(params, kwargs, i, bound);
      }
    } else if i < |params| && params[i].kind != KeywordOnly && !HasKey(kwargs, params[i].name) {
      BindPositionalError(params, args, kwargs, i + 1, bound[params[i].name := args[i]]);
      NamesBetweenSplit(params, i, |params|);
    }
  }

  // ---------------------------------------------------------------------------
  // apply_defaults

  function DefaultNames(params: seq<Param>, lo: nat): set<string>
    requires lo <= |params|
  {
    set j | lo <= j < |params| && params[j].default.Some? :: params[j].name
  }

  lemma {:induction false} ApplyDefaultsKeys(params: seq<Param>, i: nat, bound: Fields)
    requires i <= |params|
    ensures ApplyDefaults(params, i, bound).Keys == bound.Keys + DefaultNames(params, i)
    decreases |params| - i
  {
    if i < |params| {
      var p := params[i];
      ApplyDefaultsKeys(params, i + 1, if p.name !in bound && p.default.Some? then bound[p.name := p.default.value] else bound);
      var a := DefaultNames(params, i);
      var b := DefaultNames(params, i + 1);
      assert a == b + (if p.default.Some? then {p.name} else {}) by {
        forall n | n in a ensures n in b + (if p.default.Some? then {p.name} else {}) {
          var j :| i <= j < |params| && params[j].default.Some? && params[j].name == n;
          if j > i { assert params[j].name in b; }
        }
      }
    }
  }

  lemma {:induction false} ApplyDefaultsValues(params: seq<Param>, i: nat, bound: Fields)
    requires DistinctNames(params) && i <= |params|
    ensures var r := ApplyDefaults(params, i, bound);
      && (forall k :: k in bound ==> k in r && r[k] == bound[k])
      && (forall j :: i <= j < |params| && params[j].name !in bound && params[j].default.Some? ==>
            params[j].name in r && r[params[j].name] == params[j].default.value)
    decreases |params| - i
  {
    if i < |params| {
      var p := params[i];
      var bound' := if p.name !in bound && p.default.Some? then bound[p.name := p.default.value] else bound;
      ApplyDefaultsValues(params, i + 1, bound');
      assert forall j :: i < j < |params| ==> params[j].name != p.name;
    }
  }

  // ---------------------------------------------------------------------------
  // Binding, characterised

  /** A call binds exactly when it is acceptable. */
  lemma BindSucceedsIff(params: seq<Param>, args: seq<Value>, kwargs: Kwargs)
    requires DistinctNames(params) && Bindable(params)
    ensures Bind(params, args, kwargs).Success? <==> Acceptable(params, args, kwargs)
  {
    BindPositionalSucceeds(params, args, kwargs, 0, map[]);
    if Acceptable(params, args, kwargs) {
      forall j | 0 <= j < |args| ensures !HasKey(kwargs, params[j].name) {
        NotInNamesBetween(params, j, |args|, |params|);
      }
    }
  }

  /** After a successful bind every parameter name is bound, to its positional
      argument, else its keyword argument, else its declared default, and nothing
      else is bound. */
  lemma BindValues(params: seq<Param>, args: seq<Value>, kwargs: Kwargs)
    requires DistinctNames(params) && Bindable(params)
    requires Bind(params, args, kwargs).Success?
    ensures var m := Bind(params, args, kwargs).value;
      && m.Keys == NamesBetween(params, 0, |params|)
      && forall j :: 0 <= j < |params| ==> m[params[j].name] == BoundValue(params, args, kwargs, j)
  {
    BindSucceedsIff(params, args, kwargs);
    BindPositionalSucceeds(params, args, kwargs, 0, map[]);
    BindPositionalValues(params, args, kwargs, 0, map[]);
    var bound := BindPositional(params, args, kwargs, 0, map[]).value;
    ApplyDefaultsKeys(params, 0, bound);
    ApplyDefaultsValues(params, 0, bound);
    var m := Bind(params, args, kwargs).value;
    assert m == ApplyDefaults(params, 0, bound);
    var all := NamesBetween(params, 0, |params|);
    forall n | n in m ensures n in all {
      if n in NamesBetween(params, 0, |args|) {
        var j :| 0 <= j < |args| && params[j].name == n;
        assert params[j].name in all;
      } else if n in KeywordBound(params, kwargs, |args|) {
        var j :| |args| <= j < |params| && HasKey(kwargs, params[j].name) && params[j].name == n;
        assert params[j].name in all;
      } else {
        var j :| 0 <= j < |params| && params[j].default.Some? && params[j].name == n;
        assert params[j].name in all;
      }
    }
    forall n | n in all ensures n in m {
      var j :| 0 <= j < |params| && params[j].name == n;
      if j < |args| {
        assert params[j].name in NamesBetween(params, 0, |args|);
      } else if HasKey(kwargs, n) {
        assert params[j].name in KeywordBound(params, kwargs, |args|);
      } else {
        assert params[j].name in DefaultNames(params, 0);
      }
    }
    forall j | 0 <= j < |params| ensures m[params[j].name] == BoundValue(params, args, kwargs, j) {
      var n := params[j].name;
      if j >= |args| && !HasKey(kwargs, n) {
        NotInNamesBetween(params, j, 0, |args|);
        NotKeywordBound(params, kwargs, |args|, j);
      }
    }
  }

  /** A failing bind reports an error that the call really commits. */
  lemma BindErrorJustified(params: seq<Param>, args: seq<Value>, kwargs: Kwargs)
    requires DistinctNames(params) && Bindable(params)
    requires Bind(params, args, kwargs).Failure?
    ensures Justified(params, args, kwargs, Bind(params, args, kwargs).error)
  {
    BindPositionalError(params, args, kwargs, 0, map[]);
  }

  /** A call that gives nothing for a leading parameter without a default fails
      naming that parameter. */
  lemma MissingFirstArgument(params: seq<Param>, kwargs: Kwargs)
    requires Bindable(params) && |params| > 0
    requires params[0].default.None? && !HasKey(kwargs, params[0].name)
    ensures Bind(params, [], kwargs) == Failure(MissingArgument(params[0].name))
  {
  }

  // ---------------------------------------------------------------------------
  // Positional and keyword spellings of one call

  /** Arguments `args[k..]` spelled as keywords for the parameters they fill. */
  function AsKeywords(params: seq<Param>, args: seq<Value>, k: nat): (kw: Kwargs)
    requires k <= |args| <= |params|
    ensures |kw| == |args| - k
    ensures forall m :: 0 <= m < |kw| ==> kw[m] == (params[k + m].name, args[k + m])
  {
    seq(|args| - k, m requires 0 <= m < |args| - k => (params[k + m].name, args[k + m]))
  }

  lemma SpelledKeySet(params: seq<Param>, args: seq<Value>, k: nat, kwargs: Kwargs)
    requires k <= |args| <= |params|
    ensures KeySet(AsKeywords(params, args, k) + kwargs) == NamesBetween(params, k, |args|) + KeySet(kwargs)
  {
    var sp := AsKeywords(params, args, k);
    var all := sp + kwargs;
    forall n | n in KeySet(all) ensures n in NamesBetween(params, k, |args|) + KeySet(kwargs) {
      var m :| 0 <= m < |all| && all[m].0 == n;
      if m < |sp| {
        assert params[k + m].name == n;
      } else {
        assert kwargs[m - |sp|].0 == n;
      }
    }
    forall n | n in NamesBetween(params, k, |args|) ensures n in KeySet(all) {
      var j :| k <= j < |args| && params[j].name == n;
      assert all[j - k].0 == n;
    }
    forall n | n in KeySet(kwargs) ensures n in KeySet(all) {
      var m :| 0 <= m < |kwargs| && kwargs[m].0 == n;
      assert all[|sp| + m].0 == n;
    }
  }

  lemma SpelledLookup(params: seq<Param>, args: seq<Value>, k: nat, kwargs: Kwargs, j: nat)
    requires DistinctNames(params) && k <= j < |args| <= |params|
    ensures HasKey(AsKeywords(params, args, k) + kwargs, params[j].name)
    ensures Lookup(AsKeywords(params, args, k) + kwargs, params[j].name) == args[j]
  {
    var all := AsKeywords(params, args, k) + kwargs;
    assert all[j - k] == (params[j].name, args[j]);
    LookupFirst(all, j - k);
  }

  lemma SpelledLookupOther(params: seq<Param>, args: seq<Value>, k: nat, kwargs: Kwargs, n: string)
    requires k <= |args| <= |params|
    requires HasKey(kwargs, n) && forall j :: k <= j < |args| ==> params[j].name != n
    ensures HasKey(AsKeywords(params, args, k) + kwargs, n)
    ensures Lookup(AsKeywords(params, args, k) + kwargs, n) == Lookup(kwargs, n)
  {
    LookupSkip(AsKeywords(params, args, k), kwargs, n);
  }

  /** Lookup finds an entry whose name no earlier entry has. */
  lemma {:induction false} LookupFirst(kw: Kwargs, m: nat)
    requires m < |kw|
    requires forall m' :: 0 <= m' < m ==> kw[m'].0 != kw[m].0
    ensures HasKey(kw, kw[m].0) && Lookup(kw, kw[m].0) == kw[m].1
  {
    assert kw[m].0 in KeySet(kw);
    if m > 0 {
      assert kw[1..][m - 1] == kw[m];
      LookupFirst(kw[1..], m - 1);
    }
  }

  /** Lookup passes over a prefix that does not have the name. */
  lemma {:induction false} LookupSkip(prefix: Kwargs, kw: Kwargs, n: string)
    requires HasKey(kw, n)
    requires forall m :: 0 <= m < |prefix| ==> prefix[m].0 != n
    ensures HasKey(prefix + kw, n) && Lookup(prefix + kw, n) == Lookup(kw, n)
  {
    var m :| 0 <= m < |kw| && kw[m].0 == n;
    assert (prefix + kw)[|prefix| + m].0 == n;
    if prefix != [] {
      var all := prefix + kw;
      assert all[1..] == prefix[1..] + kw;
      LookupSkip(prefix[1..], kw, n);
      assert all[0].0 != n;
      assert Lookup(all, n) == Lookup(all[1..], n);
    } else {
      assert prefix + kw == kw;
    }
  }

  /** Passing `args[k..]` by keyword instead of by position binds the same call:
      one spelling binds exactly when the other does, and to the same map. */
  lemma PositionalAsKeyword(params: seq<Param>, args: seq<Value>, kwargs: Kwargs, k: nat)
    requires DistinctNames(params) && Bindable(params)
    requires k <= |args| <= |params|
    requires forall j :: 0 <= j < |args| ==> params[j].kind == PositionalOrKeyword
    requires forall j :: k <= j < |args| ==> !HasKey(kwargs, params[j].name)
    ensures var kw' := AsKeywords(params, args, k) + kwargs;
      && (Bind(params, args, kwargs).Success? <==> Bind(params, args[..k], kw').Success?)
      && (Bind(params, args, kwargs).Success? ==> Bind(params, args, kwargs) == Bind(params, args[..k], kw'))
  {
    var kw' := AsKeywords(params, args, k) + kwargs;
    var short := args[..k];
    SpelledKeySet(params, args, k, kwargs);
    BindSucceedsIff(params, args, kwargs);
    BindSucceedsIff(params, short, kw');
    var mid := NamesBetween(params, k, |args|);
    var rest := NamesBetween(params, |args|, |params|);
    assert NamesBetween(params, k, |params|) == mid + rest by {
      forall n | n in NamesBetween(params, k, |params|) ensures n in mid + rest {
        var j :| k <= j < |params| && params[j].name == n;
        if j < |args| { assert params[j].name in mid; } else { assert params[j].name in rest; }
      }
    }
    forall n | n in KeySet(kwargs) ensures n !in mid {
      assert forall j :: k <= j < |args| ==> params[j].name != n;
    }
    forall j | k <= j < |args| ensures HasKey(kw', params[j].name) && Lookup(kw', params[j].name) == args[j] {
      SpelledLookup(params, args, k, kwargs, j);
    }
    forall j | |args| <= j < |params| && HasKey(kwargs, params[j].name)
      ensures HasKey(kw', params[j].name) && Lookup(kw', params[j].name) == Lookup(kwargs, params[j].name)
    {
      assert forall j' :: k <= j' < |args| ==> params[j'].name != params[j].name;
      SpelledLookupOther(params, args, k, kwargs, params[j].name);
    }
    forall j | |args| <= j < |params| && !HasKey(kwargs, params[j].name) ensures !HasKey(kw', params[j].name) {
      NotInNamesBetween(params, j, k, |args|);
    }
    if Bind(params, args, kwargs).Success? {
      BindValues(params, args, kwargs);
      BindValues(params, short, kw');
      var m1 := Bind(params, args, kwargs).value;
      var m2 := Bind(params, short, kw').value;
      forall n | n in m1 ensures m2[n] == m1[n] {
        var j :| 0 <= j < |params| && params[j].name == n;
        assert m1[params[j].name] == BoundValue(params, args, kwargs, j);
        assert m2[params[j].name] == BoundValue(params, short, kw', j);
      }
      assert m1 == m2;
    }
  }

  /** The value of every parameter in `data`, in signature order. */
  function ValuesOf(params: seq<Param>, data: Fields): (vals: seq<Value>)
    ensures |vals| == |params|
    ensures forall j :: 0 <= j < |params| && params[j].name in data ==> vals[j] == data[params[j].name]
  {
    seq(|params|, j requires 0 <= j < |params| => if params[j].name in data then data[params[j].name] else PyNone)
  }

  /** A map holding every parameter name passed back as a call: the first `k`
      parameters by position, the rest as keyword arguments in signature order
      (`f(**data)` when `k` is 0). This is the keyword part. */
  function KeywordCall(params: seq<Param>, data: Fields, k: nat): Kwargs
    requires k <= |params|
  {
    AsKeywords(params, ValuesOf(params, data), k)
  }

  /** Passing the first `k` parameters by position and the rest by keyword is
      acceptable when those `k` are positional-or-keyword. It names exactly the
      parameters from `k` on, and binds each parameter to its value in the map. */
  lemma KeywordCallBinds(params: seq<Param>, data: Fields, k: nat)
    requires DistinctNames(params) && k <= |params|
    requires forall j :: 0 <= j < k ==> params[j].kind == PositionalOrKeyword
    requires data.Keys == NamesBetween(params, 0, |params|)
    ensures var pos := ValuesOf(params, data)[..k];
      var kw := KeywordCall(params, data, k);
      && KeySet(kw) == NamesBetween(params, k, |params|)
      && Acceptable(params, pos, kw)
      && forall j :: 0 <= j < |params| ==> BoundValue(params, pos, kw, j) == data[params[j].name]
  {
    var vals := ValuesOf(params, data);
    var kw := KeywordCall(params, data, k);
    assert kw + [] == kw;
    SpelledKeySet(params, vals, k, []);
    forall j | k <= j < |params| ensures HasKey(kw, params[j].name) && Lookup(kw, params[j].name) == data[params[j].name] {
      SpelledLookup(params, vals, k, [], j);
    }
  }
}
