/** The fragment of the Python runtime that the datafunction wrapper works with:
    raw and structured values, exceptions, function parameters and function objects.
    Introspection (type-hint resolution, signature inspection) is not modelled: a
    function object carries its resolved hints and its parameter list directly. */
module Runtime {

  datatype Option<+T> = None | Some(value: T)

  datatype Result<+R, +E> = Success(value: R) | Failure(error: E)

  /** Python values, raw (JSON-like) or structured (an `Object` stands for any
      instance the schema engine builds, such as a datetime or a dataclass). */
  datatype Value =
    | PyNone
    | PyBool(b: bool)
    | PyInt(i: int)
    | PyStr(s: string)
    | PyList(items: seq<Value>)
    | PyDict(entries: map<string, Value>)
    | Object(id: nat)

  /** A mapping from field or parameter names to values: a dict, or the
      attributes of a dataclass instance. */
  type Fields = map<string, Value>

  /** The exception classes the core tells apart. */
  datatype ExcKind =
    | TypeError
    | ValueError
    | ValidationError
    | IndexError
    | KeyError
    | AttributeError
    | OtherError(className: string)

  /** A raised exception. `ArgumentError` and `ReturnError` are the two classes the
      wrapper defines; each keeps the exception it was raised from as its cause. */
  datatype Error =
    | Exc(kind: ExcKind, msg: string)
    | ArgumentError(cause: Error)
    | ReturnError(cause: Error)

  predicate IsKind(e: Error, k: ExcKind) {
    e.Exc? && e.kind == k
  }

  /** `inspect.Parameter.kind` */
  datatype ParamKind =
    | PositionalOnly
    | PositionalOrKeyword
    | VarPositional
    | KeywordOnly
    | VarKeyword

  /** `inspect.Parameter.kind.name` */
  function KindName(k: ParamKind): string {
    match k
    case PositionalOnly => "POSITIONAL_ONLY"
    case PositionalOrKeyword => "POSITIONAL_OR_KEYWORD"
    case VarPositional => "VAR_POSITIONAL"
    case KeywordOnly => "KEYWORD_ONLY"
    case VarKeyword => "VAR_KEYWORD"
  }

  /** The two kinds the wrapper accepts for a converted parameter. */
  predicate IsSimpleKind(k: ParamKind) {
    k == PositionalOrKeyword || k == KeywordOnly
  }

  /** A resolved type hint; `NoneType` is what `-> None` resolves to. */
  datatype TypeHint = NoneType | Hint(typeName: string)

  /** One entry of a signature: its name, kind and declared default, if any. */
  datatype Param = Param(name: string, kind: ParamKind, default: Option<Value>)

  function ParamNames(params: seq<Param>): (names: seq<string>)
    ensures |names| == |params|
    ensures forall i :: 0 <= i < |params| ==> names[i] == params[i].name
  {
    seq(|params|, i requires 0 <= i < |params| => params[i].name)
  }

  /** Python rejects a signature that declares one name twice. */
  predicate DistinctNames(params: seq<Param>) {
    forall i, j :: 0 <= i < j < |params| ==> params[i].name != params[j].name
  }

  type Signature = params: seq<Param> | DistinctNames(params) witness []

  /** Keyword arguments in the order they were passed. */
  type Kwargs = seq<(string, Value)>

  function KeySet(kwargs: Kwargs): set<string> {
    set m | 0 <= m < |kwargs| :: kwargs[m].0
  }

  predicate HasKey(kwargs: Kwargs, name: string) {
    name in KeySet(kwargs)
  }

  /** The value passed for `name` (the first one, should it appear twice). */
  function Lookup(kwargs: Kwargs, name: string): (v: Value)
    requires HasKey(kwargs, name)
    ensures exists m :: 0 <= m < |kwargs| && kwargs[m] == (name, v)
    decreases |kwargs|
  {
    if kwargs[0].0 == name then kwargs[0].1
    else
      assert HasKey(kwargs[1..], name) by {
        var m :| 0 <= m < |kwargs| && kwargs[m].0 == name;
        assert kwargs[1..][m - 1].0 == name;
      }
      var v := Lookup(kwargs[1..], name);
      var m :| 0 <= m < |kwargs[1..]| && kwargs[1..][m] == (name, v);
      assert kwargs[m + 1] == (name, v);
      v
  }

  /** `kwargs.pop(name)` with the value already read: the keyword arguments left over. */
  function Pop(kwargs: Kwargs, name: string): (rest: Kwargs)
    ensures KeySet(rest) == KeySet(kwargs) - {name}
    ensures forall n :: n != name && HasKey(kwargs, n) ==> HasKey(rest, n) && Lookup(rest, n) == Lookup(kwargs, n)
    decreases |kwargs|
  {
    if kwargs == [] then []
    else
      var tail := Pop(kwargs[1..], name);
      assert KeySet(kwargs) == {kwargs[0].0} + KeySet(kwargs[1..]) by {
        forall n | n in KeySet(kwargs) ensures n in {kwargs[0].0} + KeySet(kwargs[1..]) {
          var m :| 0 <= m < |kwargs| && kwargs[m].0 == n;
          if m > 0 { assert kwargs[1..][m - 1].0 == n; }
        }
        forall n | n in KeySet(kwargs[1..]) ensures n in KeySet(kwargs) {
          var m :| 0 <= m < |kwargs[1..]| && kwargs[1..][m].0 == n;
          assert kwargs[m + 1].0 == n;
        }
      }
      if kwargs[0].0 == name then tail
      else
        var rest := [kwargs[0]] + tail;
        assert KeySet(rest) == {kwargs[0].0} + KeySet(tail) by {
          forall n | n in KeySet(rest) ensures n in {kwargs[0].0} + KeySet(tail) {
            var m :| 0 <= m < |rest| && rest[m].0 == n;
            if m > 0 { assert tail[m - 1].0 == n; }
          }
          forall n | n in KeySet(tail) ensures n in KeySet(rest) {
            var m :| 0 <= m < |tail| && tail[m].0 == n;
            assert rest[m + 1].0 == n;
          }
          assert rest[0].0 == kwargs[0].0;
        }
        rest
  }

  /** A Python function object, compared by identity. Its resolved hints (what
      `typing.get_type_hints` returns, with the key "return" for the return hint)
      and its signature are taken as given. Calling it with keyword arguments
      either returns a value or raises. */
  class PyFunction {
    const name: string
    const params: Signature
    const hints: map<string, TypeHint>
    const body: Fields -> Result<Value, Error>

    constructor (name: string, params: Signature, hints: map<string, TypeHint>, body: Fields -> Result<Value, Error>)
      ensures this.name == name && this.params == params && this.hints == hints && this.body == body
    {
      this.name := name;
      this.params := params;
      this.hints := hints;
      this.body := body;
    }
  }
}
