/** How a call to `datafunction(...)` is answered: the `lru_cache` around the class
    looks the call up by its arguments, and on a miss the metaclass hook either
    constructs a wrapper or returns the factory `partial(datafunction, is_method=...)`. */
module Decorator {
  import opened Runtime
  import opened Construction
  import opened Datafunctions
  import Schemas

  /** The arguments of one call to `datafunction`, as `lru_cache` keys them: the
      function, if one was passed, and `is_method`, if it was passed. Passing
      `is_method=False` explicitly is a different key from leaving it out. */
  datatype CallShape = CallShape(func: Option<PyFunction>, isMethod: Option<bool>)

  /** The `is_method` a call asks for (`False` when left out). */
  function IsMethodOf(shape: CallShape): bool {
    match shape.isMethod
    case Some(b) => b
    case None => false
  }

  /** What a call to `datafunction` returns: a wrapper, or the deferred factory. */
  datatype Decorated = Wrapper(wrapper: Datafunction) | Deferred(isMethod: bool)

  class DatafunctionCache {
    /** The schema engine every wrapper is built with. */
    const engine: Schemas.Engine
    /** The cached answers, by call. */
    var entries: map<CallShape, Decorated>

    /** `d` is a correct answer to the call `shape`: the factory for the asked
        `is_method` when no function was passed, and otherwise a well-formed wrapper
        of that function, with that `is_method`, built as `__init__` builds it. */
    ghost predicate Answers(shape: CallShape, d: Decorated) {
      match shape.func
      case None => d == Deferred(IsMethodOf(shape))
      case Some(f) =>
        && d.Wrapper? && d.wrapper.func == f && d.wrapper.isMethod == IsMethodOf(shape) && d.wrapper.Valid()
        && Construct(engine, f.name, f.params, f.hints, IsMethodOf(shape)) == Success(d.wrapper.State())
    }

    /** Every cached entry answers its call. */
    ghost predicate Valid()
      reads this
    {
      forall shape :: shape in entries ==> Answers(shape, entries[shape])
    }

    constructor (engine: Schemas.Engine)
      ensures this.engine == engine && entries == map[] && Valid()
    {
      this.engine := engine;
      entries := map[];
    }

    /** `_datafunction_meta.__call__`: construct a wrapper when a function is given,
        raising what `__init__` raises; otherwise return the deferred factory. */
    method Meta(shape: CallShape) returns (r: Result<Decorated, Error>)
      ensures r.Success? ==> Answers(shape, r.value)
      ensures r.Success? && r.value.Wrapper? ==> fresh(r.value.wrapper)
      ensures shape.func.None? ==> r.Success?
      ensures shape.func.Some? ==>
        var c := Construct(engine, shape.func.value.name, shape.func.value.params, shape.func.value.hints, IsMethodOf(shape));
        && (r.Success? <==> c.Success?)
        && (r.Failure? ==> r.error == c.error)
    {
      var isMethod := IsMethodOf(shape);
      if shape.func.Some? {
        var w := Datafunction.New(engine, shape.func.value, isMethod);
        if w.Failure? {
          return Failure(w.error);
        }
        return Success(Wrapper(w.value));
      }
      return Success(Deferred(isMethod));
    }

    /** `datafunction(...)` through `lru_cache`: a cached call is answered from the
        cache and changes nothing; otherwise the answer is computed and cached, unless
        computing it raised, in which case nothing is cached. */
    method Call(shape: CallShape) returns (r: Result<Decorated, Error>)
      requires Valid()
      modifies this
      ensures Valid()
      ensures r.Success? ==> Answers(shape, r.value)
      ensures shape in old(entries) ==> r == Success(old(entries)[shape]) && entries == old(entries)
      ensures shape !in old(entries) && r.Success? ==> entries == old(entries)[shape := r.value]
      ensures shape !in old(entries) && r.Success? && r.value.Wrapper? ==> fresh(r.value.wrapper)
      ensures r.Failure? ==> entries == old(entries)
      ensures shape.func.None? ==> r.Success?
      ensures shape.func.Some? ==>
        var c := Construct(engine, shape.func.value.name, shape.func.value.params, shape.func.value.hints, IsMethodOf(shape));
        && (r.Success? <==> c.Success?)
        && (r.Failure? ==> r.error == c.error)
    {
      if shape in entries {
        return Success(entries[shape]);
      }
      r := Meta(shape);
      if r.Success? {
        entries := entries[shape := r.value];
      }
    }

    /** Applying the factory to `f`: `partial(datafunction, is_method=b)(f)` calls
        `datafunction(f, is_method=b)`, through the cache again. */
    method ApplyDeferred(factory: Decorated, f: PyFunction) returns (r: Result<Decorated, Error>)
      requires Valid() && factory.Deferred?
      modifies this
      ensures Valid()
      ensures r.Success? ==> r.value.Wrapper? && r.value.wrapper.func == f && r.value.wrapper.isMethod == factory.isMethod
      ensures var c := Construct(engine, f.name, f.params, f.hints, factory.isMethod);
        && (r.Success? <==> c.Success?)
        && (r.Failure? ==> r.error == c.error)
        && (r.Success? ==> r.value.wrapper.State() == c.value)
      ensures var shape := CallShape(Some(f), Some(factory.isMethod));
        && (shape in old(entries) ==> r == Success(old(entries)[shape]) && entries == old(entries))
        && (shape !in old(entries) && r.Success? ==> entries == old(entries)[shape := r.value])
        && (r.Failure? ==> entries == old(entries))
    {
      r := Call(CallShape(Some(f), Some(factory.isMethod)));
    }

    /** `datafunction(is_method=b)(f)`: decorating through the factory wraps `f`
        with the asked `is_method`. */
    method DecorateDeferred(isMethod: bool, f: PyFunction) returns (r: Result<Decorated, Error>)
      requires Valid()
      modifies this
      ensures Valid()
      ensures r.Success? ==> r.value.Wrapper? && r.value.wrapper.func == f && r.value.wrapper.isMethod == isMethod
      ensures r.Success? <==> Construct(engine, f.name, f.params, f.hints, isMethod).Success?
      ensures r.Failure? ==> r.error == Construct(engine, f.name, f.params, f.hints, isMethod).error
      ensures var mid := old(entries)[CallShape(None, Some(isMethod)) := Deferred(isMethod)];
        var shape := CallShape(Some(f), Some(isMethod));
        && (shape in mid ==> r == Success(mid[shape]) && entries == mid)
        && (shape !in mid && r.Success? ==> entries == mid[shape := r.value])
        && (r.Failure? ==> entries == mid)
    {
      var fs := CallShape(None, Some(isMethod));
      ghost var mid := old(entries)[fs := Deferred(isMethod)];
      var factory := Call(fs);
      assert entries == mid by {
        if fs in old(entries) {
          assert Answers(fs, old(entries)[fs]);
        }
      }
      r := ApplyDeferred(factory.value, f);
    }

    /** Decorating the same function twice with the same call gives the identical
        wrapper. */
    method DecorateTwice(shape: CallShape) returns (first: Result<Decorated, Error>, second: Result<Decorated, Error>)
      requires Valid()
      modifies this
      ensures Valid()
      ensures first.Success? ==> second == first
      ensures first.Failure? ==> second.Failure? && second.error == first.error
      ensures shape in old(entries) ==> entries == old(entries)
      ensures shape !in old(entries) ==> entries == if first.Success? then old(entries)[shape := first.value] else old(entries)
    {
      first := Call(shape);
      second := Call(shape);
    }

    /** `datafunction(f)` and `datafunction(f, is_method=False)` are two cache keys:
        made fresh, they give two distinct wrappers of the same function. */
    method TwoShapes(f: PyFunction) returns (plain: Result<Decorated, Error>, explicit: Result<Decorated, Error>)
      requires Valid()
      requires CallShape(Some(f), None) !in entries && CallShape(Some(f), Some(false)) !in entries
      modifies this
      ensures Valid()
      ensures plain.Success? <==> explicit.Success?
      ensures plain.Success? ==>
        && plain.value.Wrapper? && explicit.value.Wrapper?
        && plain.value.wrapper != explicit.value.wrapper
        && plain.value.wrapper.State() == explicit.value.wrapper.State()
      ensures plain.Success? ==>
        entries == old(entries)[CallShape(Some(f), None) := plain.value][CallShape(Some(f), Some(false)) := explicit.value]
      ensures plain.Failure? ==> entries == old(entries)
    {
      plain := Call(CallShape(Some(f), None));
      explicit := Call(CallShape(Some(f), Some(false)));
    }
  }
}
