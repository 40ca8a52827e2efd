# datafunctions, modelled in Dafny

`datafunction` is a decorator. It wraps a Python function so that its arguments are
loaded through a schema built from the parameters' type hints. It dumps the
function's result through a schema built from the return hint. The model covers:

- **Construction** (`datafunction.__init__`):
  - the hinted names: the parameters, less the receiver of a method;
  - the check that every hinted name and the return slot are annotated;
  - the check that every hinted parameter is positional-or-keyword or keyword-only;
  - the parameter schema triple, and the return schema triple, which exists unless the return hint is `None`.
- **Argument binding** (`arguments_dicts`): `inspect.Signature.bind` and `apply_defaults`, restricted to the two simple parameter kinds, then the hinted subset.
- **The four conversions**: `dump_arguments`, `load_arguments`, `dump_result` and `load_result`, each with its own rule for which exceptions become an `ArgumentError` or `ReturnError` (keeping the original as cause) and which propagate unchanged.
- **The call path and the glue**:
  - `__call__` (load, call, dump);
  - the method form of `__get__` (the receiver goes first);
  - the metaclass hook, which returns a deferred factory when no function is given;
  - the `lru_cache` memo, keyed by call shape.

Modules, one file each:

- `Runtime` (runtime.dfy) holds the pieces of Python the wrapper works with:
  - values, and exceptions as a kind plus a message, with the two wrapper errors carrying their cause;
  - parameters (name, kind, default), and signatures, which are parameter lists with distinct names;
  - keyword arguments in call order;
  - function objects, as a class compared by identity. Each carries its resolved hints and signature and a body from keyword arguments to a value or an exception.
- `Binding` (binding.dfy) holds the binder of `inspect.Signature._bind`. It has two phases: a positional walk, then keyword matching. Python's messages are reproduced; `apply_defaults` follows. `Acceptable`, `BoundValue` and `Justified` describe binding independently of the algorithm, and lemmas tie the two together.
- `Schemas` (schemas.dfy) holds the `Schemas` triple. The schema engine is abstract: a load and a dump per synthesised record type, either of which may raise.
- `Construction` (construction.dfy) holds `__init__`'s validation as functions (`Validate`, `Construct`), its two loops as methods proved equal to them, and the characterisation of when and how construction fails.
- `Datafunctions` (datafunction.dfy) holds `class Datafunction`:
  - the seven fields `__init__` assigns;
  - `New`, the imperative `__init__`, proved to agree with `Construct`;
  - the conversions and the call path as member functions;
  - the properties of these as lemmas.
- `Decorator` (decorator.dfy) holds `class DatafunctionCache`:
  - the `lru_cache` (a map from call shape to answer);
  - the metaclass hook, and the deferred factory;
  - client methods for decorating twice, decorating through the factory, and the two distinct keys `datafunction(f)` and `datafunction(f, is_method=False)`.

Not every exception raised inside the wrapper comes out as an `ArgumentError` or a `ReturnError`:

- `load_arguments` translates only TypeError and ValidationError (datafunctions/datafunctions.py:95). Any other exception of the binder or the load propagates unchanged. This includes the AttributeError that `getattr` (line 91) raises for a field the loaded record lacks: that call sits inside the `try`, but the `except` does not name AttributeError.
- `load_result` translates only ValidationError (line 125). Its `._return` (line 128) sits outside the `try`, so a loaded record lacking `_return` raises a plain AttributeError.
- `dump_result` translates every exception of the dump (line 114). Its `result_data["_return"]` (line 117) sits outside the `try`, so a dump lacking `_return` raises a plain KeyError.
- An exception raised by the decorated function leaves `__call__` untranslated (line 66).
- `__call__`, `dump_arguments` and `load_arguments` are methods declared with their own `self` (lines 64, 76 and 83). A keyword argument named `self` therefore raises a plain TypeError for multiple values before any `try` is entered.

## Model

| member | source | states |
|---|---|---|
| Binding.BindSucceedsIff | datafunctions/datafunctions.py:99-100 | binding with defaults succeeds exactly when the call is acceptable. That means the positional arguments fit positional-or-keyword parameters, each keyword names a parameter not filled by position, and every remaining parameter has a keyword or a default |
| Binding.BindValues | datafunctions/datafunctions.py:99-101 | after a successful bind every parameter name is present, each bound to its positional argument, else its keyword argument, else its declared default |
| Binding.ApplyDefaultsValues | datafunctions/datafunctions.py:100 | `apply_defaults` keeps every bound value and fills each unbound parameter that has a default with that default |
| Binding.BindErrorJustified | datafunctions/datafunctions.py:99 | every binding TypeError is earned: too many positional arguments, a value given twice, a required parameter left out, or a keyword naming no parameter |
| Binding.PositionalAsKeyword | datafunctions/datafunctions.py:99-100 | passing trailing positional arguments by keyword binds exactly when the positional spelling does, and to the same map |
| Construction.HintedNames | datafunctions/datafunctions.py:37-39 | the hinted names are the parameter names in order, less the first for a method. Deleting from an empty list raises IndexError exactly when a method has no parameters |
| Construction.FirstMissing | datafunctions/datafunctions.py:41-43 | finds the first name without an annotation, or none exactly when all are annotated |
| Construction.FirstInvalidKind | datafunctions/datafunctions.py:45-51 | finds the first parameter of a refused kind, or none exactly when all are positional-or-keyword or keyword-only |
| Construction.Validate | datafunctions/datafunctions.py:37-51 | on success, validation returns the hinted names, all of them annotated, and the return slot is annotated too |
| Construction.CheckAnnotations | datafunctions/datafunctions.py:41-43 | the annotation loop with its early raise reports exactly the first unannotated name |
| Construction.CheckKinds | datafunctions/datafunctions.py:45-51 | the kind loop looks each hinted name up in the signature and reports exactly the first parameter after the receiver whose kind is refused |
| Construction.ConstructSucceedsIff | datafunctions/datafunctions.py:30-62 | construction succeeds exactly when a method has a receiver, every parameter after it is annotated and of an accepted kind, and the return is annotated |
| Construction.ConstructWellFormed | datafunctions/datafunctions.py:37-62 | a constructed wrapper satisfies `WellFormed`. That is: hinted names are the parameters after the receiver with accepted kinds; the parameter schema has one field per hinted name; a return schema with the single field `_return` exists exactly when the return hint is not None |
| Construction.ConstructFields | datafunctions/datafunctions.py:60 | the parameter schema of a constructed wrapper declares, in order, one field per parameter after the receiver, named like it and typed by its annotation |
| Construction.MissingAnnotationFirst | datafunctions/datafunctions.py:41-43 | annotations are checked before kinds: the first unannotated hinted parameter is reported as "Missing annotation for x", whatever the kinds |
| Construction.MissingReturnAnnotation | datafunctions/datafunctions.py:41-43 | with all parameters annotated, an unannotated return is reported as "Missing annotation for return" |
| Construction.InvalidKindReported | datafunctions/datafunctions.py:45-51 | with everything annotated, the first hinted parameter of a refused kind is reported with its name and kind name |
| Construction.ReceiverNotChecked | datafunctions/datafunctions.py:37-51 | a method's receiver is never kind-checked: changing its kind or default changes nothing about construction |
| Datafunctions.Datafunction.New | datafunctions/datafunctions.py:30-62 | `__init__` with its `del`, its two loops and early raises raises exactly what `Construct` reports; otherwise it builds a fresh, valid wrapper of the function whose fields are what `Construct` derives |
| Datafunctions.Datafunction.BoundArguments | datafunctions/datafunctions.py:99-101 | the reference binding: each parameter name is mapped to its positional argument, keyword argument or default |
| Datafunctions.Datafunction.ArgumentsDicts | datafunctions/datafunctions.py:98-106 | succeeds exactly on acceptable calls. Otherwise it raises an earned TypeError. On success, all arguments equal the reference binding and the hinted dict holds exactly the hinted names, so the hinted subset is total |
| Datafunctions.Datafunction.DumpArguments | datafunctions/datafunctions.py:76-81 | a keyword `self` raises the plain TypeError of the clash with the method's own `self`; apart from that, every failure of `dump_arguments` is an ArgumentError |
| Datafunctions.Datafunction.LoadArguments | datafunctions/datafunctions.py:83-96 | a keyword `self` raises the plain TypeError of the clash with the method's own `self`; a successful `load_arguments` returns exactly the parameter names |
| Datafunctions.Datafunction.DumpResult | datafunctions/datafunctions.py:108-118 | with no return schema the result is None; every failure is a ReturnError or the KeyError for a missing `_return` |
| Datafunctions.Datafunction.LoadResult | datafunctions/datafunctions.py:120-128 | with no return schema the result is None |
| Datafunctions.Datafunction.UnboundArguments | datafunctions/datafunctions.py:64-96 | a call that does not bind makes `load_arguments`, `dump_arguments` and `__call__` raise an ArgumentError caused by the binder's earned TypeError. The exception is a keyword `self`, for which all three raise the plain TypeError of the clash |
| Datafunctions.Datafunction.MissingRequiredArgument | datafunctions/datafunctions.py:64-96 | leaving out a required first parameter raises ArgumentError caused by TypeError "missing a required argument: 'x'", from loading, dumping and calling alike. A keyword `self` makes all three raise the plain TypeError of the clash instead |
| Datafunctions.Datafunction.DumpArgumentsBound | datafunctions/datafunctions.py:76-81 | for a call that binds, `dump_arguments` is the dump of the hinted arguments only, any dump exception becoming an ArgumentError with it as cause. A keyword `self` gives the plain TypeError of the clash instead |
| Datafunctions.Datafunction.LoadArgumentsRaises | datafunctions/datafunctions.py:83-96 | a TypeError or ValidationError of the load becomes an ArgumentError with it as cause; any other kind propagates unchanged. A keyword `self` gives the plain TypeError of the clash instead |
| Datafunctions.Datafunction.LoadArgumentsLoads | datafunctions/datafunctions.py:83-94 | after a successful load the result has exactly the bound keys. Each hinted key holds the record's field and the receiver keeps its bound value. Apart from a keyword `self` (the plain TypeError of the clash), a record lacking a hinted field gives an untranslated AttributeError, and that is the only failure |
| Datafunctions.Datafunction.LoadedArguments | datafunctions/datafunctions.py:83-96 | a successful `load_arguments` bound the call, loaded hinted arguments holding exactly the hinted names, and returned every parameter name, with each hinted one taken from the loaded record |
| Datafunctions.Datafunction.ArgumentsRoundTrip | datafunctions/datafunctions.py:76-106 | the argument round trip: passing what `load_arguments(*args, **kwargs)` returned back to `dump_arguments` gives the hinted arguments of the original call. A method's receiver is passed by position, as a bound method passes it, and the hinted parameters by keyword. Three hypotheses apply. The receiver must be positional-or-keyword. No hinted parameter may be named `self`, which would clash with `dump_arguments`'s own. The parameter schema's dump must undo its load at the raw arguments: ones the schema accepts in its own form meet this, coerced ones such as `"3"` for an integer do not |
| Datafunctions.Datafunction.KeywordRoundTripClash | datafunctions/datafunctions.py:76 | passing a method's loaded arguments back all by keyword gives a keyword `self` when that is the receiver's name, so `dump_arguments` raises the plain TypeError of the clash |
| Datafunctions.Datafunction.ReceiverCallBindsData | datafunctions/datafunctions.py:98-101 | passing a map of every parameter back, the receiver by position and the rest by keyword, binds every parameter to its value in the map, with exactly the hinted names as keywords |
| Datafunctions.Datafunction.SelfRefused | datafunctions/datafunctions.py:64-96 | `__call__`, `dump_arguments` and `load_arguments` have their own `self`, so a call that passes `self` by keyword raises a plain TypeError for multiple values from all three, not an ArgumentError |
| Datafunctions.Datafunction.ReceiverNotHinted | datafunctions/datafunctions.py:37-39 | a method's receiver is not among the hinted names |
| Datafunctions.Datafunction.ReceiverPassesThrough | datafunctions/datafunctions.py:69-74 | the method form binds the instance to the receiver, which no schema sees. Unless the call also names `instance_self`, it then calls the function with those arguments |
| Datafunctions.Datafunction.InstanceSelfRefused | datafunctions/datafunctions.py:69-74 | the closure `__get__` builds has its own parameter `instance_self`, so a method call that also passes `instance_self` by keyword raises a plain TypeError for multiple values, not an ArgumentError |
| Datafunctions.Datafunction.SpellingIndependent | datafunctions/datafunctions.py:64-106 | positional and keyword spellings of a call bind alike. The respelled call has a keyword `self` exactly when the original did or a respelled parameter is named `self`, and then all three entry points raise the plain TypeError of the clash. Otherwise both spellings give the same loaded arguments, the same dump and the same call result |
| Datafunctions.Datafunction.NoneReturn | datafunctions/datafunctions.py:108-128 | with a None return hint both result conversions return None for any input without raising, and so does every call whose loading and function succeed |
| Datafunctions.Datafunction.DumpResultWraps | datafunctions/datafunctions.py:108-118 | with a return schema (single field `_return`), `dump_result` dumps `{"_return": v}` and returns that field; any dump exception becomes a ReturnError with it as cause |
| Datafunctions.Datafunction.LoadResultWraps | datafunctions/datafunctions.py:120-128 | `load_result` loads `{"_return": v}` and returns that attribute; only a ValidationError becomes a ReturnError, anything else propagates |
| Datafunctions.Datafunction.ResultRoundTrip | datafunctions/datafunctions.py:108-128 | the result round trip `load_result(dump_result(x)) == x` whenever the dump succeeds. The only hypothesis is on `x` itself: loading the dumped `_return` value of `{"_return": x}` must give `{"_return": x}` back. A value already in the schema's form meets it; a coerced one does not |
| Datafunctions.Datafunction.BodyErrorsPropagate | datafunctions/datafunctions.py:64-67 | an exception raised by the decorated function leaves `__call__` unchanged |
| Datafunctions.Datafunction.CallErrorOrigin | datafunctions/datafunctions.py:64-67 | a failing call's exception has one of four origins: the clash of a keyword `self` with `__call__`'s own, loading the arguments, the function itself (unchanged), or dumping its result (a ReturnError or a KeyError) |
| Decorator.DatafunctionCache.Meta | datafunctions/datafunctions.py:20-25 | the metaclass hook constructs a wrapper when given a function, raising what `__init__` raises, and otherwise returns the factory for the asked `is_method` |
| Decorator.DatafunctionCache.Call | datafunctions/datafunctions.py:28 | a cached call answers from the cache and changes nothing. A miss computes the answer and caches it only if nothing was raised. Every cached entry stays a correct answer to its call |
| Decorator.DatafunctionCache.ApplyDeferred | datafunctions/datafunctions.py:25 | the factory applied to `f` decorates `f` with the factory's `is_method`, raising what construction raises. It goes through the cache under the key `(f, is_method=b)`: a cached wrapper is returned unchanged; otherwise a new one is added, and a failure leaves the cache as it was |
| Decorator.DatafunctionCache.DecorateDeferred | datafunctions/datafunctions.py:20-25 | `datafunction(is_method=b)(f)` wraps `f` with `is_method` b, and succeeds exactly when construction does, raising its error otherwise. Afterwards the cache holds the factory under `(is_method=b)`, and the wrapper under `(f, is_method=b)` unless construction failed; an entry already there is reused |
| Decorator.DatafunctionCache.DecorateTwice | datafunctions/datafunctions.py:28 | decorating the same function twice with the same call gives the identical wrapper, or the same error twice. The cache gains at most that one entry, and only on success |
| Decorator.DatafunctionCache.TwoShapes | datafunctions/datafunctions.py:28 | `datafunction(f)` and `datafunction(f, is_method=False)` are distinct keys: they give distinct wrappers with equal state, and the cache gains both entries |

## Left out

- Type-hint resolution (`typing.get_type_hints`) and signature inspection (`inspect.signature`) are not modelled: a function object carries its resolved hints and its parameter list as given.
- The schema engine's internals are not modelled: marshmallow, marshmallow_dataclass, and field coercion such as integer or datetime parsing. Each synthesised record type has an abstract load and dump that either return fields or raise a tagged exception.
- `make_schema` cannot fail in the model: `Construct` has no error path after validation. In Python, `dataclass` or `class_schema` can raise at decoration time for a hint the schema engine cannot handle.
- The dynamic class synthesis (`type(...)`, `dataclass`, `class_schema`) is not modelled: it becomes a record type with its name and ordered fields, and a schema class and instance tied to it.
- `functools.update_wrapper` and `functools.wraps` metadata copying is not modelled, because it does not affect any conversion.
- The descriptor mechanics of `__get__` are not modelled. This covers class access with no instance and bound-method objects; the model keeps only the prepending of the instance.
- The TypeError for a keyword argument named `instance_self` in a method call is modelled without the function-name prefix Python puts in front of its message. The same holds for a keyword `self` passed to `__call__`, `dump_arguments` or `load_arguments`.
- Decorator.DatafunctionCache.Call: cache keys compare function objects by identity, whereas `lru_cache` compares them by `==` and hash. The model therefore does not capture that equal but distinct callables share one entry, such as two bound-method objects `a.foo` made from the same instance and function; the model gives them separate entries and separate wrappers. For plain functions, which compare by identity, the two agree.
- `lru_cache` eviction at its default size of 128 is not modelled, nor its thread safety: the cache is an unbounded map.
- Calls passing `func` by keyword, or passing `None` for it explicitly, are not modelled. Their cache keys differ from the two shapes modelled.
- Datafunctions.Datafunction.ArgumentsDicts: requires every parameter, the receiver included, to be positional-or-keyword or keyword-only (`Bindable`), because the binder does not model positional-only or variadic parameters. Construction guarantees this only for the hinted parameters.
- Datafunctions.Datafunction.ArgumentsRoundTrip: a keyword-only receiver is not covered. Such a receiver cannot be passed by position, and Python cannot call such a method through a bound method either.
- Datafunctions.Datafunction.LoadArguments: the order of the returned dict is not modelled (results are maps).
- Binding.Bind: keyword arguments are a sequence; a name passed twice is looked up at its first occurrence. A Python call cannot pass one keyword twice.
- Exception classes are not modelled as a hierarchy: kinds are matched exactly, so a subclass of TypeError or of ValidationError is not treated as one. Exceptions outside `Exception`, such as `KeyboardInterrupt`, are not distinguished.
- Exception messages reproduce the repository's own messages and `inspect`'s binding messages. `repr` of a name is taken to be the name in single quotes.
- datafunctions/__init__.py is not part of this model: it only re-exports names.
