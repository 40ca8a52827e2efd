/** The schema engine (marshmallow with marshmallow_dataclass) as the wrapper sees
    it. Field coercion is not modelled: given a synthesised record type, the engine
    supplies a load and a dump over field maps, each of which may raise. */
module Schemas {
  import opened Runtime

  /** The dataclass `__init__` synthesises: its class name and its annotations,
      in declaration order. */
  datatype RecordType = RecordType(name: string, fields: seq<(string, TypeHint)>)

  /** `marshmallow_dataclass.class_schema(datacls)` */
  datatype SchemaClass = SchemaClass(dataclass: RecordType)

  /** `schema()`: an instance of a schema class, with its `load` (raw dict to the
      attributes of a dataclass instance) and its `dump` (dict to raw dict). */
  datatype SchemaInstance = SchemaInstance(
    schemaClass: SchemaClass,
    load: Fields -> Result<Fields, Error>,
    dump: Fields -> Result<Fields, Error>)

  /** The `Schemas` named triple. */
  datatype Schemas = Schemas(dataclass: RecordType, schemaClass: SchemaClass, schemaInstance: SchemaInstance)

  /** The engine's behaviour for every record type. */
  datatype Engine = Engine(
    load: (RecordType, Fields) -> Result<Fields, Error>,
    dump: (RecordType, Fields) -> Result<Fields, Error>)

  /** The schema instance's load undoes its dump at the map `{field: v}`: if dumping
      it succeeds with `field` present, loading the dumped value of `field` gives
      `{field: v}` back. A value the schema coerces (a string it dumps as a number)
      does not meet this; a value already in the schema's own form does. */
  predicate RoundTripsAt(si: SchemaInstance, field: string, v: Value) {
    si.dump(map[field := v]).Success? && field in si.dump(map[field := v]).value ==>
      si.load(map[field := si.dump(map[field := v]).value[field]]) == Success(map[field := v])
  }

  /** `make_schema(label, annotations)` */
  function MakeSchema(engine: Engine, funcName: string, role: string, annotations: seq<(string, TypeHint)>): Schemas {
    var datacls := RecordType(funcName + "_" + role + "_schema", annotations);
    var cls := SchemaClass(datacls);
    Schemas(datacls, cls, SchemaInstance(cls, raw => engine.load(datacls, raw), data => engine.dump(datacls, data)))
  }

  /** The shape every triple `make_schema` builds has: the class is the schema of
      the dataclass and the instance is an instance of the class. */
  predicate Coherent(s: Schemas, name: string, annotations: seq<(string, TypeHint)>) {
    && s.dataclass == RecordType(name, annotations)
    && s.schemaClass == SchemaClass(s.dataclass)
    && s.schemaInstance.schemaClass == s.schemaClass
  }

  lemma MakeSchemaCoherent(engine: Engine, funcName: string, role: string, annotations: seq<(string, TypeHint)>)
    ensures var s := MakeSchema(engine, funcName, role, annotations);
      && Coherent(s, funcName + "_" + role + "_schema", annotations)
      && (forall raw :: s.schemaInstance.load(raw) == engine.load(s.dataclass, raw))
      && (forall data :: s.schemaInstance.dump(data) == engine.dump(s.dataclass, data))
  {
  }
}
