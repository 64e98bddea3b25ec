/**
 * The concrete scenarios of the repository's tests: the decorated `Config`
 * class of `tests/test_experiment_tools.py`, and a worked base-plus-deltas
 * document over the same class.
 */
module ExperimentToolsTest {
  import opened Values
  import opened ConfigGen

  /** `param1: int`, `param2: int`, `param3: float = 2.0`, `param4: str = "oi"`. */
  function ConfigClass(): ClassDecl {
    ClassDecl(Some(["param1", "param2", "param3", "param4"]),
              map["param3" := VFloat(2.0), "param4" := VStr("oi")])
  }

  /** The test's `lambda x: 2 * x`, on the integer values it is given. */
  function Double(v: Value): Value {
    if v.VInt? then VInt(2 * v.i) else v
  }

  function ConfigParsers(): Parsers {
    map["param2" := Double]
  }

  function Config(p1: Value, p2: Value, p3: Value, p4: Value): Record {
    map["param1" := p1, "param2" := p2, "param3" := p3, "param4" := p4]
  }

  /** The schema the decorator derives from `ConfigClass`. */
  function ConfigSchema(): (s: Schema)
    ensures s.Valid()
  {
    Schema(["param1", "param2", "param3", "param4"], {"param1", "param2"},
           map["param3" := VFloat(2.0), "param4" := VStr("oi")])
  }

  /** The decorator splits the class into two required and two defaulted fields. */
  lemma ConfigClassSchema()
    ensures Classify(ConfigClass()) == Ok(ConfigSchema())
  {
    var r := Classify(ConfigClass());
    assert "param1" in r.value.required && "param2" in r.value.required;
    assert "param3" in r.value.defaults && "param4" in r.value.defaults;
    assert r.value.required == {"param1", "param2"};
    assert r.value.defaults == map["param3" := VFloat(2.0), "param4" := VStr("oi")];
  }

  /** The instance `ConfigBinds` names satisfies the binding conditions. */
  lemma ConfigIsBinding(d: Record, inst: Record)
    requires "param1" in d && "param2" in d
    requires inst == Config(d["param1"], Double(d["param2"]),
                            DefaultedValue(ConfigParsers(), "param3", VFloat(2.0), d),
                            DefaultedValue(ConfigParsers(), "param4", VStr("oi"), d))
    ensures IsBinding(ConfigSchema(), ConfigParsers(), d, inst)
  {
    var schema := ConfigSchema();
    assert inst.Keys == schema.required + schema.defaults.Keys;
    forall p | p in schema.required ensures p in d && inst[p] == Parse(ConfigParsers(), p, d[p]) {
      assert p == "param1" || p == "param2";
    }
    forall p | p in schema.defaults ensures inst[p] == DefaultedValue(ConfigParsers(), p, schema.defaults[p], d) {
      assert p == "param3" || p == "param4";
    }
  }

  /** Any record holding both required fields binds to its own `param1`,
      its doubled `param2`, and `param3`/`param4` or their defaults. */
  lemma ConfigBinds(d: Record)
    requires "param1" in d && "param2" in d
    ensures Bind(ConfigSchema(), ConfigParsers(), d) ==
            Some(Config(d["param1"], Double(d["param2"]),
                        DefaultedValue(ConfigParsers(), "param3", VFloat(2.0), d),
                        DefaultedValue(ConfigParsers(), "param4", VStr("oi"), d)))
  {
    var inst := Config(d["param1"], Double(d["param2"]),
                       DefaultedValue(ConfigParsers(), "param3", VFloat(2.0), d),
                       DefaultedValue(ConfigParsers(), "param4", VStr("oi"), d));
    ConfigIsBinding(d, inst);
    BindIsBinding(ConfigSchema(), ConfigParsers(), d);
    BindingUnique(ConfigSchema(), ConfigParsers(), d, inst, Bind(ConfigSchema(), ConfigParsers(), d).value);
  }

  /** `test_decorator`: `{param1: 5, param2: 1, param3: 5.5}` binds to
      `(5, 2, 5.5, "oi")`. */
  method TestDecorator() returns (cfg: Result<Record, ConfigError>)
    ensures cfg == Ok(Config(VInt(5), VInt(2), VFloat(5.5), VStr("oi")))
  {
    ConfigClassSchema();
    var schema := Classify(ConfigClass()).value;
    var record := map["param1" := VInt(5), "param2" := VInt(1), "param3" := VFloat(5.5)];
    ConfigBinds(record);
    cfg := FromDict(schema, ConfigParsers(), record);
  }

  function Base(): Record {
    map["param1" := VInt(1), "param2" := VInt(2), "param3" := VFloat(4.5)]
  }

  function Delta1(): Record {
    map["param2" := VInt(4), "param3" := VFloat(1.0)]
  }

  function Delta2(): Record {
    map["param1" := VInt(2), "param4" := VStr("hello world")]
  }

  /** The three instances of the base-plus-deltas scenario below. */
  lemma BaseBinding()
    ensures Bind(ConfigSchema(), ConfigParsers(), Base()) == Some(Config(VInt(1), VInt(4), VFloat(4.5), VStr("oi")))
  {
    ConfigBinds(Base());
  }

  lemma FirstDeltaBinding()
    ensures Bind(ConfigSchema(), ConfigParsers(), Merge(Base(), Delta1())) == Some(Config(VInt(1), VInt(8), VFloat(1.0), VStr("oi")))
  {
    var merged := Merge(Base(), Delta1());
    assert merged["param1"] == VInt(1) && merged["param2"] == VInt(4) && merged["param3"] == VFloat(1.0);
    assert "param4" !in merged;
    ConfigBinds(merged);
  }

  lemma SecondDeltaBinding()
    ensures Bind(ConfigSchema(), ConfigParsers(), Merge(Base(), Delta2())) == Some(Config(VInt(2), VInt(4), VFloat(4.5), VStr("hello world")))
  {
    var merged := Merge(Base(), Delta2());
    assert merged["param1"] == VInt(2) && merged["param2"] == VInt(2);
    assert merged["param3"] == VFloat(4.5) && merged["param4"] == VStr("hello world");
    ConfigBinds(merged);
  }

  function Document(): Record {
    map["base" := VMap(Base()), "deltas" := VList([VMap(Delta1()), VMap(Delta2())])]
  }

  function Expected(): seq<Record> {
    [Config(VInt(1), VInt(4), VFloat(4.5), VStr("oi")),
     Config(VInt(1), VInt(8), VFloat(1.0), VStr("oi")),
     Config(VInt(2), VInt(4), VFloat(4.5), VStr("hello world"))]
  }

  lemma DocumentParts()
    ensures BaseOf(Document()) == Ok(Base())
    ensures DeltasOf(Document()) == Ok([Delta1(), Delta2()])
  {
    var ds := DeltaRecords([VMap(Delta1()), VMap(Delta2())]);
    assert ds.Some? && ds.value[0] == Delta1() && ds.value[1] == Delta2();
    assert ds.value == [Delta1(), Delta2()];
  }

  lemma DeltaBindings(deltas: seq<Record>, e: seq<Record>)
    requires deltas == [Delta1(), Delta2()] && e == Expected()
    ensures forall i :: 0 <= i < |deltas| ==> Bind(ConfigSchema(), ConfigParsers(), Merge(Base(), deltas[i])) == Some(e[i + 1])
  {
    forall i | 0 <= i < |deltas|
      ensures Bind(ConfigSchema(), ConfigParsers(), Merge(Base(), deltas[i])) == Some(e[i + 1])
    {
      if i == 0 {
        FirstDeltaBinding();
      } else {
        SecondDeltaBinding();
      }
    }
  }

  lemma DocumentExpansion()
    ensures Expand(ConfigSchema(), ConfigParsers(), Base(), [Delta1(), Delta2()]) == Some(Expected())
  {
    BaseBinding();
    DeltaBindings([Delta1(), Delta2()], Expected());
    ExpandDetermined(ConfigSchema(), ConfigParsers(), Base(), [Delta1(), Delta2()], Expected());
  }

  /** Base `{param1: 1, param2: 2, param3: 4.5}` with deltas
      `{param2: 4, param3: 1.0}` and `{param1: 2, param4: "hello world"}`
      expands to `(1, 4, 4.5, "oi")`, `(1, 8, 1.0, "oi")` and
      `(2, 4, 4.5, "hello world")`. */
  method TestMultiConf() returns (cfgs: Result<seq<Record>, ConfigError>)
    ensures cfgs == Ok([Config(VInt(1), VInt(4), VFloat(4.5), VStr("oi")),
                        Config(VInt(1), VInt(8), VFloat(1.0), VStr("oi")),
                        Config(VInt(2), VInt(4), VFloat(4.5), VStr("hello world"))])
  {
    ConfigClassSchema();
    DocumentParts();
    DocumentExpansion();
    cfgs := FromMultiConf(ConfigSchema(), ConfigParsers(), Document());
  }
}
