/**
 * The configuration binder of `nils_utils/experiment_tools/config_gen.py`:
 * the schema the `load_from_yaml` decorator derives from a class, the
 * per-field custom parsing, `from_dict`, and the base-plus-deltas expansion
 * of `from_multi_conf_yaml_file` (taking the already decoded YAML map).
 */
module ConfigGen {
  import opened Values

  /** What the decorator reads from a class: the `__annotations__` entry of
      its `__dict__`, if there is one, as the annotated field names in
      declaration order, and the values bound at class level (the class
      `__dict__`, which may hold other names too). */
  datatype ClassDecl = ClassDecl(annotations: Option<seq<string>>, attrs: map<string, Value>)

  /** The field partition computed once per decorated class. */
  datatype Schema = Schema(fields: seq<string>, required: set<string>, defaults: map<string, Value>) {

    function FieldSet(): set<string> {
      set k | k in fields
    }

    /** Required and defaulted names split the annotated names. */
    predicate Valid() {
      && required !! defaults.Keys
      && required + defaults.Keys == FieldSet()
    }
  }

  datatype ConfigError =
    | NoAnnotations          // the class's `__dict__` has no `__annotations__` entry
    | MissingKey(key: string) // a required field, or `base`, is absent
    | NotAMapping(key: string) // `base` or a `deltas` entry is not a mapping
    | NotAList(key: string)    // `deltas` is not a list

  /** Per-field parse functions, keyed by field name (`custom_parse`). */
  type Parsers = map<string, Value -> Value>

  /** The field partition of the decorator: a field is required exactly when
      the class binds no value to it, and a defaulted field's default is that
      class-level value. A class whose `__dict__` has no `__annotations__`
      entry fails the lookup; an empty entry gives an empty partition. */
  function Classify(decl: ClassDecl): (r: Result<Schema, ConfigError>)
    ensures r.Err? <==> decl.annotations.None?
    ensures r.Err? ==> r.error == NoAnnotations
    ensures r.Ok? ==> r.value.Valid() && r.value.fields == decl.annotations.value
    ensures r.Ok? ==> forall k :: k in r.value.required <==> k in decl.annotations.value && k !in decl.attrs
    ensures r.Ok? ==> forall k :: k in r.value.defaults <==> k in decl.annotations.value && k in decl.attrs
    ensures r.Ok? ==> forall k :: k in r.value.defaults ==> r.value.defaults[k] == decl.attrs[k]
  {
    match decl.annotations
    case None => Err(NoAnnotations)
    case Some(names) =>
      Ok(Schema(names,
                set k | k in names && k !in decl.attrs,
                map k | k in names && k in decl.attrs :: decl.attrs[k]))
  }

  /** `_parse`: the registered parser of field `k`, if any, applied to `v`. */
  function Parse(parsers: Parsers, k: string, v: Value): (r: Value)
    ensures k in parsers ==> r == parsers[k](v)
    ensures k !in parsers ==> r == v
  {
    if k in parsers then parsers[k](v) else v
  }

  /** Parsing a field consults that field's own parser and no other; with no
      parser registered the raw value passes through unchanged. */
  lemma ParseIsLocal(parsers: Parsers, parsers': Parsers, k: string, v: Value)
    requires k in parsers <==> k in parsers'
    requires k in parsers ==> parsers[k] == parsers'[k]
    ensures Parse(parsers, k, v) == Parse(parsers', k, v)
    ensures k !in parsers ==> Parse(parsers, k, v) == v
  {
  }

  /** The value a defaulted field takes: its default, unparsed, when the key
      is absent or holds `None`; the parsed record value otherwise. */
  function DefaultedValue(parsers: Parsers, p: string, default: Value, d: Record): (r: Value)
    ensures p !in d || d[p] == VNull ==> r == default
    ensures p in d && d[p] != VNull ==> r == Parse(parsers, p, d[p])
  {
    if p !in d || d[p] == VNull then default else Parse(parsers, p, d[p])
  }

  /** `inst` is what `from_dict` builds from `d`: exactly the schema's fields;
      each required field present in `d` and parsed; each defaulted field per
      `DefaultedValue`. */
  ghost predicate IsBinding(schema: Schema, parsers: Parsers, d: Record, inst: Record) {
    && inst.Keys == schema.required + schema.defaults.Keys
    && (forall p :: p in schema.required ==> p in d && inst[p] == Parse(parsers, p, d[p]))
    && (forall p :: p in schema.defaults ==> inst[p] == DefaultedValue(parsers, p, schema.defaults[p], d))
  }

  /** At most one instance is a binding of a given record. */
  lemma BindingUnique(schema: Schema, parsers: Parsers, d: Record, a: Record, b: Record)
    requires schema.Valid()
    requires IsBinding(schema, parsers, d, a) && IsBinding(schema, parsers, d, b)
    ensures a == b
  {
    forall p | p in a ensures a[p] == b[p] {
      if p in schema.required {
      } else {
        assert p in schema.defaults;
      }
    }
  }

  /** The value field `p` takes in the binding of `d`. */
  function FieldValue(schema: Schema, parsers: Parsers, d: Record, p: string): Value
    requires p in schema.required || p in schema.defaults
    requires p in schema.required ==> p in d
  {
    if p in schema.required then Parse(parsers, p, d[p])
    else DefaultedValue(parsers, p, schema.defaults[p], d)
  }

  /** The instance fields named in `names`, each with its bound value. */
  function BindFields(schema: Schema, parsers: Parsers, d: Record, names: seq<string>): (r: Record)
    requires schema.required <= d.Keys
    requires forall j :: 0 <= j < |names| ==> names[j] in schema.required || names[j] in schema.defaults
    ensures forall p :: p in r <==> p in names
    ensures forall p :: p in r ==> r[p] == FieldValue(schema, parsers, d, p)
    decreases |names|
  {
    if names == [] then
      map[]
    else
      var n := |names| - 1;
      BindFields(schema, parsers, d, names[..n])[names[n] := FieldValue(schema, parsers, d, names[n])]
  }

  /** The binding of `d`, as a value: present exactly when every required
      field is a key of `d`. */
  function Bind(schema: Schema, parsers: Parsers, d: Record): (r: Option<Record>)
    requires schema.Valid()
    ensures r.Some? <==> schema.required <= d.Keys
  {
    if schema.required <= d.Keys then
      assert forall j :: 0 <= j < |schema.fields| ==> schema.fields[j] in schema.FieldSet();
      Some(BindFields(schema, parsers, d, schema.fields))
    else
      None
  }

  /** `Bind` builds exactly what `from_dict` is meant to build. */
  lemma BindIsBinding(schema: Schema, parsers: Parsers, d: Record)
    requires schema.Valid() && schema.required <= d.Keys
    ensures IsBinding(schema, parsers, d, Bind(schema, parsers, d).value)
  {
  }

  /** The first loop of `from_dict`: every required field, taken from `d`
      and parsed, in the arbitrary order of a Python set. A missing required
      key aborts with that key. */
  method FillRequired(schema: Schema, parsers: Parsers, d: Record) returns (r: Result<Record, ConfigError>)
    ensures r.Ok? <==> schema.required <= d.Keys
    ensures r.Ok? ==> r.value.Keys == schema.required
    ensures r.Ok? ==> forall p :: p in schema.required ==> p in d && r.value[p] == Parse(parsers, p, d[p])
    ensures r.Err? ==> r.error.MissingKey? && r.error.key in schema.required && r.error.key !in d
  {
    var instance: Record := map[];
    var pending := schema.required;
    while pending != {}
      invariant pending <= schema.required
      invariant instance.Keys == schema.required - pending
      invariant forall p :: p in instance ==> p in d && instance[p] == Parse(parsers, p, d[p])
      decreases pending
    {
      var p :| p in pending;
      if p !in d {
        return Err(MissingKey(p));
      }
      instance := instance[p := Parse(parsers, p, d[p])];
      pending := pending - {p};
    }
    r := Ok(instance);
  }

  /** The second loop of `from_dict`: every defaulted field, from `d` and
      parsed unless absent or `None`, in which case the default is kept. */
  method FillDefaults(schema: Schema, parsers: Parsers, d: Record, required: Record) returns (instance: Record)
    requires required.Keys == schema.required && schema.required !! schema.defaults.Keys
    requires forall p :: p in schema.required ==> p in d && required[p] == Parse(parsers, p, d[p])
    ensures IsBinding(schema, parsers, d, instance)
  {
    instance := required;
    var pending := schema.defaults.Keys;
    while pending != {}
      invariant pending <= schema.defaults.Keys
      invariant instance.Keys == schema.required + (schema.defaults.Keys - pending)
      invariant forall p :: p in schema.required ==> instance[p] == required[p]
      invariant forall p :: p in schema.defaults && p !in pending ==>
                  instance[p] == DefaultedValue(parsers, p, schema.defaults[p], d)
      decreases pending
    {
      var p :| p in pending;
      var v := if p in d then d[p] else VNull;
      if v == VNull {
        v := schema.defaults[p];
      } else {
        v := Parse(parsers, p, v);
      }
      instance := instance[p := v];
      pending := pending - {p};
    }
  }

  /** `from_dict`: fills a fresh instance field by field, required fields
      first, then the defaulted ones. */
  method FromDict(schema: Schema, parsers: Parsers, d: Record) returns (r: Result<Record, ConfigError>)
    requires schema.Valid()
    ensures r.Ok? <==> schema.required <= d.Keys
    ensures r.Ok? ==> IsBinding(schema, parsers, d, r.value)
    ensures r.Ok? ==> Bind(schema, parsers, d) == Some(r.value)
    ensures r.Err? ==> r.error.MissingKey? && r.error.key in schema.required && r.error.key !in d
  {
    var required := FillRequired(schema, parsers, d);
    if required.Err? {
      return required;
    }
    var instance := FillDefaults(schema, parsers, d, required.value);
    BindIsBinding(schema, parsers, d);
    BindingUnique(schema, parsers, d, instance, Bind(schema, parsers, d).value);
    r := Ok(instance);
  }

  /** Record keys that are not fields have no effect on the binding. */
  lemma UnknownKeysIgnored(schema: Schema, parsers: Parsers, d: Record)
    requires schema.Valid()
    ensures Bind(schema, parsers, d) == Bind(schema, parsers, map k | k in d && k in schema.FieldSet() :: d[k])
  {
    var fieldsOnly := map k | k in d && k in schema.FieldSet() :: d[k];
    assert schema.required <= d.Keys <==> schema.required <= fieldsOnly.Keys;
    if schema.required <= d.Keys {
      var a := Bind(schema, parsers, d).value;
      var b := Bind(schema, parsers, fieldsOnly).value;
      assert IsBinding(schema, parsers, d, b) by {
        forall p | p in schema.defaults
          ensures b[p] == DefaultedValue(parsers, p, schema.defaults[p], d)
        {
          assert p in schema.FieldSet();
        }
      }
      BindingUnique(schema, parsers, d, a, b);
    }
  }

  /** With no parser on any field, binding is a round trip: binding a bound
      instance again gives the same instance. */
  lemma BindRoundTrip(schema: Schema, parsers: Parsers, d: Record)
    requires schema.Valid() && schema.required <= d.Keys
    requires forall p :: p in schema.FieldSet() ==> p !in parsers
    ensures Bind(schema, parsers, Bind(schema, parsers, d).value) == Bind(schema, parsers, d)
  {
    var inst := Bind(schema, parsers, d).value;
    BindIsBinding(schema, parsers, d);
    assert schema.required <= inst.Keys;
    BindIsBinding(schema, parsers, inst);
    assert IsBinding(schema, parsers, inst, inst) by {
      forall p | p in schema.required ensures p in inst && inst[p] == Parse(parsers, p, inst[p]) {
        assert p in schema.FieldSet();
      }
      forall p | p in schema.defaults
        ensures inst[p] == DefaultedValue(parsers, p, schema.defaults[p], inst)
      {
        assert p in schema.FieldSet();
        if p in d && d[p] != VNull {
          assert inst[p] == d[p];
        }
      }
    }
    BindingUnique(schema, parsers, inst, inst, Bind(schema, parsers, inst).value);
  }

  /** `delta_dict.update(delta)` on a copy of `base`: delta keys win, other
      base keys are kept. */
  function Merge(base: Record, delta: Record): (r: Record)
    ensures r.Keys == base.Keys + delta.Keys
    ensures forall k :: k in delta ==> r[k] == delta[k]
    ensures forall k :: k in base && k !in delta ==> r[k] == base[k]
  {
    base + delta
  }

  /** The instances appended for `deltas`, in order, each bound from its own
      merge with `base`. */
  function ExpandDeltas(schema: Schema, parsers: Parsers, base: Record, deltas: seq<Record>): (r: seq<Record>)
    requires schema.Valid() && schema.required <= base.Keys
    ensures |r| == |deltas|
    ensures forall i :: 0 <= i < |deltas| ==> Bind(schema, parsers, Merge(base, deltas[i])) == Some(r[i])
    decreases |deltas|
  {
    if deltas == [] then
      []
    else
      var n := |deltas| - 1;
      ExpandDeltas(schema, parsers, base, deltas[..n]) + [Bind(schema, parsers, Merge(base, deltas[n])).value]
  }

  /** The whole expansion: the base instance followed by one instance per
      delta; it exists exactly when the base itself binds. */
  function Expand(schema: Schema, parsers: Parsers, base: Record, deltas: seq<Record>): (r: Option<seq<Record>>)
    requires schema.Valid()
    ensures r.Some? <==> schema.required <= base.Keys
    ensures r.Some? ==> |r.value| == 1 + |deltas| && Bind(schema, parsers, base) == Some(r.value[0])
    ensures r.Some? ==> forall i :: 0 <= i < |deltas| ==>
              Bind(schema, parsers, Merge(base, deltas[i])) == Some(r.value[i + 1])
  {
    match Bind(schema, parsers, base)
    case None => None
    case Some(b) => Some([b] + ExpandDeltas(schema, parsers, base, deltas))
  }

  /** The expansion is the only list that starts with the base instance and
      then holds, in order, the instance of each delta's merge. */
  lemma ExpandDetermined(schema: Schema, parsers: Parsers, base: Record, deltas: seq<Record>, result: seq<Record>)
    requires schema.Valid()
    requires |result| == 1 + |deltas| && Bind(schema, parsers, base) == Some(result[0])
    requires forall i :: 0 <= i < |deltas| ==> Bind(schema, parsers, Merge(base, deltas[i])) == Some(result[i + 1])
    ensures Expand(schema, parsers, base, deltas) == Some(result)
  {
    var e := Expand(schema, parsers, base, deltas).value;
    forall i | 0 <= i < |result| ensures e[i] == result[i] {
      if i > 0 {
        assert Bind(schema, parsers, Merge(base, deltas[i - 1])) == Some(result[i]);
      }
    }
    assert e == result;
  }

  /** Deltas do not see each other: entry `i` of the expansion is the same
      for any two delta lists that agree at position `i`. */
  lemma DeltasIndependent(schema: Schema, parsers: Parsers, base: Record, deltas: seq<Record>, deltas': seq<Record>, i: nat)
    requires schema.Valid() && schema.required <= base.Keys
    requires i < |deltas| && i < |deltas'| && deltas[i] == deltas'[i]
    ensures Expand(schema, parsers, base, deltas).value[i + 1] == Expand(schema, parsers, base, deltas').value[i + 1]
  {
  }

  /** A field set (to something other than `None`) by a delta takes the
      delta's value, parsed as a record value is: deltas are not pre-parsed. */
  lemma DeltaOverridesBase(schema: Schema, parsers: Parsers, base: Record, delta: Record, k: string)
    requires schema.Valid() && schema.required <= base.Keys
    requires k in schema.FieldSet() && k in delta && delta[k] != VNull
    ensures Bind(schema, parsers, Merge(base, delta)).value[k] == Parse(parsers, k, delta[k])
  {
    var merged := Merge(base, delta);
    var inst := Bind(schema, parsers, merged).value;
    if k in schema.required {
      assert inst[k] == Parse(parsers, k, merged[k]);
    } else {
      assert inst[k] == DefaultedValue(parsers, k, schema.defaults[k], merged);
    }
  }

  /** A field that a delta does not mention gets the value the base alone
      would give it. */
  lemma BaseKeptWhereDeltaSilent(schema: Schema, parsers: Parsers, base: Record, delta: Record, k: string)
    requires schema.Valid() && schema.required <= base.Keys
    requires k in schema.FieldSet() && k !in delta
    ensures Bind(schema, parsers, Merge(base, delta)).value[k] == Bind(schema, parsers, base).value[k]
  {
    var merged := Merge(base, delta);
    var inst := Bind(schema, parsers, merged).value;
    assert (k in merged <==> k in base) && (k in base ==> merged[k] == base[k]);
    if k in schema.required {
      assert inst[k] == Parse(parsers, k, merged[k]);
    } else {
      assert inst[k] == DefaultedValue(parsers, k, schema.defaults[k], merged);
    }
  }

  /** The entries of a `deltas` list, when every entry is a mapping. */
  function DeltaRecords(items: seq<Value>): (r: Option<seq<Record>>)
    ensures r.Some? <==> forall i :: 0 <= i < |items| ==> items[i].VMap?
    ensures r.Some? ==> |r.value| == |items| && forall i :: 0 <= i < |items| ==> items[i] == VMap(r.value[i])
  {
    if items == [] then
      Some([])
    else
      match (items[0], DeltaRecords(items[1..]))
      case (VMap(m), Some(rest)) =>
        assert forall i :: 1 <= i < |items| ==> items[i] == items[1..][i - 1];
        Some([m] + rest)
      case (VMap(_), None) =>
        assert exists i :: 0 <= i < |items[1..]| && !items[1..][i].VMap?;
        None
      case _ => None
  }

  /** The `base` entry of a multi-configuration document. */
  function BaseOf(multiConf: Record): (r: Result<Record, ConfigError>)
    ensures r.Ok? <==> "base" in multiConf && multiConf["base"].VMap?
    ensures r.Ok? ==> multiConf["base"] == VMap(r.value)
    ensures "base" !in multiConf ==> r == Err(MissingKey("base"))
    ensures "base" in multiConf && !multiConf["base"].VMap? ==> r == Err(NotAMapping("base"))
  {
    if "base" !in multiConf then Err(MissingKey("base"))
    else match multiConf["base"]
      case VMap(m) => Ok(m)
      case _ => Err(NotAMapping("base"))
  }

  /** The `deltas` entry of a multi-configuration document; none when the
      key is absent. */
  function DeltasOf(multiConf: Record): (r: Result<seq<Record>, ConfigError>)
    ensures "deltas" !in multiConf ==> r == Ok([])
    ensures "deltas" in multiConf && !multiConf["deltas"].VList? ==> r == Err(NotAList("deltas"))
    ensures "deltas" in multiConf && multiConf["deltas"].VList? ==>
              var items := multiConf["deltas"].items;
              && (r.Ok? <==> forall i :: 0 <= i < |items| ==> items[i].VMap?)
              && (r.Err? ==> r.error == NotAMapping("deltas"))
              && (r.Ok? ==> |r.value| == |items| && forall i :: 0 <= i < |items| ==> items[i] == VMap(r.value[i]))
  {
    if "deltas" !in multiConf then Ok([])
    else match multiConf["deltas"]
      case VList(items) =>
        (match DeltaRecords(items)
         case Some(ds) => Ok(ds)
         case None => Err(NotAMapping("deltas")))
      case _ => Err(NotAList("deltas"))
  }

  /** The loop of `from_multi_conf_yaml_file` over `deltas`: each entry, which
      must be a mapping, updates a fresh copy of `base`, and the copy is bound
      and appended. */
  method BindDeltas(schema: Schema, parsers: Parsers, baseDict: Record, deltas: seq<Value>) returns (r: Result<seq<Record>, ConfigError>)
    requires schema.Valid() && schema.required <= baseDict.Keys
    ensures r.Ok? <==> DeltaRecords(deltas).Some?
    ensures r.Err? ==> r.error == NotAMapping("deltas")
    ensures r.Ok? ==> |r.value| == |deltas| && forall i :: 0 <= i < |deltas| ==>
              deltas[i].VMap? && Bind(schema, parsers, Merge(baseDict, deltas[i].entries)) == Some(r.value[i])
  {
    var result := [];
    var j := 0;
    while j < |deltas|
      invariant 0 <= j <= |deltas|
      invariant |result| == j
      invariant forall i :: 0 <= i < j ==>
                  deltas[i].VMap? && Bind(schema, parsers, Merge(baseDict, deltas[i].entries)) == Some(result[i])
    {
      if !deltas[j].VMap? {
        return Err(NotAMapping("deltas"));
      }
      // deepcopy: a value copy, so updating it leaves `baseDict` as it was
      var deltaDict := baseDict;
      deltaDict := Merge(deltaDict, deltas[j].entries);
      var bound := FromDict(schema, parsers, deltaDict);
      result := result + [bound.value];
      j := j + 1;
    }
    r := Ok(result);
  }

  /** The base instance followed by the instances the delta loop binds is
      the expansion of the document's delta records. */
  lemma DeltaListExpansion(schema: Schema, parsers: Parsers, base: Record, first: Record, deltas: seq<Value>, bound: seq<Record>)
    requires schema.Valid() && Bind(schema, parsers, base) == Some(first)
    requires DeltaRecords(deltas).Some? && |bound| == |deltas|
    requires forall i :: 0 <= i < |deltas| ==>
               deltas[i].VMap? && Bind(schema, parsers, Merge(base, deltas[i].entries)) == Some(bound[i])
    ensures Expand(schema, parsers, base, DeltaRecords(deltas).value) == Some([first] + bound)
  {
    var ds := DeltaRecords(deltas).value;
    var result := [first] + bound;
    forall i | 0 <= i < |ds| ensures Bind(schema, parsers, Merge(base, ds[i])) == Some(result[i + 1]) {
      assert deltas[i] == VMap(ds[i]) && result[i + 1] == bound[i];
    }
    ExpandDetermined(schema, parsers, base, ds, result);
  }

  /** `from_multi_conf_yaml_file` after decoding: bind `base`, then, for each
      delta in order, bind a fresh copy of `base` updated with that delta. */
  method FromMultiConf(schema: Schema, parsers: Parsers, multiConf: Record) returns (r: Result<seq<Record>, ConfigError>)
    requires schema.Valid()
    ensures BaseOf(multiConf).Err? ==> r == Err(BaseOf(multiConf).error)
    ensures BaseOf(multiConf).Ok? && !(schema.required <= BaseOf(multiConf).value.Keys) ==>
              r.Err? && r.error.MissingKey? && r.error.key in schema.required && r.error.key !in BaseOf(multiConf).value
    ensures BaseOf(multiConf).Ok? && schema.required <= BaseOf(multiConf).value.Keys && DeltasOf(multiConf).Err? ==>
              r == Err(DeltasOf(multiConf).error)
    ensures r.Ok? <==> BaseOf(multiConf).Ok? && schema.required <= BaseOf(multiConf).value.Keys && DeltasOf(multiConf).Ok?
    ensures r.Ok? ==> Expand(schema, parsers, BaseOf(multiConf).value, DeltasOf(multiConf).value) == Some(r.value)
  {
    // `multi_conf["base"]`, which must be a mapping
    var baseEntry := BaseOf(multiConf);
    if baseEntry.Err? {
      return Err(baseEntry.error);
    }
    var baseDict := baseEntry.value;
    var first := FromDict(schema, parsers, baseDict);
    if first.Err? {
      return Err(first.error);
    }
    var result := [first.value];
    if "deltas" !in multiConf {
      ExpandDetermined(schema, parsers, baseDict, [], result);
      return Ok(result);
    }
    if !multiConf["deltas"].VList? {
      return Err(NotAList("deltas"));
    }
    var deltas := multiConf["deltas"].items;
    var bound := BindDeltas(schema, parsers, baseDict, deltas);
    if bound.Err? {
      return Err(bound.error);
    }
    DeltaListExpansion(schema, parsers, baseDict, first.value, deltas, bound.value);
    result := result + bound.value;
    r := Ok(result);
  }
}
