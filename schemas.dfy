/** `fixSchema` (src/utils/schema.ts): fills each schema field the input
    leaves undefined with the field's default, in place. */
module Schemas {

  /** A JavaScript property value as `fixSchema` sees it: undefined, or a
      value. */
  datatype Slot<V> = Undefined | Defined(value: V)

  /** A JavaScript object: its own properties. A property can exist and
      still hold `undefined`. */
  class JsObject<V> {
    var fields: map<string, Slot<V>>

    constructor (fields: map<string, Slot<V>>)
      ensures this.fields == fields
    {
      this.fields := fields;
    }
  }

  /** The component data `fixSchema` is given: `true` when the component was
      set without a value, otherwise the parsed object. */
  datatype SchemaInput<V> = True | Object(obj: JsObject<V>)

  /** Reading a property: a missing one reads as undefined. */
  function Get<V>(fields: map<string, Slot<V>>, k: string): Slot<V>
  {
    if k in fields then fields[k] else Undefined
  }

  /** The object after defaults are filled in: every schema field that reads
      as undefined takes its default (itself possibly undefined); defined
      fields and fields outside the schema are kept. */
  function WithDefaults<V>(fields: map<string, Slot<V>>, defaults: map<string, Slot<V>>): (r: map<string, Slot<V>>)
    ensures r.Keys == fields.Keys + defaults.Keys
    ensures forall k :: k in defaults && Get(fields, k).Undefined? ==> r[k] == defaults[k]
    ensures forall k :: k in fields && fields[k].Defined? ==> r[k] == fields[k]
    ensures forall k :: k in fields && k !in defaults ==> r[k] == fields[k]
  {
    map k | k in fields.Keys + defaults.Keys :: if k in defaults && Get(fields, k).Undefined? then defaults[k] else fields[k]
  }

  /** Filling in defaults twice is filling them in once. */
  lemma WithDefaultsIdempotent<V>(fields: map<string, Slot<V>>, defaults: map<string, Slot<V>>)
    ensures WithDefaults(WithDefaults(fields, defaults), defaults) == WithDefaults(fields, defaults)
  {
    var once := WithDefaults(fields, defaults);
    var twice := WithDefaults(once, defaults);
    forall k | k in twice
      ensures twice[k] == once[k]
    {
      if k in defaults && Get(once, k).Undefined? {
        assert Get(fields, k).Undefined?;
      }
    }
  }

  /** The input `true` yields exactly the schema's defaults. */
  lemma TrueYieldsDefaults<V>(defaults: map<string, Slot<V>>)
    ensures WithDefaults(map[], defaults) == defaults
  {
  }

  /** The defaults of the schema fields in `done`. */
  function Restrict<V>(defaults: map<string, Slot<V>>, done: set<string>): map<string, Slot<V>>
  {
    map k | k in defaults && k in done :: defaults[k]
  }

  /** `fixSchema`: for `true` a fresh empty object, otherwise the input object
      itself, which is updated in place and returned. */
  method FixSchema<V>(input: SchemaInput<V>, defaults: map<string, Slot<V>>) returns (res: JsObject<V>)
    modifies if input.Object? then {input.obj} else {}
    ensures input.Object? ==> res == input.obj
    ensures input.True? ==> fresh(res)
    ensures res.fields == WithDefaults(if input.Object? then old(input.obj.fields) else map[], defaults)
  {
    if input.True? {
      res := new JsObject(map[]);
    } else {
      res := input.obj;
    }
    ghost var start := res.fields;
    ghost var done: set<string> := {};
    var todo := defaults.Keys;
    while todo != {}
      invariant todo !! done && todo + done == defaults.Keys
      invariant res.fields == WithDefaults(start, Restrict(defaults, done))
      decreases todo
    {
      var field :| field in todo;
      FillStep(start, defaults, done, field);
      if Get(res.fields, field).Undefined? {
        res.fields := res.fields[field := defaults[field]];
      }
      todo := todo - {field};
      done := done + {field};
    }
    assert Restrict(defaults, done) == defaults;
  }

  /** Filling one more schema field, reading it through the object filled
      so far, extends the fill by that field. */
  lemma FillStep<V>(start: map<string, Slot<V>>, defaults: map<string, Slot<V>>, done: set<string>, field: string)
    requires field in defaults && field !in done
    ensures var sofar := WithDefaults(start, Restrict(defaults, done));
      WithDefaults(start, Restrict(defaults, done + {field})) ==
        if Get(sofar, field).Undefined? then sofar[field := defaults[field]] else sofar
  {
    var sofar := WithDefaults(start, Restrict(defaults, done));
    var next := WithDefaults(start, Restrict(defaults, done + {field}));
    var want := if Get(sofar, field).Undefined? then sofar[field := defaults[field]] else sofar;
    assert Get(sofar, field) == Get(start, field);
    forall k | k in next
      ensures k in want && next[k] == want[k]
    {
    }
    assert next.Keys == want.Keys;
  }
}
