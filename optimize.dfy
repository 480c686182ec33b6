/**
  The options model of the front end (src/optimize.ts): the option record and its
  defaults, the structural check applied to a parsed JSON value, the merge of a
  stored partial record over the defaults, the persistence through one key of a
  string key-value store, and the cancel branch of the engine call.

  JSON.parse and JSON.stringify are parameters: `parse` returns None where
  JSON.parse would throw.
*/
module Optimize {
  import opened Wrappers

  /** A value JSON.parse can produce. */
  datatype Json =
    | JNull
    | JBool(b: bool)
    | JNumber(n: real)
    | JString(s: string)
    | JArray(items: seq<Json>)
    | JObject(fields: map<string, Json>)

  /** The answers of `typeof` for JSON values. */
  datatype JsType = Boolean | Number | String | Object

  /** The primitive types `optionalMatch` can be asked about. */
  type Primitive = t: JsType | t != Object witness Boolean

  /** `typeof v`: null and arrays are objects. */
  function TypeOf(v: Json): JsType {
    match v
    case JBool(_) => Boolean
    case JNumber(_) => Number
    case JString(_) => String
    case _ => Object
  }

  /** The named own keys of a value, as `key in obj` sees them. An array's own keys
      are its indices and "length", none of which is an option key, so an array
      contributes none here. */
  function Fields(v: Json): map<string, Json> {
    match v
    case JObject(m) => m
    case _ => map[]
  }

  /** The option record. Qualities are JavaScript numbers. */
  datatype OptimizeOptions = OptimizeOptions(
    optimizeImages: bool,
    jpgQuality: real,
    generateWebp: bool,
    webpQuality: real,
    webpFromOptimized: bool,
    usePng8: bool,
    png8Quality: real)

  const DefaultOptions := OptimizeOptions(
    optimizeImages := true,
    jpgQuality := 80.0,
    generateWebp := true,
    webpQuality := 80.0,
    webpFromOptimized := false,
    usePng8 := false,
    png8Quality := 80.0)

  /** The seven recognised keys with their declared types, in the order the
      validator checks them. */
  const Schema: seq<(string, Primitive)> := [
    ("optimize_images", Boolean),
    ("jpg_quality", Number),
    ("generate_webp", Boolean),
    ("webp_quality", Number),
    ("webp_from_optimized", Boolean),
    ("use_png8", Boolean),
    ("png8_quality", Number)]

  const OptionKeys: set<string> := {
    "optimize_images", "jpg_quality", "generate_webp", "webp_quality",
    "webp_from_optimized", "use_png8", "png8_quality"}

  lemma OptionKeysAreSchemaKeys()
    ensures OptionKeys == set i | 0 <= i < |Schema| :: Schema[i].0
  {
    var keys := set i | 0 <= i < |Schema| :: Schema[i].0;
    assert Schema[0].0 in keys && Schema[1].0 in keys && Schema[2].0 in keys && Schema[3].0 in keys;
    assert Schema[4].0 in keys && Schema[5].0 in keys && Schema[6].0 in keys;
  }

  /** The key under which the options are persisted. */
  const OptionsKey := "options"

  /** The record as the JSON object JSON.stringify writes. */
  function ToJson(o: OptimizeOptions): (v: Json)
    ensures v.JObject? && v.fields.Keys == OptionKeys
  {
    JObject(map[
      "optimize_images" := JBool(o.optimizeImages),
      "jpg_quality" := JNumber(o.jpgQuality),
      "generate_webp" := JBool(o.generateWebp),
      "webp_quality" := JNumber(o.webpQuality),
      "webp_from_optimized" := JBool(o.webpFromOptimized),
      "use_png8" := JBool(o.usePng8),
      "png8_quality" := JNumber(o.png8Quality)])
  }

  /** The JSON value of the field a recognised key names. */
  function FieldValue(o: OptimizeOptions, key: string): Json
    requires key in OptionKeys
  {
    ToJson(o).fields[key]
  }

  /** `optionalMatch`: the key is absent, or its value has the given type. */
  predicate OptionalMatch(obj: map<string, Json>, key: string, t: Primitive): (b: bool)
    ensures key !in obj ==> b
    ensures key in obj && obj[key].JNull? ==> !b
    ensures b && key in obj && t == Boolean ==> obj[key].JBool?
    ensures b && key in obj && t == Number ==> obj[key].JNumber?
  {
    key !in obj || TypeOf(obj[key]) == t
  }

  /** `isOption`: an object (not null) whose recognised keys, where present, hold
      values of their declared types. */
  predicate IsOption(v: Json): (b: bool)
    ensures b ==> v.JObject? || v.JArray?
    ensures v.JArray? ==> b
    ensures v.JObject? && v.fields.Keys !! OptionKeys ==> b
  {
    if TypeOf(v) != Object || v == JNull then false
    else
      var obj := Fields(v);
      && OptionalMatch(obj, "optimize_images", Boolean)
      && OptionalMatch(obj, "jpg_quality", Number)
      && OptionalMatch(obj, "generate_webp", Boolean)
      && OptionalMatch(obj, "webp_quality", Number)
      && OptionalMatch(obj, "webp_from_optimized", Boolean)
      && OptionalMatch(obj, "use_png8", Boolean)
      && OptionalMatch(obj, "png8_quality", Number)
  }

  function BoolAt(obj: map<string, Json>, key: string, fallback: bool): bool
    requires OptionalMatch(obj, key, Boolean)
  {
    if key in obj then obj[key].b else fallback
  }

  function NumberAt(obj: map<string, Json>, key: string, fallback: real): real
    requires OptionalMatch(obj, key, Number)
  {
    if key in obj then obj[key].n else fallback
  }

  /** `{ ...base, ...parsed }` restricted to the seven recognised fields: each field
      present in the parsed value replaces the one of `base`. */
  function Merge(base: OptimizeOptions, v: Json): (r: OptimizeOptions)
    requires IsOption(v)
    ensures IsOption(ToJson(r))
    ensures v.JArray? ==> r == base
  {
    var obj := Fields(v);
    OptimizeOptions(
      BoolAt(obj, "optimize_images", base.optimizeImages),
      NumberAt(obj, "jpg_quality", base.jpgQuality),
      BoolAt(obj, "generate_webp", base.generateWebp),
      NumberAt(obj, "webp_quality", base.webpQuality),
      BoolAt(obj, "webp_from_optimized", base.webpFromOptimized),
      BoolAt(obj, "use_png8", base.usePng8),
      NumberAt(obj, "png8_quality", base.png8Quality))
  }

  /** `loadOptions` over the contents of the store. A missing or empty entry, text
      that does not parse and a value that fails the check all give the defaults. */
  function LoadFrom(items: map<string, string>, parse: string -> Option<Json>): (r: OptimizeOptions)
    ensures IsOption(ToJson(r))
    ensures r != DefaultOptions ==>
      && OptionsKey in items && items[OptionsKey] != ""
      && parse(items[OptionsKey]).Some? && IsOption(parse(items[OptionsKey]).value)
  {
    if OptionsKey !in items || items[OptionsKey] == "" then DefaultOptions
    else
      match parse(items[OptionsKey])
      case None => DefaultOptions
      case Some(v) => if IsOption(v) then Merge(DefaultOptions, v) else DefaultOptions
  }

  /** The key-value store (localStorage) that holds the persisted options. */
  class OptionsStore {
    var items: map<string, string>

    constructor (items: map<string, string>)
      ensures this.items == items
    {
      this.items := items;
    }

    /** `saveOptions`: writes the serialised record under the options key. */
    method Save(options: OptimizeOptions, stringify: Json -> string)
      modifies this
      ensures items == old(items)[OptionsKey := stringify(ToJson(options))]
    {
      items := items[OptionsKey := stringify(ToJson(options))];
    }

    /** `loadOptions`: reads the store and never fails. */
    method Load(parse: string -> Option<Json>) returns (options: OptimizeOptions)
      ensures options == LoadFrom(items, parse)
    {
      if OptionsKey !in items || items[OptionsKey] == "" {
        return DefaultOptions;
      }
      var parsed := parse(items[OptionsKey]);
      if parsed.Some? && IsOption(parsed.value) {
        return Merge(DefaultOptions, parsed.value);
      }
      return DefaultOptions;
    }
  }

  lemma DefaultsAreAsDeclared()
    ensures DefaultOptions.optimizeImages && DefaultOptions.generateWebp
    ensures DefaultOptions.jpgQuality == DefaultOptions.webpQuality == DefaultOptions.png8Quality == 80.0
    ensures !DefaultOptions.usePng8 && !DefaultOptions.webpFromOptimized
  {
  }

  /** Nothing stored, or the empty string, loads the defaults. */
  lemma LoadWithoutText(items: map<string, string>, parse: string -> Option<Json>)
    requires OptionsKey !in items || items[OptionsKey] == ""
    ensures LoadFrom(items, parse) == DefaultOptions
  {
  }

  /** Text that JSON.parse rejects loads the defaults. */
  lemma LoadUnparsable(items: map<string, string>, parse: string -> Option<Json>)
    requires OptionsKey in items && parse(items[OptionsKey]) == None
    ensures LoadFrom(items, parse) == DefaultOptions
  {
  }

  /** A parsed value that fails the structural check loads the defaults. */
  lemma LoadMalformed(items: map<string, string>, parse: string -> Option<Json>, v: Json)
    requires OptionsKey in items && parse(items[OptionsKey]) == Some(v) && !IsOption(v)
    ensures LoadFrom(items, parse) == DefaultOptions
  {
  }

  /** Values that are not objects, and null, fail the check. */
  lemma NonObjectsRejected(v: Json)
    requires v.JNull? || v.JBool? || v.JNumber? || v.JString?
    ensures !IsOption(v)
  {
  }

  /** The check is the conjunction of `optionalMatch` over exactly the schema
      entries, for objects and arrays alike. */
  lemma IsOptionIsSchemaConjunction(v: Json)
    ensures IsOption(v) <==>
      (v.JObject? || v.JArray?) &&
      forall i :: 0 <= i < |Schema| ==> OptionalMatch(Fields(v), Schema[i].0, Schema[i].1)
  {
    if (v.JObject? || v.JArray?) && forall i :: 0 <= i < |Schema| ==> OptionalMatch(Fields(v), Schema[i].0, Schema[i].1) {
      assert OptionalMatch(Fields(v), Schema[0].0, Schema[0].1);
      assert OptionalMatch(Fields(v), Schema[1].0, Schema[1].1);
      assert OptionalMatch(Fields(v), Schema[2].0, Schema[2].1);
      assert OptionalMatch(Fields(v), Schema[3].0, Schema[3].1);
      assert OptionalMatch(Fields(v), Schema[4].0, Schema[4].1);
      assert OptionalMatch(Fields(v), Schema[5].0, Schema[5].1);
      assert OptionalMatch(Fields(v), Schema[6].0, Schema[6].1);
    }
  }

  /** Keys other than the seven are never inspected: adding or changing one
      changes neither the verdict nor the merged record. */
  lemma OtherKeysIgnored(m: map<string, Json>, key: string, x: Json, base: OptimizeOptions)
    requires key !in OptionKeys
    ensures IsOption(JObject(m[key := x])) == IsOption(JObject(m))
    ensures IsOption(JObject(m)) ==> Merge(base, JObject(m[key := x])) == Merge(base, JObject(m))
  {
    assert key != Schema[0].0 && key != Schema[1].0 && key != Schema[2].0 && key != Schema[3].0;
    assert key != Schema[4].0 && key != Schema[5].0 && key != Schema[6].0;
  }

  /** Per field, the merge takes the stored value where one is present and the
      base value where it is absent. */
  lemma MergeTakesPresentFields(base: OptimizeOptions, v: Json, key: string)
    requires IsOption(v) && key in OptionKeys
    ensures FieldValue(Merge(base, v), key) ==
      if key in Fields(v) then Fields(v)[key] else FieldValue(base, key)
  {
    assert key in {Schema[0].0, Schema[1].0, Schema[2].0, Schema[3].0, Schema[4].0, Schema[5].0, Schema[6].0};
  }

  /** A value with none of the seven keys (the empty object `{}`, any array) merges
      to the base record unchanged. */
  lemma MergeWithoutFields(base: OptimizeOptions, v: Json)
    requires v.JObject? || v.JArray?
    requires forall key :: key in OptionKeys ==> key !in Fields(v)
    ensures IsOption(v) && Merge(base, v) == base
  {
    assert Schema[0].0 in OptionKeys && Schema[1].0 in OptionKeys && Schema[2].0 in OptionKeys;
    assert Schema[3].0 in OptionKeys && Schema[4].0 in OptionKeys && Schema[5].0 in OptionKeys;
    assert Schema[6].0 in OptionKeys;
  }

  /** A full record passes the check and the merge returns it whatever the base. */
  lemma FullRecordMerge(o: OptimizeOptions, base: OptimizeOptions)
    ensures IsOption(ToJson(o)) && Merge(base, ToJson(o)) == o
  {
  }

  /** Saving a record and loading it back gives that record, provided JSON.parse
      reads back what JSON.stringify wrote for it (JSON.stringify never writes the
      empty string for an object). */
  lemma SaveLoadRoundTrip(items: map<string, string>, o: OptimizeOptions,
                          parse: string -> Option<Json>, stringify: Json -> string)
    requires stringify(ToJson(o)) != ""
    requires parse(stringify(ToJson(o))) == Some(ToJson(o))
    ensures LoadFrom(items[OptionsKey := stringify(ToJson(o))], parse) == o
  {
    FullRecordMerge(o, DefaultOptions);
  }

  /** A result of one image. */
  datatype OptimizeResult = OptimizeResult(path: string, originalPath: string, originalSize: nat, finalSize: nat)

  /** One entry of the engine's answer: a result or an error, tagged as on the wire. */
  datatype Outcome = Result(value: OptimizeResult) | Error(path: string, error: string)

  /** One resolved image of a selection. */
  datatype TargetImage = TargetImage(path: string, size: nat)

  /** What `invoke('optimize', ...)` settles with: a list, or a rejection. */
  datatype InvokeReply = Resolved(outcomes: seq<Outcome>) | Rejected(reason: string)

  /** What the promise returned by `optimize` settles with: undefined when no
      destination was picked, the engine's list, or the engine's rejection. */
  datatype CallOutcome = Cancelled | Returned(outcomes: seq<Outcome>) | Threw(reason: string)

  /** `optimize`: `picked` is the answer of the destination dialog (None when it was
      dismissed); only with a destination is the engine invoked. */
  function OptimizeCall(paths: seq<string>, options: OptimizeOptions, picked: Option<string>,
                        invoke: (seq<string>, string, OptimizeOptions) -> InvokeReply): (r: CallOutcome)
    ensures picked.None? <==> r.Cancelled?
    ensures picked.Some? ==> (r.Returned? <==> invoke(paths, picked.value, options).Resolved?)
    ensures r.Returned? ==> r.outcomes == invoke(paths, picked.value, options).outcomes
    ensures r.Threw? ==> r.reason == invoke(paths, picked.value, options).reason
  {
    match picked
    case None => Cancelled
    case Some(distDir) =>
      match invoke(paths, distDir, options)
      case Resolved(outcomes) => Returned(outcomes)
      case Rejected(reason) => Threw(reason)
  }
}
