// Custom STIX properties: lifted into the extensions map when an object is read, flattened back to
// the top level when it is written.
module CustomProperties {
  import opened Basics

  type Fields = map<string, Json>

  datatype Fault = NotADictionary | UnknownType | ObjectsNotAList

  predicate Custom(key: string) { |key| >= 2 && key[..2] == "x_" }

  // Values that a written object leaves out.
  predicate Empty(j: Json) { j == Null || j == Arr([]) || j == Obj(map[]) }

  predicate Truthy(j: Json) {
    match j
    case Null => false
    case Bool(b) => b
    case Num(n) => n != 0
    case Str(s) => s != ""
    case Arr(items) => items != []
    case Obj(fields) => fields != map[]
  }

  // Which keys are custom, which values are left out, and which count as not given.
  lemma KeysAndValuesByShape(key: string, j: Json)
    ensures Custom(key) <==> |key| >= 2 && key[0] == 'x' && key[1] == '_'
    ensures Empty(j) <==> j.Null? || (j.Arr? && |j.items| == 0) || (j.Obj? && |j.fields| == 0)
    ensures !Truthy(j) <==> Empty(j) || j == Bool(false) || j == Num(0) || j == Str("")
  {
    if |key| >= 2 {
      assert key[..2] == [key[0], key[1]];
    }
  }

  function OnlyCustom(d: Fields): Fields { map k | k in d && Custom(k) :: d[k] }
  function NotCustom(d: Fields): Fields { map k | k in d && !Custom(k) :: d[k] }
  function Cleaned(d: Fields): Fields { map k | k in d && !Empty(d[k]) :: d[k] }

  function Among(d: Fields, keys: set<string>): Fields { map k | k in d && k in keys :: d[k] }

  lemma AmongOneMore(d: Fields, keys: set<string>, k: string)
    requires k in d
    ensures Among(d, keys + {k}) == Among(d, keys)[k := d[k]]
  {}

  // ---- Reading: before validation ----

  function GivenExtensions(d: Fields): Result<Fields, Fault> {
    if "extensions" !in d || !Truthy(d["extensions"]) then Ok(map[])
    else if d["extensions"].Obj? then Ok(d["extensions"].fields)
    else Err(NotADictionary)
  }

  function Gathered(d: Fields): Result<Fields, Fault> {
    match GivenExtensions(d)
    case Err(f) => Err(f)
    case Ok(given) =>
      var extensions := given + OnlyCustom(d);
      Ok(if extensions == map[] then NotCustom(d) else NotCustom(d)["extensions" := Obj(extensions)])
  }

  class JsonObject {
    var entries: Fields

    constructor (entries: Fields)
      ensures this.entries == entries
    {
      this.entries := entries;
    }
  }

  // The keys are popped from the caller's own dictionary.
  method GatherCustomProperties(data: JsonObject) returns (r: Result<(), Fault>)
    modifies data
    ensures match Gathered(old(data.entries))
            case Ok(gathered) => r.Ok? && data.entries == gathered
            case Err(f) => r == Err(f) && data.entries == old(data.entries)
  {
    var extensions: Fields := map[];
    if "extensions" in data.entries && Truthy(data.entries["extensions"]) {
      if !data.entries["extensions"].Obj? {
        return Err(NotADictionary);
      }
      extensions := data.entries["extensions"].fields;
    }
    ghost var given := extensions;
    var customKeys := set k | k in data.entries && Custom(k);
    var todo := customKeys;
    ghost var popped: set<string> := {};
    while todo != {}
      invariant popped + todo == customKeys && popped !! todo
      invariant data.entries == old(data.entries) - popped
      invariant extensions == given + Among(old(data.entries), popped)
    {
      var key :| key in todo;
      AmongOneMore(old(data.entries), popped, key);
      extensions := extensions[key := data.entries[key]];
      data.entries := data.entries - {key};
      popped, todo := popped + {key}, todo - {key};
    }
    assert popped == customKeys;
    assert Among(old(data.entries), popped) == OnlyCustom(old(data.entries));
    assert data.entries == NotCustom(old(data.entries));
    if extensions != map[] {
      data.entries := data.entries["extensions" := Obj(extensions)];
    }
    r := Ok(());
  }

  // ---- Writing ----

  // A model as the validated class holds it: custom properties only inside its extensions map.
  ghost predicate ModelShaped(m: Fields) {
    "extensions" in m && m["extensions"].Obj? && forall k | k in m :: !Custom(k)
  }

  function Flattened(raw: Fields): Fields
    requires "extensions" in raw && raw["extensions"].Obj?
  {
    var nested := raw["extensions"].fields;
    var flat := (Cleaned(raw) - {"extensions"}) + OnlyCustom(nested);
    if NotCustom(nested) == map[] then flat else flat["extensions" := Obj(NotCustom(nested))]
  }

  method FlattenCustomProperties(raw: Fields) returns (flat: Fields)
    requires "extensions" in raw && raw["extensions"].Obj?
    ensures flat == Flattened(raw)
  {
    flat := map k | k in raw && !Empty(raw[k]) :: raw[k];
    var nested: Fields := map[];
    if "extensions" in flat {
      nested := flat["extensions"].fields;
      flat := flat - {"extensions"};
    }
    assert nested == raw["extensions"].fields;
    assert flat == Cleaned(raw) - {"extensions"};
    var custom: Fields, spec: Fields := map[], map[];
    var todo := nested.Keys;
    ghost var done: set<string> := {};
    while todo != {}
      invariant done + todo == nested.Keys && done !! todo
      invariant custom == Among(OnlyCustom(nested), done) && spec == Among(NotCustom(nested), done)
    {
      var key :| key in todo;
      if Custom(key) {
        AmongOneMore(OnlyCustom(nested), done, key);
        custom := custom[key := nested[key]];
      } else {
        AmongOneMore(NotCustom(nested), done, key);
        spec := spec[key := nested[key]];
      }
      done, todo := done + {key}, todo - {key};
    }
    assert done == nested.Keys;
    assert custom == OnlyCustom(nested) && spec == NotCustom(nested);
    flat := flat + custom;
    if spec != map[] {
      flat := flat["extensions" := Obj(spec)];
    }
  }

  // ---- Reading undoes writing ----

  lemma ExtensionsIsNotCustom()
    ensures !Custom("extensions")
  {
    assert "extensions"[1] == 'x' && "x_"[1] == '_';
    assert "extensions"[..2][1] == 'x';
  }

  // What was written is read back with the same extensions and the same fields, less the empty ones.
  lemma GatherUndoesFlatten(m: Fields)
    requires ModelShaped(m)
    ensures Gathered(Flattened(m)) == Ok(Cleaned(m))
  {
    ExtensionsIsNotCustom();
    var nested := m["extensions"].fields;
    var flat := Flattened(m);
    assert NotCustom(nested) + OnlyCustom(nested) == nested;
    assert OnlyCustom(flat) == OnlyCustom(nested);
    var spec := NotCustom(nested);
    assert GivenExtensions(flat) == Ok(spec) by {
      if spec != map[] {
        assert flat["extensions"] == Obj(spec);
      } else {
        assert "extensions" !in flat;
      }
    }
    if nested != map[] {
      assert NotCustom(flat)["extensions" := Obj(nested)] == Cleaned(m);
    } else {
      assert NotCustom(flat) == Cleaned(m);
    }
  }

  // What a class makes of its objects: the values of fields that were not given (literals, an empty
  // extensions map, nulls), and how the value read for a field is dumped. Dumping cuts timestamps to
  // milliseconds and leaves out the nulls of nested records, for instance.
  datatype Class = Class(defaults: Fields, dump: (string, Json) -> Json)

  ghost predicate Defaults(defaults: Fields) {
    && "extensions" in defaults && defaults["extensions"] == Obj(map[])
    && forall k | k in defaults :: !Custom(k)
  }

  // Dumping writes the value as it is.
  predicate Settled(c: Class, k: string, j: Json) { c.dump(k, j) == j }

  ghost predicate ClassOk(c: Class) {
    && Defaults(c.defaults)
    && (forall k, j :: Settled(c, k, c.dump(k, j)))
    && (forall k | k in c.defaults && k != "extensions" :: Settled(c, k, c.defaults[k]))
  }

  // A model of a class: every declared field is there, literals with the one value they have.
  ghost predicate Instance(m: Fields, c: Class) {
    && ClassOk(c) && ModelShaped(m) && c.defaults.Keys <= m.Keys
    && forall k | k in c.defaults :: Empty(c.defaults[k]) || m[k] == c.defaults[k]
  }

  // Reading an object: gather, then fill in what was not given.
  function Parsed(d: Fields, c: Class): Result<Fields, Fault> {
    match Gathered(d)
    case Err(f) => Err(f)
    case Ok(gathered) =>
      if "extensions" in gathered && !gathered["extensions"].Obj? then Err(NotADictionary)
      else Ok(c.defaults + gathered)
  }

  function Dumped(m: Fields, c: Class): Fields {
    map k | k in m :: if k == "extensions" then m[k] else c.dump(k, m[k])
  }

  // Writing a model: dump its fields, then flatten.
  function Written(m: Fields, c: Class): Fields
    requires "extensions" in m && m["extensions"].Obj?
  {
    Flattened(Dumped(m, c))
  }

  // Equal but for empty fields, which may also be missing.
  ghost predicate SameButEmpties(m: Fields, n: Fields) { Cleaned(m) == Cleaned(n) }

  lemma SameFlattening(m: Fields, n: Fields)
    requires ModelShaped(m) && ModelShaped(n) && SameButEmpties(m, n)
    ensures m["extensions"] == n["extensions"] && Flattened(m) == Flattened(n)
  {
    var a, b := m["extensions"], n["extensions"];
    assert a == if "extensions" in Cleaned(m) then Cleaned(m)["extensions"] else Obj(map[]);
    assert b == if "extensions" in Cleaned(n) then Cleaned(n)["extensions"] else Obj(map[]);
  }

  // Written, read and written again: the same object. What is read back is the model as it was dumped,
  // up to empty fields.
  lemma ReparseIsStable(m: Fields, c: Class)
    requires Instance(m, c)
    ensures var again := Parsed(Written(m, c), c);
      && again.Ok? && Instance(again.value, c)
      && again.value["extensions"] == m["extensions"] && SameButEmpties(again.value, Dumped(m, c))
      && Written(again.value, c) == Written(m, c)
  {
    var d := Dumped(m, c);
    assert Instance(d, c);
    GatherUndoesFlatten(d);
    var again := c.defaults + Cleaned(d);
    assert Cleaned(again) == Cleaned(d);
    SettledModel(again, c);
    SameFlattening(again, d);
  }

  lemma SettledModel(m: Fields, c: Class)
    requires forall k | k in m && k != "extensions" :: Settled(c, k, m[k])
    ensures Dumped(m, c) == m
  {}

  // So a model survives writing and reading, up to empty fields, if and only if dumping leaves it alone.
  lemma ModelSurvivesIff(m: Fields, c: Class)
    requires Instance(m, c)
    ensures SameButEmpties(Parsed(Written(m, c), c).value, m)
      <==> forall k | k in m && k != "extensions" :: Kept(c.dump(k, m[k])) == Kept(m[k])
  {
    ReparseIsStable(m, c);
    var d := Dumped(m, c);
    if Cleaned(d) == Cleaned(m) {
      forall k | k in m && k != "extensions" ensures Kept(d[k]) == Kept(m[k]) {
        CleanedAt(d, k);
        CleanedAt(m, k);
      }
    }
    if forall k | k in m && k != "extensions" :: Kept(c.dump(k, m[k])) == Kept(m[k]) {
      assert Cleaned(d) == Cleaned(m);
    }
  }

  lemma CleanedAt(m: Fields, k: string)
    requires k in m
    ensures At(Cleaned(m), k) == Kept(m[k])
  {}

  // Times in microseconds, of which dumping keeps the milliseconds.
  function Milliseconds(k: string, j: Json): Json {
    if j.Num? then Num(j.n - j.n % 1000) else j
  }

  lemma TimedInstance() returns (c: Class, m: Fields)
    ensures c == Class(map["extensions" := Obj(map[])], Milliseconds)
    ensures Instance(m, c) && "created" in m && m["created"] == Num(1)
  {
    ExtensionsIsNotCustom();
    c := Class(map["extensions" := Obj(map[])], Milliseconds);
    m := c.defaults["created" := Num(1)];
    assert "created"[..2][0] == 'c' && "x_"[0] == 'x';
    assert "created"[0] == 'c' && "extensions"[0] == 'e';
  }

  // A timestamp with microseconds, as an object gets it when it is created, is not read back.
  lemma MicrosecondsAreLost() returns (c: Class, m: Fields)
    ensures Instance(m, c) && !SameButEmpties(Parsed(Written(m, c), c).value, m)
  {
    c, m := TimedInstance();
    assert "created"[0] == 'c' && "extensions"[0] == 'e';
    assert c.dump("created", Num(1)) == Num(0);
    ModelSurvivesIff(m, c);
  }

  // ---- Writing undoes reading, on objects already in wire form ----

  // No field is empty except custom ones, and no custom key hides inside the extensions map.
  ghost predicate WireShaped(d: Fields) {
    && (forall k | k in d && !Custom(k) :: !Empty(d[k]))
    && ("extensions" in d ==> d["extensions"].Obj? && forall k | k in d["extensions"].fields :: !Custom(k))
  }

  // What an object becomes when a class reads and writes it.
  function Rewritten(d: Fields, c: Class): Result<Fields, Fault> {
    match Parsed(d, c)
    case Err(f) => Err(f)
    case Ok(m) => if "extensions" in m && m["extensions"].Obj? then Ok(Written(m, c)) else Err(NotADictionary)
  }

  // Objects whose extensions reading accepts: a value that is no object must be falsy, and is replaced
  // only if there are custom keys to hold. Other fields are checked against their types elsewhere.
  predicate Readable(d: Fields) {
    "extensions" in d && !d["extensions"].Obj? ==> !Truthy(d["extensions"]) && OnlyCustom(d) != map[]
  }

  function Nested(d: Fields): Fields {
    if "extensions" in d && d["extensions"].Obj? then d["extensions"].fields else map[]
  }

  function At(d: Fields, k: string): Option<Json> { if k in d then Some(d[k]) else None }

  function Kept(j: Json): Option<Json> { if Empty(j) then None else Some(j) }

  lemma FlattenedAt(raw: Fields, k: string)
    requires "extensions" in raw && raw["extensions"].Obj? && forall l | l in raw :: !Custom(l)
    ensures var nested, flat := raw["extensions"].fields, Flattened(raw);
      At(flat, k) == if Custom(k) then At(nested, k)
                     else if k == "extensions" then Kept(Obj(NotCustom(nested)))
                     else if k in raw then Kept(raw[k]) else None
  {
    ExtensionsIsNotCustom();
  }

  // The model that reading makes of an object.
  function Model(d: Fields, c: Class): Fields {
    (c.defaults + NotCustom(d))["extensions" := Obj(Nested(d) + OnlyCustom(d))]
  }

  lemma ParsedIsModel(d: Fields, c: Class)
    requires Defaults(c.defaults)
    ensures Parsed(d, c).Ok? <==> Readable(d)
    ensures Readable(d) ==> Parsed(d, c) == Ok(Model(d, c))
  {
    ExtensionsIsNotCustom();
    var all := Nested(d) + OnlyCustom(d);
    if Readable(d) {
      assert GivenExtensions(d) == Ok(Nested(d));
      if all == map[] {
        assert c.defaults + NotCustom(d) == Model(d, c);
      } else {
        assert c.defaults + NotCustom(d)["extensions" := Obj(all)] == Model(d, c);
      }
    } else if !Truthy(d["extensions"]) {
      assert GivenExtensions(d) == Ok(map[]) && OnlyCustom(d) == map[];
      assert Gathered(d) == Ok(NotCustom(d));
    }
  }

  // The value at each key after reading and writing: a custom key comes from the top level first, then
  // from the extensions map; the extensions keep what is not custom; other fields are dumped, and those
  // not given are filled in, unless that leaves them empty.
  lemma EveryKeyRewritten(d: Fields, c: Class, k: string)
    requires Defaults(c.defaults)
    ensures Rewritten(d, c).Ok? <==> Readable(d)
    ensures Readable(d) ==>
      At(Rewritten(d, c).value, k)
        == if Custom(k) then (if k in d then Some(d[k]) else At(Nested(d), k))
           else if k == "extensions" then Kept(Obj(NotCustom(Nested(d))))
           else if k in d then Kept(c.dump(k, d[k]))
           else if k in c.defaults then Kept(c.dump(k, c.defaults[k])) else None
  {
    ExtensionsIsNotCustom();
    ParsedIsModel(d, c);
    FlattenedAt(Dumped(Model(d, c), c), k);
    CustomOverlay(Nested(d), d);
  }

  lemma CustomOverlay(nested: Fields, d: Fields)
    ensures NotCustom(nested + OnlyCustom(d)) == NotCustom(nested)
  {}

  // The object says all that its class would write of its own accord, and in the way it is written.
  ghost predicate AsWritten(d: Fields, c: Class) {
    && WireShaped(d)
    && (forall k | k in c.defaults && !Empty(c.defaults[k]) :: k in d)
    && (forall k | k in d && !Custom(k) && k != "extensions" :: Settled(c, k, d[k]))
  }

  // Reading and writing gives an object back unchanged if and only if it is in wire form, holds every
  // literal of its class, and dumping leaves each of its fields alone.
  lemma RewritingChangesNothingIff(d: Fields, c: Class)
    requires ClassOk(c)
    ensures Rewritten(d, c) == Ok(d) <==> AsWritten(d, c)
  {
    EveryKeyRewritten(d, c, "extensions");
    if Readable(d) {
      var after := Rewritten(d, c).value;
      forall k ensures AsWritten(d, c) ==> At(after, k) == At(d, k) {
        WrittenKeyUnchanged(d, c, k);
      }
      if AsWritten(d, c) {
        SameAtEveryKey(after, d);
      }
      if after == d {
        UnchangedIsAsWritten(d, c);
      }
    }
  }

  lemma WrittenKeyUnchanged(d: Fields, c: Class, k: string)
    requires ClassOk(c) && Readable(d)
    ensures AsWritten(d, c) ==> At(Rewritten(d, c).value, k) == At(d, k)
  {
    ExtensionsIsNotCustom();
    EveryKeyRewritten(d, c, k);
    if AsWritten(d, c) {
      assert NotCustom(Nested(d)) == Nested(d);
    }
  }

  lemma UnchangedIsAsWritten(d: Fields, c: Class)
    requires ClassOk(c) && Rewritten(d, c) == Ok(d)
    ensures AsWritten(d, c)
  {
    ExtensionsIsNotCustom();
    EveryKeyRewritten(d, c, "extensions");
    forall k
      ensures k in d && !Custom(k) ==> !Empty(d[k])
      ensures k in d && !Custom(k) && k != "extensions" ==> Settled(c, k, d[k])
      ensures k in c.defaults && !Empty(c.defaults[k]) ==> k in d
    {
      EveryKeyRewritten(d, c, k);
    }
  }

  lemma SameAtEveryKey(a: Fields, b: Fields)
    requires forall k :: At(a, k) == At(b, k)
    ensures a == b
  {
    forall k ensures k in a <==> k in b {
      assert At(a, k) == At(b, k);
    }
    forall k | k in a ensures a[k] == b[k] {
      assert At(a, k) == At(b, k);
    }
  }
}
