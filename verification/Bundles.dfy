// STIX bundles: every nested object's custom properties are lifted and flattened like the bundle's own.
module Bundles {
  import opened Basics
  import opened CustomProperties

  // The classes of nested objects by their `type` literal.
  type Classes = map<string, Class>

  // The nested object names a class.
  predicate Typed(item: Json, classes: Classes) {
    item.Obj? && "type" in item.fields && item.fields["type"].Str? && item.fields["type"].s in classes
  }

  function ClassOf(item: Json, classes: Classes): Class
    requires Typed(item, classes)
  {
    classes[item.fields["type"].s]
  }

  ghost predicate ItemInstance(item: Json, classes: Classes) {
    && Typed(item, classes)
    && var c := ClassOf(item, classes);
       "type" in c.defaults && c.defaults["type"] == item.fields["type"] && Instance(item.fields, c)
  }

  ghost predicate ItemInstances(items: seq<Json>, classes: Classes) {
    forall i | 0 <= i < |items| :: ItemInstance(items[i], classes)
  }

  // The nested objects write themselves, so the bundle's own class dumps the list as it is.
  ghost predicate BundleInstance(m: Fields, c: Class, classes: Classes) {
    && Instance(m, c) && "objects" !in c.defaults && (forall j :: Settled(c, "objects", j))
    && "objects" in m && m["objects"].Arr? && m["objects"].items != [] && ItemInstances(m["objects"].items, classes)
  }

  // What is read back is the model as it was dumped, up to empty fields.
  ghost predicate ReadBack(again: Json, item: Json, classes: Classes) {
    again.Obj? && Typed(item, classes) && SameButEmpties(again.fields, Dumped(item.fields, ClassOf(item, classes)))
  }

  ghost predicate AllReadBack(again: seq<Json>, items: seq<Json>, classes: Classes) {
    |again| == |items| && forall i | 0 <= i < |items| :: ReadBack(again[i], items[i], classes)
  }

  function WrittenItem(item: Json, classes: Classes): Json
    requires ItemInstance(item, classes)
  {
    Obj(Written(item.fields, ClassOf(item, classes)))
  }

  function WrittenItems(items: seq<Json>, classes: Classes): seq<Json>
    requires ItemInstances(items, classes)
  {
    if items == [] then []
    else
      assert ItemInstance(items[0], classes);
      [WrittenItem(items[0], classes)] + WrittenItems(items[1..], classes)
  }

  function WrittenBundle(m: Fields, c: Class, classes: Classes): Fields
    requires BundleInstance(m, c, classes)
  {
    Written(m["objects" := Arr(WrittenItems(m["objects"].items, classes))], c)
  }

  function ParsedItem(item: Json, classes: Classes): Result<Json, Fault> {
    if !item.Obj? then Err(NotADictionary)
    else if !Typed(item, classes) then Err(UnknownType)
    else
      match Parsed(item.fields, ClassOf(item, classes))
      case Err(f) => Err(f)
      case Ok(m) => Ok(Obj(m))
  }

  function ParsedItems(items: seq<Json>, classes: Classes): Result<seq<Json>, Fault> {
    if items == [] then Ok([])
    else
      match ParsedItem(items[0], classes)
      case Err(f) => Err(f)
      case Ok(first) =>
        match ParsedItems(items[1..], classes)
        case Err(f) => Err(f)
        case Ok(rest) => Ok([first] + rest)
  }

  // The list must hold at least one object.
  function ParsedBundle(d: Fields, c: Class, classes: Classes): Result<Fields, Fault> {
    match Parsed(d, c)
    case Err(f) => Err(f)
    case Ok(m) =>
      if "objects" !in m || !m["objects"].Arr? || m["objects"].items == [] then Err(ObjectsNotAList)
      else
        match ParsedItems(m["objects"].items, classes)
        case Err(f) => Err(f)
        case Ok(items) => Ok(m["objects" := Arr(items)])
  }

  // ---- Which bundles are read ----

  ghost predicate SoundClasses(classes: Classes) {
    forall t | t in classes :: Defaults(classes[t].defaults)
  }

  // An object of a known type whose extensions are readable.
  predicate ReadableItem(item: Json, classes: Classes) {
    Typed(item, classes) && Readable(item.fields)
  }

  lemma ItemParsesIff(item: Json, classes: Classes)
    requires SoundClasses(classes)
    ensures ParsedItem(item, classes).Ok? <==> ReadableItem(item, classes)
    ensures ReadableItem(item, classes) ==>
      ParsedItem(item, classes) == Ok(Obj(Model(item.fields, ClassOf(item, classes))))
  {
    if Typed(item, classes) {
      ParsedIsModel(item.fields, ClassOf(item, classes));
    }
  }

  // A list is read if and only if every object in it is, and then each as its own class.
  lemma {:induction false} ItemsParseIff(items: seq<Json>, classes: Classes)
    requires SoundClasses(classes)
    ensures ParsedItems(items, classes).Ok? <==> forall i | 0 <= i < |items| :: ReadableItem(items[i], classes)
    ensures ParsedItems(items, classes).Ok? ==>
      var read := ParsedItems(items, classes).value;
      |read| == |items| && forall i | 0 <= i < |items| :: ParsedItem(items[i], classes) == Ok(read[i])
  {
    if items != [] {
      ItemParsesIff(items[0], classes);
      ItemsParseIff(items[1..], classes);
      assert forall i | 0 < i < |items| :: items[i] == items[1..][i - 1];
    }
  }

  // A bundle is read if and only if its own extensions are readable and it holds a non-empty list of
  // objects that are all read.
  lemma BundleParsesIff(d: Fields, c: Class, classes: Classes)
    requires SoundClasses(classes) && Defaults(c.defaults) && "objects" !in c.defaults
    ensures ParsedBundle(d, c, classes).Ok? <==>
      && Readable(d) && "objects" in d && d["objects"].Arr? && d["objects"].items != []
      && forall i | 0 <= i < |d["objects"].items| :: ReadableItem(d["objects"].items[i], classes)
  {
    ParsedIsModel(d, c);
    assert "objects"[0] == 'o' && "x_"[0] == 'x' && "objects"[..2][0] == 'o' && "extensions"[0] == 'e';
    if "objects" in d && d["objects"].Arr? {
      ItemsParseIff(d["objects"].items, classes);
    }
  }

  // ---- Written, read and written again ----

  lemma ItemReparse(item: Json, classes: Classes)
    requires ItemInstance(item, classes)
    ensures var again := ParsedItem(WrittenItem(item, classes), classes);
      && again.Ok? && ItemInstance(again.value, classes) && ReadBack(again.value, item, classes)
      && WrittenItem(again.value, classes) == WrittenItem(item, classes)
  {
    var m, c := item.fields, ClassOf(item, classes);
    ReparseIsStable(m, c);
    FlattenedAt(Dumped(m, c), "type");
    assert "type"[0] == 't';
    assert Settled(c, "type", m["type"]);
    assert At(Written(m, c), "type") == Some(m["type"]);
  }

  lemma {:induction false} ItemsReparse(items: seq<Json>, classes: Classes)
    requires ItemInstances(items, classes)
    ensures var again := ParsedItems(WrittenItems(items, classes), classes);
      && again.Ok? && ItemInstances(again.value, classes) && AllReadBack(again.value, items, classes)
      && WrittenItems(again.value, classes) == WrittenItems(items, classes)
  {
    if items != [] {
      assert ItemInstance(items[0], classes);
      ItemReparse(items[0], classes);
      ItemsReparse(items[1..], classes);
      var flat := WrittenItem(items[0], classes);
      var restFlat := WrittenItems(items[1..], classes);
      assert WrittenItems(items, classes) == [flat] + restFlat && ([flat] + restFlat)[1..] == restFlat;
      var first := ParsedItem(flat, classes).value;
      var rest := ParsedItems(restFlat, classes).value;
      assert ParsedItems([flat] + restFlat, classes) == Ok([first] + rest);
      PrependItem(first, rest, items, classes);
    }
  }

  lemma PrependItem(first: Json, rest: seq<Json>, items: seq<Json>, classes: Classes)
    requires items != [] && ItemInstance(first, classes) && ItemInstances(rest, classes)
    requires ReadBack(first, items[0], classes) && AllReadBack(rest, items[1..], classes)
    ensures ItemInstances([first] + rest, classes) && AllReadBack([first] + rest, items, classes)
    ensures WrittenItems([first] + rest, classes) == [WrittenItem(first, classes)] + WrittenItems(rest, classes)
  {
    var all := [first] + rest;
    assert all[1..] == rest;
    forall i | 0 <= i < |all| ensures ItemInstance(all[i], classes) && ReadBack(all[i], items[i], classes) {
      if i > 0 {
        assert all[i] == rest[i - 1] && items[i] == items[1..][i - 1];
      }
    }
  }

  // A bundle written, read and written again is the same, and so is every object in it. What is read
  // back is the bundle and each of its objects as they were dumped, up to empty fields.
  lemma BundleReparseIsStable(m: Fields, c: Class, classes: Classes)
    requires BundleInstance(m, c, classes)
    ensures var again := ParsedBundle(WrittenBundle(m, c, classes), c, classes);
      && again.Ok? && BundleInstance(again.value, c, classes)
      && WrittenBundle(again.value, c, classes) == WrittenBundle(m, c, classes)
      && again.value["extensions"] == m["extensions"]
      && SameButEmpties(again.value - {"objects"}, Dumped(m, c) - {"objects"})
      && AllReadBack(again.value["objects"].items, m["objects"].items, classes)
  {
    var flat := Arr(WrittenItems(m["objects"].items, classes));
    var read := BundleRead(m, c, classes, flat);
    ItemsReparse(m["objects"].items, classes);
    var again := read["objects" := Arr(ParsedItems(flat.items, classes).value)];
    RawInstance(read, c, again["objects"]);
    WritesAs(again, read, flat, c, classes);
    OthersKept(read, m, again["objects"], flat, c);
  }

  // The bundle's own part: its objects arrive as they were written.
  lemma BundleRead(m: Fields, c: Class, classes: Classes, flat: Json) returns (read: Fields)
    requires BundleInstance(m, c, classes) && flat == Arr(WrittenItems(m["objects"].items, classes))
    ensures Parsed(WrittenBundle(m, c, classes), c) == Ok(read) && Instance(read, c)
    ensures "objects" in read && read["objects"] == flat && flat.items != []
    ensures Written(read, c) == WrittenBundle(m, c, classes) && read["extensions"] == m["extensions"]
    ensures SameButEmpties(read, Dumped(m["objects" := flat], c))
  {
    var raw := m["objects" := flat];
    RawInstance(m, c, flat);
    ReparseIsStable(raw, c);
    read := Parsed(Written(raw, c), c).value;
    DumpedObjects(raw, c, flat);
    ObjectsKept(read, Dumped(raw, c), flat);
  }

  lemma DumpedObjects(raw: Fields, c: Class, flat: Json)
    requires "objects" in raw && raw["objects"] == flat && Settled(c, "objects", flat)
    ensures "objects" in Dumped(raw, c) && Dumped(raw, c)["objects"] == flat
  {}

  lemma WritesAs(m: Fields, raw: Fields, flat: Json, c: Class, classes: Classes)
    requires BundleInstance(m, c, classes) && Instance(raw, c)
    requires flat == Arr(WrittenItems(m["objects"].items, classes))
    requires "objects" in raw && raw["objects"] == flat && m == raw["objects" := m["objects"]]
    ensures WrittenBundle(m, c, classes) == Written(raw, c)
  {
    assert m["objects" := flat] == raw;
  }

  lemma RawInstance(m: Fields, c: Class, objects: Json)
    requires Instance(m, c) && "objects" !in c.defaults
    ensures Instance(m["objects" := objects], c) && m["objects" := objects]["extensions"] == m["extensions"]
  {
    assert "extensions"[0] != "objects"[0];
    assert "objects"[0] == 'o' && "x_"[0] == 'x';
    assert "objects"[..2][0] == 'o';
  }

  lemma ObjectsKept(read: Fields, dumped: Fields, flat: Json)
    requires SameButEmpties(read, dumped) && "objects" in dumped && dumped["objects"] == flat && !Empty(flat)
    ensures "objects" in read && read["objects"] == flat
  {
    assert Cleaned(dumped)["objects"] == flat;
    assert Cleaned(read)["objects"] == flat;
  }

  lemma OthersKept(read: Fields, m: Fields, objects: Json, flat: Json, c: Class)
    requires SameButEmpties(read, Dumped(m["objects" := flat], c))
    ensures SameButEmpties(read["objects" := objects] - {"objects"}, Dumped(m, c) - {"objects"})
  {
    var d := Dumped(m["objects" := flat], c);
    assert read["objects" := objects] - {"objects"} == read - {"objects"};
    assert Dumped(m, c) - {"objects"} == d - {"objects"};
    assert Cleaned(read - {"objects"}) == Cleaned(read) - {"objects"};
    assert Cleaned(d - {"objects"}) == Cleaned(d) - {"objects"};
  }
}
