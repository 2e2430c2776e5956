// Bundle validation, partitioning and ingestion.
module Ingest {
  import opened Basics
  import opened Store

  // What is wrong with one object, before it is rendered as a line of text.
  datatype Problem =
    | NotAnObject(typeName: string)
    | MissingType
    | MissingId
    | MalformedId(id: string)
    | ForeignId(stixType: string)
    | WrongSpecVersion
    | UnknownType(stixType: string)
    | SchemaViolation(text: string)
    | WrongBundleType
    | ObjectsNotArray

  // A problem and where it lies: the indices through nested `objects` arrays.
  datatype Issue = Issue(path: seq<nat>, problem: Problem)

  // The compiled schemas and the text helpers of the runtime, as parameters.
  datatype Schemas = Schemas(
    known: set<string>,                          // types with a compiled validator; "bundle" has one
    errors: (string, Json) -> seq<string>,       // formatted errors of one validator on one instance
    isBlank: string -> bool,                     // nothing left after stripping white space
    isStixId: string -> bool,                    // the identifier pattern
    show: Json -> string)                        // text of a value used as an object id

  function TypeName(j: Json): string {
    match j
    case Null => "NoneType"
    case Bool(_) => "bool"
    case Num(_) => "int"
    case Str(_) => "str"
    case Arr(_) => "list"
    case Obj(_) => "dict"
  }

  function Field(j: Json, name: string): Json
    requires j.Obj?
  {
    Member(j.fields, name)
  }

  predicate HasPrefix(s: string, p: string) { |p| <= |s| && s[..|p|] == p }

  // ---- Validation: no issue means the object is accepted ----

  // The text of a field, if it is one that is not blank.
  predicate HasText(v: Schemas, obj: Json, name: string) {
    obj.Obj? && name in obj.fields && obj.fields[name].Str? && !v.isBlank(obj.fields[name].s)
  }

  // An object of an unmodelled type passes with a type, an identifier of that type and the version.
  predicate WellFormedCustom(v: Schemas, obj: Json) {
    && HasText(v, obj, "type") && HasText(v, obj, "id")
    && v.isStixId(obj.fields["id"].s) && obj.fields["type"].s + "--" <= obj.fields["id"].s
    && "spec_version" in obj.fields && obj.fields["spec_version"] == Str("2.1")
  }

  function CustomTypeProblems(v: Schemas, obj: Json): (r: seq<Problem>)
    requires obj.Obj?
    ensures r == [] <==> WellFormedCustom(v, obj)
    ensures !HasText(v, obj, "type") ==> r == [MissingType]
    ensures HasText(v, obj, "type") ==>
      && (MissingId in r <==> !HasText(v, obj, "id"))
      && (WrongSpecVersion in r <==> !("spec_version" in obj.fields && obj.fields["spec_version"] == Str("2.1")))
  {
    var stixType, id, spec := Field(obj, "type"), Field(obj, "id"), Field(obj, "spec_version");
    if !stixType.Str? || v.isBlank(stixType.s) then [MissingType]
    else
      (if !id.Str? || v.isBlank(id.s) then [MissingId]
       else if !v.isStixId(id.s) then [MalformedId(id.s)]
       else if !HasPrefix(id.s, stixType.s + "--") then [ForeignId(stixType.s)]
       else [])
      + (if spec != Str("2.1") then [WrongSpecVersion] else [])
  }

  function SchemaProblems(v: Schemas, stixType: string, j: Json): seq<Problem> {
    var errors := v.errors(stixType, j);
    seq(|errors|, i requires 0 <= i < |errors| => SchemaViolation(errors[i]))
  }

  predicate IsBundle(j: Json) { j.Obj? && Field(j, "type") == Str("bundle") }

  // The checks made on one level, nested objects aside.
  function LevelProblems(v: Schemas, j: Json, allowCustom: bool): seq<Problem> {
    if !j.Obj? then [NotAnObject(TypeName(j))]
    else if IsBundle(j) then SchemaProblems(v, "bundle", j)
    else
      var stixType := Field(j, "type");
      if !IsText(stixType) then [MissingType]
      else if stixType.s in v.known then SchemaProblems(v, stixType.s, j)
      else if allowCustom then CustomTypeProblems(v, j)
      else [UnknownType(stixType.s)]
  }

  // The objects a level holds, if it is a bundle.
  function Contents(j: Json): (items: seq<Json>)
    ensures forall i | 0 <= i < |items| :: items[i] < j
  {
    if IsBundle(j) && Field(j, "objects").Arr? then Field(j, "objects").items else []
  }

  function Here(problems: seq<Problem>): seq<Issue> {
    seq(|problems|, i requires 0 <= i < |problems| => Issue([], problems[i]))
  }

  function Under(i: nat, issues: seq<Issue>): seq<Issue> {
    seq(|issues|, k requires 0 <= k < |issues| => Issue([i] + issues[k].path, issues[k].problem))
  }

  // Issues of the first n nested objects.
  function NestedIssues(v: Schemas, j: Json, n: nat, allowCustom: bool): seq<Issue>
    requires n <= |Contents(j)|
    decreases j, 0, n
  {
    if n == 0 then []
    else NestedIssues(v, j, n - 1, allowCustom) + Under(n - 1, Validate(v, Contents(j)[n - 1], allowCustom))
  }

  function Validate(v: Schemas, j: Json, allowCustom: bool): seq<Issue>
    decreases j, 0, |Contents(j)| + 1
  {
    Here(LevelProblems(v, j, allowCustom)) + NestedIssues(v, j, |Contents(j)|, allowCustom)
  }

  method ValidateStixObject(v: Schemas, j: Json, allowCustom: bool) returns (issues: seq<Issue>)
    ensures issues == Validate(v, j, allowCustom)
    ensures issues == [] <==> Passes(v, j, allowCustom)
    decreases j, 1
  {
    AcceptedIffPasses(v, j, allowCustom);
    if !j.Obj? {
      return Here([NotAnObject(TypeName(j))]);
    }
    if IsBundle(j) {
      issues := ValidateBundle(v, j, allowCustom);
      return;
    }
    var stixType := Field(j, "type");
    if !IsText(stixType) {
      return Here([MissingType]);
    }
    if stixType.s !in v.known {
      if allowCustom {
        return Here(CustomTypeProblems(v, j));
      }
      return Here([UnknownType(stixType.s)]);
    }
    issues := Here(SchemaProblems(v, stixType.s, j));
  }

  method ValidateBundle(v: Schemas, j: Json, allowCustom: bool) returns (issues: seq<Issue>)
    requires IsBundle(j)
    ensures issues == Validate(v, j, allowCustom)
    ensures issues == [] <==> Passes(v, j, allowCustom)
    decreases j, 0
  {
    var bundleIssues := Here(SchemaProblems(v, "bundle", j));
    var subIssues: seq<Issue> := [];
    var items := Contents(j);
    for index := 0 to |items|
      invariant subIssues == NestedIssues(v, j, index, allowCustom)
    {
      if !items[index].Obj? {
        assert [index] + [] == [index];
        assert Validate(v, items[index], allowCustom) == [Issue([], NotAnObject(TypeName(items[index])))];
        subIssues := subIssues + [Issue([index], NotAnObject(TypeName(items[index])))];
      } else {
        var nested := ValidateStixObject(v, items[index], allowCustom);
        subIssues := subIssues + Under(index, nested);
      }
    }
    issues := bundleIssues + subIssues;
    AcceptedIffPasses(v, j, allowCustom);
  }

  // ---- What acceptance means ----

  // The object found by following nested bundles along a path of indices.
  function LevelAt(j: Json, path: seq<nat>): Option<Json>
    decreases |path|
  {
    if path == [] then Some(j)
    else if path[0] < |Contents(j)| then LevelAt(Contents(j)[path[0]], path[1..])
    else None
  }

  // The issue lies at an object that exists and is a problem of that object's own level.
  ghost predicate Located(v: Schemas, j: Json, issue: Issue, allowCustom: bool) {
    var level := LevelAt(j, issue.path);
    level.Some? && issue.problem in LevelProblems(v, level.value, allowCustom)
  }

  lemma HereMembers(problems: seq<Problem>, issue: Issue)
    ensures issue in Here(problems) <==> issue.path == [] && issue.problem in problems
  {
    if issue.path == [] && issue.problem in problems {
      var i :| 0 <= i < |problems| && problems[i] == issue.problem;
      assert Here(problems)[i] == issue;
    }
  }

  lemma UnderMembers(i: nat, issues: seq<Issue>, issue: Issue)
    ensures issue in Under(i, issues)
      <==> issue.path != [] && issue.path[0] == i && Issue(issue.path[1..], issue.problem) in issues
  {
    var inner := Issue(if issue.path == [] then [] else issue.path[1..], issue.problem);
    if issue in Under(i, issues) {
      var k :| 0 <= k < |issues| && Under(i, issues)[k] == issue;
      assert issue.path[1..] == issues[k].path;
    }
    if issue.path != [] && issue.path[0] == i && inner in issues {
      var k :| 0 <= k < |issues| && issues[k] == inner;
      assert issue.path == [i] + inner.path;
      assert Under(i, issues)[k] == issue;
    }
  }

  lemma {:induction false} NestedMembers(v: Schemas, j: Json, n: nat, allowCustom: bool, issue: Issue)
    requires n <= |Contents(j)|
    ensures issue in NestedIssues(v, j, n, allowCustom)
      <==> issue.path != [] && issue.path[0] < n
           && Issue(issue.path[1..], issue.problem) in Validate(v, Contents(j)[issue.path[0]], allowCustom)
  {
    if n > 0 {
      NestedMembers(v, j, n - 1, allowCustom, issue);
      UnderMembers(n - 1, Validate(v, Contents(j)[n - 1], allowCustom), issue);
    }
  }

  // Validation reports exactly the problems of every level at every depth, each at its own path.
  lemma {:induction false} IssuesAreThoseOfEveryLevel(v: Schemas, j: Json, allowCustom: bool, issue: Issue)
    ensures issue in Validate(v, j, allowCustom) <==> Located(v, j, issue, allowCustom)
    decreases |issue.path|
  {
    HereMembers(LevelProblems(v, j, allowCustom), issue);
    NestedMembers(v, j, |Contents(j)|, allowCustom, issue);
    if issue.path != [] && issue.path[0] < |Contents(j)| {
      IssuesAreThoseOfEveryLevel(v, Contents(j)[issue.path[0]], allowCustom, Issue(issue.path[1..], issue.problem));
    }
  }

  // The rule by which one object passes, the objects it may hold aside: a bundle by the bundle schema, a
  // known type by its schema, any other by its structure if such types are let in.
  predicate PassesAlone(v: Schemas, j: Json, allowCustom: bool) {
    && j.Obj? && "type" in j.fields && j.fields["type"].Str? && j.fields["type"].s != ""
    && var t := j.fields["type"].s;
       if t == "bundle" || t in v.known then v.errors(t, j) == [] else allowCustom && WellFormedCustom(v, j)
  }

  // The rule for everything below as well.
  predicate Passes(v: Schemas, j: Json, allowCustom: bool) {
    && PassesAlone(v, j, allowCustom)
    && (j.fields["type"].s == "bundle" && "objects" in j.fields && j.fields["objects"].Arr? ==>
          forall i | 0 <= i < |j.fields["objects"].items| :: Passes(v, j.fields["objects"].items[i], allowCustom))
  }

  lemma LevelPassesIff(v: Schemas, j: Json, allowCustom: bool)
    ensures LevelProblems(v, j, allowCustom) == [] <==> PassesAlone(v, j, allowCustom)
  {
    if j.Obj? && "type" in j.fields && j.fields["type"].Str? {
      var t := j.fields["type"].s;
      assert |SchemaProblems(v, t, j)| == |v.errors(t, j)|;
    }
  }

  // Anything but a bundle is reported by its kind.
  lemma ReportsByKind(v: Schemas, j: Json, allowCustom: bool)
    ensures !j.Obj? ==> Validate(v, j, allowCustom) == [Issue([], NotAnObject(TypeName(j)))]
    ensures j.Obj? && !("type" in j.fields && j.fields["type"].Str? && j.fields["type"].s != "") ==>
      Validate(v, j, allowCustom) == [Issue([], MissingType)]
    ensures j.Obj? && "type" in j.fields && j.fields["type"].Str? && j.fields["type"].s !in {"", "bundle"} ==>
      var t, issues := j.fields["type"].s, Validate(v, j, allowCustom);
      if t in v.known then
        |issues| == |v.errors(t, j)|
        && forall i | 0 <= i < |issues| :: issues[i] == Issue([], SchemaViolation(v.errors(t, j)[i]))
      else if !allowCustom then issues == [Issue([], UnknownType(t))]
      else |issues| == |CustomTypeProblems(v, j)|
           && forall i | 0 <= i < |issues| :: issues[i] == Issue([], CustomTypeProblems(v, j)[i])
  {
    assert !IsBundle(j) ==> Validate(v, j, allowCustom) == Here(LevelProblems(v, j, allowCustom));
  }

  lemma NestedSilence(v: Schemas, j: Json, n: nat, allowCustom: bool, i: nat)
    requires i < n <= |Contents(j)| && NestedIssues(v, j, n, allowCustom) == []
    ensures Validate(v, Contents(j)[i], allowCustom) == []
  {
    var inner := Validate(v, Contents(j)[i], allowCustom);
    if inner != [] {
      assert ([i] + inner[0].path)[1..] == inner[0].path;
      NestedMembers(v, j, n, allowCustom, Issue([i] + inner[0].path, inner[0].problem));
    }
  }

  lemma NestedPassIff(v: Schemas, j: Json, allowCustom: bool)
    ensures NestedIssues(v, j, |Contents(j)|, allowCustom) == [] <==> AllSilent(v, Contents(j), allowCustom)
  {
    var n, nested := |Contents(j)|, NestedIssues(v, j, |Contents(j)|, allowCustom);
    if nested == [] {
      forall i | 0 <= i < n ensures Validate(v, Contents(j)[i], allowCustom) == [] {
        NestedSilence(v, j, n, allowCustom, i);
      }
    } else {
      NestedMembers(v, j, n, allowCustom, nested[0]);
      assert Validate(v, Contents(j)[nested[0].path[0]], allowCustom) != [];
    }
  }

  ghost predicate AllSilent(v: Schemas, items: seq<Json>, allowCustom: bool) {
    forall i | 0 <= i < |items| :: Validate(v, items[i], allowCustom) == []
  }

  ghost predicate AllPass(v: Schemas, items: seq<Json>, allowCustom: bool) {
    forall i | 0 <= i < |items| :: Passes(v, items[i], allowCustom)
  }

  lemma SilentIffLevelAndNested(v: Schemas, j: Json, allowCustom: bool)
    ensures Validate(v, j, allowCustom) == []
      <==> LevelProblems(v, j, allowCustom) == [] && NestedIssues(v, j, |Contents(j)|, allowCustom) == []
  {
    assert |Here(LevelProblems(v, j, allowCustom))| == |LevelProblems(v, j, allowCustom)|;
  }

  lemma PassesIffAloneAndContents(v: Schemas, j: Json, allowCustom: bool)
    ensures Passes(v, j, allowCustom) <==> PassesAlone(v, j, allowCustom) && AllPass(v, Contents(j), allowCustom)
  {
  }

  // An object is accepted if and only if it passes the rule.
  lemma {:induction false} AcceptedIffPasses(v: Schemas, j: Json, allowCustom: bool)
    ensures Validate(v, j, allowCustom) == [] <==> Passes(v, j, allowCustom)
    decreases j
  {
    SilentIffLevelAndNested(v, j, allowCustom);
    LevelPassesIff(v, j, allowCustom);
    NestedPassIff(v, j, allowCustom);
    PassesIffAloneAndContents(v, j, allowCustom);
    forall i | 0 <= i < |Contents(j)|
      ensures Validate(v, Contents(j)[i], allowCustom) == [] <==> Passes(v, Contents(j)[i], allowCustom)
    {
      AcceptedIffPasses(v, Contents(j)[i], allowCustom);
    }
  }

  ghost predicate EveryLevelPasses(v: Schemas, j: Json, allowCustom: bool) {
    forall path | LevelAt(j, path).Some? :: PassesAlone(v, LevelAt(j, path).value, allowCustom)
  }

  // That is, if and only if every level at every depth passes its own checks.
  lemma AcceptedIffEveryLevelPasses(v: Schemas, j: Json, allowCustom: bool)
    ensures Validate(v, j, allowCustom) == [] <==> EveryLevelPasses(v, j, allowCustom)
  {
    var issues := Validate(v, j, allowCustom);
    if issues == [] {
      forall path | LevelAt(j, path).Some? ensures PassesAlone(v, LevelAt(j, path).value, allowCustom) {
        LevelPassesIff(v, LevelAt(j, path).value, allowCustom);
        var problems := LevelProblems(v, LevelAt(j, path).value, allowCustom);
        if problems != [] {
          IssuesAreThoseOfEveryLevel(v, j, allowCustom, Issue(path, problems[0]));
        }
      }
    } else {
      var issue := issues[0];
      IssuesAreThoseOfEveryLevel(v, j, allowCustom, issue);
      LevelPassesIff(v, LevelAt(j, issue.path).value, allowCustom);
      assert LevelAt(j, issue.path).Some? && !PassesAlone(v, LevelAt(j, issue.path).value, allowCustom);
    }
  }

  // ---- Partitioning a bundle ----

  datatype Failure = Failure(objectId: string, issue: Issue)

  predicate Accepts(v: Schemas, item: Json, allowCustom: bool) { item.Obj? && Validate(v, item, allowCustom) == [] }

  function Failures(objectId: string, issues: seq<Issue>): seq<Failure> {
    seq(|issues|, i requires 0 <= i < |issues| => Failure(objectId, issues[i]))
  }

  // What one item contributes to the failure list; nothing exactly when it is accepted. An object's issues
  // are filed under its own identifier if it has one, everything else under the bundle's.
  function ItemFailures(v: Schemas, bundleId: string, item: Json, i: nat, allowCustom: bool): (r: seq<Failure>)
    ensures r == [] <==> Accepts(v, item, allowCustom)
    ensures !item.Obj? ==> r == [Failure(bundleId, Issue([i], NotAnObject(TypeName(item))))]
    ensures item.Obj? ==>
      && |r| == |Validate(v, item, allowCustom)|
      && forall k | 0 <= k < |r| ::
           && r[k].issue == Validate(v, item, allowCustom)[k]
           && (if "id" in item.fields && item.fields["id"].Str? && item.fields["id"].s != ""
               then r[k].objectId == item.fields["id"].s else r[k].objectId == bundleId)
  {
    if !item.Obj? then [Failure(bundleId, Issue([i], NotAnObject(TypeName(item))))]
    else
      var id := Field(item, "id");
      var r := Failures(if IsText(id) then id.s else bundleId, Validate(v, item, allowCustom));
      assert |r| == |Validate(v, item, allowCustom)|;
      r
  }

  function AllFailures(v: Schemas, bundleId: string, items: seq<Json>, allowCustom: bool): seq<Failure> {
    if items == [] then []
    else (AllFailures(v, bundleId, items[..|items| - 1], allowCustom)
          + ItemFailures(v, bundleId, items[|items| - 1], |items| - 1, allowCustom))
  }

  // The accepted items, in their order.
  function Valid(v: Schemas, items: seq<Json>, allowCustom: bool): seq<map<string, Json>> {
    if items == [] then []
    else (Valid(v, items[..|items| - 1], allowCustom)
          + if Accepts(v, items[|items| - 1], allowCustom) then [items[|items| - 1].fields] else [])
  }

  function Rejected(v: Schemas, items: seq<Json>, allowCustom: bool): nat {
    if items == [] then 0
    else Rejected(v, items[..|items| - 1], allowCustom) + if Accepts(v, items[|items| - 1], allowCustom) then 0 else 1
  }

  // The failure of a bundle whose envelope cannot be used at all.
  function EnvelopeFailure(v: Schemas, bundle: Json): (r: Option<Failure>)
    ensures r.None? <==>
      && bundle.Obj? && "type" in bundle.fields && bundle.fields["type"] == Str("bundle")
      && "id" in bundle.fields && bundle.fields["id"].Str? && bundle.fields["id"].s != ""
      && "objects" in bundle.fields && bundle.fields["objects"].Arr?
  {
    if !bundle.Obj? then Some(Failure("unknown", Issue([], NotAnObject(TypeName(bundle)))))
    else if !IsBundle(bundle) then
      Some(Failure(if "id" in bundle.fields then v.show(bundle.fields["id"])
          else "unknown", Issue([], WrongBundleType)))
    else if !IsText(Field(bundle, "id")) then Some(Failure("unknown", Issue([], MissingId)))
    else if !Field(bundle, "objects").Arr? then Some(Failure(Field(bundle, "id").s, Issue([], ObjectsNotArray)))
    else None
  }

  function Items(bundle: Json): seq<Json> {
    if bundle.Obj? && Field(bundle, "objects").Arr? then Field(bundle, "objects").items else []
  }

  method ValidateAndPartitionBundle(v: Schemas, bundle: Json, allowCustom: bool)
    returns (valid: seq<map<string, Json>>, failures: seq<Failure>)
    ensures EnvelopeFailure(v, bundle).Some? ==> valid == [] && failures == [EnvelopeFailure(v, bundle).value]
    ensures EnvelopeFailure(v, bundle).None? ==>
      && valid == Valid(v, Items(bundle), allowCustom)
      && failures == AllFailures(v, Field(bundle, "id").s, Items(bundle), allowCustom)
  {
    valid, failures := [], [];
    if !bundle.Obj? {
      return valid, [Failure("unknown", Issue([], NotAnObject(TypeName(bundle))))];
    }
    if !IsBundle(bundle) {
      var objectId := "unknown";
      if "id" in bundle.fields {
        objectId := v.show(bundle.fields["id"]);
      }
      return valid, [Failure(objectId, Issue([], WrongBundleType))];
    }
    if !IsText(Field(bundle, "id")) {
      return valid, [Failure("unknown", Issue([], MissingId))];
    }
    var bundleId := Field(bundle, "id").s;
    if !Field(bundle, "objects").Arr? {
      return valid, [Failure(bundleId, Issue([], ObjectsNotArray))];
    }
    var items := Field(bundle, "objects").items;
    for index := 0 to |items|
      invariant valid == Valid(v, items[..index], allowCustom)
      invariant failures == AllFailures(v, bundleId, items[..index], allowCustom)
    {
      var item := items[index];
      assert items[..index + 1][..index] == items[..index];
      if !item.Obj? {
        failures := failures + [Failure(bundleId, Issue([index], NotAnObject(TypeName(item))))];
      } else {
        var issues := ValidateStixObject(v, item, allowCustom);
        if issues != [] {
          var objectId := if IsText(Field(item, "id")) then Field(item, "id").s else bundleId;
          failures := failures + Failures(objectId, issues);
        } else {
          assert failures + [] == failures;
          valid := valid + [item.fields];
        }
      }
    }
    assert items[..|items|] == items;
  }

  // The valid list is the accepted items in order, the rest are rejected, and each rejected item
  // accounts for at least one failure.
  lemma {:induction false} PartitionConserves(v: Schemas, bundleId: string, items: seq<Json>, allowCustom: bool)
    ensures |Valid(v, items, allowCustom)| + Rejected(v, items, allowCustom) == |items|
    ensures |AllFailures(v, bundleId, items, allowCustom)| >= Rejected(v, items, allowCustom)
    ensures AllFailures(v, bundleId, items, allowCustom) == [] <==> Rejected(v, items, allowCustom) == 0
    ensures forall o :: o in Valid(v, items, allowCustom) <==> Obj(o) in items && Accepts(v, Obj(o), allowCustom)
  {
    if items != [] {
      var n := |items| - 1;
      PartitionConserves(v, bundleId, items[..n], allowCustom);
      assert items == items[..n] + [items[n]];
      assert |ItemFailures(v, bundleId, items[n], n, allowCustom)| == 0 <==> Accepts(v, items[n], allowCustom);
      forall o ensures o in Valid(v, items, allowCustom) <==> Obj(o) in items && Accepts(v, Obj(o), allowCustom) {
        assert Obj(o) in items <==> Obj(o) in items[..n] || Obj(o) == items[n];
      }
    }
  }

  // The valid list is an order-preserving selection of the items: those accepted, all of them.
  lemma {:induction false} ValidIsOrderedSelection(v: Schemas, items: seq<Json>, allowCustom: bool)
    returns (picked: seq<nat>)
    ensures var valid := Valid(v, items, allowCustom);
      && |picked| == |valid|
      && (forall a, b | 0 <= a < b < |picked| :: picked[a] < picked[b])
      && (forall a | 0 <= a < |picked| :: picked[a] < |items| && items[picked[a]] == Obj(valid[a]))
      && (forall i | 0 <= i < |items| :: i in picked <==> Accepts(v, items[i], allowCustom))
  {
    picked := [];
    if items != [] {
      var n := |items| - 1;
      var before := ValidIsOrderedSelection(v, items[..n], allowCustom);
      picked := before + if Accepts(v, items[n], allowCustom) then [n] else [];
      assert forall i | 0 <= i < n :: items[..n][i] == items[i];
      forall i | 0 <= i < |items| ensures i in picked <==> Accepts(v, items[i], allowCustom) {
        assert i < n ==> (i in picked <==> i in before);
      }
    }
  }

  // The failures are those of the items, each at its place.
  lemma {:induction false} FailureOrigins(v: Schemas, bundleId: string, items: seq<Json>, allowCustom: bool, f: Failure)
    ensures f in AllFailures(v, bundleId, items, allowCustom)
      <==> exists i | 0 <= i < |items| :: f in ItemFailures(v, bundleId, items[i], i, allowCustom)
  {
    if items != [] {
      var n := |items| - 1;
      FailureOrigins(v, bundleId, items[..n], allowCustom, f);
      assert forall i | 0 <= i < n :: items[..n][i] == items[i];
      if i :| 0 <= i < |items| && f in ItemFailures(v, bundleId, items[i], i, allowCustom) {
        assert i < n ==> f in ItemFailures(v, bundleId, items[..n][i], i, allowCustom);
      }
      if i :| 0 <= i < n && f in ItemFailures(v, bundleId, items[..n][i], i, allowCustom) {
        assert f in ItemFailures(v, bundleId, items[i], i, allowCustom);
      }
    }
  }

  // ---- Ingestion ----

  datatype EmitAck = EmitAck(accepted: nat, duplicates: int, failures: seq<Failure>)

  // Nothing to store, or every object makes an admissible row: one that does not fails them all.
  predicate Storable(valid: seq<map<string, Json>>, source: string, batchSize: int, parse: string -> Option<Time>) {
    || valid == []
    || (batchSize >= 1 && forall i | 0 <= i < |valid| :: StorableObject(valid[i], source, parse))
  }

  predicate StorableObject(obj: map<string, Json>, source: string, parse: string -> Option<Time>) {
    var row, confidence := RowOf(obj, source, parse), Member(obj, "confidence");
    row.Ok? && (confidence.Num? ==> 0 <= confidence.n <= 100)
  }

  lemma StorableRows(valid: seq<map<string, Json>>, source: string, parse: string -> Option<Time>)
    ensures (forall i | 0 <= i < |valid| :: StorableObject(valid[i], source, parse))
      <==> RowsOf(valid, source, parse).Ok? && AllAdmissible(RowsOf(valid, source, parse).value)
  {
    RowsOfEach(valid, source, parse);
    forall i | 0 <= i < |valid| && RowOf(valid[i], source, parse).Ok?
      ensures StorableObject(valid[i], source, parse) <==> Admissible(RowOf(valid[i], source, parse).value)
    {
      StorableIffAdmissible(valid[i], source, parse);
    }
  }

  lemma StorableIffAdmissible(obj: map<string, Json>, source: string, parse: string -> Option<Time>)
    requires RowOf(obj, source, parse).Ok?
    ensures StorableObject(obj, source, parse) <==> Admissible(RowOf(obj, source, parse).value)
  {
  }

  // Validation happens first; the insertion is one transaction, rolled back when it fails.
  method IngestStixBundle(repo: StixObjectRepository, v: Schemas, bundle: Json, source: string, batchSize: int,
                          allowCustom: bool, parse: string -> Option<Time>)
    returns (ack: Result<EmitAck, Fault>)
    modifies repo`rows, repo`nextId
    ensures EnvelopeFailure(v, bundle).Some? ==>
      repo.View() == old(repo.View()) && ack == Ok(EmitAck(0, 0, [EnvelopeFailure(v, bundle).value]))
    ensures ack.Ok? <==>
      EnvelopeFailure(v, bundle).Some? || Storable(Valid(v, Items(bundle), allowCustom), source, batchSize, parse)
    ensures ack.Err? ==> repo.rows == old(repo.rows)
    ensures ack.Ok? && EnvelopeFailure(v, bundle).None? ==>
      var valid := Valid(v, Items(bundle), allowCustom);
      && RowsOf(valid, source, parse).Ok?
      && repo.View() == BulkInsert(old(repo.View()), RowsOf(valid, source, parse).value)
      && ack.value.accepted == |repo.rows| - |old(repo.rows)|
      && ack.value.accepted + ack.value.duplicates + Rejected(v, Items(bundle), allowCustom) == |Items(bundle)|
      && ack.value.failures == AllFailures(v, Field(bundle, "id").s, Items(bundle), allowCustom)
  {
    var valid, failures := ValidateAndPartitionBundle(v, bundle, allowCustom);
    if EnvelopeFailure(v, bundle).None? {
      PartitionConserves(v, Field(bundle, "id").s, Items(bundle), allowCustom);
    }
    if valid == [] {
      return Ok(EmitAck(0, 0, failures));
    }
    StorableRows(valid, source, parse);
    var saved := repo.rows;
    var counts := repo.BulkInsertDedupe(valid, source, batchSize, parse);
    match counts {
      case Err(f) =>
        repo.rows := saved;
        ack := Err(f);
      case Ok(c) =>
        ack := Ok(EmitAck(c.0, c.1, failures));
    }
  }
}
