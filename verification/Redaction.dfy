// Redaction of log fields at the paths a connector's configuration schema marks secret.
module Redaction {
  import opened Basics

  // ---- Dotted paths ----

  function Split(s: string): (r: seq<string>)
    ensures |r| > 0
  {
    if s == "" then [""]
    else
      var rest := Split(s[1..]);
      if s[0] == '.' then [""] + rest else [[s[0]] + rest[0]] + rest[1..]
  }

  function Extended(prefix: string, key: string): string {
    if prefix == "" then key else prefix + "." + key
  }

  // The text of a path, as the collection builds it on its way down.
  function Dotted(prefix: string, keys: seq<string>): string
    decreases |keys|
  {
    if keys == [] then prefix else Dotted(Extended(prefix, keys[0]), keys[1..])
  }

  // The keys found when that text is split again.
  function Reread(keys: seq<string>): seq<string> { Split(Dotted("", keys)) }

  function SplitAll(keys: seq<string>): seq<string> {
    if keys == [] then [] else Split(keys[0]) + SplitAll(keys[1..])
  }

  predicate DotFree(keys: seq<string>) { forall k | k in keys :: '.' !in k }

  // The key paths whose text can be read back.
  predicate Plain(keys: seq<string>) {
    DotFree(keys) && (|keys| > 1 ==> keys[0] != "")
  }

  // One more character in front.
  function Before(c: char, parts: seq<string>): seq<string>
    requires parts != []
  {
    if c == '.' then [""] + parts else [[c] + parts[0]] + parts[1..]
  }

  lemma BeforeJoined(c: char, first: seq<string>, second: seq<string>)
    requires first != []
    ensures Before(c, first + second) == Before(c, first) + second
  {
  }

  lemma SplitBefore(c: char, s: string)
    ensures Split([c] + s) == Before(c, Split(s))
  {
    assert ([c] + s)[1..] == s;
  }

  lemma {:induction false} SplitDot(a: string, b: string)
    ensures Split(a + "." + b) == Split(a) + Split(b)
  {
    if a == "" {
      assert a + "." + b == ['.'] + b;
      SplitBefore('.', b);
    } else {
      SplitDot(a[1..], b);
      assert a + "." + b == [a[0]] + (a[1..] + "." + b) && a == [a[0]] + a[1..];
      SplitBefore(a[0], a[1..] + "." + b);
      SplitBefore(a[0], a[1..]);
      BeforeJoined(a[0], Split(a[1..]), Split(b));
    }
  }

  lemma {:induction false} SplitKey(k: string)
    ensures '.' !in k <==> Split(k) == [k]
    ensures DotFree(Split(k))
  {
    if k != "" {
      SplitKey(k[1..]);
      assert k == [k[0]] + k[1..];
      var rest := Split(k[1..]);
      forall part | part in Split(k) ensures '.' !in part {
        assert part in rest || part == "" || (k[0] != '.' && part == [k[0]] + rest[0]);
      }
      if k[0] == '.' {
        assert |Split(k)| == 1 + |rest|;
      } else if Split(k) == [k] {
        assert Split(k)[0] == [k[0]] + rest[0];
        assert rest == [k[1..]];
      }
    }
  }

  lemma {:induction false} SplitDotted(prefix: string, keys: seq<string>)
    requires prefix != ""
    ensures Split(Dotted(prefix, keys)) == Split(prefix) + SplitAll(keys)
    decreases |keys|
  {
    if keys != [] {
      SplitDotted(Extended(prefix, keys[0]), keys[1..]);
      SplitDot(prefix, keys[0]);
    }
  }

  lemma {:induction false} SplitAllKeys(keys: seq<string>)
    requires DotFree(keys)
    ensures SplitAll(keys) == keys
  {
    if keys != [] {
      SplitKey(keys[0]);
      assert keys[0] in keys && DotFree(keys[1..]);
      SplitAllKeys(keys[1..]);
    }
  }

  lemma {:induction false} LeadingEmptyKeysAreLost(keys: seq<string>)
    requires keys != [] && DotFree(keys)
    ensures Plain(Reread(keys))
    ensures Plain(keys) ==> Reread(keys) == keys
  {
    if keys[0] != "" {
      SplitDotted(keys[0], keys[1..]);
      SplitAllKeys(keys);
    } else if |keys| == 1 {
      assert Dotted("", keys) == Dotted("", keys[1..]) == "";
      assert keys == [""];
    } else {
      assert DotFree(keys[1..]);
      LeadingEmptyKeysAreLost(keys[1..]);
    }
  }

  // A path survives being written with dots and split again exactly when no key holds a dot and the
  // first of several keys is not empty.
  lemma PathSurvivesIffPlain(keys: seq<string>)
    requires keys != []
    ensures Reread(keys) == keys <==> Plain(keys)
  {
    SplitKey(Dotted("", keys));
    if DotFree(keys) {
      LeadingEmptyKeysAreLost(keys);
    }
  }

  // ---- Which fields a schema marks ----

  function Properties(schema: Json): (properties: map<string, Json>)
    ensures forall k | k in properties :: properties[k] < schema
  {
    if schema.Obj? && "properties" in schema.fields && schema.fields["properties"].Obj?
    then schema.fields["properties"].fields else map[]
  }

  predicate MarkedSecret(sub: Json) {
    sub.Obj? && "secret" in sub.fields && sub.fields["secret"] == Bool(true)
  }

  // The field at the end of `keys`, followed through nested `properties`, is marked.
  predicate SecretAt(schema: Json, keys: seq<string>)
    decreases |keys|
  {
    && keys != []
    && keys[0] in Properties(schema)
    && var sub := Properties(schema)[keys[0]];
       if |keys| == 1 then MarkedSecret(sub) else sub.Obj? && SecretAt(sub, keys[1..])
  }

  function MarkedUnder(k: string, sub: Json): set<seq<string>>
    decreases sub, 2
  {
    (if MarkedSecret(sub) then {[k]} else {}) + set keys <- SecretKeyPaths(sub) :: [k] + keys
  }

  function Union(m: map<string, set<seq<string>>>, names: set<string>): set<seq<string>>
    requires names <= m.Keys
  {
    set k <- names, keys <- m[k] :: keys
  }

  function MarkedByProperty(schema: Json): map<string, set<seq<string>>>
    decreases schema, 0
  {
    var properties := Properties(schema);
    map k | k in properties :: MarkedUnder(k, properties[k])
  }

  function SecretKeyPaths(schema: Json): set<seq<string>>
    decreases schema, 1
  {
    Union(MarkedByProperty(schema), Properties(schema).Keys)
  }

  lemma {:induction false} SecretKeyPathsAreMarked(schema: Json, keys: seq<string>)
    ensures keys in SecretKeyPaths(schema) <==> SecretAt(schema, keys)
    decreases |keys|
  {
    var marked := MarkedByProperty(schema);
    if keys in SecretKeyPaths(schema) {
      var k :| k in marked && keys in marked[k];
      assert marked[k] == MarkedUnder(k, Properties(schema)[k]);
      assert keys[0] == k;
    }
    if keys != [] && keys[0] in marked {
      var sub := Properties(schema)[keys[0]];
      SecretKeyPathsAreMarked(sub, keys[1..]);
      assert keys == [keys[0]] + keys[1..];
      assert marked[keys[0]] == MarkedUnder(keys[0], sub);
      assert keys in MarkedUnder(keys[0], sub) <==>
             (keys == [keys[0]] && MarkedSecret(sub)) || keys[1..] in SecretKeyPaths(sub);
      assert !SecretAt(sub, []);
    }
  }

  function Texts(prefix: string, paths: set<seq<string>>): set<string> {
    set keys <- paths :: Dotted(prefix, keys)
  }

  method CollectSecretFieldPaths(schema: Json, prefix: string) returns (found: set<string>)
    requires schema.Obj?
    ensures found == Texts(prefix, SecretKeyPaths(schema))
    decreases schema
  {
    found := {};
    if !("properties" in schema.fields && schema.fields["properties"].Obj?) {
      return;
    }
    var props := schema.fields["properties"].fields;
    assert props == Properties(schema);
    ghost var marked := MarkedByProperty(schema);
    var todo := props.Keys;
    while todo != {}
      invariant todo <= props.Keys
      invariant found == Texts(prefix, Union(marked, props.Keys - todo))
    {
      var key :| key in todo;
      var sub := props[key];
      var path := Extended(prefix, key);
      TextsGrow(prefix, marked, props.Keys - todo, key);
      TextsUnder(prefix, key, sub);
      if sub.Obj? {
        if MarkedSecret(sub) {
          found := found + {path};
        }
        var isObject := "type" in sub.fields && sub.fields["type"] == Str("object");
        if "properties" in sub.fields && sub.fields["properties"].Obj?
           && (isObject || sub.fields["properties"].fields != map[]) {
          var nested := CollectSecretFieldPaths(sub, path);
          found := found + nested;
        }
      }
      assert props.Keys - (todo - {key}) == props.Keys - todo + {key};
      todo := todo - {key};
    }
    assert props.Keys - todo == props.Keys;
  }

  lemma TextsGrow(prefix: string, m: map<string, set<seq<string>>>, names: set<string>, k: string)
    requires names <= m.Keys && k in m
    ensures Texts(prefix, Union(m, names + {k})) == Texts(prefix, Union(m, names)) + Texts(prefix, m[k])
  {
    assert Union(m, names + {k}) == Union(m, names) + m[k];
  }

  lemma TextsUnder(prefix: string, k: string, sub: Json)
    ensures Texts(prefix, MarkedUnder(k, sub))
         == (if MarkedSecret(sub) then {Extended(prefix, k)} else {}) + Texts(Extended(prefix, k), SecretKeyPaths(sub))
    ensures Properties(sub) == map[] ==> SecretKeyPaths(sub) == {}
  {
    assert Dotted(prefix, [k]) == Extended(prefix, k);
    forall keys ensures Dotted(prefix, [k] + keys) == Dotted(Extended(prefix, k), keys) {
      assert ([k] + keys)[1..] == keys;
    }
    var here := if MarkedSecret(sub) then {Extended(prefix, k)} else {};
    var below := Texts(Extended(prefix, k), SecretKeyPaths(sub));
    forall text ensures text in Texts(prefix, MarkedUnder(k, sub)) <==> text in here + below {
      if text in below {
        var keys :| keys in SecretKeyPaths(sub) && text == Dotted(Extended(prefix, k), keys);
        assert [k] + keys in MarkedUnder(k, sub);
      }
    }
  }

  // ---- Redacting a tree ----

  const REDACTED := Str("<redacted>")

  // Overwrite the leaf at one path, if the path leads anywhere.
  function RedactAt(j: Json, parts: seq<string>): Json
    requires parts != []
    decreases |parts|
  {
    if !j.Obj? || parts[0] !in j.fields then j
    else if |parts| == 1 then Obj(j.fields[parts[0] := REDACTED])
    else Obj(j.fields[parts[0] := RedactAt(j.fields[parts[0]], parts[1..])])
  }

  // The paths that go through k, seen from below k.
  function Below(paths: set<seq<string>>, k: string): set<seq<string>> {
    set p <- paths | |p| > 1 && p[0] == k :: p[1..]
  }

  // All paths at once.
  function RedactTree(j: Json, paths: set<seq<string>>): Json {
    if !j.Obj? then j
    else Obj(map k | k in j.fields :: if [k] in paths then REDACTED else RedactTree(j.fields[k], Below(paths, k)))
  }

  lemma {:induction false} RedactNothing(j: Json)
    ensures RedactTree(j, {}) == j
  {
    if j.Obj? {
      forall k | k in j.fields ensures RedactTree(j.fields[k], Below({}, k)) == j.fields[k] {
        assert Below({}, k) == {};
        RedactNothing(j.fields[k]);
      }
      assert RedactTree(j, {}).fields == j.fields;
    }
  }

  // One path after a set of paths is the larger set of paths.
  lemma {:induction false} RedactOneMore(j: Json, paths: set<seq<string>>, p: seq<string>)
    requires p != []
    ensures RedactAt(RedactTree(j, paths), p) == RedactTree(j, paths + {p})
  {
    if j.Obj? {
      var one, both := RedactAt(RedactTree(j, paths), p), RedactTree(j, paths + {p});
      forall k | k in j.fields ensures one.fields[k] == both.fields[k] {
        if k != p[0] {
          assert Below(paths + {p}, k) == Below(paths, k);
          assert p != [k];
        } else if |p| == 1 {
          assert p == [k];
        } else {
          assert Below(paths + {p}, k) == Below(paths, k) + {p[1..]};
          RedactOneMore(j.fields[k], Below(paths, k), p[1..]);
          assert [k] in paths + {p} <==> [k] in paths;
          assert one.fields[k] == RedactAt(RedactTree(j, paths).fields[k], p[1..]);
        }
      }
      assert one.fields == both.fields;
    }
  }

  function RedactInOrder(j: Json, order: seq<seq<string>>): Json
    requires [] !in order
  {
    if order == [] then j else RedactAt(RedactInOrder(j, order[..|order| - 1]), order[|order| - 1])
  }

  // Every order of the paths gives the same tree.
  lemma {:induction false} OrderMakesNoDifference(j: Json, order: seq<seq<string>>)
    requires [] !in order
    ensures RedactInOrder(j, order) == RedactTree(j, set p | p in order)
  {
    if order == [] {
      assert (set p | p in order) == {};
      RedactNothing(j);
    } else {
      var n := |order| - 1;
      OrderMakesNoDifference(j, order[..n]);
      RedactOneMore(j, (set p | p in order[..n]), order[n]);
      assert order == order[..n] + [order[n]];
      assert (set p | p in order) == (set p | p in order[..n]) + {order[n]};
    }
  }

  // ---- What redaction leaves ----

  function Lookup(j: Json, keys: seq<string>): Option<Json>
    decreases |keys|
  {
    if keys == [] then Some(j)
    else if j.Obj? && keys[0] in j.fields then Lookup(j.fields[keys[0]], keys[1..])
    else None
  }

  // Some proper ancestor of the node is redacted.
  ghost predicate Covered(paths: set<seq<string>>, keys: seq<string>) {
    exists n :: 0 < n < |keys| && keys[..n] in paths
  }

  // The paths that lead beyond keys, seen from there.
  function Beyond(paths: set<seq<string>>, keys: seq<string>): set<seq<string>>
    decreases |keys|
  {
    if keys == [] then paths else Beyond(Below(paths, keys[0]), keys[1..])
  }

  lemma CoveredBelow(paths: set<seq<string>>, keys: seq<string>)
    requires |keys| > 1
    ensures Covered(paths, keys) <==> [keys[0]] in paths || Covered(Below(paths, keys[0]), keys[1..])
  {
    if Covered(paths, keys) {
      var n :| 0 < n < |keys| && keys[..n] in paths;
      if n > 1 {
        assert keys[..n][1..] == keys[1..][..n - 1];
      } else {
        assert keys[..1] == [keys[0]];
      }
    }
    if [keys[0]] in paths {
      assert keys[..1] == [keys[0]];
    }
    if Covered(Below(paths, keys[0]), keys[1..]) {
      var n :| 0 < n < |keys| - 1 && keys[1..][..n] in Below(paths, keys[0]);
      var p :| p in paths && |p| > 1 && p[0] == keys[0] && p[1..] == keys[1..][..n];
      assert keys[..n + 1] == p;
    }
  }

  lemma SecretBelow(paths: set<seq<string>>, keys: seq<string>)
    requires |keys| > 1
    ensures keys in paths <==> keys[1..] in Below(paths, keys[0])
  {
    if keys[1..] in Below(paths, keys[0]) {
      var p :| p in paths && |p| > 1 && p[0] == keys[0] && p[1..] == keys[1..];
      assert keys == p;
    }
  }

  // The node at every path after redaction: gone under a redacted ancestor, the marker at a secret
  // path, and otherwise the original node with the deeper secret paths redacted.
  lemma {:induction false} EveryNodeAfterRedaction(j: Json, paths: set<seq<string>>, keys: seq<string>)
    requires keys != []
    ensures Lookup(RedactTree(j, paths), keys)
         == if Covered(paths, keys) || Lookup(j, keys).None? then None
            else if keys in paths then Some(REDACTED)
            else Some(RedactTree(Lookup(j, keys).value, Beyond(paths, keys)))
    decreases |keys|
  {
    if |keys| > 1 {
      CoveredBelow(paths, keys);
      SecretBelow(paths, keys);
      if j.Obj? && keys[0] in j.fields {
        EveryNodeAfterRedaction(j.fields[keys[0]], Below(paths, keys[0]), keys[1..]);
      }
    } else {
      assert keys == [keys[0]];
    }
  }

  // ---- The two halves together ----

  function SplitPaths(secret: set<string>): set<seq<string>> {
    set s <- secret :: Split(s)
  }

  lemma RereadTexts(paths: set<seq<string>>)
    ensures SplitPaths(Texts("", paths)) == RereadAll(paths)
  {
    forall keys | keys in paths ensures Reread(keys) in SplitPaths(Texts("", paths)) {
      assert Dotted("", keys) in Texts("", paths);
    }
  }

  lemma PlainPathsSurvive(paths: set<seq<string>>)
    requires forall keys | keys in paths :: keys != [] && Plain(keys)
    ensures (set keys <- paths :: Reread(keys)) == paths
  {
    forall keys | keys in paths ensures Reread(keys) == keys {
      PathSurvivesIffPlain(keys);
    }
  }

  lemma SurvivingPathIsPlain(paths: set<seq<string>>, keys: seq<string>)
    requires [] !in paths && keys in paths
    requires paths == set k <- paths :: Reread(k)
    ensures Plain(keys)
  {
    var from :| from in paths && Reread(from) == keys;
    var before :| before in paths && Reread(before) == from;
    SplitKey(Dotted("", before));
    LeadingEmptyKeysAreLost(from);
  }

  lemma PathsSurviveIffPlain(paths: set<seq<string>>)
    requires [] !in paths
    ensures SplitPaths(Texts("", paths)) == paths <==> forall keys | keys in paths :: Plain(keys)
  {
    RereadTexts(paths);
    if forall keys | keys in paths :: Plain(keys) {
      PlainPathsSurvive(paths);
    }
    if SplitPaths(Texts("", paths)) == paths {
      forall keys | keys in paths ensures Plain(keys) {
        SurvivingPathIsPlain(paths, keys);
      }
    }
  }

  ghost predicate PlainSchema(schema: Json) {
    forall keys | SecretAt(schema, keys) :: Plain(keys)
  }

  // The paths collected from a schema, split again, are the marked paths if and only if all are plain.
  lemma CollectedPathsAreMarkedPathsIff(schema: Json)
    ensures SplitPaths(Texts("", SecretKeyPaths(schema))) == SecretKeyPaths(schema) <==> PlainSchema(schema)
  {
    var marked := SecretKeyPaths(schema);
    SecretKeyPathsAreMarked(schema, []);
    PathsSurviveIffPlain(marked);
    if PlainSchema(schema) {
      forall keys | keys in marked ensures Plain(keys) {
        SecretKeyPathsAreMarked(schema, keys);
      }
    } else {
      var keys :| SecretAt(schema, keys) && !Plain(keys);
      SecretKeyPathsAreMarked(schema, keys);
    }
  }

  lemma {:induction false} BeyondMembers(paths: set<seq<string>>, keys: seq<string>, rest: seq<string>)
    requires keys != []
    ensures rest in Beyond(paths, keys) <==> rest != [] && keys + rest in paths
    decreases |keys|
  {
    var below := Below(paths, keys[0]);
    assert keys + rest == [keys[0]] + (keys[1..] + rest);
    assert (keys + rest)[1..] == keys[1..] + rest;
    if |keys| > 1 {
      BeyondMembers(below, keys[1..], rest);
      SecretBelow(paths, keys + rest);
    } else if rest != [] {
      assert keys[1..] + rest == rest;
      SecretBelow(paths, keys + rest);
    }
  }

  // What a log record's fields become: the paths collected from the schema, split and redacted.
  function Forwarded(schema: Json, fields: Json): Json {
    RedactTree(fields, SplitPaths(Texts("", SecretKeyPaths(schema))))
  }

  // ---- Which sets of paths redact alike ----

  // The paths that are redacted themselves, not under another.
  ghost function Top(paths: set<seq<string>>): set<seq<string>> {
    set p | p in paths && !Covered(paths, p)
  }

  // Every path has a topmost one on its way.
  lemma {:induction false} TopmostAbove(paths: set<seq<string>>, p: seq<string>) returns (n: nat)
    requires p in paths && p != []
    ensures 0 < n <= |p| && p[..n] in Top(paths)
    decreases |p|
  {
    if Covered(paths, p) {
      var k :| 0 < k < |p| && p[..k] in paths;
      n := TopmostAbove(paths, p[..k]);
      assert p[..k][..n] == p[..n];
    } else {
      n := |p|;
      assert p[..n] == p;
    }
  }

  lemma TopBelow(paths: set<seq<string>>, k: string)
    requires [k] !in paths
    ensures Below(Top(paths), k) == Top(Below(paths, k))
    ensures [k] !in Top(paths)
  {
    forall r ensures r in Below(Top(paths), k) <==> r in Top(Below(paths, k)) {
      var p := [k] + r;
      if r != [] {
        SecretBelow(Top(paths), p);
        SecretBelow(paths, p);
        CoveredBelow(paths, p);
        assert p[1..] == r;
      }
    }
  }

  lemma {:induction false} TopSuffices(j: Json, paths: set<seq<string>>)
    ensures RedactTree(j, Top(paths)) == RedactTree(j, paths)
  {
    if j.Obj? {
      var top, all := RedactTree(j, Top(paths)), RedactTree(j, paths);
      forall k | k in j.fields ensures top.fields[k] == all.fields[k] {
        if [k] in paths {
          assert [k] in Top(paths);
        } else {
          TopBelow(paths, k);
          TopSuffices(j.fields[k], Below(paths, k));
        }
      }
      assert top.fields == all.fields;
    }
  }

  lemma {:induction false} NestHolds(keys: seq<string>)
    ensures Lookup(Nest(keys), keys) == Some(Null)
  {
    if keys != [] {
      NestHolds(keys[1..]);
    }
  }

  // On the record with just that field, a topmost path of one set shows in what another set does.
  lemma TopmostShows(a: set<seq<string>>, b: set<seq<string>>, p: seq<string>)
    requires p != [] && p in Top(a) && RedactTree(Nest(p), a) == RedactTree(Nest(p), b)
    ensures p in Top(b)
  {
    NestHolds(p);
    EveryNodeAfterRedaction(Nest(p), a, p);
    EveryNodeAfterRedaction(Nest(p), b, p);
  }

  ghost predicate RedactAlike(a: set<seq<string>>, b: set<seq<string>>) {
    forall j :: RedactTree(j, a) == RedactTree(j, b)
  }

  // Two sets of paths redact every record alike if and only if their topmost paths are the same.
  lemma RedactAlikeIffSameTop(a: set<seq<string>>, b: set<seq<string>>)
    requires [] !in a && [] !in b
    ensures RedactAlike(a, b) <==> Top(a) == Top(b)
  {
    if Top(a) == Top(b) {
      forall j ensures RedactTree(j, a) == RedactTree(j, b) {
        TopSuffices(j, a);
        TopSuffices(j, b);
      }
    }
    if RedactAlike(a, b) {
      forall p ensures p in Top(a) <==> p in Top(b) {
        if p in Top(a) { TopmostShows(a, b, p); }
        if p in Top(b) { TopmostShows(b, a, p); }
      }
      assert Top(a) == Top(b);
    }
  }

  function RereadAll(paths: set<seq<string>>): set<seq<string>> {
    set p <- paths :: Reread(p)
  }

  // Every path redacted in its own right survives its text, and every text leads to or under a path.
  ghost predicate TextsSuffice(paths: set<seq<string>>) {
    && (forall p | p in Top(paths) :: Plain(p))
    && (forall q | q in paths :: LeadsTo(Reread(q), paths))
  }

  // The path, or some ancestor of it, is one of the paths.
  ghost predicate LeadsTo(t: seq<string>, paths: set<seq<string>>) {
    exists n :: 0 < n <= |t| && t[..n] in paths
  }

  lemma LeadsToTop(t: seq<string>, paths: set<seq<string>>) returns (n: nat)
    requires LeadsTo(t, paths)
    ensures 0 < n <= |t| && t[..n] in Top(paths)
  {
    var k :| 0 < k <= |t| && t[..k] in paths;
    n := TopmostAbove(paths, t[..k]);
    assert t[..k][..n] == t[..n];
  }

  lemma TextsSufficeKeepTop(paths: set<seq<string>>)
    requires [] !in paths && TextsSuffice(paths)
    ensures Top(RereadAll(paths)) == Top(paths)
  {
    forall p ensures p in Top(RereadAll(paths)) <==> p in Top(paths) {
      if p in Top(paths) {
        TopSurvives(paths, p);
      }
      if p in Top(RereadAll(paths)) {
        NothingElseOnTop(paths, p);
      }
    }
  }

  lemma TextAboveMeansPathAbove(paths: set<seq<string>>, p: seq<string>)
    requires TextsSuffice(paths) && Covered(RereadAll(paths), p)
    ensures Covered(paths, p)
  {
    var k :| 0 < k < |p| && p[..k] in RereadAll(paths);
    var q :| q in paths && Reread(q) == p[..k];
    AncestorInPaths(paths, p, k);
  }

  lemma AncestorInPaths(paths: set<seq<string>>, p: seq<string>, k: nat)
    requires k < |p| && LeadsTo(p[..k], paths)
    ensures Covered(paths, p)
  {
    var n :| 0 < n <= k && p[..k][..n] in paths;
    assert p[..k][..n] == p[..n];
  }

  lemma TopSurvives(paths: set<seq<string>>, p: seq<string>)
    requires [] !in paths && TextsSuffice(paths) && p in Top(paths)
    ensures p in Top(RereadAll(paths))
  {
    PathSurvivesIffPlain(p);
    assert p in RereadAll(paths);
    if Covered(RereadAll(paths), p) {
      TextAboveMeansPathAbove(paths, p);
    }
  }

  lemma NothingElseOnTop(paths: set<seq<string>>, t: seq<string>)
    requires [] !in paths && TextsSuffice(paths) && t in Top(RereadAll(paths))
    ensures t in Top(paths)
  {
    var q :| q in paths && Reread(q) == t;
    var n := LeadsToTop(t, paths);
    PathSurvivesIffPlain(t[..n]);
    assert Reread(t[..n]) == t[..n] && t[..n] in RereadAll(paths);
    assert n < |t| ==> Covered(RereadAll(paths), t);
    assert t[..|t|] == t;
  }

  // Leading empty keys vanish from the text unless nothing follows them.
  lemma {:induction false} FirstKeyReread(head: seq<string>, tail: seq<string>)
    requires DotFree(head) && exists k | k in head :: k != ""
    ensures Reread(head + tail)[0] != ""
    decreases |head|
  {
    var all := head + tail;
    if head[0] == "" {
      assert all[1..] == head[1..] + tail;
      assert head == [head[0]] + head[1..];
      FirstKeyReread(head[1..], tail);
    } else {
      SplitDotted(head[0], all[1..]);
      SplitKey(head[0]);
    }
  }

  lemma {:induction false} AllEmptyReread(keys: seq<string>)
    requires keys != [] && forall i | 0 <= i < |keys| :: keys[i] == ""
    ensures Reread(keys) == [""]
    decreases |keys|
  {
    assert Dotted("", keys) == Dotted("", keys[1..]);
    if |keys| > 1 {
      AllEmptyReread(keys[1..]);
    }
  }

  // If the texts keep the topmost paths, each of those is plain.
  lemma KeptTopIsPlain(paths: set<seq<string>>, p: seq<string>)
    requires [] !in paths && Top(RereadAll(paths)) == Top(paths) && p in Top(paths)
    ensures Plain(p)
  {
    var q := TopmostText(paths, p);
    if DotFree(q) {
      LeadingEmptyKeysAreLost(q);
    } else if |p| > 1 {
      var n := TopmostAbove(paths, q);
      var head := q[..n];
      var _ := TopmostText(paths, head);
      assert q == head + q[n..];
      if exists k | k in head :: k != "" {
        FirstKeyReread(head, q[n..]);
      } else if n > 1 {
        NotAllEmpty(paths, head);
      } else {
        assert head[0] in head && p[..1] !in paths;
        assert p[..1] == [p[0]] && head == [""];
      }
    }
  }

  // A topmost path is the text of some path, so its keys hold no dot.
  lemma TopmostText(paths: set<seq<string>>, p: seq<string>) returns (q: seq<string>)
    requires Top(RereadAll(paths)) == Top(paths) && p in Top(paths)
    ensures q in paths && Reread(q) == p && DotFree(p)
  {
    assert p in Top(RereadAll(paths));
    q :| q in paths && Reread(q) == p;
    SplitKey(Dotted("", q));
  }

  lemma NotAllEmpty(paths: set<seq<string>>, p: seq<string>)
    requires Top(RereadAll(paths)) == Top(paths) && p in Top(paths) && |p| > 1
    ensures exists k | k in p :: k != ""
  {
    if forall i | 0 <= i < |p| :: p[i] == "" {
      AllEmptyIsCovered(paths, p);
    } else {
      var i :| 0 <= i < |p| && p[i] != "";
      assert p[i] in p;
    }
  }

  lemma AllEmptyIsCovered(paths: set<seq<string>>, p: seq<string>)
    requires p in paths && |p| > 1 && forall i | 0 <= i < |p| :: p[i] == ""
    ensures Covered(RereadAll(paths), p)
  {
    AllEmptyReread(p);
    assert Reread(p) == p[..1] && p[..1] in RereadAll(paths);
  }

  lemma KeptTopMeansTextsSuffice(paths: set<seq<string>>)
    requires [] !in paths && Top(RereadAll(paths)) == Top(paths)
    ensures TextsSuffice(paths)
  {
    forall p | p in Top(paths) ensures Plain(p) {
      KeptTopIsPlain(paths, p);
    }
    forall q | q in paths ensures LeadsTo(Reread(q), paths) {
      var t := Reread(q);
      var n := TopmostAbove(RereadAll(paths), t);
      assert t[..n] in Top(paths);
    }
  }

  // Whether the texts of a schema's marked paths do their work.
  ghost predicate RedactsAsMarked(schema: Json) { TextsSuffice(SecretKeyPaths(schema)) }

  ghost predicate RedactsEveryRecordAsMarked(schema: Json) {
    forall fields :: Forwarded(schema, fields) == RedactTree(fields, SecretKeyPaths(schema))
  }

  // Every record is redacted at exactly the marked paths if and only if each marked path without a
  // marked ancestor is plain and the text of every other leads under a marked path.
  lemma RedactsAsMarkedIff(schema: Json)
    ensures RedactsEveryRecordAsMarked(schema) <==> RedactsAsMarked(schema)
  {
    var marked := SecretKeyPaths(schema);
    var texts := SplitPaths(Texts("", marked));
    SecretKeyPathsAreMarked(schema, []);
    RereadTexts(marked);
    RedactAlikeIffSameTop(texts, marked);
    assert RedactsEveryRecordAsMarked(schema) <==> RedactAlike(texts, marked) by {
      forall fields ensures Forwarded(schema, fields) == RedactTree(fields, texts) {}
    }
    if RedactsAsMarked(schema) {
      TextsSufficeKeepTop(marked);
    }
    if Top(texts) == Top(marked) {
      KeptTopMeansTextsSuffice(marked);
    }
  }

  // No marked path leads to the node, through it, or to one of its ancestors.
  ghost predicate Untouched(schema: Json, keys: seq<string>) {
    && (forall n | 0 < n <= |keys| :: !SecretAt(schema, keys[..n]))
    && (forall rest :: !SecretAt(schema, keys + rest))
  }

  // A node at a marked path, if present, is redacted or gone with a redacted ancestor; a node that no
  // marked path touches is unchanged.
  lemma MarkedFieldsAreRedacted(schema: Json, fields: Json, keys: seq<string>)
    requires keys != [] && RedactsAsMarked(schema)
    ensures SecretAt(schema, keys) ==> Lookup(Forwarded(schema, fields), keys) in {None, Some(Str("<redacted>"))}
    ensures Untouched(schema, keys) ==> Lookup(Forwarded(schema, fields), keys) == Lookup(fields, keys)
  {
    var marked := SecretKeyPaths(schema);
    RedactsAsMarkedIff(schema);
    EveryNodeAfterRedaction(fields, marked, keys);
    SecretKeyPathsAreMarked(schema, keys);
    if Untouched(schema, keys) {
      assert keys[..|keys|] == keys;
      forall n | 0 < n < |keys| ensures keys[..n] !in marked {
        SecretKeyPathsAreMarked(schema, keys[..n]);
      }
      forall rest ensures rest !in Beyond(marked, keys) {
        SecretKeyPathsAreMarked(schema, keys + rest);
        BeyondMembers(marked, keys, rest);
      }
      assert Beyond(marked, keys) == {};
      if Lookup(fields, keys).Some? {
        RedactNothing(Lookup(fields, keys).value);
      }
    }
  }

  // A record with one field, at the given path.
  function Nest(keys: seq<string>): Json {
    if keys == [] then Null else Obj(map[keys[0] := Nest(keys[1..])])
  }

  lemma {:induction false} NestIsRedacted(keys: seq<string>)
    requires keys != []
    ensures RedactAt(Nest(keys), keys) != Nest(keys)
  {
    assert RedactAt(Nest(keys), keys).fields[keys[0]] != Nest(keys).fields[keys[0]] by {
      if |keys| > 1 {
        NestIsRedacted(keys[1..]);
      }
    }
  }

  lemma {:induction false} AnotherPathMisses(keys: seq<string>, other: seq<string>)
    requires keys != [] && other != [] && keys != other
    ensures RedactAt(Nest(keys), other) != RedactAt(Nest(keys), keys)
    decreases |keys|
  {
    var left, right := RedactAt(Nest(keys), other), RedactAt(Nest(keys), keys);
    assert Nest([]) == Null && (|other| > 1 ==> RedactAt(Null, other[1..]) == Null);
    assert keys[0] in right.fields && keys == [keys[0]] + keys[1..] && other == [other[0]] + other[1..];
    if other[0] == keys[0] && |keys| > 1 && |other| > 1 {
      AnotherPathMisses(keys[1..], other[1..]);
    } else if |keys| > 1 {
      NestIsRedacted(keys[1..]);
    }
    assert left.fields[keys[0]] != right.fields[keys[0]];
  }

  // Redacting by the text of a path does what the path says, on every record, exactly when it is plain.
  lemma TextRedactsItsPathIffPlain(keys: seq<string>)
    requires keys != []
    ensures (forall fields :: RedactAt(fields, Reread(keys)) == RedactAt(fields, keys)) <==> Plain(keys)
  {
    PathSurvivesIffPlain(keys);
    if !Plain(keys) {
      AnotherPathMisses(keys, Reread(keys));
    }
  }
}
