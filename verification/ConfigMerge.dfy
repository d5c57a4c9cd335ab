// Layered configuration: deep merge of JSON sources in a fixed precedence order, and what a path means.
module ConfigMerge {
  import opened Common

  // `Leaf` stands for booleans, numbers and strings.
  datatype Json = Null | Leaf(text: string) | Array(items: seq<Json>) | Object(fields: map<string, Json>)

  type Path = seq<string>

  datatype Source = Defaults | Local | Environment | Deployment

  // Lowest precedence first.
  const PRECEDENCE: seq<Source> := [Defaults, Local, Environment, Deployment]

  datatype ConfigError = NotAnObject(source: Source) | AlreadyConfigured(source: Source)

  // ---- merging ----

  // merge_values: a key missing from the target starts as null.
  function Merge(target: Json, source: Json): Json
    decreases source
  {
    if target.Object? && source.Object? then
      Object(map k | k in target.fields.Keys + source.fields.Keys ::
        if k in source.fields then Merge(if k in target.fields then target.fields[k] else Null, source.fields[k])
        else target.fields[k])
    else source
  }

  // ---- the meaning of a path ----

  // What is found at a path: nothing, a value, or an object whose fields are looked up further.
  datatype View = Absent | Value(json: Json) | Fields

  function ViewAt(json: Json, path: Path): View
    decreases |path|
  {
    if path == [] then (if json.Object? then Fields else Value(json))
    else if json.Object? && path[0] in json.fields then ViewAt(json.fields[path[0]], path[1..])
    else Absent
  }

  // The source defines the path, or holds a value that is not an object at a prefix of it.
  predicate Decides(source: Json, path: Path)
    decreases |path|
  {
    path == [] || !source.Object? || (path[0] in source.fields && Decides(source.fields[path[0]], path[1..]))
  }

  lemma {:induction false} DecidesMeans(source: Json, path: Path)
    ensures Decides(source, path) <==>
              ViewAt(source, path) != Absent || exists n :: 0 <= n < |path| && ViewAt(source, path[..n]).Value?
    decreases |path|
  {
    if path != [] {
      assert ViewAt(source, path[..0]).Value? <==> !source.Object?;
      if source.Object? && path[0] in source.fields {
        var field, rest := source.fields[path[0]], path[1..];
        DecidesMeans(field, rest);
        forall n | 0 <= n < |rest| ensures ViewAt(source, path[..n + 1]) == ViewAt(field, rest[..n]) {
          assert path[..n + 1][1..] == rest[..n];
        }
        if n :| 0 <= n < |rest| && ViewAt(field, rest[..n]).Value? { assert ViewAt(source, path[..n + 1]).Value?; }
        if n :| 0 < n < |path| && ViewAt(source, path[..n]).Value? { assert ViewAt(field, rest[..n - 1]).Value?; }
      } else if source.Object? {
        forall n | 0 < n < |path| ensures ViewAt(source, path[..n]) == Absent {
          assert path[..n][0] == path[0];
        }
      }
    }
  }

  // The merged value at a path is the source's where the source decides the path, the target's elsewhere.
  lemma {:induction false} MergeView(target: Json, source: Json, path: Path)
    ensures ViewAt(Merge(target, source), path) ==
            if Decides(source, path) then ViewAt(source, path) else ViewAt(target, path)
    decreases |path|
  {
    if path != [] && target.Object? && source.Object? && path[0] in source.fields {
      var k := path[0];
      MergeView(if k in target.fields then target.fields[k] else Null, source.fields[k], path[1..]);
    }
    DecidesMeans(source, path);
    if path != [] && source.Object? && path[0] in source.fields { DecidesMeans(source.fields[path[0]], path[1..]); }
  }

  // A value is determined by what is found at its paths.
  lemma {:induction false} ViewsDetermine(a: Json, b: Json)
    requires forall path :: ViewAt(a, path) == ViewAt(b, path)
    ensures a == b
    decreases a
  {
    assert ViewAt(a, []) == ViewAt(b, []);
    if a.Object? {
      forall k ensures k in a.fields <==> k in b.fields
               ensures k in a.fields ==> a.fields[k] == b.fields[k] {
        assert ViewAt(a, [k]) == ViewAt(b, [k]);
        if k in a.fields {
          forall path ensures ViewAt(a.fields[k], path) == ViewAt(b.fields[k], path) {
            assert ([k] + path)[1..] == path;
            assert ViewAt(a, [k] + path) == ViewAt(b, [k] + path);
          }
          ViewsDetermine(a.fields[k], b.fields[k]);
        }
      }
      assert a.fields == b.fields;
    }
  }

  // Merging a source again changes nothing.
  lemma RemergeIsNoOp(target: Json, source: Json)
    ensures Merge(Merge(target, source), source) == Merge(target, source)
  {
    forall path ensures ViewAt(Merge(Merge(target, source), source), path) == ViewAt(Merge(target, source), path) {
      MergeView(Merge(target, source), source, path);
      MergeView(target, source, path);
    }
    ViewsDetermine(Merge(Merge(target, source), source), Merge(target, source));
  }

  function Field(fields: map<string, Json>, k: string): Json {
    if k in fields then fields[k] else Null
  }

  // What key k of the merged object holds while the source's keys in `rest` are still to come.
  ghost predicate FieldOk(target: Json, source: Json, fields: map<string, Json>, rest: set<string>, k: string)
    requires target.Object? && source.Object?
  {
    if k in source.fields && k !in rest then
      k in fields && fields[k] == Merge(Field(target.fields, k), source.fields[k])
    else (k in fields <==> k in target.fields) && (k in fields ==> fields[k] == target.fields[k])
  }

  ghost predicate MergedSoFar(target: Json, source: Json, fields: map<string, Json>, rest: set<string>)
    requires target.Object? && source.Object?
  {
    forall k :: FieldOk(target, source, fields, rest, k)
  }

  lemma MergedOneMore(target: Json, source: Json, fields: map<string, Json>, rest: set<string>, k: string)
    requires target.Object? && source.Object? && k in rest && k in source.fields
    requires MergedSoFar(target, source, fields, rest)
    ensures Field(fields, k) == Field(target.fields, k)
    ensures MergedSoFar(target, source, fields[k := Merge(Field(target.fields, k), source.fields[k])], rest - {k})
  {
    assert FieldOk(target, source, fields, rest, k);
    var more := fields[k := Merge(Field(target.fields, k), source.fields[k])];
    forall q ensures FieldOk(target, source, more, rest - {k}, q) { assert FieldOk(target, source, fields, rest, q); }
  }

  lemma MergedAll(target: Json, source: Json, fields: map<string, Json>)
    requires target.Object? && source.Object? && MergedSoFar(target, source, fields, {})
    ensures Object(fields) == Merge(target, source)
  {
    var all := Merge(target, source).fields;
    forall k ensures k in fields <==> k in all
             ensures k in fields ==> fields[k] == all[k] {
      assert FieldOk(target, source, fields, {}, k);
    }
    assert fields == all;
  }

  // merge_values, key by key in whatever order the source map is walked.
  method MergeValues(target: Json, source: Json) returns (merged: Json)
    ensures merged == Merge(target, source)
    decreases source
  {
    if !(target.Object? && source.Object?) { return source; }
    var fields, rest := target.fields, source.fields.Keys;
    while rest != {}
      invariant rest <= source.fields.Keys && MergedSoFar(target, source, fields, rest)
      decreases |rest|
    {
      var k :| k in rest;
      MergedOneMore(target, source, fields, rest, k);
      var value := MergeValues(Field(fields, k), source.fields[k]);
      fields, rest := fields[k := value], rest - {k};
    }
    MergedAll(target, source, fields);
    merged := Object(fields);
  }

  // ---- the builder ----

  type Builder = map<Source, Json>

  // ConfigBuilder::source
  function AddSource(builder: Builder, source: Source, value: Json): Result<Builder, ConfigError> {
    if source in builder then Err(AlreadyConfigured(source))
    else if !value.Object? then Err(NotAnObject(source))
    else Ok(builder[source := value])
  }

  // Adding these sources one after the other.
  function AddAll(adds: seq<(Source, Json)>): Result<Builder, ConfigError> {
    if adds == [] then Ok(map[])
    else
      var before, last := AddAll(adds[..|adds| - 1]), adds[|adds| - 1];
      if before.Err? then before else AddSource(before.value, last.0, last.1)
  }

  ghost predicate Acceptable(adds: seq<(Source, Json)>) {
    && (forall i :: 0 <= i < |adds| ==> adds[i].1.Object?)
    && forall i, j :: 0 <= i < j < |adds| ==> adds[i].0 != adds[j].0
  }

  // The builder holds exactly what was added, and refuses exactly repeated sources and non-objects.
  lemma {:induction false} AddAllHolds(adds: seq<(Source, Json)>)
    ensures AddAll(adds).Ok? <==> Acceptable(adds)
    ensures AddAll(adds).Ok? ==>
              forall s, v :: s in AddAll(adds).value && AddAll(adds).value[s] == v <==> (s, v) in adds
    decreases |adds|
  {
    if adds != [] {
      var front, last := adds[..|adds| - 1], adds[|adds| - 1];
      AddAllHolds(front);
      assert adds == front + [last];
      if AddAll(front).Ok? {
        var built := AddAll(front).value;
        if last.0 in built {
          assert (last.0, built[last.0]) in front;
        } else {
          forall i | 0 <= i < |front| ensures front[i].0 != last.0 { assert (front[i].0, front[i].1) in front; }
        }
      }
    }
  }

  lemma SameElements<T>(a: seq<T>, b: seq<T>, x: T)
    requires multiset(a) == multiset(b)
    ensures x in a <==> x in b
  {
    assert x in multiset(a) <==> x in a;
    assert x in multiset(b) <==> x in b;
  }

  lemma NoRepeat(adds: seq<(Source, Json)>, others: seq<(Source, Json)>, i: nat, j: nat)
    requires multiset(adds) == multiset(others) && Acceptable(adds) && i < j < |others|
    ensures others[i].0 != others[j].0
  {
    if others[i].0 == others[j].0 {
      SameElements(adds, others, others[i]);
      SameElements(adds, others, others[j]);
      var m :| 0 <= m < |adds| && adds[m] == others[i];
      OnceInMultiset(adds, m);
      TwiceInMultiset(others, i, j);
    }
  }

  lemma AcceptableByContents(adds: seq<(Source, Json)>, others: seq<(Source, Json)>)
    requires multiset(adds) == multiset(others) && Acceptable(adds)
    ensures Acceptable(others)
  {
    forall i | 0 <= i < |others| ensures others[i].1.Object? { SameElements(adds, others, others[i]); }
    forall i, j | 0 <= i < j < |others| ensures others[i].0 != others[j].0 { NoRepeat(adds, others, i, j); }
  }

  // The order of the source() calls does not matter.
  lemma OrderIsIrrelevant(adds: seq<(Source, Json)>, others: seq<(Source, Json)>)
    requires multiset(adds) == multiset(others) && AddAll(adds).Ok?
    ensures AddAll(others) == AddAll(adds)
  {
    AddAllHolds(adds);
    AddAllHolds(others);
    AcceptableByContents(adds, others);
    var a, b := AddAll(adds).value, AddAll(others).value;
    forall s ensures s in a <==> s in b
             ensures s in a ==> a[s] == b[s] {
      if s in a { SameElements(adds, others, (s, a[s])); }
      if s in b { SameElements(adds, others, (s, b[s])); }
    }
    assert a == b;
  }

  lemma TwiceInMultiset<T>(s: seq<T>, i: nat, j: nat)
    requires i < j < |s| && s[i] == s[j]
    ensures multiset(s)[s[i]] >= 2
  {
    assert s == s[..j] + [s[j]] + s[j + 1..];
    assert s[..j][i] == s[i];
  }

  lemma OnceInMultiset<T>(s: seq<T>, m: nat)
    requires m < |s| && forall i :: 0 <= i < |s| && i != m ==> s[i] != s[m]
    ensures multiset(s)[s[m]] == 1
  {
    assert s == s[..m] + [s[m]] + s[m + 1..];
    assert s[m] !in s[..m] && s[m] !in s[m + 1..];
  }

  // The values of the configured sources, lowest precedence first.
  function Layers(builder: Builder, sources: seq<Source>): seq<Json> {
    if sources == [] then []
    else
      var before, last := Layers(builder, sources[..|sources| - 1]), sources[|sources| - 1];
      if last in builder then before + [builder[last]] else before
  }

  // The last layer that decides the path, over an empty object.
  function Deciding(layers: seq<Json>, path: Path): Json {
    if layers == [] then Object(map[])
    else if Decides(layers[|layers| - 1], path) then layers[|layers| - 1]
    else Deciding(layers[..|layers| - 1], path)
  }

  function MergeAll(layers: seq<Json>): Json {
    if layers == [] then Object(map[]) else Merge(MergeAll(layers[..|layers| - 1]), layers[|layers| - 1])
  }

  // ConfigBuilder::build, up to deserialization.
  method Build(builder: Builder) returns (merged: Json)
    ensures merged == MergeAll(Layers(builder, PRECEDENCE))
    ensures forall path :: ViewAt(merged, path) == ViewAt(Deciding(Layers(builder, PRECEDENCE), path), path)
  {
    merged := Object(map[]);
    var i := 0;
    while i < |PRECEDENCE|
      invariant 0 <= i <= |PRECEDENCE|
      invariant merged == MergeAll(Layers(builder, PRECEDENCE[..i]))
    {
      assert PRECEDENCE[..i + 1][..i] == PRECEDENCE[..i];
      if PRECEDENCE[i] in builder {
        LayersAppend(Layers(builder, PRECEDENCE[..i]), builder[PRECEDENCE[i]]);
        merged := MergeValues(merged, builder[PRECEDENCE[i]]);
      }
      i := i + 1;
    }
    assert PRECEDENCE[..i] == PRECEDENCE;
    forall path ensures ViewAt(merged, path) == ViewAt(Deciding(Layers(builder, PRECEDENCE), path), path) {
      HighestDecides(Layers(builder, PRECEDENCE), path);
    }
  }

  lemma LayersAppend(layers: seq<Json>, value: Json)
    ensures MergeAll(layers + [value]) == Merge(MergeAll(layers), value)
  {
    assert (layers + [value])[..|layers|] == layers;
  }

  // For every path the built value is decided by the highest-precedence source that decides it.
  lemma {:induction false} HighestDecides(layers: seq<Json>, path: Path)
    ensures ViewAt(MergeAll(layers), path) == ViewAt(Deciding(layers, path), path)
    decreases |layers|
  {
    if layers != [] {
      HighestDecides(layers[..|layers| - 1], path);
      MergeView(MergeAll(layers[..|layers| - 1]), layers[|layers| - 1], path);
    }
  }
}
