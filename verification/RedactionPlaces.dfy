/** Place by place: what the redactor makes of each value of a body, and which places the checker reports. */
module RedactionPlaces {
  import opened Options
  import opened Redaction

  // ----- What each place of the body becomes -----

  /** A value inside a body, and the keys around it from the outermost in. */
  datatype Place = Place(keys: seq<string>, value: Json)

  /** The place a way leads to: at each step the i-th field of an object or the i-th item of a list. */
  function PlaceAt(v: Json, way: seq<nat>): Option<Place>
    decreases |way|
  {
    if way == [] then Some(Place([], v))
    else if v.Obj? && way[0] < |v.fields| then
      match PlaceAt(v.fields[way[0]].value, way[1..])
      case Some(p) => Some(Place([v.fields[way[0]].key] + p.keys, p.value))
      case None => None
    else if v.Arr? && way[0] < |v.items| then PlaceAt(v.items[way[0]], way[1..])
    else None
  }

  predicate NoneSecret(rules: Rules, keys: seq<string>) {
    forall i :: 0 <= i < |keys| ==> !rules.secret(keys[i])
  }

  lemma {:induction false} ItemRedacted(rules: Rules, items: seq<Json>, flags: Flags, i: nat)
    requires i < |items|
    ensures |RedactItems(rules, items, flags)| == |items|
    ensures RedactItems(rules, items, flags)[i] == Redact(rules, items[i], flags)
  {
    if |items| > 1 { ItemRedacted(rules, items[1..], flags, if i == 0 then 0 else i - 1); }
  }

  function RedactedField(rules: Rules, f: Field): Json {
    if f.value.Bool? || (rules.countWord(f.key) && (f.value.Int? || f.value.Null?)) then f.value
    else if rules.secret(f.key) then Str("***REDACTED***")
    else Redact(rules, f.value, rules.flags(f.key))
  }

  lemma {:induction false} FieldRedacted(rules: Rules, fields: seq<Field>, i: nat)
    requires i < |fields|
    ensures |RedactFields(rules, fields)| == |fields|
    ensures RedactFields(rules, fields)[i] == Field(fields[i].key, RedactedField(rules, fields[i]))
  {
    if |fields| > 1 { FieldRedacted(rules, fields[1..], if i == 0 then 0 else i - 1); }
  }

  /** A leaf's new value: text is read under the flags of the nearest key, and nothing else changes. */
  function LeafRedacted(rules: Rules, keys: seq<string>, flags: Flags, leaf: Json): Json {
    if leaf.Str?
    then Str(rules.text(leaf.s, if keys == [] then flags else rules.flags(keys[|keys| - 1])))
    else leaf
  }

  predicate IsLeaf(v: Json) { !v.Arr? && !v.Obj? }

  /** Under no secret key every leaf is where it was, a text redacted by its nearest key, anything else as it was. */
  lemma {:induction false} LeavesByPlace(rules: Rules, v: Json, way: seq<nat>, flags: Flags)
    requires PlaceAt(v, way).Some? && IsLeaf(PlaceAt(v, way).value.value)
    requires NoneSecret(rules, PlaceAt(v, way).value.keys)
    ensures var p := PlaceAt(v, way).value;
            PlaceAt(Redact(rules, v, flags), way) ==
              Some(Place(p.keys, LeafRedacted(rules, p.keys, flags, p.value)))
    decreases |way|
  {
    if way != [] {
      var i := way[0];
      if v.Arr? {
        ItemRedacted(rules, v.items, flags, i);
        LeavesByPlace(rules, v.items[i], way[1..], flags);
      } else {
        var f, below := v.fields[i], PlaceAt(v.fields[i].value, way[1..]).value;
        FieldRedacted(rules, v.fields, i);
        assert ([f.key] + below.keys)[1..] == below.keys && ([f.key] + below.keys)[0] == f.key;
        LeavesByPlace(rules, f.value, way[1..], rules.flags(f.key));
      }
    }
  }

  /** An object inside a body, under no secret key. */
  predicate ObjectAt(rules: Rules, v: Json, way: seq<nat>) {
    && PlaceAt(v, way).Some? && PlaceAt(v, way).value.value.Obj? && NoneSecret(rules, PlaceAt(v, way).value.keys)
  }

  /** A secret key's value is discarded whole, whatever it is, but for a boolean and for a count of tokens. */
  lemma {:induction false} SecretsByPlace(rules: Rules, v: Json, way: seq<nat>, i: nat, flags: Flags)
    requires ObjectAt(rules, v, way) && i < |PlaceAt(v, way).value.value.fields|
    requires rules.secret(PlaceAt(v, way).value.value.fields[i].key)
    ensures var p := PlaceAt(v, way).value; var f := p.value.fields[i];
            var counted := rules.countWord(f.key) && (f.value.Int? || f.value.Null?);
            PlaceAt(Redact(rules, v, flags), way + [i]) ==
              Some(Place(p.keys + [f.key], if f.value.Bool? || counted then f.value else Str("***REDACTED***")))
    decreases |way|
  {
    if way == [] {
      FieldRedacted(rules, v.fields, i);
      assert way + [i] == [i] && [i][1..] == [];
      assert PlaceAt(Redact(rules, v, flags).fields[i].value, []).value.keys == [];
      assert [v.fields[i].key] + [] == [] + [v.fields[i].key];
    } else {
      assert (way + [i])[0] == way[0] && (way + [i])[1..] == way[1..] + [i];
      if v.Arr? {
        ItemRedacted(rules, v.items, flags, way[0]);
        SecretsByPlace(rules, v.items[way[0]], way[1..], i, flags);
      } else {
        var f, below := v.fields[way[0]], PlaceAt(v.fields[way[0]].value, way[1..]).value;
        FieldRedacted(rules, v.fields, way[0]);
        assert ([f.key] + below.keys)[1..] == below.keys && ([f.key] + below.keys)[0] == f.key;
        SecretsByPlace(rules, f.value, way[1..], i, rules.flags(f.key));
        var inner := [below.value.fields[i].key];
        assert ([f.key] + below.keys) + inner == [f.key] + (below.keys + inner);
      }
    }
  }

  /** Every secret-named field, at every depth, has nothing to hide. */
  ghost predicate Clean(rules: Rules, v: Json)
    decreases v
  {
    match v
    case Obj(fields) => forall i :: 0 <= i < |fields| ==> CleanField(rules, fields[i]) && Clean(rules, fields[i].value)
    case Arr(items) => forall i :: 0 <= i < |items| ==> Clean(rules, items[i])
    case _ => true
  }

  predicate CleanField(rules: Rules, f: Field) {
    rules.secret(f.key) ==>
      f.value.Bool? || f.value == Str("***REDACTED***") || (rules.countWord(f.key) && (f.value.Int? || f.value.Null?))
  }

  lemma {:induction false} NoSecretsLeft(rules: Rules, v: Json, flags: Flags)
    ensures Clean(rules, Redact(rules, v, flags))
    decreases v
  {
    var r := Redact(rules, v, flags);
    if v.Obj? {
      if v.fields != [] { FieldRedacted(rules, v.fields, 0); }
      forall i | 0 <= i < |v.fields|
        ensures |r.fields| == |v.fields| && CleanField(rules, r.fields[i]) && Clean(rules, r.fields[i].value)
      {
        FieldRedacted(rules, v.fields, i);
        NoSecretsLeft(rules, v.fields[i].value, rules.flags(v.fields[i].key));
      }
    } else if v.Arr? {
      if v.items != [] { ItemRedacted(rules, v.items, flags, 0); }
      forall i | 0 <= i < |v.items| ensures |r.items| == |v.items| && Clean(rules, r.items[i]) {
        ItemRedacted(rules, v.items, flags, i);
        NoSecretsLeft(rules, v.items[i], flags);
      }
    }
  }

  // ----- The places the checker reports -----

  /** The keys and indices on a way. */
  function Parts(v: Json, way: seq<nat>): Path
    requires PlaceAt(v, way).Some?
    decreases |way|
  {
    if way == [] then []
    else if v.Obj? then [Key(v.fields[way[0]].key)] + Parts(v.fields[way[0]].value, way[1..])
    else [Index(way[0])] + Parts(v.items[way[0]], way[1..])
  }

  /** A text under no secret key that the redactor would still change. */
  predicate LeaksText(rules: Rules, v: Json, way: seq<nat>, flags: Flags) {
    && PlaceAt(v, way).Some? && PlaceAt(v, way).value.value.Str?
    && var p := PlaceAt(v, way).value;
       NoneSecret(rules, p.keys) && LeafRedacted(rules, p.keys, flags, p.value) != p.value
  }

  predicate LeaksField(rules: Rules, f: Field) {
    && rules.secret(f.key) && f.value != Str("***REDACTED***") && !f.value.Bool?
    && !(rules.countWord(f.key) && (f.value.Int? || f.value.Null?))
  }

  /** A secret-named field that still has a value to hide. */
  predicate LeaksSecret(rules: Rules, v: Json, way: seq<nat>) {
    && way != [] && ObjectAt(rules, v, way[..|way| - 1])
    && var fields := PlaceAt(v, way[..|way| - 1]).value.value.fields;
       way[|way| - 1] < |fields| && LeaksField(rules, fields[way[|way| - 1]])
  }

  predicate Leaks(rules: Rules, v: Json, way: seq<nat>, flags: Flags) {
    LeaksText(rules, v, way, flags) || LeaksSecret(rules, v, way)
  }

  lemma {:induction false} ItemLeaks(rules: Rules, v: Json, way: seq<nat>, flags: Flags)
    requires way != [] && v.Arr?
    ensures Leaks(rules, v, way, flags) <==> way[0] < |v.items| && Leaks(rules, v.items[way[0]], way[1..], flags)
  {
    if |way| > 1 { assert way[..|way| - 1][0] == way[0] && way[..|way| - 1][1..] == way[1..][..|way| - 2]; }
  }

  lemma {:induction false} FieldLeaks(rules: Rules, v: Json, way: seq<nat>, flags: Flags)
    requires way != [] && v.Obj? && way[0] < |v.fields|
    ensures var f := v.fields[way[0]];
            Leaks(rules, v, way, flags) <==>
            if rules.secret(f.key) then |way| == 1 && LeaksField(rules, f)
            else Leaks(rules, f.value, way[1..], rules.flags(f.key))
  {
    FieldLeaksText(rules, v, way, flags);
    FieldLeaksSecret(rules, v, way);
  }

  lemma FieldLeaksText(rules: Rules, v: Json, way: seq<nat>, flags: Flags)
    requires way != [] && v.Obj? && way[0] < |v.fields|
    ensures var f := v.fields[way[0]];
            LeaksText(rules, v, way, flags) <==>
            !rules.secret(f.key) && LeaksText(rules, f.value, way[1..], rules.flags(f.key))
  {
    var f, below := v.fields[way[0]], PlaceAt(v.fields[way[0]].value, way[1..]);
    if below.Some? {
      var keys := [f.key] + below.value.keys;
      assert keys[1..] == below.value.keys && keys[0] == f.key;
      assert NoneSecret(rules, keys) <==> !rules.secret(f.key) && NoneSecret(rules, keys[1..]);
    }
  }

  lemma FieldLeaksSecret(rules: Rules, v: Json, way: seq<nat>)
    requires way != [] && v.Obj? && way[0] < |v.fields|
    ensures var f := v.fields[way[0]];
            LeaksSecret(rules, v, way) <==>
            if |way| == 1 then LeaksField(rules, f)
            else !rules.secret(f.key) && LeaksSecret(rules, f.value, way[1..])
  {
    var f, front := v.fields[way[0]], way[..|way| - 1];
    if |way| > 1 {
      assert front[0] == way[0] && front[1..] == way[1..][..|way| - 2];
      var below := PlaceAt(f.value, front[1..]);
      if below.Some? {
        var keys := [f.key] + below.value.keys;
        assert keys[1..] == below.value.keys && keys[0] == f.key;
        assert NoneSecret(rules, keys) <==> !rules.secret(f.key) && NoneSecret(rules, keys[1..]);
      }
    }
  }

  lemma {:induction false} InItems(rules: Rules, items: seq<Json>, path: Path, index: nat, flags: Flags, p: Path)
    ensures p in ResidualItems(rules, items, path, index, flags) <==>
            exists i :: 0 <= i < |items| && p in Residual(rules, items[i], path + [Index(index + i)], flags)
  {
    if items != [] {
      InItems(rules, items[1..], path, index + 1, flags, p);
      assert items == [items[0]] + items[1..];
    }
  }

  lemma {:induction false} InFields(rules: Rules, fields: seq<Field>, path: Path, p: Path)
    ensures p in ResidualFields(rules, fields, path) <==>
            exists i :: 0 <= i < |fields| && p in ResidualField(rules, fields[i], path)
  {
    if fields != [] {
      InFields(rules, fields[1..], path, p);
      assert fields == [fields[0]] + fields[1..];
    }
  }

  /** Every place that leaks is reported, by its own keys and indices. */
  lemma {:induction false} LeaksAreReported(rules: Rules, v: Json, way: seq<nat>, path: Path, flags: Flags)
    requires Leaks(rules, v, way, flags)
    ensures PlaceAt(v, way).Some? && path + Parts(v, way) in Residual(rules, v, path, flags)
    decreases |way|
  {
    if way == [] {
      assert path + [] == path;
    } else if v.Arr? {
      ItemLeaks(rules, v, way, flags);
      var i, below := way[0], path + [Index(way[0])];
      LeaksAreReported(rules, v.items[i], way[1..], below, flags);
      assert below + Parts(v.items[i], way[1..]) == path + Parts(v, way);
      InItems(rules, v.items, path, 0, flags, path + Parts(v, way));
    } else {
      FieldLeaks(rules, v, way, flags);
      var f, below := v.fields[way[0]], path + [Key(v.fields[way[0]].key)];
      if rules.secret(f.key) {
        assert way[1..] == [] && Parts(v, way) == [Key(f.key)];
      } else {
        LeaksAreReported(rules, f.value, way[1..], below, rules.flags(f.key));
        assert below + Parts(f.value, way[1..]) == path + Parts(v, way);
      }
      InFields(rules, v.fields, path, path + Parts(v, way));
    }
  }

  /** And every report is of a place that leaks. */
  lemma {:induction false} ReportsLeak(rules: Rules, v: Json, path: Path, flags: Flags, p: Path) returns (way: seq<nat>)
    requires p in Residual(rules, v, path, flags)
    ensures Leaks(rules, v, way, flags) && PlaceAt(v, way).Some? && p == path + Parts(v, way)
    decreases v
  {
    if v.Obj? {
      InFields(rules, v.fields, path, p);
      var i: nat :| i < |v.fields| && p in ResidualField(rules, v.fields[i], path);
      var f := v.fields[i];
      if rules.secret(f.key) {
        way := [i];
      } else {
        var rest := ReportsLeak(rules, f.value, path + [Key(f.key)], rules.flags(f.key), p);
        way := [i] + rest;
        assert way[1..] == rest;
        assert path + [Key(f.key)] + Parts(f.value, rest) == path + Parts(v, way);
      }
      FieldLeaks(rules, v, way, flags);
    } else if v.Arr? {
      InItems(rules, v.items, path, 0, flags, p);
      var i: nat :| i < |v.items| && p in Residual(rules, v.items[i], path + [Index(0 + i)], flags);
      var rest := ReportsLeak(rules, v.items[i], path + [Index(i)], flags, p);
      way := [i] + rest;
      assert way[1..] == rest;
      assert path + [Index(i)] + Parts(v.items[i], rest) == path + Parts(v, way);
      ItemLeaks(rules, v, way, flags);
    } else {
      way := [];
      assert path + [] == path;
    }
  }
}
