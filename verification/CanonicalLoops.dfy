/** `Type::canonical` as written: one pass that fills an ordered set, list or map and
    stops at the first refusal. */
module CanonicalLoops {
  import opened Options
  import opened Ordered
  import opened Json
  import opened KeyText
  import opened PortableValues
  import opened CanonicalKeys

  /** The keys `done` of the first values, all of them accepted. */
  ghost predicate Keyed(ks: seq<Option<string>>, done: seq<string>) {
    |done| <= |ks| && forall i :: 0 <= i < |done| ==> ks[i] == Some(done[i])
  }

  lemma KeyedAll(ks: seq<Option<string>>, done: seq<string>)
    requires Keyed(ks, done) && |done| == |ks|
    ensures All(ks) == Some(done)
  {
    assert All(ks).value == done;
  }

  // ---- sets ----

  lemma SetRefused(ks: seq<Option<string>>, done: seq<string>)
    requires Keyed(ks, done) && |done| < |ks|
    requires ks[|done|].None? || ks[|done|].value in done
    ensures RustSet(All(ks)).None?
  {
    if All(ks).Some? {
      var k := All(ks).value;
      var j :| 0 <= j < |done| && done[j] == k[|done|];
      assert k[j] == k[|done|];
    }
  }

  lemma SetBuilt(ks: seq<Option<string>>, done: seq<string>, keys: set<string>)
    requires Keyed(ks, done) && |done| == |ks| && NoRepeats(done)
    requires forall x :: x in keys <==> x in done
    ensures RustSet(All(ks)) == Some("set:" + ArrayText(Ascending(keys)))
  {
    hide ArrayText;
    assert keys == Range(done);
    KeyedAll(ks, done);
  }

  method CanonicalSet(e: Type, values: seq<Json>, depth: nat) returns (k: Option<string>)
    ensures k == RustSet(All(RustKeys(e, values, depth)))
    decreases e, 3
  {
    hide RustKey, ArrayText, RustSet, All;
    ghost var ks := RustKeys(e, values, depth);
    ghost var done: seq<string> := [];
    var keys: set<string> := {};
    for i := 0 to |values|
      invariant |done| == i && Keyed(ks, done) && NoRepeats(done)
      invariant forall x :: x in keys <==> x in done
    {
      var r := Canonical(e, values[i], depth);
      if r.None? || r.value in keys {
        SetRefused(ks, done);
        return None;
      }
      keys := keys + {r.value};
      done := done + [r.value];
    }
    SetBuilt(ks, done, keys);
    k := Some("set:" + ArrayText(Ascending(keys)));
  }

  // ---- sequences and tuples ----

  method CanonicalItems(e: Type, values: seq<Json>, depth: nat) returns (keys: Option<seq<string>>)
    ensures keys == All(RustKeys(e, values, depth))
    decreases e, 3
  {
    hide RustKey;
    ghost var ks := RustKeys(e, values, depth);
    var done: seq<string> := [];
    for i := 0 to |values|
      invariant |done| == i && Keyed(ks, done)
    {
      var r := Canonical(e, values[i], depth);
      if r.None? { return None; }
      done := done + [r.value];
    }
    KeyedAll(ks, done);
    keys := Some(done);
  }

  method CanonicalParts(ty: Type, values: seq<Json>, depth: nat) returns (keys: Option<seq<string>>)
    requires ty.TTuple? && |values| == |ty.elements|
    ensures keys == All(RustParts(ty, values, depth))
    decreases ty, 0
  {
    hide RustKey;
    ghost var ks := RustParts(ty, values, depth);
    var done: seq<string> := [];
    for i := 0 to |values|
      invariant |done| == i && Keyed(ks, done)
    {
      var r := Canonical(ty.elements[i], values[i], depth);
      if r.None? { return None; }
      done := done + [r.value];
    }
    KeyedAll(ks, done);
    keys := Some(done);
  }

  // ---- records and maps ----

  ghost predicate FieldsKeyed(ty: Type, v: Json, names: seq<string>, i: nat, keys: map<string, string>, depth: nat)
    requires ty.TRecord? && v.Obj?
  {
    && i <= |names|
    && keys.Keys == Range(names[..i])
    && forall n :: n in keys ==> n in ty.fields && n in v.fields
                                 && RustKey(ty.fields[n], v.fields[n], depth) == Some(keys[n])
  }

  lemma FieldsKeyedNext(ty: Type, v: Json, names: seq<string>, i: nat, keys: map<string, string>, depth: nat, k: string)
    requires ty.TRecord? && v.Obj? && FieldsKeyed(ty, v, names, i, keys, depth)
    requires i < |names| && names[i] in ty.fields && names[i] in v.fields
    requires RustKey(ty.fields[names[i]], v.fields[names[i]], depth) == Some(k)
    ensures FieldsKeyed(ty, v, names, i + 1, keys[names[i] := k], depth)
  {
    hide RustKey;
    assert Range(names[..i + 1]) == Range(names[..i]) + {names[i]};
  }

  /** Fields are visited in ascending name order; a missing one refuses the value. */
  method CanonicalRecord(ty: Type, v: Json, depth: nat) returns (k: Option<string>)
    requires ty.TRecord? && depth <= MAX_VALUE_DEPTH
    ensures k == RustKey(ty, v, depth)
    decreases ty, 0
  {
    if !v.Obj? || |v.fields| != |ty.fields| {
      RecordMisfit(ty, v, depth);
      return None;
    }
    var names := Ascending(ty.fields.Keys);
    var keys: map<string, string> := map[];
    assert FieldsKeyed(ty, v, names, 0, keys, depth + 1);
    hide RustKey, ObjectText, FieldsKeyed, StrictlyAscending;
    for i := 0 to |names|
      invariant FieldsKeyed(ty, v, names, i, keys, depth + 1)
    {
      var name := names[i];
      assert name in ty.fields.Keys;
      if name !in v.fields {
        RecordMisfit(ty, v, depth);
        return None;
      }
      var r := Canonical(ty.fields[name], v.fields[name], depth + 1);
      if r.None? {
        FieldRefused(ty, v, name, depth);
        return None;
      }
      FieldsKeyedNext(ty, v, names, i, keys, depth + 1, r.value);
      keys := keys[name := r.value];
    }
    RecordDone(ty, v, names, keys, depth);
    k := Some("record:" + ObjectText(keys));
  }

  lemma RecordDone(ty: Type, v: Json, names: seq<string>, keys: map<string, string>, depth: nat)
    requires ty.TRecord? && depth <= MAX_VALUE_DEPTH && v.Obj? && |v.fields| == |ty.fields|
    requires Range(names) == ty.fields.Keys && FieldsKeyed(ty, v, names, |names|, keys, depth + 1)
    ensures RustKey(ty, v, depth) == Some("record:" + ObjectText(keys))
  {
    hide RustKey, ObjectText;
    assert names[..|names|] == names;
    RecordBuilt(ty, v, keys, depth);
  }

  lemma RecordMisfit(ty: Type, v: Json, depth: nat)
    requires ty.TRecord?
    requires !v.Obj? || |v.fields| != |ty.fields| || exists n :: n in ty.fields && n !in v.fields
    ensures RustKey(ty, v, depth).None?
  {
    hide RustKey;
    RecordRefused(ty, v, depth);
  }

  lemma FieldRefused(ty: Type, v: Json, n: string, depth: nat)
    requires ty.TRecord? && depth <= MAX_VALUE_DEPTH && n in ty.fields && v.Obj? && n in v.fields
    requires RustKey(ty.fields[n], v.fields[n], depth + 1).None?
    ensures RustKey(ty, v, depth).None?
  {
    hide ObjectText;
    if IsRecordBody(v, ty.fields) {
      RecordUnfolds(ty, v, depth);
      assert RustFields(ty, v.fields, depth + 1)[n].None?;
    } else {
      RecordRefused(ty, v, depth);
    }
  }

  lemma RecordBuilt(ty: Type, v: Json, keys: map<string, string>, depth: nat)
    requires ty.TRecord? && depth <= MAX_VALUE_DEPTH && v.Obj? && |v.fields| == |ty.fields|
    requires keys.Keys == ty.fields.Keys
    requires forall n :: n in keys ==> n in v.fields && RustKey(ty.fields[n], v.fields[n], depth + 1) == Some(keys[n])
    ensures RustKey(ty, v, depth) == Some("record:" + ObjectText(keys))
  {
    hide ObjectText, RustKey;
    RecordShape(v.fields.Keys, ty.fields.Keys);
    RecordUnfolds(ty, v, depth);
    assert AllFields(RustFields(ty, v.fields, depth + 1)).value == keys;
  }

  ghost predicate EntriesKeyed(e: Type, entries: seq<Json>, done: seq<string>, depth: nat) {
    && |done| <= |entries|
    && (forall i :: 0 <= i < |done| ==> IsEntry(entries[i]) && RustKey(e, entries[i].items[1], depth) == Some(done[i]))
    && (forall i, j :: 0 <= i < j < |done| ==> entries[i].items[0].text != entries[j].items[0].text)
  }

  /** What the map holds after the first entries. */
  ghost predicate Holds(entries: seq<Json>, done: seq<string>, keys: map<string, string>) {
    && |done| <= |entries|
    && (forall i, n :: i < |done| && Places(entries, i, n) ==> n in keys && keys[n] == done[i])
    && (forall n :: n in keys ==> exists i :: i < |done| && Places(entries, i, n))
  }

  lemma HoldsNext(entries: seq<Json>, done: seq<string>, keys: map<string, string>, name: string, k: string)
    requires Holds(entries, done, keys) && Places(entries, |done|, name) && name !in keys
    ensures Holds(entries, done + [k], keys[name := k])
  {
    var more, next := done + [k], keys[name := k];
    forall i, n | i < |more| && Places(entries, i, n) ensures n in next && next[n] == more[i] {
      assert i < |done| || n == name;
    }
    forall n | n in next ensures exists i :: i < |more| && Places(entries, i, n) {
      if n != name {
        var i :| i < |done| && Places(entries, i, n);
      }
    }
  }

  function MapKey(e: Type, entries: seq<Json>, depth: nat): Option<string> {
    if IsMapBody(entries) then RustObject("map:", Placed(entries, All(RustKeys(e, Payloads(entries), depth)))) else None
  }

  lemma MapRefused(e: Type, entries: seq<Json>, done: seq<string>, depth: nat)
    requires EntriesKeyed(e, entries, done, depth) && |done| < |entries|
    requires var x := entries[|done|];
             IsEntry(x) && RustKey(e, x.items[1], depth).Some?
             ==> exists i :: i < |done| && Places(entries, i, x.items[0].text)
    ensures MapKey(e, entries, depth).None?
  {
    hide RustKey, ObjectText, ByText;
    if IsMapBody(entries) {
      assert RustKeys(e, Payloads(entries), depth)[|done|] == RustKey(e, entries[|done|].items[1], depth);
      assert All(RustKeys(e, Payloads(entries), depth)).None?;
    }
  }

  lemma MapBuilt(e: Type, entries: seq<Json>, done: seq<string>, keys: map<string, string>, depth: nat)
    requires Progress(e, entries, done, keys, depth) && |done| == |entries|
    ensures MapKey(e, entries, depth) == Some("map:" + ObjectText(keys))
  {
    hide RustKey, ObjectText;
    KeyedAll(RustKeys(e, Payloads(entries), depth), done);
    var m := ByText(entries, done);
    forall n | n in keys ensures n in m && m[n] == keys[n] {
      var i :| i < |done| && Places(entries, i, n);
    }
    forall n | n in m ensures n in keys {
      var i :| Places(entries, i, n);
    }
    assert m == keys;
  }

  ghost predicate Progress(e: Type, entries: seq<Json>, done: seq<string>, keys: map<string, string>, depth: nat) {
    EntriesKeyed(e, entries, done, depth) && Holds(entries, done, keys)
  }

  lemma ProgressNext(e: Type, entries: seq<Json>, done: seq<string>, keys: map<string, string>, k: string, depth: nat)
    requires Progress(e, entries, done, keys, depth) && |done| < |entries| && IsEntry(entries[|done|])
    requires RustKey(e, entries[|done|].items[1], depth) == Some(k) && entries[|done|].items[0].text !in keys
    ensures Progress(e, entries, done + [k], keys[entries[|done|].items[0].text := k], depth)
  {
    hide RustKey;
    HoldsNext(entries, done, keys, entries[|done|].items[0].text, k);
    forall i | 0 <= i < |done| ensures entries[i].items[0].text != entries[|done|].items[0].text {
      assert Places(entries, i, entries[i].items[0].text);
    }
  }

  lemma ProgressRefused(e: Type, entries: seq<Json>, done: seq<string>, keys: map<string, string>, depth: nat)
    requires Progress(e, entries, done, keys, depth) && |done| < |entries|
    requires var x := entries[|done|]; IsEntry(x) && RustKey(e, x.items[1], depth).Some? ==> x.items[0].text in keys
    ensures MapKey(e, entries, depth).None?
  {
    hide RustKey, MapKey;
    MapRefused(e, entries, done, depth);
  }

  method CanonicalMap(e: Type, entries: seq<Json>, depth: nat) returns (k: Option<string>)
    ensures k == MapKey(e, entries, depth)
    decreases e, 3
  {
    ghost var done: seq<string> := [];
    var keys: map<string, string> := map[];
    assert Progress(e, entries, done, keys, depth);
    hide RustKey, ObjectText, MapKey, Progress;
    for i := 0 to |entries|
      invariant |done| == i && Progress(e, entries, done, keys, depth)
    {
      if !IsEntry(entries[i]) {
        ProgressRefused(e, entries, done, keys, depth);
        return None;
      }
      var r := Canonical(e, entries[i].items[1], depth);
      if r.None? || entries[i].items[0].text in keys {
        ProgressRefused(e, entries, done, keys, depth);
        return None;
      }
      ProgressNext(e, entries, done, keys, r.value, depth);
      keys := keys[entries[i].items[0].text := r.value];
      done := done + [r.value];
    }
    assert Progress(e, entries, done, keys, depth);
    MapBuilt(e, entries, done, keys, depth);
    k := Some("map:" + ObjectText(keys));
  }

  // ---- every type ----

  method CanonicalCollection(ty: Type, v: Json, depth: nat) returns (k: Option<string>)
    requires (ty.TSet? || ty.TSeq? || ty.TTuple? || ty.TMap?) && depth <= MAX_VALUE_DEPTH
    ensures k == RustKey(ty, v, depth)
    decreases ty, 1
  {
    hide RustSet, RustObject, ArrayText, ObjectText, IsMapBody, Placed;
    k := None;
    match ty
    case TSet(e) =>
      var vs := TaggedArray(v, "#set");
      if vs.Some? { k := CanonicalSet(e, vs.value, depth + 1); }
    case TSeq(e) =>
      if v.Arr? {
        var ks := CanonicalItems(e, v.items, depth + 1);
        k := RustArray("seq:", ks);
      }
    case TTuple(ts) =>
      var vs := TaggedArray(v, "#tup");
      if IsTupleBody(vs, ts) {
        var ks := CanonicalParts(ty, vs.value, depth + 1);
        k := RustArray("tuple:", ks);
      }
    case TMap(e) =>
      var vs := TaggedArray(v, "#map");
      if vs.Some? {
        k := CanonicalMap(e, vs.value, depth + 1);
        if IsMapValue(v) { RustMapUnfolds(e, v, depth); }
      }
  }

  /** The whole recursion computes the key function. */
  method Canonical(ty: Type, v: Json, depth: nat) returns (k: Option<string>)
    ensures k == RustKey(ty, v, depth)
    decreases ty, 2
  {
    hide RustSet, RustObject, ArrayText, ObjectText, Quote, IsMapBody, Placed;
    if depth > MAX_VALUE_DEPTH { return None; }
    match ty
    case TInt =>
      var t := IntegerText(v);
      k := if t.Some? then Some("int:" + t.value) else None;
    case TBool => k := if v.Bool? then Some("bool:" + (if v.flag then "true" else "false")) else None;
    case TStr => k := if v.Str? then Some("str:" + Quote(v.text)) else None;
    case TNull => k := if v.Null? then Some("null") else None;
    case TRecord(_) => k := CanonicalRecord(ty, v, depth);
    case TVariant(cs) =>
      k := None;
      if IsVariantBody(v, cs) {
        var tag := v.fields["tag"].text;
        var r := Canonical(cs[tag], v.fields["value"], depth + 1);
        if r.Some? { k := Some("variant:" + ArrayText([tag, r.value])); }
      }
    case _ => k := CanonicalCollection(ty, v, depth);
  }

  /** `Type::validate`: the structural bounds, then the key. */
  method Validate(ty: Type, v: Json) returns (ok: bool)
    ensures ok <==> WithinBounds(v) && Inhabits(ty, v, 0)
  {
    ok := CheckBounds(v);
    if ok {
      var k := Canonical(ty, v, 0);
      KeysAccept(ty, v, 0);
      ok := k.Some?;
    }
  }
}
