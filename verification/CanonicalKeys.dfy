/** Keys are exact: two values of a type have equal Rust keys, equal Python keys
    and equal meanings together, and both key functions accept the same values. */
module CanonicalKeys {
  import opened Options
  import opened Decimals
  import opened Ordered
  import opened Json
  import opened KeyText
  import opened PortableValues

  /** Both keys exist for both values, and each agrees with the meaning. */
  ghost predicate Exact(ty: Type, a: Json, b: Json, depth: nat) {
    && RustKey(ty, a, depth).Some? && RustKey(ty, b, depth).Some?
    && PythonKey(ty, a, depth).Some? && PythonKey(ty, b, depth).Some?
    && (RustKey(ty, a, depth) == RustKey(ty, b, depth) <==> Denote(ty, a) == Denote(ty, b))
    && (PythonKey(ty, a, depth) == PythonKey(ty, b, depth) <==> Denote(ty, a) == Denote(ty, b))
  }

  // ---- collections agree when their members do ----

  lemma PrefixInjective(p: string, x: string, y: string)
    ensures p + x == p + y <==> x == y
  {
    assert (p + x)[|p|..] == x && (p + y)[|p|..] == y;
  }

  lemma ArrayKeysAgree(prefix: string, a: seq<string>, b: seq<string>)
    ensures prefix + ArrayText(a) == prefix + ArrayText(b) <==> a == b
  {
    PrefixInjective(prefix, ArrayText(a), ArrayText(b));
    if ArrayText(a) == ArrayText(b) { ArrayTextInjective(a, b); }
  }

  lemma ObjectKeysAgree(prefix: string, a: map<string, string>, b: map<string, string>)
    ensures prefix + ObjectText(a) == prefix + ObjectText(b) <==> a == b
  {
    PrefixInjective(prefix, ObjectText(a), ObjectText(b));
    if ObjectText(a) == ObjectText(b) { ObjectTextInjective(a, b); }
  }

  /** Any two places agree in one pair of sequences exactly when they agree in the other. */
  ghost predicate Corresponds<X(!new), Y(!new)>(a: seq<X>, b: seq<X>, c: seq<Y>, d: seq<Y>) {
    && |a| == |c| && |b| == |d|
    && forall i, j :: 0 <= i < |a| && 0 <= j < |b| ==> (a[i] == b[j] <==> c[i] == d[j])
  }

  lemma RangesAgree<X(!new), Y(!new)>(a: seq<X>, b: seq<X>, c: seq<Y>, d: seq<Y>)
    requires Corresponds(a, b, c, d)
    ensures Range(a) == Range(b) ==> Range(c) == Range(d)
  {
    if Range(a) == Range(b) {
      forall i | 0 <= i < |c| ensures c[i] in Range(d) {
        assert a[i] in Range(b);
        var j :| 0 <= j < |b| && b[j] == a[i];
      }
      forall j | 0 <= j < |d| ensures d[j] in Range(c) {
        assert b[j] in Range(a);
        var i :| 0 <= i < |a| && a[i] == b[j];
      }
    }
  }

  lemma MapsAgree<X, Y>(a: map<string, X>, b: map<string, X>, c: map<string, Y>, d: map<string, Y>)
    requires a.Keys == c.Keys && b.Keys == d.Keys
    requires forall n :: n in a && n in b ==> (a[n] == b[n] <==> c[n] == d[n])
    ensures a == b ==> c == d
  {
    if a == b {
      assert c.Keys == d.Keys;
      assert forall n :: n in c ==> n in a && a[n] == b[n];
    }
  }

  lemma ItemsDetermine<X>(a: map<string, X>, b: map<string, X>)
    requires a.Items == b.Items
    ensures a == b
  {
    forall n | n in a ensures n in b && b[n] == a[n] { assert (n, a[n]) in a.Items; }
    forall n | n in b ensures n in a { assert (n, b[n]) in b.Items; }
  }

  /** A repeat-free sequence has as many members as places, and only then. */
  lemma {:induction false} RangeSize<X>(xs: seq<X>)
    ensures |Range(xs)| <= |xs|
    ensures |Range(xs)| == |xs| <==> NoRepeats(xs)
  {
    if xs != [] {
      var rest := xs[1..];
      RangeSize(rest);
      assert Range(xs) == Range(rest) + {xs[0]};
      if xs[0] in rest {
        var k :| 0 <= k < |rest| && rest[k] == xs[0];
        assert xs[k + 1] == xs[0];
        assert Range(rest) + {xs[0]} == Range(rest);
      }
      assert forall i :: 0 < i < |xs| ==> xs[i] == rest[i - 1];
    }
  }

  // Keys p, q and r, t of two collections of members meaning m and n.

  lemma SetKeysAgree(p: seq<string>, q: seq<string>, r: seq<PyKey>, t: seq<PyKey>, m: seq<Meaning>, n: seq<Meaning>)
    requires Corresponds(p, q, m, n) && Corresponds(r, t, m, n)
    ensures "set:" + ArrayText(Ascending(Range(p))) == "set:" + ArrayText(Ascending(Range(q))) <==> Range(m) == Range(n)
    ensures Range(r) == Range(t) <==> Range(m) == Range(n)
  {
    ArrayKeysAgree("set:", Ascending(Range(p)), Ascending(Range(q)));
    if Ascending(Range(p)) == Ascending(Range(q)) { AscendingInjective(Range(p), Range(q)); }
    RangesAgree(p, q, m, n);
    RangesAgree(m, n, p, q);
    RangesAgree(r, t, m, n);
    RangesAgree(m, n, r, t);
  }

  lemma SequenceKeysAgree(prefix: string, p: seq<string>, q: seq<string>, r: seq<PyKey>, t: seq<PyKey>,
                          m: seq<Meaning>, n: seq<Meaning>)
    requires |p| == |r| == |m| && |q| == |t| == |n|
    requires forall i :: 0 <= i < |p| && i < |q| ==>
                           (p[i] == q[i] <==> m[i] == n[i]) && (r[i] == t[i] <==> m[i] == n[i])
    ensures prefix + ArrayText(p) == prefix + ArrayText(q) <==> m == n
    ensures r == t <==> m == n
  {
    ArrayKeysAgree(prefix, p, q);
  }

  lemma MapKeysAgree(prefix: string, p: map<string, string>, q: map<string, string>,
                     r: map<string, PyKey>, t: map<string, PyKey>, m: map<string, Meaning>, n: map<string, Meaning>)
    requires p.Keys == r.Keys == m.Keys && q.Keys == t.Keys == n.Keys
    requires forall k :: k in p && k in q ==> (p[k] == q[k] <==> m[k] == n[k]) && (r[k] == t[k] <==> m[k] == n[k])
    ensures prefix + ObjectText(p) == prefix + ObjectText(q) <==> m == n
    ensures r.Items == t.Items <==> m == n
  {
    ObjectKeysAgree(prefix, p, q);
    MapsAgree(p, q, m, n);
    MapsAgree(m, n, p, q);
    MapsAgree(r, t, m, n);
    MapsAgree(m, n, r, t);
    if r.Items == t.Items { ItemsDetermine(r, t); }
  }

  // ---- scalars ----

  /** The accepted integer texts are exactly the canonical decimals. */
  lemma IntegerCanonical(text: string)
    requires IsInteger(text)
    ensures Decimal(IntegerValue(text)) == text
  {
    var digits := if text[0] == '-' then text[1..] else text;
    CanonicalIsNumeral(digits);
    if text[0] == '-' {
      ValueAbovePower(digits);
      assert text == "-" + digits;
    }
  }

  lemma IntExact(a: Json, b: Json, depth: nat)
    requires Inhabits(TInt, a, depth) && Inhabits(TInt, b, depth)
    ensures Exact(TInt, a, b, depth)
  {
    var x, y := IntegerText(a).value, IntegerText(b).value;
    IntegerCanonical(x);
    IntegerCanonical(y);
    PrefixInjective("int:", x, y);
  }

  lemma ScalarExact(ty: Type, a: Json, b: Json, depth: nat)
    requires ty.TBool? || ty.TStr? || ty.TNull?
    requires Inhabits(ty, a, depth) && Inhabits(ty, b, depth)
    ensures Exact(ty, a, b, depth)
  {
    if ty.TStr? {
      PrefixInjective("str:", Quote(a.text), Quote(b.text));
      PrefixInjective("\"", Body(a.text), Body(b.text));
      if Body(a.text) == Body(b.text) { BodyPrefixFree(a.text, "", b.text, ""); }
    } else if ty.TBool? {
      PrefixInjective("bool:", if a.flag then "true" else "false", if b.flag then "true" else "false");
    }
  }

  // ---- collections of one element type ----

  ghost predicate AllExact(e: Type, xs: seq<Json>, ys: seq<Json>, depth: nat) {
    forall i, j :: 0 <= i < |xs| && 0 <= j < |ys| ==> Exact(e, xs[i], ys[j], depth)
  }

  ghost predicate AllKeyed(e: Type, xs: seq<Json>, depth: nat) {
    All(RustKeys(e, xs, depth)).Some? && All(PythonKeys(e, xs, depth)).Some?
  }

  lemma MembersCorrespond(e: Type, xs: seq<Json>, ys: seq<Json>, depth: nat)
    requires AllKeyed(e, xs, depth) && AllKeyed(e, ys, depth) && AllExact(e, xs, ys, depth)
    ensures Corresponds(All(RustKeys(e, xs, depth)).value, All(RustKeys(e, ys, depth)).value, Denotes(e, xs),
                        Denotes(e, ys))
    ensures Corresponds(All(PythonKeys(e, xs, depth)).value, All(PythonKeys(e, ys, depth)).value, Denotes(e, xs),
                        Denotes(e, ys))
  {
    var p, q := All(RustKeys(e, xs, depth)).value, All(RustKeys(e, ys, depth)).value;
    var r, t := All(PythonKeys(e, xs, depth)).value, All(PythonKeys(e, ys, depth)).value;
    var m, n := Denotes(e, xs), Denotes(e, ys);
    forall i, j | 0 <= i < |xs| && 0 <= j < |ys|
      ensures (p[i] == q[j] <==> m[i] == n[j]) && (r[i] == t[j] <==> m[i] == n[j])
    {
      assert Exact(e, xs[i], ys[j], depth);
    }
  }

  lemma SetUnfolds(e: Type, v: Json, depth: nat)
    requires depth <= MAX_VALUE_DEPTH && TaggedArray(v, "#set").Some?
    ensures RustKey(TSet(e), v, depth) == RustSet(All(RustKeys(e, TaggedArray(v, "#set").value, depth + 1)))
    ensures PythonKey(TSet(e), v, depth) == PythonSet(All(PythonKeys(e, TaggedArray(v, "#set").value, depth + 1)))
    ensures Denote(TSet(e), v) == MSet(Range(Denotes(e, TaggedArray(v, "#set").value)))
  {}

  lemma SetAccepted(p: seq<string>, r: seq<PyKey>, m: seq<Meaning>)
    requires Corresponds(p, p, m, m) && Corresponds(r, r, m, m)
    ensures RustSet(Some(p)).Some? <==> NoRepeats(m)
    ensures PythonSet(Some(r)).Some? <==> NoRepeats(m)
  {
    RangeSize(r);
  }

  /** A set with keyed members is keyed exactly when no two members mean the same. */
  lemma SetKeyed(e: Type, v: Json, depth: nat)
    requires depth <= MAX_VALUE_DEPTH && TaggedArray(v, "#set").Some?
    requires var xs := TaggedArray(v, "#set").value; AllKeyed(e, xs, depth + 1) && AllExact(e, xs, xs, depth + 1)
    ensures RustKey(TSet(e), v, depth).Some? <==> NoRepeats(Denotes(e, TaggedArray(v, "#set").value))
    ensures PythonKey(TSet(e), v, depth).Some? <==> NoRepeats(Denotes(e, TaggedArray(v, "#set").value))
  {
    var xs := TaggedArray(v, "#set").value;
    SetUnfolds(e, v, depth);
    var p, r := RustKeys(e, xs, depth + 1), PythonKeys(e, xs, depth + 1);
    assert All(p).Some? && All(r).Some?;
    MembersCorrespond(e, xs, xs, depth + 1);
    SetAccepted(All(p).value, All(r).value, Denotes(e, xs));
  }

  lemma SetExact(e: Type, a: Json, b: Json, depth: nat)
    requires depth <= MAX_VALUE_DEPTH && TaggedArray(a, "#set").Some? && TaggedArray(b, "#set").Some?
    requires var xs, ys := TaggedArray(a, "#set").value, TaggedArray(b, "#set").value;
             AllKeyed(e, xs, depth + 1) && AllKeyed(e, ys, depth + 1) && AllExact(e, xs, ys, depth + 1)
    requires RustKey(TSet(e), a, depth).Some? && RustKey(TSet(e), b, depth).Some?
    requires PythonKey(TSet(e), a, depth).Some? && PythonKey(TSet(e), b, depth).Some?
    ensures Exact(TSet(e), a, b, depth)
  {
    var xs, ys := TaggedArray(a, "#set").value, TaggedArray(b, "#set").value;
    SetUnfolds(e, a, depth);
    SetUnfolds(e, b, depth);
    MembersCorrespond(e, xs, ys, depth + 1);
    SetKeysAgree(All(RustKeys(e, xs, depth + 1)).value, All(RustKeys(e, ys, depth + 1)).value,
                 All(PythonKeys(e, xs, depth + 1)).value, All(PythonKeys(e, ys, depth + 1)).value, Denotes(e, xs),
                 Denotes(e, ys));
  }

  lemma SeqUnfolds(e: Type, v: Json, depth: nat)
    requires depth <= MAX_VALUE_DEPTH && v.Arr?
    ensures RustKey(TSeq(e), v, depth) == RustArray("seq:", All(RustKeys(e, v.items, depth + 1)))
    ensures PythonKey(TSeq(e), v, depth) == PythonSeq(All(PythonKeys(e, v.items, depth + 1)))
    ensures Denote(TSeq(e), v) == MSeq(Denotes(e, v.items))
  {}

  lemma SeqExact(e: Type, a: Json, b: Json, depth: nat)
    requires depth <= MAX_VALUE_DEPTH && a.Arr? && b.Arr?
    requires AllKeyed(e, a.items, depth + 1) && AllKeyed(e, b.items, depth + 1)
    requires AllExact(e, a.items, b.items, depth + 1)
    ensures Exact(TSeq(e), a, b, depth)
  {
    SeqUnfolds(e, a, depth);
    SeqUnfolds(e, b, depth);
    hide RustKey, PythonKey, Denote, ArrayText;
    var xs, ys := a.items, b.items;
    MembersCorrespond(e, xs, ys, depth + 1);
    SequenceKeysAgree("seq:", All(RustKeys(e, xs, depth + 1)).value, All(RustKeys(e, ys, depth + 1)).value,
                      All(PythonKeys(e, xs, depth + 1)).value, All(PythonKeys(e, ys, depth + 1)).value, Denotes(e, xs),
                      Denotes(e, ys));
  }

  // ---- maps: values found by the text of their entry ----

  lemma ByTextKeys<X, Y>(entries: seq<Json>, xs: seq<X>, ys: seq<Y>)
    requires IsMapBody(entries) && |xs| == |entries| == |ys|
    ensures ByText(entries, xs).Keys == ByText(entries, ys).Keys
  {}

  /** Values found by text correspond whenever values found by place do. */
  lemma ByTextCorresponds<X(!new), Y(!new)>(es: seq<Json>, gs: seq<Json>, a: seq<X>, b: seq<X>, c: seq<Y>, d: seq<Y>,
                                            k: string)
    requires IsMapBody(es) && IsMapBody(gs) && |a| == |es| && |b| == |gs| && Corresponds(a, b, c, d)
    requires k in ByText(es, a) && k in ByText(gs, b)
    ensures k in ByText(es, c) && k in ByText(gs, d)
    ensures ByText(es, a)[k] == ByText(gs, b)[k] <==> ByText(es, c)[k] == ByText(gs, d)[k]
  {
    var i :| Places(es, i, k);
    var j :| Places(gs, j, k);
  }

  lemma EntriesAgree(es: seq<Json>, gs: seq<Json>, p: seq<string>, q: seq<string>, r: seq<PyKey>, t: seq<PyKey>,
                     m: seq<Meaning>, n: seq<Meaning>)
    requires IsMapBody(es) && IsMapBody(gs) && |m| == |es| && |n| == |gs|
    requires Corresponds(p, q, m, n) && Corresponds(r, t, m, n)
    ensures "map:" + ObjectText(ByText(es, p)) == "map:" + ObjectText(ByText(gs, q)) <==> ByText(es, m) == ByText(gs, n)
    ensures ByText(es, r).Items == ByText(gs, t).Items <==> ByText(es, m) == ByText(gs, n)
  {
    ByTextKeys(es, p, m);
    ByTextKeys(gs, q, n);
    ByTextKeys(es, r, m);
    ByTextKeys(gs, t, n);
    forall k | k in ByText(es, p) && k in ByText(gs, q)
      ensures ByText(es, p)[k] == ByText(gs, q)[k] <==> ByText(es, m)[k] == ByText(gs, n)[k]
      ensures ByText(es, r)[k] == ByText(gs, t)[k] <==> ByText(es, m)[k] == ByText(gs, n)[k]
    {
      ByTextCorresponds(es, gs, p, q, m, n, k);
      ByTextCorresponds(es, gs, r, t, m, n, k);
    }
    MapKeysAgree("map:", ByText(es, p), ByText(gs, q), ByText(es, r), ByText(gs, t), ByText(es, m), ByText(gs, n));
  }

  lemma RustMapUnfolds(e: Type, v: Json, depth: nat)
    requires depth <= MAX_VALUE_DEPTH && IsMapValue(v)
    ensures RustKey(TMap(e), v, depth) == RustObject("map:",
                                                     Placed(MapEntries(v), All(RustKeys(e, MapPayloads(v), depth + 1))))
  {
    hide RustObject;
  }

  lemma PythonMapUnfolds(e: Type, v: Json, depth: nat)
    requires depth <= MAX_VALUE_DEPTH && IsMapValue(v)
    ensures PythonKey(TMap(e), v, depth) == PythonMap(Placed(MapEntries(v),
                                                             All(PythonKeys(e, MapPayloads(v), depth + 1))))
    ensures Denote(TMap(e), v) == MMap(ByText(MapEntries(v), Denotes(e, MapPayloads(v))))
  {}

  lemma MapExact(e: Type, a: Json, b: Json, depth: nat)
    requires depth <= MAX_VALUE_DEPTH && IsMapValue(a) && IsMapValue(b)
    requires var xs, ys := MapPayloads(a), MapPayloads(b);
             AllKeyed(e, xs, depth + 1) && AllKeyed(e, ys, depth + 1) && AllExact(e, xs, ys, depth + 1)
    ensures Exact(TMap(e), a, b, depth)
  {
    hide RustKey, PythonKey, Denote, IsMapBody, ObjectText, ByText, Corresponds;
    var es, gs := MapEntries(a), MapEntries(b);
    var xs, ys := MapPayloads(a), MapPayloads(b);
    RustMapUnfolds(e, a, depth);
    RustMapUnfolds(e, b, depth);
    PythonMapUnfolds(e, a, depth);
    PythonMapUnfolds(e, b, depth);
    MembersCorrespond(e, xs, ys, depth + 1);
    EntriesAgree(es, gs, All(RustKeys(e, xs, depth + 1)).value, All(RustKeys(e, ys, depth + 1)).value,
                 All(PythonKeys(e, xs, depth + 1)).value, All(PythonKeys(e, ys, depth + 1)).value, Denotes(e, xs),
                 Denotes(e, ys));
  }

  // ---- tuples, records and variants ----

  lemma TupleUnfolds(ty: Type, v: Json, depth: nat)
    requires ty.TTuple? && depth <= MAX_VALUE_DEPTH && IsTupleBody(TaggedArray(v, "#tup"), ty.elements)
    ensures RustKey(ty, v, depth) == RustArray("tuple:", All(RustParts(ty, TaggedArray(v, "#tup").value, depth + 1)))
    ensures PythonKey(ty, v, depth) == PythonTuple(All(PythonParts(ty, TaggedArray(v, "#tup").value, depth + 1)))
    ensures Denote(ty, v) == MSeq(DenoteParts(ty, TaggedArray(v, "#tup").value))
  {}

  ghost predicate PartsExact(ty: Type, xs: seq<Json>, ys: seq<Json>, depth: nat)
    requires ty.TTuple?
  {
    && |xs| == |ty.elements| == |ys|
    && forall i :: 0 <= i < |ty.elements| ==> Exact(ty.elements[i], xs[i], ys[i], depth)
  }

  lemma PartsCorrespond(ty: Type, xs: seq<Json>, ys: seq<Json>, depth: nat)
    requires ty.TTuple? && PartsExact(ty, xs, ys, depth)
    ensures All(RustParts(ty, xs, depth)).Some? && All(RustParts(ty, ys, depth)).Some?
    ensures All(PythonParts(ty, xs, depth)).Some? && All(PythonParts(ty, ys, depth)).Some?
    ensures var p, q := All(RustParts(ty, xs, depth)).value, All(RustParts(ty, ys, depth)).value;
            var r, t := All(PythonParts(ty, xs, depth)).value, All(PythonParts(ty, ys, depth)).value;
            var m, n := DenoteParts(ty, xs), DenoteParts(ty, ys);
            forall i :: 0 <= i < |ty.elements| ==> (p[i] == q[i] <==> m[i] == n[i]) && (r[i] == t[i] <==> m[i] == n[i])
  {
    hide RustKey, PythonKey, Denote;
  }

  lemma TupleExact(ty: Type, a: Json, b: Json, depth: nat)
    requires ty.TTuple? && depth <= MAX_VALUE_DEPTH
    requires IsTupleBody(TaggedArray(a, "#tup"), ty.elements) && IsTupleBody(TaggedArray(b, "#tup"), ty.elements)
    requires PartsExact(ty, TaggedArray(a, "#tup").value, TaggedArray(b, "#tup").value, depth + 1)
    ensures Exact(ty, a, b, depth)
  {
    hide RustKey, PythonKey, Denote, ArrayText, PartsExact;
    var xs, ys := TaggedArray(a, "#tup").value, TaggedArray(b, "#tup").value;
    TupleUnfolds(ty, a, depth);
    TupleUnfolds(ty, b, depth);
    PartsCorrespond(ty, xs, ys, depth + 1);
    SequenceKeysAgree("tuple:", All(RustParts(ty, xs, depth + 1)).value, All(RustParts(ty, ys, depth + 1)).value,
                      All(PythonParts(ty, xs, depth + 1)).value, All(PythonParts(ty, ys, depth + 1)).value,
                      DenoteParts(ty, xs), DenoteParts(ty, ys));
  }

  /** As many members as declared fields, and every declared field there: exactly the declared fields. */
  lemma RecordShape(names: set<string>, declared: set<string>)
    ensures (|names| == |declared| && declared <= names) <==> names == declared
  {
    if |names| == |declared| && declared <= names {
      assert names == declared + (names - declared);
    }
  }

  lemma RecordUnfolds(ty: Type, v: Json, depth: nat)
    requires ty.TRecord? && depth <= MAX_VALUE_DEPTH && IsRecordBody(v, ty.fields)
    ensures RustKey(ty, v, depth) == RustObject("record:", AllFields(RustFields(ty, v.fields, depth + 1)))
    ensures PythonKey(ty, v, depth) == PythonRecord(AllFields(PythonFields(ty, v.fields, depth + 1)))
    ensures Denote(ty, v) == MRecord(DenoteFields(ty, v.fields))
  {
    hide RustObject;
    assert |v.fields| == |v.fields.Keys| && |ty.fields| == |ty.fields.Keys|;
  }

  ghost predicate FieldsExact(ty: Type, xs: map<string, Json>, ys: map<string, Json>, depth: nat)
    requires ty.TRecord?
  {
    && xs.Keys == ty.fields.Keys == ys.Keys
    && forall n :: n in ty.fields ==> Exact(ty.fields[n], xs[n], ys[n], depth)
  }

  lemma FieldsCorrespond(ty: Type, xs: map<string, Json>, ys: map<string, Json>, depth: nat)
    requires ty.TRecord? && FieldsExact(ty, xs, ys, depth)
    ensures AllFields(RustFields(ty, xs, depth)).Some? && AllFields(RustFields(ty, ys, depth)).Some?
    ensures AllFields(PythonFields(ty, xs, depth)).Some? && AllFields(PythonFields(ty, ys, depth)).Some?
    ensures var p, q := AllFields(RustFields(ty, xs, depth)).value, AllFields(RustFields(ty, ys, depth)).value;
            var r, t := AllFields(PythonFields(ty, xs, depth)).value, AllFields(PythonFields(ty, ys, depth)).value;
            var m, n := DenoteFields(ty, xs), DenoteFields(ty, ys);
            && p.Keys == r.Keys == m.Keys && q.Keys == t.Keys == n.Keys
            && forall k :: k in p && k in q ==> (p[k] == q[k] <==> m[k] == n[k]) && (r[k] == t[k] <==> m[k] == n[k])
  {
    hide RustKey, PythonKey, Denote;
  }

  /** What a record's keys and meaning are made of. */
  ghost predicate RecordMade(ty: Type, v: Json, depth: nat, p: map<string, string>, r: map<string, PyKey>,
                             m: map<string, Meaning>) {
    && RustKey(ty, v, depth) == Some("record:" + ObjectText(p))
    && PythonKey(ty, v, depth) == Some(PRecord(r.Items))
    && Denote(ty, v) == MRecord(m)
  }

  lemma RecordMakes(ty: Type, v: Json, depth: nat)
    requires ty.TRecord? && depth <= MAX_VALUE_DEPTH && IsRecordBody(v, ty.fields)
    requires AllFields(RustFields(ty, v.fields, depth + 1)).Some?
    requires AllFields(PythonFields(ty, v.fields, depth + 1)).Some?
    ensures RecordMade(ty, v, depth, AllFields(RustFields(ty, v.fields, depth + 1)).value,
                       AllFields(PythonFields(ty, v.fields, depth + 1)).value, DenoteFields(ty, v.fields))
  {
    hide RustKey, PythonKey, Denote, ObjectText, AllFields;
    RecordUnfolds(ty, v, depth);
  }

  lemma MadeExact(ty: Type, a: Json, b: Json, depth: nat, p: map<string, string>, q: map<string, string>,
                  r: map<string, PyKey>, t: map<string, PyKey>, m: map<string, Meaning>, n: map<string, Meaning>)
    requires RecordMade(ty, a, depth, p, r, m) && RecordMade(ty, b, depth, q, t, n)
    requires p.Keys == r.Keys == m.Keys && q.Keys == t.Keys == n.Keys
    requires forall k :: k in p && k in q ==> (p[k] == q[k] <==> m[k] == n[k]) && (r[k] == t[k] <==> m[k] == n[k])
    ensures Exact(ty, a, b, depth)
  {
    hide RustKey, PythonKey, Denote, ObjectText;
    MapKeysAgree("record:", p, q, r, t, m, n);
  }

  lemma RecordExact(ty: Type, a: Json, b: Json, depth: nat)
    requires ty.TRecord? && depth <= MAX_VALUE_DEPTH && IsRecordBody(a, ty.fields) && IsRecordBody(b, ty.fields)
    requires FieldsExact(ty, a.fields, b.fields, depth + 1)
    ensures Exact(ty, a, b, depth)
  {
    hide RustKey, PythonKey, Denote, ObjectText, FieldsExact, AllFields, RecordMade, Exact;
    FieldsCorrespond(ty, a.fields, b.fields, depth + 1);
    RecordMakes(ty, a, depth);
    RecordMakes(ty, b, depth);
    MadeExact(ty, a, b, depth, AllFields(RustFields(ty, a.fields, depth + 1)).value,
              AllFields(RustFields(ty, b.fields, depth + 1)).value,
              AllFields(PythonFields(ty, a.fields, depth + 1)).value,
              AllFields(PythonFields(ty, b.fields, depth + 1)).value,
              DenoteFields(ty, a.fields), DenoteFields(ty, b.fields));
  }

  lemma VariantExact(ty: Type, a: Json, b: Json, depth: nat)
    requires ty.TVariant? && depth <= MAX_VALUE_DEPTH && IsVariantBody(a, ty.cases) && IsVariantBody(b, ty.cases)
    requires var s, t := a.fields["tag"].text, b.fields["tag"].text;
             Exact(ty.cases[s], a.fields["value"], if s == t then b.fields["value"] else a.fields["value"], depth + 1)
             && (s != t ==> Exact(ty.cases[t], b.fields["value"], b.fields["value"], depth + 1))
    ensures Exact(ty, a, b, depth)
  {
    hide ArrayText;
    var s, t := a.fields["tag"].text, b.fields["tag"].text;
    var p := RustKey(ty.cases[s], a.fields["value"], depth + 1).value;
    var q := RustKey(ty.cases[t], b.fields["value"], depth + 1).value;
    ArrayKeysAgree("variant:", [s, p], [t, q]);
  }

  // ---- every type ----

  /** Two values of one type have equal Rust keys, equal meanings and equal Python keys together. */
  lemma {:induction false} KeysExact(ty: Type, a: Json, b: Json, depth: nat)
    requires Inhabits(ty, a, depth) && Inhabits(ty, b, depth)
    ensures Exact(ty, a, b, depth)
    decreases ty, 1
  {
    hide RustKey, PythonKey, Denote, Exact;
    match ty
    case TInt => IntExact(a, b, depth);
    case TBool => ScalarExact(ty, a, b, depth);
    case TStr => ScalarExact(ty, a, b, depth);
    case TNull => ScalarExact(ty, a, b, depth);
    case TSet(e) =>
      var xs, ys := TaggedArray(a, "#set").value, TaggedArray(b, "#set").value;
      MembersExact(e, xs, ys, depth + 1);
      MembersExact(e, xs, xs, depth + 1);
      MembersExact(e, ys, ys, depth + 1);
      SetKeyed(e, a, depth);
      SetKeyed(e, b, depth);
      SetExact(e, a, b, depth);
    case TSeq(e) =>
      MembersExact(e, a.items, b.items, depth + 1);
      SeqExact(e, a, b, depth);
    case TTuple(ts) =>
      var xs, ys := TaggedArray(a, "#tup").value, TaggedArray(b, "#tup").value;
      forall i | 0 <= i < |ts| ensures Exact(ts[i], xs[i], ys[i], depth + 1) {
        KeysExact(ts[i], xs[i], ys[i], depth + 1);
      }
      TupleExact(ty, a, b, depth);
    case TRecord(fs) =>
      forall n | n in fs ensures Exact(fs[n], a.fields[n], b.fields[n], depth + 1) {
        KeysExact(fs[n], a.fields[n], b.fields[n], depth + 1);
      }
      RecordExact(ty, a, b, depth);
    case TMap(e) =>
      MembersExact(e, MapPayloads(a), MapPayloads(b), depth + 1);
      MapExact(e, a, b, depth);
    case TVariant(cs) =>
      var s, t := a.fields["tag"].text, b.fields["tag"].text;
      KeysExact(cs[s], a.fields["value"], if s == t then b.fields["value"] else a.fields["value"], depth + 1);
      KeysExact(cs[t], b.fields["value"], b.fields["value"], depth + 1);
      VariantExact(ty, a, b, depth);
  }

  lemma {:induction false} MembersExact(e: Type, xs: seq<Json>, ys: seq<Json>, depth: nat)
    requires AllInhabit(e, xs, depth) && AllInhabit(e, ys, depth)
    ensures AllKeyed(e, xs, depth) && AllKeyed(e, ys, depth) && AllExact(e, xs, ys, depth)
    decreases e, 2
  {
    hide RustKey, PythonKey, Denote, Inhabits;
    forall i, j | 0 <= i < |xs| && 0 <= j < |ys| ensures Exact(e, xs[i], ys[j], depth) {
      KeysExact(e, xs[i], ys[j], depth);
    }
    forall i | 0 <= i < |xs| ensures Exact(e, xs[i], xs[i], depth) { KeysExact(e, xs[i], xs[i], depth); }
    forall j | 0 <= j < |ys| ensures Exact(e, ys[j], ys[j], depth) { KeysExact(e, ys[j], ys[j], depth); }
  }

  // ---- what both validators accept ----

  lemma {:induction false} MembersAccepted(e: Type, xs: seq<Json>, depth: nat)
    ensures All(RustKeys(e, xs, depth)).Some? <==> AllInhabit(e, xs, depth)
    ensures All(PythonKeys(e, xs, depth)).Some? <==> AllInhabit(e, xs, depth)
    decreases e, 2
  {
    hide RustKey, PythonKey, Inhabits;
    forall i | 0 <= i < |xs|
      ensures RustKey(e, xs[i], depth).Some? <==> Inhabits(e, xs[i], depth)
      ensures PythonKey(e, xs[i], depth).Some? <==> Inhabits(e, xs[i], depth)
    {
      KeysAccept(e, xs[i], depth);
    }
  }

  lemma {:induction false} SetAccept(e: Type, v: Json, depth: nat)
    requires depth <= MAX_VALUE_DEPTH && TaggedArray(v, "#set").Some?
    ensures RustKey(TSet(e), v, depth).Some? <==> Inhabits(TSet(e), v, depth)
    ensures PythonKey(TSet(e), v, depth).Some? <==> Inhabits(TSet(e), v, depth)
    decreases e, 3
  {
    var xs := TaggedArray(v, "#set").value;
    SetUnfolds(e, v, depth);
    MembersAccepted(e, xs, depth + 1);
    hide RustKey, PythonKey, Denote, ArrayText;
    if AllInhabit(e, xs, depth + 1) {
      MembersExact(e, xs, xs, depth + 1);
      SetKeyed(e, v, depth);
    }
  }

  lemma {:induction false} TupleAccept(ty: Type, v: Json, depth: nat)
    requires ty.TTuple? && depth <= MAX_VALUE_DEPTH && IsTupleBody(TaggedArray(v, "#tup"), ty.elements)
    ensures RustKey(ty, v, depth).Some? <==> Inhabits(ty, v, depth)
    ensures PythonKey(ty, v, depth).Some? <==> Inhabits(ty, v, depth)
    decreases ty, 0
  {
    var xs := TaggedArray(v, "#tup").value;
    TupleUnfolds(ty, v, depth);
    forall i | 0 <= i < |xs|
      ensures RustKey(ty.elements[i], xs[i], depth + 1).Some? <==> Inhabits(ty.elements[i], xs[i], depth + 1)
      ensures PythonKey(ty.elements[i], xs[i], depth + 1).Some? <==> Inhabits(ty.elements[i], xs[i], depth + 1)
    {
      KeysAccept(ty.elements[i], xs[i], depth + 1);
    }
    hide RustKey, PythonKey, Denote, ArrayText;
  }

  lemma {:induction false} RecordAccept(ty: Type, v: Json, depth: nat)
    requires ty.TRecord? && depth <= MAX_VALUE_DEPTH && IsRecordBody(v, ty.fields)
    ensures RustKey(ty, v, depth).Some? <==> Inhabits(ty, v, depth)
    ensures PythonKey(ty, v, depth).Some? <==> Inhabits(ty, v, depth)
    decreases ty, 0
  {
    RecordUnfolds(ty, v, depth);
    forall n | n in ty.fields
      ensures RustKey(ty.fields[n], v.fields[n], depth + 1).Some? <==> Inhabits(ty.fields[n], v.fields[n], depth + 1)
      ensures PythonKey(ty.fields[n], v.fields[n], depth + 1).Some? <==> Inhabits(ty.fields[n], v.fields[n], depth + 1)
    {
      KeysAccept(ty.fields[n], v.fields[n], depth + 1);
    }
    hide RustKey, PythonKey, Denote, ObjectText;
  }

  lemma RecordRefused(ty: Type, v: Json, depth: nat)
    requires ty.TRecord? && !IsRecordBody(v, ty.fields)
    ensures RustKey(ty, v, depth).None? && PythonKey(ty, v, depth).None?
  {
    hide RustObject;
    if v.Obj? { RecordShape(v.fields.Keys, ty.fields.Keys); }
  }

  /** A value has a Rust key, inhabits the type and has a Python key together. */
  lemma {:induction false} KeysAccept(ty: Type, v: Json, depth: nat)
    ensures RustKey(ty, v, depth).Some? <==> Inhabits(ty, v, depth)
    ensures PythonKey(ty, v, depth).Some? <==> Inhabits(ty, v, depth)
    decreases ty, 1
  {
    hide RustObject, RustArray, RustSet, PythonSet, Denote, ArrayText, Quote, Placed, PythonMap, IsMapBody;
    if depth <= MAX_VALUE_DEPTH {
      match ty
      case TSet(e) => if TaggedArray(v, "#set").Some? { SetAccept(e, v, depth); }
      case TSeq(e) => if v.Arr? { SeqAccept(e, v, depth); }
      case TTuple(ts) => if IsTupleBody(TaggedArray(v, "#tup"), ts) { TupleAccept(ty, v, depth); }
      case TRecord(fs) => if IsRecordBody(v, fs) { RecordAccept(ty, v, depth); } else { RecordRefused(ty, v, depth); }
      case TMap(e) => if IsMapValue(v) { MapAccept(e, v, depth); }
      case TVariant(cs) => if IsVariantBody(v, cs) { VariantAccept(ty, v, depth); }
      case _ =>
    }
  }

  lemma {:induction false} VariantAccept(ty: Type, v: Json, depth: nat)
    requires ty.TVariant? && depth <= MAX_VALUE_DEPTH && IsVariantBody(v, ty.cases)
    ensures RustKey(ty, v, depth).Some? <==> Inhabits(ty, v, depth)
    ensures PythonKey(ty, v, depth).Some? <==> Inhabits(ty, v, depth)
    decreases ty, 0
  {
    hide ArrayText;
    KeysAccept(ty.cases[v.fields["tag"].text], v.fields["value"], depth + 1);
  }

  lemma {:induction false} SeqAccept(e: Type, v: Json, depth: nat)
    requires depth <= MAX_VALUE_DEPTH && v.Arr?
    ensures RustKey(TSeq(e), v, depth).Some? <==> Inhabits(TSeq(e), v, depth)
    ensures PythonKey(TSeq(e), v, depth).Some? <==> Inhabits(TSeq(e), v, depth)
    decreases e, 3
  {
    SeqUnfolds(e, v, depth);
    MembersAccepted(e, v.items, depth + 1);
    hide RustKey, PythonKey, Denote, ArrayText;
  }

  lemma {:induction false} MapAccept(e: Type, v: Json, depth: nat)
    requires depth <= MAX_VALUE_DEPTH && IsMapValue(v)
    ensures RustKey(TMap(e), v, depth).Some? <==> Inhabits(TMap(e), v, depth)
    ensures PythonKey(TMap(e), v, depth).Some? <==> Inhabits(TMap(e), v, depth)
    decreases e, 3
  {
    hide RustKey, PythonKey, Denote, ObjectText, ByText, IsMapBody, All, AllInhabit, Payloads, TaggedArray;
    RustMapUnfolds(e, v, depth);
    PythonMapUnfolds(e, v, depth);
    MembersAccepted(e, MapPayloads(v), depth + 1);
  }
}
