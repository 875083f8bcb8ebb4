/** Portable values as they are written: for every type and meaning the JSON forms that
    stand for it, and that these are exactly the values the type admits. */
module WireForms {
  import opened Decimals
  import opened Json
  import opened PortableValues
  import CanonicalKeys

  /** An object with the one member `name`, an array. */
  predicate Boxed(v: Json, name: string) {
    v.Obj? && name in v.fields && v.fields[name].Arr? && v == Obj(map[name := v.fields[name]])
  }

  function Inside(v: Json, name: string): seq<Json>
    requires Boxed(v, name)
  {
    v.fields[name].items
  }

  /** A pair of a string and a value. */
  predicate Names(entry: Json, key: string) {
    entry.Arr? && |entry.items| == 2 && entry.items[0] == Str(key)
  }

  ghost predicate Named(entries: seq<Json>, key: string) {
    exists i :: 0 <= i < |entries| && Names(entries[i], key)
  }

  /** The value is a form of the meaning at the type, `depth` levels down. */
  ghost predicate Spells(ty: Type, v: Json, m: Meaning, depth: nat)
    decreases ty, 1
  {
    && depth <= 32
    && match ty
       case TInt => m.MInt? && v == Obj(map["#bigint" := Str(Decimal(m.number))])
       case TBool => m.MBool? && v == Json.Bool(m.flag)
       case TStr => m.MStr? && v == Str(m.text)
       case TNull => m.MNull? && v == Null
       case TSet(e) => m.MSet? && Boxed(v, "#set") && SpellsSet(e, Inside(v, "#set"), m.members, depth + 1)
       case TSeq(e) => m.MSeq? && v.Arr? && SpellsAll(e, v.items, m.items, depth + 1)
       case TTuple(ts) =>
         && m.MSeq? && Boxed(v, "#tup") && |Inside(v, "#tup")| == |ts| == |m.items|
         && forall i :: 0 <= i < |ts| ==> Spells(ts[i], Inside(v, "#tup")[i], m.items[i], depth + 1)
       case TRecord(fs) =>
         && m.MRecord? && v.Obj? && v.fields.Keys == fs.Keys == m.fields.Keys
         && forall n :: n in fs ==> Spells(fs[n], v.fields[n], m.fields[n], depth + 1)
       case TMap(e) => m.MMap? && Boxed(v, "#map") && SpellsMap(e, Inside(v, "#map"), m.entries, depth + 1)
       case TVariant(cs) =>
         && m.MVariant? && m.tag in cs && v.Obj? && "value" in v.fields
         && v == Obj(map["tag" := Str(m.tag), "value" := v.fields["value"]])
         && Spells(cs[m.tag], v.fields["value"], m.payload, depth + 1)
  }

  /** The items are forms of different meanings, which make up the set. */
  ghost predicate SpellsSet(e: Type, items: seq<Json>, members: set<Meaning>, depth: nat)
    decreases e, 3
  {
    exists ms: seq<Meaning> :: SpellsAll(e, items, ms, depth) && Makes(ms, members)
  }

  ghost predicate SpellsAll(e: Type, items: seq<Json>, ms: seq<Meaning>, depth: nat)
    decreases e, 2
  {
    |ms| == |items| && forall i :: 0 <= i < |items| ==> Spells(e, items[i], ms[i], depth)
  }

  /** The set of the elements, all different. */
  ghost predicate Makes(ms: seq<Meaning>, members: set<Meaning>) {
    && (forall i, j :: 0 <= i < j < |ms| ==> ms[i] != ms[j])
    && (forall x :: x in ms <==> x in members)
  }

  /** Every entry is a pair of a key of the map and a form of its value, and each key has one entry. */
  ghost predicate SpellsMap(e: Type, entries: seq<Json>, m: map<string, Meaning>, depth: nat)
    decreases e, 3
  {
    && (forall i :: 0 <= i < |entries| ==> SpellsEntry(e, entries[i], m, depth))
    && (forall k :: k in m ==> Named(entries, k))
    && (forall i, j, k :: 0 <= i < j < |entries| && Names(entries[i], k) ==> !Names(entries[j], k))
  }

  ghost predicate SpellsEntry(e: Type, entry: Json, m: map<string, Meaning>, depth: nat)
    decreases e, 2
  {
    && entry.Arr? && |entry.items| == 2 && entry.items[0].Str? && entry.items[0].text in m
    && Spells(e, entry.items[1], m[entry.items[0].text], depth)
  }

  // ---- the forms are the admitted values ----

  lemma BoxedIsTagged(v: Json, name: string)
    ensures Boxed(v, name) <==> TaggedArray(v, name).Some?
    ensures Boxed(v, name) ==> TaggedArray(v, name).value == Inside(v, name)
  {
    if TaggedArray(v, name).Some? { assert v.fields == map[name := v.fields[name]]; }
  }

  /** Canonical decimals are exactly the accepted integer texts. */
  lemma IntegerForm(v: Json, n: int)
    ensures v == Obj(map["#bigint" := Str(Decimal(n))]) <==>
              IntegerText(v).Some? && IntegerValue(IntegerText(v).value) == n
  {
    if v == Obj(map["#bigint" := Str(Decimal(n))]) {
      assert v.fields.Keys == {"#bigint"};
      DecimalIsInteger(n);
    }
    if IntegerText(v).Some? && IntegerValue(IntegerText(v).value) == n {
      CanonicalKeys.IntegerCanonical(IntegerText(v).value);
      assert v.fields == map["#bigint" := v.fields["#bigint"]];
    }
  }

  lemma DecimalIsInteger(n: int)
    ensures IsInteger(Decimal(n)) && IntegerValue(Decimal(n)) == n
  {
    var size := if n < 0 then -n else n;
    NumeralValue(size);
    var s := Numeral(size);
    if n < 0 { assert ("-" + s)[1..] == s; }
    if n == 0 { assert s == "0"; }
  }

  /** The forms of the parts are the parts' admitted values with their meanings. */
  ghost predicate Exactly(ty: Type, v: Json, m: Meaning, depth: nat) {
    Spells(ty, v, m, depth) <==> Inhabits(ty, v, depth) && m == Denote(ty, v)
  }

  lemma AllForms(e: Type, items: seq<Json>, ms: seq<Meaning>, depth: nat)
    requires |ms| == |items| && forall i :: 0 <= i < |items| ==> Exactly(e, items[i], ms[i], depth)
    ensures SpellsAll(e, items, ms, depth) <==> AllInhabit(e, items, depth) && ms == Denotes(e, items)
  {
    hide Spells, Inhabits, Denote;
    if SpellsAll(e, items, ms, depth) {
      forall i | 0 <= i < |items| ensures Inhabits(e, items[i], depth) && ms[i] == Denote(e, items[i]) {
        assert Exactly(e, items[i], ms[i], depth);
      }
    }
    if AllInhabit(e, items, depth) && ms == Denotes(e, items) {
      forall i | 0 <= i < |items| ensures Spells(e, items[i], ms[i], depth) {
        assert Exactly(e, items[i], ms[i], depth);
      }
    }
  }

  lemma MakesRange(ms: seq<Meaning>, members: set<Meaning>)
    ensures Makes(ms, members) <==> NoRepeats(ms) && members == Range(ms)
  {}

  lemma MapForms(e: Type, entries: seq<Json>, m: map<string, Meaning>, depth: nat)
    requires forall i, x :: 0 <= i < |entries| && IsEntry(entries[i]) ==> Exactly(e, entries[i].items[1], x, depth)
    ensures SpellsMap(e, entries, m, depth) <==>
              && IsMapBody(entries) && AllEntries(entries) && AllInhabit(e, Payloads(entries), depth)
              && m == ByText(entries, Denotes(e, Payloads(entries)))
  {
    hide Spells, Inhabits, Denote;
    if SpellsMap(e, entries, m, depth) {
      MapRead(e, entries, m, depth);
    }
    if IsMapBody(entries) && AllInhabit(e, Payloads(entries), depth)
       && m == ByText(entries, Denotes(e, Payloads(entries))) {
      MapWritten(e, entries, depth);
    }
  }

  lemma ByTextIs(entries: seq<Json>, xs: seq<Meaning>, m: map<string, Meaning>)
    requires IsMapBody(entries) && |xs| == |entries|
    requires forall i :: 0 <= i < |entries| ==> entries[i].items[0].text in m && m[entries[i].items[0].text] == xs[i]
    requires forall k :: k in m ==> Named(entries, k)
    ensures m == ByText(entries, xs)
  {
    var read := ByText(entries, xs);
    hide ByText;
    forall k | k in m ensures k in read && read[k] == m[k] {
      var i :| 0 <= i < |entries| && Names(entries[i], k);
      assert Places(entries, i, k);
    }
    forall k | k in read ensures k in m {
      var i :| Places(entries, i, k);
    }
  }

  lemma ByTextHas(entries: seq<Json>, xs: seq<Meaning>)
    requires IsMapBody(entries) && |xs| == |entries|
    ensures var m := ByText(entries, xs);
            && (forall i :: 0 <= i < |entries| ==>
                  entries[i].items[0].text in m && m[entries[i].items[0].text] == xs[i])
            && (forall k :: k in m ==> Named(entries, k))
  {
    var m := ByText(entries, xs);
    hide ByText;
    forall i | 0 <= i < |entries| ensures entries[i].items[0].text in m && m[entries[i].items[0].text] == xs[i] {
      assert IsEntry(entries[i]) && Places(entries, i, entries[i].items[0].text);
    }
    forall k | k in m ensures Named(entries, k) {
      var i :| Places(entries, i, k);
      assert Names(entries[i], k);
    }
  }

  lemma MapRead(e: Type, entries: seq<Json>, m: map<string, Meaning>, depth: nat)
    requires forall i, x :: 0 <= i < |entries| && IsEntry(entries[i]) ==> Exactly(e, entries[i].items[1], x, depth)
    requires SpellsMap(e, entries, m, depth)
    ensures IsMapBody(entries) && AllEntries(entries) && AllInhabit(e, Payloads(entries), depth)
    ensures m == ByText(entries, Denotes(e, Payloads(entries)))
  {
    hide Spells, Inhabits, Denote, Named, ByText;
    forall i | 0 <= i < |entries|
      ensures IsEntry(entries[i]) && Names(entries[i], entries[i].items[0].text) && entries[i].items[0].text in m
      ensures Inhabits(e, entries[i].items[1], depth)
      ensures m[entries[i].items[0].text] == Denote(e, entries[i].items[1])
    {
      assert SpellsEntry(e, entries[i], m, depth);
      assert Exactly(e, entries[i].items[1], m[entries[i].items[0].text], depth);
    }
    ByTextIs(entries, Denotes(e, Payloads(entries)), m);
  }

  lemma MapWritten(e: Type, entries: seq<Json>, depth: nat)
    requires forall i, x :: 0 <= i < |entries| && IsEntry(entries[i]) ==> Exactly(e, entries[i].items[1], x, depth)
    requires IsMapBody(entries) && AllInhabit(e, Payloads(entries), depth)
    ensures SpellsMap(e, entries, ByText(entries, Denotes(e, Payloads(entries))), depth)
  {
    hide Spells, Inhabits, Denote, Named, ByText;
    var xs := Denotes(e, Payloads(entries));
    var m := ByText(entries, xs);
    ByTextHas(entries, xs);
    forall i | 0 <= i < |entries| ensures SpellsEntry(e, entries[i], m, depth) {
      assert IsEntry(entries[i]) && Inhabits(e, Payloads(entries)[i], depth);
      assert Exactly(e, entries[i].items[1], m[entries[i].items[0].text], depth);
    }
  }

  lemma ScalarExact(ty: Type, v: Json, m: Meaning, depth: nat)
    requires ty.TInt? || ty.TBool? || ty.TStr? || ty.TNull?
    ensures Exactly(ty, v, m, depth)
  {
    hide IntegerText, IntegerValue;
    if m.MInt? { IntegerForm(v, m.number); }
  }

  /** A value is a form of a meaning at a type exactly when the type admits it and it means that. */
  lemma {:induction false} SpellsExact(ty: Type, v: Json, m: Meaning, depth: nat)
    ensures Spells(ty, v, m, depth) <==> Inhabits(ty, v, depth) && m == Denote(ty, v)
    decreases ty, 1
  {
    hide Spells, Inhabits, Denote;
    match ty
    case TSet(_) => SetExact(ty, v, m, depth);
    case TSeq(_) => SeqExact(ty, v, m, depth);
    case TTuple(_) => TupleExact(ty, v, m, depth);
    case TRecord(_) => RecordExact(ty, v, m, depth);
    case TMap(_) => MapExact(ty, v, m, depth);
    case TVariant(_) => VariantExact(ty, v, m, depth);
    case _ => ScalarExact(ty, v, m, depth);
  }

  lemma {:induction false} SetExact(ty: Type, v: Json, m: Meaning, depth: nat)
    requires ty.TSet?
    ensures Exactly(ty, v, m, depth)
    decreases ty, 0
  {
    BoxedIsTagged(v, "#set");
    if Boxed(v, "#set") && m.MSet? {
      var items, e, d := Inside(v, "#set"), ty.element, depth + 1;
      if SpellsSet(e, items, m.members, d) {
        var ms :| SpellsAll(e, items, ms, d) && Makes(ms, m.members);
        AllExact(e, items, ms, d);
        MakesRange(ms, m.members);
      }
      AllExact(e, items, Denotes(e, items), d);
      MakesRange(Denotes(e, items), m.members);
    }
  }

  lemma {:induction false} AllExact(e: Type, items: seq<Json>, ms: seq<Meaning>, depth: nat)
    requires |ms| == |items|
    ensures SpellsAll(e, items, ms, depth) <==> AllInhabit(e, items, depth) && ms == Denotes(e, items)
    decreases e, 2
  {
    hide Spells, Inhabits, Denote;
    forall i | 0 <= i < |items| ensures Exactly(e, items[i], ms[i], depth) {
      SpellsExact(e, items[i], ms[i], depth);
    }
    AllForms(e, items, ms, depth);
  }

  lemma {:induction false} SeqExact(ty: Type, v: Json, m: Meaning, depth: nat)
    requires ty.TSeq?
    ensures Exactly(ty, v, m, depth)
    decreases ty, 0
  {
    if v.Arr? && m.MSeq? && |v.items| == |m.items| { AllExact(ty.element, v.items, m.items, depth + 1); }
  }

  lemma {:induction false} TupleExact(ty: Type, v: Json, m: Meaning, depth: nat)
    requires ty.TTuple?
    ensures Exactly(ty, v, m, depth)
    decreases ty, 0
  {
    BoxedIsTagged(v, "#tup");
    if Boxed(v, "#tup") && m.MSeq? && |Inside(v, "#tup")| == |ty.elements| {
      var items := Inside(v, "#tup");
      forall i | 0 <= i < |items| && i < |m.items| ensures Exactly(ty.elements[i], items[i], m.items[i], depth + 1) {
        SpellsExact(ty.elements[i], items[i], m.items[i], depth + 1);
      }
    }
  }

  lemma {:induction false} RecordExact(ty: Type, v: Json, m: Meaning, depth: nat)
    requires ty.TRecord?
    ensures Exactly(ty, v, m, depth)
    decreases ty, 0
  {
    if IsRecordBody(v, ty.fields) && m.MRecord? {
      forall n | n in ty.fields && n in m.fields
        ensures Exactly(ty.fields[n], v.fields[n], m.fields[n], depth + 1)
      {
        SpellsExact(ty.fields[n], v.fields[n], m.fields[n], depth + 1);
      }
    }
  }

  lemma {:induction false} MapExact(ty: Type, v: Json, m: Meaning, depth: nat)
    requires ty.TMap?
    ensures Exactly(ty, v, m, depth)
    decreases ty, 0
  {
    BoxedIsTagged(v, "#map");
    if Boxed(v, "#map") && m.MMap? {
      var entries, e, d := Inside(v, "#map"), ty.value, depth + 1;
      forall i, x | 0 <= i < |entries| && IsEntry(entries[i]) ensures Exactly(e, entries[i].items[1], x, d) {
        SpellsExact(e, entries[i].items[1], x, d);
      }
      MapForms(e, entries, m.entries, d);
    }
  }

  lemma {:induction false} VariantExact(ty: Type, v: Json, m: Meaning, depth: nat)
    requires ty.TVariant?
    ensures Exactly(ty, v, m, depth)
    decreases ty, 0
  {
    if m.MVariant? && m.tag in ty.cases && v.Obj? && "value" in v.fields {
      SpellsExact(ty.cases[m.tag], v.fields["value"], m.payload, depth + 1);
      if IsVariantBody(v, ty.cases) && v.fields["tag"].text == m.tag {
        assert v.fields == map["tag" := Str(m.tag), "value" := v.fields["value"]];
      }
    }
  }
}
