/** Portable types, the values that inhabit them, what those values mean, and the
    two independently written comparison keys (Rust text, Python tuples). */
module PortableValues {
  import opened Options
  import opened Decimals
  import opened Ordered
  import opened Json
  import opened KeyText

  const MAX_VALUE_DEPTH := 32

  datatype Type =
    | TInt | TBool | TStr | TNull
    | TSet(element: Type)
    | TSeq(element: Type)
    | TTuple(elements: seq<Type>)
    | TRecord(fields: map<string, Type>)
    | TMap(value: Type)
    | TVariant(cases: map<string, Type>)

  /** The mathematical value: sets and maps unordered, one integer per numeral. */
  datatype Meaning =
    | MInt(number: int)
    | MBool(flag: bool)
    | MStr(text: string)
    | MNull
    | MSet(members: set<Meaning>)
    | MSeq(items: seq<Meaning>)
    | MRecord(fields: map<string, Meaning>)
    | MMap(entries: map<string, Meaning>)
    | MVariant(tag: string, payload: Meaning)

  /** The hashable key of the Python validator. */
  datatype PyKey =
    | PInt(text: string)
    | PBool(flag: bool)
    | PStr(text: string)
    | PNull
    | PSet(members: set<PyKey>)
    | PSeq(items: seq<PyKey>)
    | PTuple(items: seq<PyKey>)
    | PRecord(fields: set<(string, PyKey)>)
    | PMap(entries: set<(string, PyKey)>)
    | PVariant(tag: string, payload: PyKey)

  // ---- wire shapes ----

  /** An object with exactly the one field `name`. */
  function Tagged(v: Json, name: string): Option<Json> {
    if v.Obj? && v.fields.Keys == {name} then Some(v.fields[name]) else None
  }

  function TaggedArray(v: Json, name: string): Option<seq<Json>> {
    var t := Tagged(v, name);
    if t.Some? && t.value.Arr? then Some(t.value.items) else None
  }

  predicate IsInteger(text: string) {
    text == "0" ||
    (var digits := if text != "" && text[0] == '-' then text[1..] else text;
     digits != "" && '1' <= digits[0] <= '9' && AllDigits(digits))
  }

  function IntegerText(v: Json): Option<string> {
    var t := Tagged(v, "#bigint");
    if t.Some? && t.value.Str? && IsInteger(t.value.text) then Some(t.value.text) else None
  }

  predicate IsEntry(v: Json) {
    v.Arr? && |v.items| == 2 && v.items[0].Str?
  }

  /** Entries of a `#map`, each a string key with a value, no key twice. */
  predicate IsMapBody(entries: seq<Json>) {
    && (forall i :: 0 <= i < |entries| ==> IsEntry(entries[i]))
    && (forall i, j :: 0 <= i < j < |entries| ==> entries[i].items[0].text != entries[j].items[0].text)
  }

  predicate AllEntries(entries: seq<Json>) {
    forall i :: 0 <= i < |entries| ==> IsEntry(entries[i])
  }

  function Payloads(entries: seq<Json>): (vs: seq<Json>)
    requires AllEntries(entries)
    ensures |vs| == |entries| && forall i :: 0 <= i < |vs| ==> vs[i] == entries[i].items[1]
  {
    seq(|entries|, i requires 0 <= i < |entries| => entries[i].items[1])
  }

  predicate IsMapValue(v: Json) {
    TaggedArray(v, "#map").Some? && IsMapBody(TaggedArray(v, "#map").value)
  }

  function MapEntries(v: Json): (es: seq<Json>)
    requires IsMapValue(v)
    ensures IsMapBody(es) && AllEntries(es)
  {
    TaggedArray(v, "#map").value
  }

  function MapPayloads(v: Json): (vs: seq<Json>)
    requires IsMapValue(v)
    ensures |vs| == |MapEntries(v)|
  {
    Payloads(MapEntries(v))
  }

  predicate Places(entries: seq<Json>, i: int, k: string) {
    0 <= i < |entries| && IsEntry(entries[i]) && entries[i].items[0].text == k
  }

  /** The map from the entries' texts to the values standing at their places. */
  function ByText<X>(entries: seq<Json>, xs: seq<X>): (m: map<string, X>)
    requires IsMapBody(entries) && |xs| == |entries|
    ensures forall i, k :: Places(entries, i, k) ==> k in m && m[k] == xs[i]
    ensures forall k :: k in m ==> exists i :: Places(entries, i, k)
  {
    var m := map i | 0 <= i < |entries| :: entries[i].items[0].text := xs[i];
    assert forall k :: k in m ==> exists i :: Places(entries, i, k) by {
      forall k | k in m ensures exists i :: Places(entries, i, k) {
        var i :| 0 <= i < |entries| && entries[i].items[0].text == k;
        assert Places(entries, i, k);
      }
    }
    m
  }

  predicate IsVariantBody(v: Json, cases: map<string, Type>) {
    v.Obj? && v.fields.Keys == {"tag", "value"} && v.fields["tag"].Str? && v.fields["tag"].text in cases
  }

  // ---- meaning and validity ----

  function IntegerValue(text: string): int
    requires IsInteger(text)
  {
    if text[0] == '-' then 0 - Value(text[1..]) else Value(text)
  }

  /** Values found by the type of their place. */
  predicate IsTupleBody(vs: Option<seq<Json>>, ts: seq<Type>) {
    vs.Some? && |vs.value| == |ts|
  }

  predicate IsRecordBody(v: Json, fs: map<string, Type>) {
    v.Obj? && v.fields.Keys == fs.Keys
  }

  /** What a value means at a type; values the type does not admit mean nothing in particular. */
  function Denote(ty: Type, v: Json): Meaning
    decreases ty, 1
  {
    match ty
    case TInt => var t := IntegerText(v); if t.Some? then MInt(IntegerValue(t.value)) else MNull
    case TBool => if v.Bool? then MBool(v.flag) else MNull
    case TStr => if v.Str? then MStr(v.text) else MNull
    case TNull => MNull
    case TSet(e) =>
      var vs := TaggedArray(v, "#set");
      if vs.Some? then MSet(Range(Denotes(e, vs.value))) else MNull
    case TSeq(e) => if v.Arr? then MSeq(Denotes(e, v.items)) else MNull
    case TTuple(ts) =>
      var vs := TaggedArray(v, "#tup");
      if IsTupleBody(vs, ts) then MSeq(DenoteParts(ty, vs.value)) else MNull
    case TRecord(fs) =>
      if IsRecordBody(v, fs) then MRecord(DenoteFields(ty, v.fields)) else MNull
    case TMap(e) => if IsMapValue(v) then MMap(ByText(MapEntries(v), Denotes(e, MapPayloads(v)))) else MNull
    case TVariant(cs) =>
      if IsVariantBody(v, cs) then
        var tag := v.fields["tag"].text;
        MVariant(tag, Denote(cs[tag], v.fields["value"]))
      else MNull
  }

  function Denotes(e: Type, xs: seq<Json>): (ms: seq<Meaning>)
    ensures |ms| == |xs| && forall i :: 0 <= i < |xs| ==> ms[i] == Denote(e, xs[i])
    decreases e, 2
  {
    seq(|xs|, i requires 0 <= i < |xs| => Denote(e, xs[i]))
  }

  function DenoteParts(ty: Type, xs: seq<Json>): (ks: seq<Meaning>)
    requires ty.TTuple? && |xs| == |ty.elements|
    ensures |ks| == |xs| && forall i :: 0 <= i < |xs| ==> ks[i] == Denote(ty.elements[i], xs[i])
    decreases ty, 0
  {
    seq(|xs|, i requires 0 <= i < |xs| => Denote(ty.elements[i], xs[i]))
  }

  function DenoteFields(ty: Type, xs: map<string, Json>): (ks: map<string, Meaning>)
    requires ty.TRecord? && ty.fields.Keys <= xs.Keys
    ensures ks.Keys == ty.fields.Keys && forall n :: n in ks ==> ks[n] == Denote(ty.fields[n], xs[n])
    decreases ty, 0
  {
    map n | n in ty.fields :: Denote(ty.fields[n], xs[n])
  }

  /** The value inhabits the type: right shape, bounded depth, no two set members with one meaning. */
  predicate Inhabits(ty: Type, v: Json, depth: nat)
    decreases ty, 1
  {
    && depth <= MAX_VALUE_DEPTH
    && match ty
       case TInt => IntegerText(v).Some?
       case TBool => v.Bool?
       case TStr => v.Str?
       case TNull => v.Null?
       case TSet(e) =>
         var vs := TaggedArray(v, "#set");
         vs.Some? && AllInhabit(e, vs.value, depth + 1) && NoRepeats(Denotes(e, vs.value))
       case TSeq(e) => v.Arr? && AllInhabit(e, v.items, depth + 1)
       case TTuple(ts) =>
         var vs := TaggedArray(v, "#tup");
         IsTupleBody(vs, ts) && forall i :: 0 <= i < |ts| ==> Inhabits(ts[i], vs.value[i], depth + 1)
       case TRecord(fs) => IsRecordBody(v, fs) && forall n :: n in fs ==> Inhabits(fs[n], v.fields[n], depth + 1)
       case TMap(e) => IsMapValue(v) && AllInhabit(e, MapPayloads(v), depth + 1)
       case TVariant(cs) =>
         IsVariantBody(v, cs) && Inhabits(cs[v.fields["tag"].text], v.fields["value"], depth + 1)
  }

  predicate AllInhabit(e: Type, xs: seq<Json>, depth: nat)
    decreases e, 2
  {
    forall i :: 0 <= i < |xs| ==> Inhabits(e, xs[i], depth)
  }

  // ---- assembling a key from the members' keys ----

  predicate NoRepeats<X(==)>(xs: seq<X>) {
    forall i, j :: 0 <= i < j < |xs| ==> xs[i] != xs[j]
  }

  function Range<X(==)>(xs: seq<X>): set<X> {
    set x | x in xs
  }

  /** All the members' keys, or nothing when one was refused. */
  function All<X>(ks: seq<Option<X>>): Option<seq<X>> {
    if forall i :: 0 <= i < |ks| ==> ks[i].Some? then
      Some(seq(|ks|, i requires 0 <= i < |ks| => ks[i].value))
    else None
  }

  function AllFields<X>(ks: map<string, Option<X>>): Option<map<string, X>> {
    if forall n :: n in ks ==> ks[n].Some? then Some(map n | n in ks :: ks[n].value) else None
  }

  function RustSet(ks: Option<seq<string>>): Option<string> {
    if ks.Some? && NoRepeats(ks.value) then Some("set:" + ArrayText(Ascending(Range(ks.value)))) else None
  }

  function RustArray(prefix: string, ks: Option<seq<string>>): Option<string> {
    if ks.Some? then Some(prefix + ArrayText(ks.value)) else None
  }

  function RustObject(prefix: string, ks: Option<map<string, string>>): Option<string> {
    if ks.Some? then Some(prefix + ObjectText(ks.value)) else None
  }

  function Placed<X>(entries: seq<Json>, ks: Option<seq<X>>): Option<map<string, X>>
    requires IsMapBody(entries) && (ks.Some? ==> |ks.value| == |entries|)
  {
    if ks.Some? then Some(ByText(entries, ks.value)) else None
  }

  // ---- the Rust key ----

  /** `Type::canonical`: a key text, or nothing when the value is refused. */
  function RustKey(ty: Type, v: Json, depth: nat): (k: Option<string>)
    decreases ty, 1
  {
    if depth > MAX_VALUE_DEPTH then None
    else match ty
      case TInt => var t := IntegerText(v); if t.Some? then Some("int:" + t.value) else None
      case TBool => if v.Bool? then Some("bool:" + (if v.flag then "true" else "false")) else None
      case TStr => if v.Str? then Some("str:" + Quote(v.text)) else None
      case TNull => if v.Null? then Some("null") else None
      case TSet(e) =>
        var vs := TaggedArray(v, "#set");
        if vs.Some? then RustSet(All(RustKeys(e, vs.value, depth + 1))) else None
      case TSeq(e) => if v.Arr? then RustArray("seq:", All(RustKeys(e, v.items, depth + 1))) else None
      case TTuple(ts) =>
        var vs := TaggedArray(v, "#tup");
        if IsTupleBody(vs, ts) then
          RustArray("tuple:", All(RustParts(ty, vs.value, depth + 1)))
        else None
      case TRecord(fs) =>
        if v.Obj? && |v.fields| == |fs| && forall n :: n in fs ==> n in v.fields then
          RustObject("record:", AllFields(RustFields(ty, v.fields, depth + 1)))
        else None
      case TMap(e) =>
        if IsMapValue(v) then RustObject("map:", Placed(MapEntries(v), All(RustKeys(e, MapPayloads(v), depth + 1))))
           else None
      case TVariant(cs) =>
        if IsVariantBody(v, cs) then
          var tag := v.fields["tag"].text;
          var k := RustKey(cs[tag], v.fields["value"], depth + 1);
          if k.Some? then Some("variant:" + ArrayText([tag, k.value])) else None
        else None
  }

  function RustKeys(e: Type, xs: seq<Json>, depth: nat): (ks: seq<Option<string>>)
    ensures |ks| == |xs| && forall i :: 0 <= i < |xs| ==> ks[i] == RustKey(e, xs[i], depth)
    decreases e, 2
  {
    seq(|xs|, i requires 0 <= i < |xs| => RustKey(e, xs[i], depth))
  }

  function RustParts(ty: Type, xs: seq<Json>, depth: nat): (ks: seq<Option<string>>)
    requires ty.TTuple? && |xs| == |ty.elements|
    ensures |ks| == |xs| && forall i :: 0 <= i < |xs| ==> ks[i] == RustKey(ty.elements[i], xs[i], depth)
    decreases ty, 0
  {
    seq(|xs|, i requires 0 <= i < |xs| => RustKey(ty.elements[i], xs[i], depth))
  }

  function RustFields(ty: Type, xs: map<string, Json>, depth: nat): (ks: map<string, Option<string>>)
    requires ty.TRecord? && ty.fields.Keys <= xs.Keys
    ensures ks.Keys == ty.fields.Keys && forall n :: n in ks ==> ks[n] == RustKey(ty.fields[n], xs[n], depth)
    decreases ty, 0
  {
    map n | n in ty.fields :: RustKey(ty.fields[n], xs[n], depth)
  }

  // ---- the Python key ----

  /** A frozenset shorter than its source had a duplicate. */
  function PythonSet(ks: Option<seq<PyKey>>): Option<PyKey> {
    if ks.Some? && |Range(ks.value)| == |ks.value| then Some(PSet(Range(ks.value))) else None
  }

  function PythonSeq(ks: Option<seq<PyKey>>): Option<PyKey> {
    if ks.Some? then Some(PSeq(ks.value)) else None
  }

  function PythonTuple(ks: Option<seq<PyKey>>): Option<PyKey> {
    if ks.Some? then Some(PTuple(ks.value)) else None
  }

  function PythonRecord(ks: Option<map<string, PyKey>>): Option<PyKey> {
    if ks.Some? then Some(PRecord(ks.value.Items)) else None
  }

  function PythonMap(ks: Option<map<string, PyKey>>): Option<PyKey> {
    if ks.Some? then Some(PMap(ks.value.Items)) else None
  }

  /** `_value`: a tuple or frozenset key, or nothing when the value is refused. */
  function PythonKey(ty: Type, v: Json, depth: nat): (k: Option<PyKey>)
    decreases ty, 1
  {
    if depth > MAX_VALUE_DEPTH then None
    else match ty
      case TInt => var t := IntegerText(v); if t.Some? then Some(PInt(t.value)) else None
      case TBool => if v.Bool? then Some(PBool(v.flag)) else None
      case TStr => if v.Str? then Some(PStr(v.text)) else None
      case TNull => if v.Null? then Some(PNull) else None
      case TSet(e) =>
        var vs := TaggedArray(v, "#set");
        if vs.Some? then PythonSet(All(PythonKeys(e, vs.value, depth + 1))) else None
      case TSeq(e) => if v.Arr? then PythonSeq(All(PythonKeys(e, v.items, depth + 1))) else None
      case TTuple(ts) =>
        var vs := TaggedArray(v, "#tup");
        if IsTupleBody(vs, ts) then
          PythonTuple(All(PythonParts(ty, vs.value, depth + 1)))
        else None
      case TRecord(fs) =>
        if IsRecordBody(v, fs) then
          PythonRecord(AllFields(PythonFields(ty, v.fields, depth + 1)))
        else None
      case TMap(e) =>
        if IsMapValue(v) then PythonMap(Placed(MapEntries(v), All(PythonKeys(e, MapPayloads(v), depth + 1)))) else None
      case TVariant(cs) =>
        if IsVariantBody(v, cs) then
          var tag := v.fields["tag"].text;
          var k := PythonKey(cs[tag], v.fields["value"], depth + 1);
          if k.Some? then Some(PVariant(tag, k.value)) else None
        else None
  }

  function PythonKeys(e: Type, xs: seq<Json>, depth: nat): (ks: seq<Option<PyKey>>)
    ensures |ks| == |xs| && forall i :: 0 <= i < |xs| ==> ks[i] == PythonKey(e, xs[i], depth)
    decreases e, 2
  {
    seq(|xs|, i requires 0 <= i < |xs| => PythonKey(e, xs[i], depth))
  }

  function PythonParts(ty: Type, xs: seq<Json>, depth: nat): (ks: seq<Option<PyKey>>)
    requires ty.TTuple? && |xs| == |ty.elements|
    ensures |ks| == |xs| && forall i :: 0 <= i < |xs| ==> ks[i] == PythonKey(ty.elements[i], xs[i], depth)
    decreases ty, 0
  {
    seq(|xs|, i requires 0 <= i < |xs| => PythonKey(ty.elements[i], xs[i], depth))
  }

  function PythonFields(ty: Type, xs: map<string, Json>, depth: nat): (ks: map<string, Option<PyKey>>)
    requires ty.TRecord? && ty.fields.Keys <= xs.Keys
    ensures ks.Keys == ty.fields.Keys && forall n :: n in ks ==> ks[n] == PythonKey(ty.fields[n], xs[n], depth)
    decreases ty, 0
  {
    map n | n in ty.fields :: PythonKey(ty.fields[n], xs[n], depth)
  }
}
