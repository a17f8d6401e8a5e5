/** An abstract JSON tree and the generic rules by which the serializer and
    deserializer derived for a plain struct map its fields to and from an object.

    A struct is encoded from its SLOTS: one `Option<Json>` per declared field, in
    declaration order, where `None` means the field is skipped (an `Option` field
    that is `None`, or a `Vec` field that is empty and marked to be skipped). The
    decoder reads the slots back by key, rejecting unknown keys (for structs that
    deny them) and repeated keys. */
module Json {
  import opened Wrappers

  /** A JSON value. Object members keep their order, because field order is part
      of the wire format. Only integral numbers are modelled. */
  datatype Json =
    | JNull
    | JBool(b: bool)
    | JNum(n: int)
    | JStr(s: string)
    | JArr(items: seq<Json>)
    | JObj(members: seq<(string, Json)>)

  type Members = seq<(string, Json)>

  /** Rust's `i32`: prices, discounts and image sizes. */
  type Int32 = x: int | -0x8000_0000 <= x < 0x8000_0000

  /** Why a decoder rejected its input. The payloads are descriptive only. */
  datatype DecodeError =
    | NotAnObject
    | UnknownField
    | DuplicateField
    | MissingField(name: string)
    | InvalidType(name: string)
    | MissingAction
    | UnknownAction(action: string)
    | NoVariantMatched

  type Decoded<T> = Result<T, DecodeError>

  /** True when no `null` occurs anywhere in `j`. */
  predicate NullFree(j: Json) {
    match j
    case JNull => false
    case JArr(items) => forall i :: 0 <= i < |items| ==> NullFree(items[i])
    case JObj(fs) => forall i :: 0 <= i < |fs| ==> NullFree(fs[i].1)
    case _ => true
  }

  /** True when some member of `fs` is named `k`. */
  predicate HasKey(fs: Members, k: string) {
    exists i :: 0 <= i < |fs| && fs[i].0 == k
  }

  /** The value of the LAST member named `k`: a map built from the members by
      successive inserts keeps the last one. */
  function Get(fs: Members, k: string): (r: Option<Json>)
    ensures r.Some? <==> HasKey(fs, k)
    ensures r.Some? ==> (k, r.value) in fs
  {
    if |fs| == 0 then None
    else
      match Get(fs[1..], k)
      case Some(v) =>
        assert (k, v) in fs[1..];
        Some(v)
      case None =>
        if fs[0].0 == k then Some(fs[0].1)
        else
          assert !HasKey(fs, k) by {
            forall i | 0 <= i < |fs| ensures fs[i].0 != k {
              if i > 0 { assert fs[1..][i - 1] == fs[i]; }
            }
          }
          None
  }

  /** How many members of `fs` are named `k`. */
  function Count(fs: Members, k: string): (c: nat)
    ensures c == 0 <==> !HasKey(fs, k)
  {
    if |fs| == 0 then 0
    else
      assert HasKey(fs, k) <==> fs[0].0 == k || HasKey(fs[1..], k) by {
        if HasKey(fs[1..], k) {
          var i :| 0 <= i < |fs[1..]| && fs[1..][i].0 == k;
          assert fs[i + 1].0 == k;
        }
        if HasKey(fs, k) && fs[0].0 != k {
          var i :| 0 <= i < |fs| && fs[i].0 == k;
          assert fs[1..][i - 1].0 == k;
        }
      }
      (if fs[0].0 == k then 1 else 0) + Count(fs[1..], k)
  }

  /** Every member of `fs` is one of the declared `names`. */
  predicate KnownKeys(fs: Members, names: seq<string>) {
    forall i :: 0 <= i < |fs| ==> fs[i].0 in names
  }

  /** No declared name occurs twice among the members. */
  predicate NoRepeats(fs: Members, names: seq<string>) {
    forall n :: n in names ==> Count(fs, n) <= 1
  }

  /** The declared field names are pairwise different. */
  predicate Distinct(names: seq<string>) {
    forall i, j :: 0 <= i < j < |names| ==> names[i] != names[j]
  }

  /** The member a single slot contributes: nothing when it is skipped. */
  function Member(k: string, slot: Option<Json>): Members {
    if slot.Some? then [(k, slot.value)] else []
  }

  /** The members of a derived struct serialization: the present slots, in
      declaration order, each under its field name. */
  function Fields(names: seq<string>, slots: seq<Option<Json>>): (fs: Members)
    requires |names| == |slots|
  {
    if |names| == 0 then []
    else Member(names[0], slots[0]) + Fields(names[1..], slots[1..])
  }

  /** Only declared names are emitted, and every emitted value is a present slot. */
  lemma {:induction false} FieldsFromSlots(names: seq<string>, slots: seq<Option<Json>>)
    requires |names| == |slots|
    ensures KnownKeys(Fields(names, slots), names)
    ensures forall i :: 0 <= i < |Fields(names, slots)| ==> Some(Fields(names, slots)[i].1) in slots
  {
    if |names| > 0 {
      FieldsFromSlots(names[1..], slots[1..]);
      assert forall i :: 1 <= i < |slots| ==> slots[1..][i - 1] == slots[i];
    }
  }

  /** The serialization of a three-field struct, member by member. */
  lemma FieldsUnfold3(names: seq<string>, slots: seq<Option<Json>>)
    requires |names| == |slots| == 3
    ensures Fields(names, slots) == Member(names[0], slots[0]) + (Member(names[1], slots[1]) + Member(names[2], slots[2]))
  {
    var n1, s1 := names[1..], slots[1..];
    var n2, s2 := n1[1..], s1[1..];
    assert Fields(n2[1..], s2[1..]) == [];
    assert Fields(n2, s2) == Member(names[2], slots[2]);
  }

  /** The serialization of a four-field struct, member by member. */
  lemma FieldsUnfold4(names: seq<string>, slots: seq<Option<Json>>)
    requires |names| == |slots| == 4
    ensures Fields(names, slots) == Member(names[0], slots[0]) + (Member(names[1], slots[1]) + (Member(names[2], slots[2]) + Member(names[3], slots[3])))
  {
    FieldsUnfold3(names[1..], slots[1..]);
  }

  /** The serialization of a five-field struct, member by member. */
  lemma FieldsUnfold5(names: seq<string>, slots: seq<Option<Json>>)
    requires |names| == |slots| == 5
    ensures Fields(names, slots) == Member(names[0], slots[0]) + (Member(names[1], slots[1]) + (Member(names[2], slots[2]) + (Member(names[3], slots[3]) + Member(names[4], slots[4]))))
  {
    FieldsUnfold4(names[1..], slots[1..]);
  }

  lemma GetAppend(a: Members, b: Members, k: string)
    ensures Get(a + b, k) == if Get(b, k).Some? then Get(b, k) else Get(a, k)
  {
    if |a| > 0 {
      assert (a + b)[1..] == a[1..] + b;
      GetAppend(a[1..], b, k);
    } else {
      assert a + b == b;
    }
  }

  lemma CountAppend(a: Members, b: Members, k: string)
    ensures Count(a + b, k) == Count(a, k) + Count(b, k)
  {
    if |a| > 0 {
      assert (a + b)[1..] == a[1..] + b;
      CountAppend(a[1..], b, k);
    } else {
      assert a + b == b;
    }
  }

  /** A name that is not declared never appears in the serialization. */
  lemma FieldsAbsent(names: seq<string>, slots: seq<Option<Json>>, k: string)
    requires |names| == |slots|
    requires k !in names
    ensures Count(Fields(names, slots), k) == 0
    ensures Get(Fields(names, slots), k) == None
  {
    FieldsFromSlots(names, slots);
  }

  /** Reading a declared field back from the serialization yields its slot, and
      the field occurs at most once. */
  lemma {:induction false} FieldsGet(names: seq<string>, slots: seq<Option<Json>>, i: nat)
    requires |names| == |slots| && Distinct(names)
    requires i < |names|
    ensures Get(Fields(names, slots), names[i]) == slots[i]
    ensures Count(Fields(names, slots), names[i]) <= 1
  {
    var head := Member(names[0], slots[0]);
    var rest := Fields(names[1..], slots[1..]);
    assert Fields(names, slots) == head + rest;
    GetAppend(head, rest, names[i]);
    CountAppend(head, rest, names[i]);
    if i == 0 {
      assert names[0] !in names[1..] by {
        forall j | 0 <= j < |names[1..]| ensures names[1..][j] != names[0] {
          assert names[1..][j] == names[j + 1];
        }
      }
      FieldsAbsent(names[1..], slots[1..], names[0]);
    } else {
      assert names[1..][i - 1] == names[i];
      assert Distinct(names[1..]) by {
        forall a, b | 0 <= a < b < |names[1..]| ensures names[1..][a] != names[1..][b] {
          assert names[1..][a] == names[a + 1] && names[1..][b] == names[b + 1];
        }
      }
      FieldsGet(names[1..], slots[1..], i - 1);
      assert names[0] != names[i];
    }
  }

  /** A declared field is emitted exactly when its slot is present. */
  lemma FieldsHasKey(names: seq<string>, slots: seq<Option<Json>>, i: nat)
    requires |names| == |slots| && Distinct(names)
    requires i < |names|
    ensures HasKey(Fields(names, slots), names[i]) <==> slots[i].Some?
  {
    FieldsGet(names, slots, i);
  }

  /** When the first `k + 1` slots are all present, the `k`-th member of the
      serialization is the `k`-th declared field. */
  lemma {:induction false} FieldsLeading(names: seq<string>, slots: seq<Option<Json>>, k: nat)
    requires |names| == |slots| && k < |names|
    requires forall j :: 0 <= j <= k ==> slots[j].Some?
    ensures k < |Fields(names, slots)|
    ensures Fields(names, slots)[k] == (names[k], slots[k].value)
  {
    var rest := Fields(names[1..], slots[1..]);
    assert Fields(names, slots) == [(names[0], slots[0].value)] + rest;
    if k > 0 {
      FieldsLeading(names[1..], slots[1..], k - 1);
    }
  }

  /** Slots that hold only strings serialize to members whose values are all
      strings. */
  lemma FieldsStrings(names: seq<string>, slots: seq<Option<Json>>)
    requires |names| == |slots|
    requires forall k :: 0 <= k < |slots| && slots[k].Some? ==> slots[k].value.JStr?
    ensures forall i :: 0 <= i < |Fields(names, slots)| ==> Fields(names, slots)[i].1.JStr?
  {
    var fs := Fields(names, slots);
    FieldsFromSlots(names, slots);
    forall i | 0 <= i < |fs| ensures fs[i].1.JStr? {
      assert Some(fs[i].1) in slots;
    }
  }

  /** The struct-level round trip: decoding the serialization of some slots
      yields exactly those slots. */
  lemma SlotsRoundTrip(names: seq<string>, slots: seq<Option<Json>>, denyUnknown: bool)
    requires |names| == |slots| && Distinct(names)
    ensures DecodeSlots(JObj(Fields(names, slots)), names, denyUnknown) == Ok(slots)
  {
    var fs := Fields(names, slots);
    FieldsFromSlots(names, slots);
    assert NoRepeats(fs, names) by {
      forall n | n in names ensures Count(fs, n) <= 1 {
        var i :| 0 <= i < |names| && names[i] == n;
        FieldsGet(names, slots, i);
      }
    }
    var r := DecodeSlots(JObj(fs), names, denyUnknown);
    assert r.Ok?;
    forall i | 0 <= i < |names| ensures r.value[i] == slots[i] {
      FieldsGet(names, slots, i);
    }
    assert r.value == slots;
  }

  /** Reads the slots of a derived struct from `j`. It fails when `j` is not an
      object, when a member is unknown and the struct denies unknown fields, or
      when a declared field is given twice; a skipped or missing field reads as
      `None`. */
  function DecodeSlots(j: Json, names: seq<string>, denyUnknown: bool): (r: Decoded<seq<Option<Json>>>)
    ensures r.Ok? <==> j.JObj? && (denyUnknown ==> KnownKeys(j.members, names)) && NoRepeats(j.members, names)
    ensures r.Ok? ==> |r.value| == |names|
    ensures r.Ok? ==> forall i :: 0 <= i < |names| ==> (r.value[i].Some? <==> HasKey(j.members, names[i]))
    ensures r.Ok? ==> forall i :: 0 <= i < |names| ==> r.value[i] == Get(j.members, names[i])
  {
    if !j.JObj? then Err(NotAnObject)
    else if denyUnknown && !KnownKeys(j.members, names) then Err(UnknownField)
    else if !NoRepeats(j.members, names) then Err(DuplicateField)
    else Ok(seq(|names|, i requires 0 <= i < |names| => Get(j.members, names[i])))
  }

  /** The keys of the members, in order. */
  function Keys(fs: Members): (ks: seq<string>)
    ensures |ks| == |fs| && forall i :: 0 <= i < |fs| ==> ks[i] == fs[i].0
  {
    seq(|fs|, i requires 0 <= i < |fs| => fs[i].0)
  }

  /** The names whose flag is set, keeping their order. */
  function Present(names: seq<string>, flags: seq<bool>): seq<string>
    requires |names| == |flags|
  {
    if |names| == 0 then []
    else (if flags[0] then [names[0]] else []) + Present(names[1..], flags[1..])
  }

  /** Which slots are present. */
  function Flags(slots: seq<Option<Json>>): (fl: seq<bool>)
    ensures |fl| == |slots| && forall i :: 0 <= i < |slots| ==> (fl[i] <==> slots[i].Some?)
  {
    seq(|slots|, i requires 0 <= i < |slots| => slots[i].Some?)
  }

  /** The serialization emits exactly the declared names of the present slots,
      in declaration order. */
  lemma {:induction false} FieldsKeys(names: seq<string>, slots: seq<Option<Json>>)
    requires |names| == |slots|
    ensures Keys(Fields(names, slots)) == Present(names, Flags(slots))
  {
    if |names| > 0 {
      FieldsKeys(names[1..], slots[1..]);
      assert Flags(slots)[1..] == Flags(slots[1..]);
      var m := Member(names[0], slots[0]);
      var rest := Fields(names[1..], slots[1..]);
      assert Keys(m + rest) == Keys(m) + Keys(rest);
    }
  }

  /** A struct whose every slot is present emits all of its names, in
      declaration order. */
  lemma FieldsKeysAll(names: seq<string>, slots: seq<Option<Json>>)
    requires |names| == |slots|
    requires forall i :: 0 <= i < |slots| ==> slots[i].Some?
    ensures Keys(Fields(names, slots)) == names
  {
    FieldsKeys(names, slots);
    PresentAll(names, Flags(slots));
  }

  lemma {:induction false} PresentAll(names: seq<string>, flags: seq<bool>)
    requires |names| == |flags|
    requires forall i :: 0 <= i < |flags| ==> flags[i]
    ensures Present(names, flags) == names
  {
    if |names| > 0 {
      PresentAll(names[1..], flags[1..]);
    }
  }

  /** Serializing two runs of fields one after the other is serializing their
      concatenation. */
  lemma {:induction false} FieldsAppend(n1: seq<string>, s1: seq<Option<Json>>, n2: seq<string>, s2: seq<Option<Json>>)
    requires |n1| == |s1| && |n2| == |s2|
    ensures Fields(n1 + n2, s1 + s2) == Fields(n1, s1) + Fields(n2, s2)
  {
    if |n1| == 0 {
      assert n1 + n2 == n2 && s1 + s2 == s2;
    } else {
      var m := Member(n1[0], s1[0]);
      var tail1, tail2 := Fields(n1[1..], s1[1..]), Fields(n2, s2);
      FieldsAppend(n1[1..], s1[1..], n2, s2);
      assert (n1 + n2)[1..] == n1[1..] + n2;
      assert (s1 + s2)[1..] == s1[1..] + s2;
      calc {
        Fields(n1 + n2, s1 + s2);
        m + Fields(n1[1..] + n2, s1[1..] + s2);
        m + (tail1 + tail2);
        { assert m + (tail1 + tail2) == (m + tail1) + tail2; }
        Fields(n1, s1) + tail2;
      }
    }
  }

  lemma KeysAppend(a: Members, b: Members)
    ensures Keys(a + b) == Keys(a) + Keys(b)
  {
  }

  /** The keys of a struct serialized in two runs, each run keeping exactly its
      present slots in declaration order. */
  lemma FieldsKeys2(n1: seq<string>, s1: seq<Option<Json>>, n2: seq<string>, s2: seq<Option<Json>>)
    requires |n1| == |s1| && |n2| == |s2|
    ensures Keys(Fields(n1 + n2, s1 + s2)) == Present(n1, Flags(s1)) + Present(n2, Flags(s2))
  {
    FieldsAppend(n1, s1, n2, s2);
    KeysAppend(Fields(n1, s1), Fields(n2, s2));
    FieldsKeys(n1, s1);
    FieldsKeys(n2, s2);
  }

  /** A struct that ignores unknown fields reads the same slots whether or not
      an extra member with an undeclared name is appended. */
  lemma DecodeSlotsIgnoresUnknown(fs: Members, k: string, v: Json, names: seq<string>)
    requires k !in names
    ensures DecodeSlots(JObj(fs + [(k, v)]), names, false) == DecodeSlots(JObj(fs), names, false)
  {
    forall n | n in names ensures Count(fs + [(k, v)], n) == Count(fs, n) && Get(fs + [(k, v)], n) == Get(fs, n) {
      CountAppend(fs, [(k, v)], n);
      GetAppend(fs, [(k, v)], n);
      assert [(k, v)][1..] == [];
    }
    var a, b := DecodeSlots(JObj(fs + [(k, v)]), names, false), DecodeSlots(JObj(fs), names, false);
    assert a.Ok? <==> b.Ok?;
    if a.Ok? {
      assert a.value == b.value;
    }
  }

  /** A struct that denies unknown fields rejects any object holding a member
      with an undeclared name. */
  lemma DecodeSlotsDeniesUnknown(fs: Members, i: nat, names: seq<string>)
    requires i < |fs| && fs[i].0 !in names
    ensures DecodeSlots(JObj(fs), names, true) == Err(UnknownField)
  {
  }

  /** The serialization of a struct with a single present field. */
  lemma FieldsOne(names: seq<string>, slots: seq<Option<Json>>)
    requires |names| == |slots| == 1 && slots[0].Some?
    ensures Fields(names, slots) == [(names[0], slots[0].value)]
  {
    assert Fields(names[1..], slots[1..]) == [];
  }

  /** A one-key wrapper object is rejected by every struct that denies unknown
      fields and does not declare its key. */
  lemma WrapperDenied(wrapper: seq<string>, slot: Option<Json>, names: seq<string>)
    requires |wrapper| == 1 && slot.Some? && wrapper[0] !in names
    ensures DecodeSlots(JObj(Fields(wrapper, [slot])), names, true) == Err(UnknownField)
  {
    FieldsOne(wrapper, [slot]);
    DecodeSlotsDeniesUnknown(Fields(wrapper, [slot]), 0, names);
  }

  /* ---------- arrays ---------- */

  /** The array serialization of a `Vec`: each element in order. */
  function EncodeAll<T>(xs: seq<T>, enc: T -> Json): (js: seq<Json>)
    ensures |js| == |xs|
    ensures forall i :: 0 <= i < |xs| ==> js[i] == enc(xs[i])
  {
    seq(|xs|, i requires 0 <= i < |xs| => enc(xs[i]))
  }

  /** Decodes every element of an array in order; fails when any element fails. */
  function DecodeAll<T>(js: seq<Json>, dec: Json -> Decoded<T>): (r: Decoded<seq<T>>)
    ensures r.Ok? ==> |r.value| == |js| && forall i :: 0 <= i < |js| ==> dec(js[i]) == Ok(r.value[i])
    ensures r.Err? <==> exists i :: 0 <= i < |js| && dec(js[i]).Err?
  {
    if |js| == 0 then Ok([])
    else
      match dec(js[0])
      case Err(e) => Err(e)
      case Ok(x) =>
        match DecodeAll(js[1..], dec)
        case Err(e) =>
          assert exists i :: 0 <= i < |js| && dec(js[i]).Err? by {
            var i :| 0 <= i < |js[1..]| && dec(js[1..][i]).Err?;
            assert js[1..][i] == js[i + 1];
          }
          Err(e)
        case Ok(rest) =>
          assert forall i :: 1 <= i < |js| ==> js[i] == js[1..][i - 1];
          Ok([x] + rest)
  }

  /** Decoding the encoding of a sequence gives the sequence back, provided each
      element survives the round trip on its own. */
  lemma DecodeAllRoundTrip<T>(xs: seq<T>, enc: T -> Json, dec: Json -> Decoded<T>)
    requires forall i :: 0 <= i < |xs| ==> dec(enc(xs[i])) == Ok(xs[i])
    ensures DecodeAll(EncodeAll(xs, enc), dec) == Ok(xs)
  {
    var r := DecodeAll(EncodeAll(xs, enc), dec);
    assert r.Ok?;
    assert forall i :: 0 <= i < |xs| ==> r.value[i] == xs[i];
    assert r.value == xs;
  }

  /* ---------- slots of the field kinds the structs use ---------- */

  function StrSlot(s: string): Option<Json> {
    Some(JStr(s))
  }

  /** `Option<String>` with skip-if-none. */
  function OptStrSlot(o: Option<string>): Option<Json> {
    if o.Some? then Some(JStr(o.value)) else None
  }

  function BoolSlot(b: bool): Option<Json> {
    Some(JBool(b))
  }

  function IntSlot(n: Int32): Option<Json> {
    Some(JNum(n))
  }

  /** `Option<i32>` with skip-if-none. */
  function OptIntSlot(o: Option<Int32>): Option<Json> {
    if o.Some? then Some(JNum(o.value)) else None
  }

  function NestedSlot<T>(x: T, enc: T -> Json): Option<Json> {
    Some(enc(x))
  }

  /** A nested `Option<struct>` with skip-if-none. */
  function OptNestedSlot<T>(o: Option<T>, enc: T -> Json): Option<Json> {
    if o.Some? then Some(enc(o.value)) else None
  }

  /** A `Vec` that is always serialized. */
  function ArraySlot<T>(xs: seq<T>, enc: T -> Json): Option<Json> {
    Some(JArr(EncodeAll(xs, enc)))
  }

  /** A `Vec` with skip-if-empty. */
  function ArraySlotUnlessEmpty<T>(xs: seq<T>, enc: T -> Json): Option<Json> {
    if |xs| == 0 then None else Some(JArr(EncodeAll(xs, enc)))
  }

  /** A required `String` field. */
  function AsString(slot: Option<Json>, name: string): (r: Decoded<string>)
    ensures r.Ok? <==> slot.Some? && slot.value.JStr?
  {
    match slot
    case None => Err(MissingField(name))
    case Some(JStr(s)) => Ok(s)
    case Some(_) => Err(InvalidType(name))
  }

  /** An `Option<String>` field: missing or `null` gives `None`. */
  function AsOptString(slot: Option<Json>, name: string): Decoded<Option<string>> {
    match slot
    case None => Ok(None)
    case Some(JNull) => Ok(None)
    case Some(JStr(s)) => Ok(Some(s))
    case Some(_) => Err(InvalidType(name))
  }

  /** A required `bool` field. */
  function AsBool(slot: Option<Json>, name: string): (r: Decoded<bool>)
    ensures r.Ok? <==> slot.Some? && slot.value.JBool?
  {
    match slot
    case None => Err(MissingField(name))
    case Some(JBool(b)) => Ok(b)
    case Some(_) => Err(InvalidType(name))
  }

  /** A required `i32` field: a number outside the 32-bit range is rejected. */
  function AsInt32(slot: Option<Json>, name: string): (r: Decoded<Int32>)
    ensures r.Ok? <==> slot.Some? && slot.value.JNum? && -0x8000_0000 <= slot.value.n < 0x8000_0000
  {
    match slot
    case None => Err(MissingField(name))
    case Some(JNum(n)) => if -0x8000_0000 <= n < 0x8000_0000 then Ok(n) else Err(InvalidType(name))
    case Some(_) => Err(InvalidType(name))
  }

  /** An `Option<i32>` field: missing or `null` gives `None`. */
  function AsOptInt32(slot: Option<Json>, name: string): Decoded<Option<Int32>> {
    match slot
    case None => Ok(None)
    case Some(JNull) => Ok(None)
    case Some(JNum(n)) => if -0x8000_0000 <= n < 0x8000_0000 then Ok(Some(n)) else Err(InvalidType(name))
    case Some(_) => Err(InvalidType(name))
  }

  /** A required nested struct. */
  function AsNested<T>(slot: Option<Json>, name: string, dec: Json -> Decoded<T>): (r: Decoded<T>)
    ensures r.Ok? ==> slot.Some?
  {
    match slot
    case None => Err(MissingField(name))
    case Some(v) => dec(v)
  }

  /** An `Option<struct>` field: missing or `null` gives `None`. */
  function AsOptNested<T>(slot: Option<Json>, name: string, dec: Json -> Decoded<T>): Decoded<Option<T>> {
    match slot
    case None => Ok(None)
    case Some(JNull) => Ok(None)
    case Some(v) =>
      var x :- dec(v);
      Ok(Some(x))
  }

  /** A required `Vec` field. */
  function AsArray<T>(slot: Option<Json>, name: string, dec: Json -> Decoded<T>): (r: Decoded<seq<T>>)
    ensures r.Ok? ==> slot.Some? && slot.value.JArr?
  {
    match slot
    case None => Err(MissingField(name))
    case Some(JArr(items)) => DecodeAll(items, dec)
    case Some(_) => Err(InvalidType(name))
  }

  /** A `Vec` field marked `default`: missing gives the empty sequence. */
  function AsArrayOrEmpty<T>(slot: Option<Json>, name: string, dec: Json -> Decoded<T>): Decoded<seq<T>> {
    match slot
    case None => Ok([])
    case Some(JArr(items)) => DecodeAll(items, dec)
    case Some(_) => Err(InvalidType(name))
  }

  lemma OptNestedRoundTrip<T>(o: Option<T>, name: string, enc: T -> Json, dec: Json -> Decoded<T>)
    requires o.Some? ==> enc(o.value).JObj? && dec(enc(o.value)) == Ok(o.value)
    ensures AsOptNested(OptNestedSlot(o, enc), name, dec) == Ok(o)
  {
  }

  lemma ArrayRoundTrip<T>(xs: seq<T>, name: string, enc: T -> Json, dec: Json -> Decoded<T>)
    requires forall i :: 0 <= i < |xs| ==> dec(enc(xs[i])) == Ok(xs[i])
    ensures AsArray(ArraySlot(xs, enc), name, dec) == Ok(xs)
    ensures AsArrayOrEmpty(ArraySlot(xs, enc), name, dec) == Ok(xs)
    ensures AsArrayOrEmpty(ArraySlotUnlessEmpty(xs, enc), name, dec) == Ok(xs)
  {
    DecodeAllRoundTrip(xs, enc, dec);
  }
}
