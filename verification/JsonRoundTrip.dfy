/** What survives the crossing: serializing and then deserializing. */
module JsonRoundTrip {
  import opened Wrappers
  import opened JsonWire
  import opened Numbers
  import Rounding
  import Base64
  import Registry = TypeRegistry

  // ---------------------------------------------------------------- numbers

  lemma {:induction false} ParsedShape(tree: Json)
    ensures (Parsed(tree).JNull? <==> tree.JNull?) && (Parsed(tree).JStr? <==> tree.JStr?)
    ensures PlainTree(tree) ==> PlainTree(Parsed(tree))
  {
    match tree
    case JArr(items) =>
      forall i | 0 <= i < |items| ensures PlainTree(items[i]) ==> PlainTree(Parsed(items[i])) {
        ParsedShape(items[i]);
      }
      assert forall i :: 0 <= i < |items| ==> Parsed(tree).items[i] == Parsed(items[i]);
    case JObj(members) =>
      forall k | k in members
        ensures (Parsed(members[k]).JStr? <==> members[k].JStr?) && (PlainTree(members[k]) ==> PlainTree(Parsed(members[k])))
      {
        ParsedShape(members[k]);
      }
      assert forall k :: k in members ==> Parsed(tree).members[k] == Parsed(members[k]);
    case _ =>
  }

  /** A raw tree is written again as it was read if and only if each of its numbers is. */
  lemma {:induction false} RewritesIff(tree: Json)
    ensures Written(Parsed(tree)) == tree <==> NumbersKept(tree)
  {
    match tree
    case JArr(items) =>
      forall i | 0 <= i < |items|
        ensures Written(Parsed(tree)).items[i] == Written(Parsed(items[i]))
        ensures Written(Parsed(items[i])) == items[i] <==> NumbersKept(items[i])
      {
        RewritesIff(items[i]);
      }
      assert Written(Parsed(tree)) == tree <==> Written(Parsed(tree)).items == items;
    case JObj(members) =>
      var back := Written(Parsed(tree)).members;
      assert back.Keys == members.Keys;
      forall k | k in members
        ensures back[k] == Written(Parsed(members[k]))
        ensures Written(Parsed(members[k])) == members[k] <==> NumbersKept(members[k])
      {
        RewritesIff(members[k]);
      }
      assert back == members <==> forall k :: k in members ==> back[k] == members[k];
    case _ =>
  }

  // ---------------------------------------------------------------- plain trees and plain values

  /** j reads as a plain value that encoding/json writes back as j. */
  ghost predicate ReadsPlain(env: Env, j: Json) {
    var r := Deserialize(env, j);
    r.Ok? && Marshal(r.value) == Some(j) && PlainValue(r.value) && (r.value == Nil <==> j == JNull) && (r.value.Str? <==> j.JStr?)
  }

  lemma PlainArrayReads(env: Env, items: seq<Json>)
    requires PlainTree(JArr(items)) && forall i :: 0 <= i < |items| ==> ReadsPlain(env, items[i])
    ensures ReadsPlain(env, JArr(items))
  {
    var v := Deserialize(env, JArr(items)).value;
    assert Marshal(v).value.items == items;
  }

  lemma PlainObjectReads(env: Env, members: map<string, Json>)
    requires PlainTree(JObj(members)) && forall k :: k in members ==> ReadsPlain(env, members[k])
    ensures ReadsPlain(env, JObj(members))
  {
    var v := Deserialize(env, JObj(members)).value;
    assert v.entries.Keys == members.Keys;
    assert Marshal(v).value.members == members;
  }

  /** A tree without tagged objects reads as a value that encoding/json writes back as the same tree. */
  lemma {:induction false} PlainTreeReads(env: Env, j: Json)
    requires PlainTree(j)
    ensures ReadsPlain(env, j)
  {
    match j
    case JArr(items) =>
      forall i | 0 <= i < |items| ensures ReadsPlain(env, items[i]) {
        PlainTreeReads(env, items[i]);
      }
      PlainArrayReads(env, items);
    case JObj(members) =>
      forall k | k in members ensures ReadsPlain(env, members[k]) {
        PlainTreeReads(env, members[k]);
      }
      PlainObjectReads(env, members);
    case _ =>
  }

  /** A plain dynamic value is written as a tree without tagged objects. */
  lemma {:induction false} PlainValueWrites(env: Env, v: Value)
    requires PlainValue(v)
    ensures var j := Serialize(env, TAny, v); PlainTree(j) && (j == JNull <==> v == Nil) && (j.JStr? <==> v.Str?)
  {
    match v
    case List(items) =>
      forall i | 0 <= i < |items| ensures PlainTree(Serialize(env, TAny, items[i])) {
        PlainValueWrites(env, items[i]);
      }
    case Dict(entries) =>
      forall k | k in entries
        ensures var j := Serialize(env, TAny, entries[k]); PlainTree(j) && (j.JStr? <==> entries[k].Str?)
      {
        PlainValueWrites(env, entries[k]);
      }
    case _ =>
  }

  lemma PlainArrayUnmarshals(env: Env, items: seq<Json>)
    requires PlainTree(JArr(items))
    requires forall i :: 0 <= i < |items| ==> ReadsPlain(env, items[i]) && Unmarshal(env, TAny, items[i]) == Deserialize(env, items[i])
    ensures Unmarshal(env, TAny, JArr(items)) == Deserialize(env, JArr(items))
  {
    PlainArrayReads(env, items);
    var r := UnmarshalItems(env, TAny, JArr(items));
    assert r.Ok? && r.value.items == Deserialize(env, JArr(items)).value.items;
  }

  lemma PlainObjectUnmarshals(env: Env, members: map<string, Json>)
    requires PlainTree(JObj(members))
    requires forall k :: k in members ==> ReadsPlain(env, members[k]) && Unmarshal(env, TAny, members[k]) == Deserialize(env, members[k])
    ensures Unmarshal(env, TAny, JObj(members)) == Deserialize(env, JObj(members))
  {
    var want := map k | k in members :: Deserialize(env, members[k]).value;
    assert forall k :: k in members ==> ReadsPlain(env, members[k]) && Deserialize(env, members[k]) == Ok(want[k]);
    MembersFill(env, TAny, members, want);
    MembersRead(env, members, want);
  }

  /** A plain tree read through encoding/json into an interface is what Deserialize makes of it. */
  lemma {:induction false} PlainTreeUnmarshals(env: Env, j: Json)
    requires PlainTree(j)
    ensures Unmarshal(env, TAny, j) == Deserialize(env, j)
  {
    match j
    case JArr(items) =>
      forall i | 0 <= i < |items| ensures ReadsPlain(env, items[i]) && Unmarshal(env, TAny, items[i]) == Deserialize(env, items[i]) {
        PlainTreeUnmarshals(env, items[i]);
        PlainTreeReads(env, items[i]);
      }
      PlainArrayUnmarshals(env, items);
    case JObj(members) =>
      forall k | k in members ensures ReadsPlain(env, members[k]) && Unmarshal(env, TAny, members[k]) == Deserialize(env, members[k]) {
        PlainTreeUnmarshals(env, members[k]);
        PlainTreeReads(env, members[k]);
      }
      PlainObjectUnmarshals(env, members);
    case _ =>
  }

  lemma {:induction false} PlainValueReads(env: Env, v: Value)
    requires PlainValue(v)
    ensures Deserialize(env, Serialize(env, TAny, v)) == Ok(v)
  {
    match v
    case List(items) =>
      forall i | 0 <= i < |items| ensures Deserialize(env, Serialize(env, TAny, items[i])) == Ok(items[i]) {
        PlainValueReads(env, items[i]);
      }
      assert Deserialize(env, Serialize(env, TAny, v)).value.items == items;
    case Dict(entries) =>
      PlainValueWrites(env, v);
      forall k | k in entries ensures Deserialize(env, Serialize(env, TAny, entries[k])) == Ok(entries[k]) {
        PlainValueReads(env, entries[k]);
      }
      assert Deserialize(env, Serialize(env, TAny, v)).value.entries == entries;
    case _ =>
  }

  lemma {:induction false} PlainValueErases(env: Env, v: Value)
    requires PlainValue(v)
    ensures Erase(env, TAny, v) == v
  {
    match v
    case List(items) =>
      forall i | 0 <= i < |items| ensures Erase(env, TAny, items[i]) == items[i] {
        PlainValueErases(env, items[i]);
      }
      assert Erase(env, TAny, v).items == items;
    case Dict(entries) =>
      forall k | k in entries ensures Erase(env, TAny, entries[k]) == entries[k] {
        PlainValueErases(env, entries[k]);
      }
      assert Erase(env, TAny, v).entries == entries;
    case _ =>
  }

  lemma {:induction false} PlainIsDynamic(env: Env, v: Value)
    requires PlainValue(v)
    ensures Dynamic(env, v)
  {
    match v
    case List(items) =>
      forall i | 0 <= i < |items| ensures Dynamic(env, items[i]) {
        PlainIsDynamic(env, items[i]);
      }
    case Dict(entries) =>
      forall k | k in entries ensures Dynamic(env, entries[k]) {
        PlainIsDynamic(env, entries[k]);
      }
    case _ =>
  }

  // ---------------------------------------------------------------- flattened fields

  ghost function NamesFrom(decl: seq<Field>, i: nat): set<string> {
    set k, n | i <= k < |decl| && n in FieldNames(decl[k]) :: n
  }

  /** A struct writes no other names than its fields' own. */
  lemma {:induction false} WritesOwnNames(env: Env, decl: seq<Field>, v: Value, i: nat)
    requires v.Rec? || v.Reg?
    requires i <= |v.fields|
    ensures WriteFields(env, decl, v, i).Keys <= NamesFrom(decl, i)
    decreases v, 0, |v.fields| - i
  {
    if i < |v.fields| && i < |decl| {
      WritesOwnNames(env, decl, v, i + 1);
      assert NamesFrom(decl, i) == FieldNames(decl[i]) + NamesFrom(decl, i + 1);
      FieldWritesOwnNames(env, decl[i], v.fields[i]);
    }
  }

  lemma {:induction false} FieldWritesOwnNames(env: Env, f: Field, v: Value)
    ensures WriteField(env, f, v).Keys <= FieldNames(f)
    decreases v, 1, 0
  {
    if f.exported && f.embedded && f.ty.TRec? && v.Rec? {
      WritesOwnNames(env, f.ty.decl, v, 0);
      assert NamesFrom(f.ty.decl, 0) == Names(f.ty);
    }
  }

  /** m and m' carry the same members under names. */
  ghost predicate Agree(m: map<string, Json>, m': map<string, Json>, names: set<string>) {
    forall n :: n in names ==> (n in m <==> n in m') && (n in m ==> m[n] == m'[n])
  }

  /** With distinct names, flattening loses nothing: each field's members are found as it wrote them. */
  lemma {:induction false} FlatteningKeepsField(env: Env, decl: seq<Field>, v: Value, i: nat, k: nat)
    requires (v.Rec? || v.Reg?) && |v.fields| == |decl| && DistinctNames(TRec(decl)) && i <= k < |decl|
    ensures Agree(WriteFields(env, decl, v, i), WriteField(env, decl[k], v.fields[k]), FieldNames(decl[k]))
    decreases k - i
  {
    if i == k {
      WritesOwnNames(env, decl, v, i + 1);
    } else {
      FieldWritesOwnNames(env, decl[i], v.fields[i]);
      FlatteningKeepsField(env, decl, v, i + 1, k);
      assert FieldNames(TRec(decl).decl[i]) !! FieldNames(TRec(decl).decl[k]);
    }
  }

  lemma NestedNames(ty: Type, k: nat)
    requires ty.TRec? && k < |ty.decl|
    ensures FieldNames(ty.decl[k]) <= Names(ty)
  {
  }

  // ---------------------------------------------------------------- through encoding/json

  /** What a member of the wire form becomes when assign writes it out again. */
  ghost predicate Relays(env: Env, j: Json) {
    Deserialize(env, j).Ok? && Marshal(Deserialize(env, j).value).Some?
    && (Deserialize(env, j).value == Nil <==> j == JNull)
  }

  ghost function Relay(env: Env, j: Json): Json
    requires Relays(env, j)
  {
    Marshal(Deserialize(env, j).value).value
  }

  /** The second round trip of assign rebuilds the value: its wire form reads, writes out again, and fills a
      fresh value of the field's own type. */
  ghost predicate Refills(env: Env, ty: Type, v: Value) {
    var j := Serialize(env, ty, v);
    Relays(env, j) && Unmarshal(env, ty, Relay(env, j)) == Ok(Erase(env, ty, v))
  }

  lemma InnerScalar(env: Env, ty: Type, v: Value)
    requires Inner(env, ty, v) && !ty.TList? && !ty.TDict? && !ty.TPtr? && !ty.TRec?
    ensures Refills(env, ty, v)
  {
    match ty
    case TBytes => InnerBytes(env, v);
    case TInt(_, _) => InnerInt(env, ty, v);
    case TRaw => InnerRaw(env, v);
    case TAny => InnerAny(env, v);
    case _ =>
  }

  lemma TaggedBytesRead(env: Env, text: string, bytes: seq<Base64.Byte>)
    requires Base64.Decode(text) == Some(bytes)
    ensures Deserialize(env, Tagged(BYTES_NAME, JStr(text))) == Ok(Bytes(bytes))
  {
  }

  lemma TextFillsBytes(env: Env, text: string, bytes: seq<Base64.Byte>)
    requires Base64.Decode(text) == Some(bytes)
    ensures Unmarshal(env, TBytes, JStr(text)) == Ok(Bytes(bytes))
  {
  }

  lemma InnerBytes(env: Env, v: Value)
    requires Inner(env, TBytes, v)
    ensures Refills(env, TBytes, v)
  {
    if v.Bytes? {
      var text := Base64.Encode(v.bytes);
      Base64.DecodeEncode(v.bytes);
      TaggedBytesRead(env, text, v.bytes);
      TextFillsBytes(env, text, v.bytes);
      assert Marshal(v) == Some(JStr(text));
    }
  }

  lemma InnerInt(env: Env, ty: Type, v: Value)
    requires ty.TInt? && Inner(env, ty, v)
    ensures Refills(env, ty, v)
  {
    assert Serialize(env, ty, v) == JNum(Float64(v.n) as real);
  }

  lemma InnerRaw(env: Env, v: Value)
    requires Inner(env, TRaw, v)
    ensures Refills(env, TRaw, v)
  {
    ParsedShape(v.tree);
    PlainTreeReads(env, Parsed(v.tree));
    RewritesIff(v.tree);
  }

  lemma InnerAny(env: Env, v: Value)
    requires Inner(env, TAny, v)
    ensures Refills(env, TAny, v)
  {
    PlainValueWrites(env, v);
    PlainValueErases(env, v);
    var j := Serialize(env, TAny, v);
    PlainTreeReads(env, j);
    PlainTreeUnmarshals(env, j);
    PlainValueReads(env, v);
  }

  /** What a struct that comes back through encoding/json needs of the map it is filled from: under each of
      its names, the relayed form of what it wrote there. */
  ghost predicate Relayed(env: Env, written: map<string, Json>, filled: map<string, Json>, names: set<string>) {
    forall n :: n in names ==>
      (n in written <==> n in filled) && (n in written ==> Relays(env, written[n]) && filled[n] == Relay(env, written[n]))
  }

  lemma {:induction false} InnerTrips(env: Env, ty: Type, v: Value)
    requires Inner(env, ty, v)
    ensures Refills(env, ty, v)
    decreases v, 4, 0
  {
    match ty
    case TList(elem) => if v.List? { InnerListTrips(env, ty, v); }
    case TDict(elem) => if v.Dict? { InnerDictTrips(env, ty, v); }
    case TPtr(elem) =>
      if v.Ptr? {
        InnerTrips(env, elem, v.target);
        NonNilRelay(env, Serialize(env, elem, v.target));
      }
    case TRec(decl) => InnerRecTrips(env, ty, v);
    case _ => InnerScalar(env, ty, v);
  }

  lemma NonNilRelay(env: Env, j: Json)
    requires Relays(env, j) && j != JNull
    ensures Relay(env, j) != JNull
  {
  }

  lemma ArrayRelays(env: Env, items: seq<Json>)
    requires forall i :: 0 <= i < |items| ==> Relays(env, items[i])
    ensures Relays(env, JArr(items))
    ensures Relay(env, JArr(items)) == JArr(seq(|items|, i requires 0 <= i < |items| => Relay(env, items[i])))
  {
    var v := Deserialize(env, JArr(items)).value;
    assert forall i :: 0 <= i < |items| ==> Relays(env, items[i]) && v.items[i] == Deserialize(env, items[i]).value;
    assert Marshal(v).Some?;
  }

  lemma ObjectRelays(env: Env, members: map<string, Json>)
    requires Untagged(members) && forall k :: k in members ==> Relays(env, members[k])
    ensures Relays(env, JObj(members))
    ensures Relay(env, JObj(members)) == JObj(map k | k in members :: Relay(env, members[k]))
  {
    var want := map k | k in members :: Deserialize(env, members[k]).value;
    assert forall k :: k in members ==> Relays(env, members[k]) && Deserialize(env, members[k]) == Ok(want[k]);
    MembersRead(env, members, want);
    var relayed := map k | k in members :: Relay(env, members[k]);
    EntriesMarshal(want, relayed);
  }

  lemma EntriesMarshal(entries: map<string, Value>, wire: map<string, Json>)
    requires entries.Keys == wire.Keys && forall k :: k in entries ==> Marshal(entries[k]) == Some(wire[k])
    ensures Marshal(Dict(entries)) == Some(JObj(wire))
  {
    var r := Marshal(Dict(entries));
    assert r.Some? && r.value.members == wire;
  }

  lemma ItemsFill(env: Env, elem: Type, items: seq<Json>, want: seq<Value>)
    requires |items| == |want|
    requires forall i :: 0 <= i < |items| ==> Unmarshal(env, elem, items[i]) == Ok(want[i])
    ensures UnmarshalItems(env, elem, JArr(items)) == Ok(List(want))
  {
    var r := UnmarshalItems(env, elem, JArr(items));
    assert r.Ok? && r.value.items == want;
  }

  lemma MembersFill(env: Env, elem: Type, members: map<string, Json>, want: map<string, Value>)
    requires members.Keys == want.Keys
    requires forall k :: k in members ==> Unmarshal(env, elem, members[k]) == Ok(want[k])
    ensures UnmarshalMembers(env, elem, JObj(members)) == Ok(Dict(want))
  {
    var r := UnmarshalMembers(env, elem, JObj(members));
    assert r.Ok? && r.value.entries == want;
  }

  lemma InnerListTrips(env: Env, ty: Type, v: Value)
    requires Inner(env, ty, v) && ty.TList? && v.List?
    ensures Refills(env, ty, v)
    decreases v, 1, 0
  {
    var wire := seq(|v.items|, i requires 0 <= i < |v.items| => Serialize(env, ty.elem, v.items[i]));
    forall i | 0 <= i < |v.items|
      ensures Relays(env, wire[i]) && Unmarshal(env, ty.elem, Relay(env, wire[i])) == Ok(Erase(env, ty.elem, v.items[i]))
    {
      InnerTrips(env, ty.elem, v.items[i]);
    }
    ArrayRelays(env, wire);
    var erased := Erase(env, ty, v);
    assert Serialize(env, ty, v) == JArr(wire);
    var relayed := Relay(env, JArr(wire));
    ItemsFill(env, ty.elem, relayed.items, erased.items);
    assert Unmarshal(env, ty, relayed) == UnmarshalItems(env, ty.elem, relayed);
  }

  lemma DictWire(env: Env, ty: Type, v: Value)
    requires ty.TDict? && v.Dict?
    ensures var j := Serialize(env, ty, v);
            j.JObj? && j.members.Keys == v.entries.Keys
            && forall k :: k in v.entries ==> j.members[k] == Serialize(env, ty.elem, v.entries[k])
  {
  }

  lemma DictErased(env: Env, ty: Type, v: Value)
    requires ty.TDict? && v.Dict?
    ensures var e := Erase(env, ty, v);
            e.Dict? && e.entries.Keys == v.entries.Keys
            && forall k :: k in v.entries ==> e.entries[k] == Erase(env, ty.elem, v.entries[k])
  {
  }

  lemma MembersRefill(env: Env, ty: Type, wire: map<string, Json>, want: map<string, Value>)
    requires ty.TDict? && Untagged(wire) && wire.Keys == want.Keys
    requires forall k :: k in wire ==> Relays(env, wire[k]) && Unmarshal(env, ty.elem, Relay(env, wire[k])) == Ok(want[k])
    ensures Relays(env, JObj(wire)) && Unmarshal(env, ty, Relay(env, JObj(wire))) == Ok(Dict(want))
  {
    ObjectRelays(env, wire);
    var relayed := map k | k in wire :: Relay(env, wire[k]);
    MembersFill(env, ty.elem, relayed, want);
  }

  lemma InnerDictTrips(env: Env, ty: Type, v: Value)
    requires Inner(env, ty, v) && ty.TDict? && v.Dict?
    ensures Refills(env, ty, v)
    decreases v, 1, 0
  {
    DictWire(env, ty, v);
    DictErased(env, ty, v);
    var wire, want := Serialize(env, ty, v).members, Erase(env, ty, v).entries;
    forall k | k in wire
      ensures Relays(env, wire[k]) && Unmarshal(env, ty.elem, Relay(env, wire[k])) == Ok(want[k])
    {
      InnerTrips(env, ty.elem, v.entries[k]);
    }
    MembersRefill(env, ty, wire, want);
  }

  // ---------------------------------------------------------------- structs nobody registered

  /** Every member a struct of inner fields writes can be relayed. */
  lemma {:induction false} WrittenRelay(env: Env, ty: Type, v: Value, i: nat)
    requires ty.TRec? && InnerFields(env, ty, v) && i <= |v.fields|
    ensures forall n :: n in WriteFields(env, ty.decl, v, i) ==> Relays(env, WriteFields(env, ty.decl, v, i)[n])
    decreases v, 0, |v.fields| - i
  {
    if i < |v.fields| {
      var f, x := ty.decl[i], v.fields[i];
      WrittenRelay(env, ty, v, i + 1);
      assert InnerField(env, f, x);
      if f.exported {
        if f.embedded && f.ty.TRec? {
          WrittenRelay(env, f.ty, x, 0);
          assert WriteField(env, f, x) == WriteFields(env, f.ty.decl, x, 0);
        } else if x != Zero(f.ty) && !x.Fn? {
          InnerTrips(env, f.ty, x);
        }
      }
    }
  }

  lemma {:induction false} EraseZero(env: Env, ty: Type)
    ensures Erase(env, ty, Zero(ty)) == Zero(ty)
  {
    if ty.TRec? || ty.TOwn? {
      var z := Zero(ty);
      forall i | 0 <= i < |ty.decl| ensures EraseField(env, ty.decl[i], z.fields[i]) == z.fields[i] {
        EraseZero(env, ty.decl[i].ty);
      }
      assert Erase(env, ty, z).fields == z.fields;
    }
  }

  lemma InnerIsWritten(env: Env, ty: Type, v: Value)
    requires Inner(env, ty, v) && v != Zero(ty) && v != Raw(JNull)
    ensures Serialize(env, ty, v) != JNull
  {
  }

  lemma {:induction false} FieldFills(env: Env, f: Field, v: Value, filled: map<string, Json>)
    requires InnerField(env, f, v) && (f.ty.TRec? ==> DistinctNames(f.ty))
    requires Relayed(env, WriteField(env, f, v), filled, FieldNames(f))
    ensures UnmarshalField(env, f, JObj(filled)) == Ok(EraseField(env, f, v))
    decreases v, 5, 0
  {
    if f.exported {
      if f.embedded && f.ty.TRec? {
        RecFills(env, f.ty, v, filled, 0);
        assert EraseFields(env, f.ty.decl, v)[0..] == EraseFields(env, f.ty.decl, v);
      } else {
        assert f.name in FieldNames(f);
        if v == Zero(f.ty) {
          EraseZero(env, f.ty);
        } else if !Dropped(f.ty, v) {
          InnerIsWritten(env, f.ty, v);
          InnerTrips(env, f.ty, v);
        }
      }
    }
  }

  lemma {:induction false} RecFills(env: Env, ty: Type, v: Value, filled: map<string, Json>, i: nat)
    requires ty.TRec? && InnerFields(env, ty, v) && DistinctNames(ty) && i <= |ty.decl|
    requires Relayed(env, WriteFields(env, ty.decl, v, 0), filled, Names(ty))
    ensures UnmarshalFields(env, ty.decl, JObj(filled), i) == Ok(EraseFields(env, ty.decl, v)[i..])
    decreases v, 1, |ty.decl| - i
  {
    var erased := EraseFields(env, ty.decl, v);
    if i == |ty.decl| {
      assert erased[i..] == [];
    } else {
      FlatteningKeepsField(env, ty.decl, v, 0, i);
      NestedNames(ty, i);
      FieldFills(env, ty.decl[i], v.fields[i], filled);
      RecFills(env, ty, v, filled, i + 1);
      OneMemberMore(env, ty.decl, filled, i, erased);
    }
  }

  lemma OneMemberMore(env: Env, decl: seq<Field>, filled: map<string, Json>, i: nat, erased: seq<Value>)
    requires i < |decl| == |erased|
    requires UnmarshalField(env, decl[i], JObj(filled)) == Ok(erased[i])
    requires UnmarshalFields(env, decl, JObj(filled), i + 1) == Ok(erased[i + 1..])
    ensures UnmarshalFields(env, decl, JObj(filled), i) == Ok(erased[i..])
  {
    assert erased[i..] == [erased[i]] + erased[i + 1..];
  }

  /** Relaying a flattened struct as a whole relays each of its members. */
  lemma RecordRelays(env: Env, ty: Type, v: Value)
    requires ty.TRec? && InnerFields(env, ty, v) && TYPE_KEY !in Names(ty)
    ensures var wire := WriteFields(env, ty.decl, v, 0);
            Relays(env, JObj(wire)) && Relay(env, JObj(wire)).JObj?
            && Relayed(env, wire, Relay(env, JObj(wire)).members, Names(ty))
    decreases v, 3, 0
  {
    var wire := WriteFields(env, ty.decl, v, 0);
    WrittenRelay(env, ty, v, 0);
    WritesOwnNames(env, ty.decl, v, 0);
    assert NamesFrom(ty.decl, 0) == Names(ty);
    ObjectRelays(env, wire);
  }

  lemma InnerRecTrips(env: Env, ty: Type, v: Value)
    requires Inner(env, ty, v) && ty.TRec?
    ensures Refills(env, ty, v)
    decreases v, 3, 1
  {
    RecordRelays(env, ty, v);
    RecFills(env, ty, v, Relay(env, JObj(WriteFields(env, ty.decl, v, 0))).members, 0);
    assert EraseFields(env, ty.decl, v)[0..] == EraseFields(env, ty.decl, v);
  }

  // ---------------------------------------------------------------- registered structs

  /** A dynamic value, wherever an interface, a list of them or a map of them holds it. */
  predicate HoldsAny(ty: Type) {
    ty.TAny? || ty == TList(TAny) || ty == TDict(TAny)
  }

  lemma {:induction false} DynamicTrips(env: Env, ty: Type, v: Value)
    requires EnvOk(env) && HoldsAny(ty) && Dynamic(env, v)
    ensures var j := Serialize(env, ty, v);
            Deserialize(env, j) == Ok(Erase(env, ty, v)) && (j == JNull <==> v == Nil) && (j.JStr? <==> v.Str?)
    decreases v, 2, 0
  {
    match v
    case List(_) => DynamicListTrips(env, ty, v);
    case Dict(_) => DynamicDictTrips(env, ty, v);
    case Reg(_, _) => RegTrips(env, ty, v);
    case _ => DynamicScalarTrips(env, ty, v);
  }

  lemma DynamicScalarTrips(env: Env, ty: Type, v: Value)
    requires Dynamic(env, v) && !v.List? && !v.Dict? && !v.Reg?
    ensures var j := Serialize(env, ty, v);
            Deserialize(env, j) == Ok(Erase(env, ty, v)) && (j == JNull <==> v == Nil) && (j.JStr? <==> v.Str?)
  {
    if v.Bytes? {
      Base64.DecodeEncode(v.bytes);
      TaggedBytesRead(env, Base64.Encode(v.bytes), v.bytes);
    }
  }

  lemma DynamicListTrips(env: Env, ty: Type, v: Value)
    requires EnvOk(env) && HoldsAny(ty) && Dynamic(env, v) && v.List?
    ensures Deserialize(env, Serialize(env, ty, v)) == Ok(Erase(env, ty, v))
    decreases v, 1, 0
  {
    forall i | 0 <= i < |v.items|
      ensures Deserialize(env, Serialize(env, TAny, v.items[i])) == Ok(Erase(env, TAny, v.items[i]))
    {
      DynamicTrips(env, TAny, v.items[i]);
    }
    var r := Deserialize(env, Serialize(env, ty, v));
    assert r.Ok? && r.value.items == Erase(env, ty, v).items;
  }

  lemma MembersRead(env: Env, wire: map<string, Json>, want: map<string, Value>)
    requires Untagged(wire) && wire.Keys == want.Keys
    requires forall k :: k in wire ==> Deserialize(env, wire[k]) == Ok(want[k])
    ensures Deserialize(env, JObj(wire)) == Ok(Dict(want))
  {
    var r := Deserialize(env, JObj(wire));
    assert r.Ok? && r.value.entries == want;
  }

  lemma DynamicDictTrips(env: Env, ty: Type, v: Value)
    requires EnvOk(env) && HoldsAny(ty) && Dynamic(env, v) && v.Dict?
    ensures Deserialize(env, Serialize(env, ty, v)) == Ok(Erase(env, ty, v))
    decreases v, 1, 0
  {
    var wire, want := Serialize(env, ty, v).members, Erase(env, ty, v).entries;
    assert ElemType(ty) == TAny;
    forall k | k in v.entries
      ensures Deserialize(env, wire[k]) == Ok(want[k]) && (wire[k].JStr? <==> v.entries[k].Str?)
    {
      DynamicTrips(env, TAny, v.entries[k]);
    }
    MembersRead(env, wire, want);
  }

  lemma {:induction false} RegTrips(env: Env, ty: Type, v: Value)
    requires EnvOk(env) && v.Reg? && RegTravels(env, v)
    ensures Deserialize(env, Serialize(env, ty, v)) == Ok(Erase(env, ty, v))
    decreases v, 0, 1
  {
    var wire := WriteFields(env, env[v.name], v, 0);
    assert DistinctNames(TRec(env[v.name]));
    FieldsTrip(env, env[v.name], v, wire, 0);
    assert EraseFields(env, env[v.name], v)[0..] == EraseFields(env, env[v.name], v);
  }

  lemma {:induction false} FieldsTrip(env: Env, decl: seq<Field>, v: Value, wire: map<string, Json>, i: nat)
    requires EnvOk(env) && DistinctNames(TRec(decl)) && i <= |decl|
    requires (v.Rec? || v.Reg?) && |v.fields| == |decl|
    requires forall k :: 0 <= k < |decl| ==> FieldTravels(env, decl[k], v.fields[k])
    requires Agree(wire, WriteFields(env, decl, v, 0), Names(TRec(decl)))
    ensures ReadFields(env, decl, JObj(wire), i) == Ok(EraseFields(env, decl, v)[i..])
    decreases v, 0, 0, |decl| - i
  {
    var erased := EraseFields(env, decl, v);
    if i == |decl| {
      assert erased[i..] == [];
    } else {
      FlatteningKeepsField(env, decl, v, 0, i);
      NestedNames(TRec(decl), i);
      FieldTrips(env, decl[i], v.fields[i], wire);
      FieldsTrip(env, decl, v, wire, i + 1);
      OneFieldMore(env, decl, wire, i, erased);
    }
  }

  lemma OneFieldMore(env: Env, decl: seq<Field>, wire: map<string, Json>, i: nat, erased: seq<Value>)
    requires i < |decl| == |erased|
    requires ReadField(env, decl[i], JObj(wire)) == Ok(erased[i]) && ReadFields(env, decl, JObj(wire), i + 1) == Ok(erased[i + 1..])
    ensures ReadFields(env, decl, JObj(wire), i) == Ok(erased[i..])
  {
    assert erased[i..] == [erased[i]] + erased[i + 1..];
  }

  lemma {:induction false} FieldTrips(env: Env, f: Field, v: Value, wire: map<string, Json>)
    requires EnvOk(env) && FieldTravels(env, f, v) && (f.ty.TRec? ==> DistinctNames(f.ty))
    requires Agree(wire, WriteField(env, f, v), FieldNames(f))
    ensures ReadField(env, f, JObj(wire)) == Ok(EraseField(env, f, v))
    decreases v, 3, 0
  {
    if f.exported {
      if f.embedded && f.ty.TRec? {
        FieldsTrip(env, f.ty.decl, v, wire, 0);
        assert EraseFields(env, f.ty.decl, v)[0..] == EraseFields(env, f.ty.decl, v);
      } else {
        if v == Zero(f.ty) {
          EraseZero(env, f.ty);
        } else if !Dropped(f.ty, v) {
          ValueTrips(env, f.ty, v);
        }
        LoneFieldTrips(env, f, v, wire);
      }
    }
  }

  lemma LoneFieldTrips(env: Env, f: Field, v: Value, wire: map<string, Json>)
    requires f.exported && !(f.embedded && f.ty.TRec?) && Agree(wire, WriteField(env, f, v), FieldNames(f))
    requires Dropped(f.ty, v) || (v == Zero(f.ty) == Erase(env, f.ty, v)) || (v != Zero(f.ty) && ComesBack(env, f.ty, v))
    ensures ReadField(env, f, JObj(wire)) == Ok(EraseField(env, f, v))
  {
    assert f.name in FieldNames(f);
  }

  /** A non-zero field's value is written, and assign puts back what of it can cross. */
  ghost predicate ComesBack(env: Env, ty: Type, v: Value) {
    var j := Serialize(env, ty, v);
    j != JNull && Deserialize(env, j).Ok? && Deserialize(env, j).value != Nil
    && Store(env, ty, Deserialize(env, j).value) == Ok(Erase(env, ty, v))
  }

  lemma ScalarComesBack(env: Env, ty: Type, v: Value)
    requires Travels(env, ty, v) && v != Nil && (ty.TBool? || ty.TInt? || ty.TFloat? || ty.TStr? || ty.TBytes?)
    ensures ComesBack(env, ty, v)
  {
    if ty.TBytes? {
      Base64.DecodeEncode(v.bytes);
      TaggedBytesRead(env, Base64.Encode(v.bytes), v.bytes);
    } else if ty.TInt? {
      assert Truncate(v.n as real) == v.n;
    }
  }

  lemma ContainerComesBack(env: Env, ty: Type, v: Value)
    requires Inner(env, ty, v) && v != Nil && v != Zero(ty) && (ty.TList? || ty.TDict? || ty.TPtr? || ty.TRec?) && !HoldsAny(ty)
    ensures ComesBack(env, ty, v)
  {
    InnerTrips(env, ty, v);
    InnerIsWritten(env, ty, v);
  }

  lemma ReadIsStored(env: Env, ty: Type, v: Value)
    requires Travels(env, ty, v) && v != Nil && (HoldsAny(ty) || ty.TReg? || ty.TIface?)
    requires Deserialize(env, Serialize(env, ty, v)) == Ok(Erase(env, ty, v))
    ensures ComesBack(env, ty, v)
  {
  }

  lemma RawIsStored(env: Env, tree: Json)
    requires PlainTree(tree) && !tree.JNull? && !tree.JStr?
    ensures var j := Parsed(tree);
            j != JNull && Deserialize(env, j).Ok? && Deserialize(env, j).value != Nil
            && Store(env, TRaw, Deserialize(env, j).value) == Ok(Raw(Written(j)))
  {
    ParsedShape(tree);
    PlainTreeReads(env, Parsed(tree));
  }

  lemma RawComesBack(env: Env, v: Value)
    requires Travels(env, TRaw, v) && v != Nil
    ensures ComesBack(env, TRaw, v)
  {
    RawIsStored(env, v.tree);
    RewritesIff(v.tree);
  }

  lemma StaticComesBack(env: Env, ty: Type, v: Value)
    requires Travels(env, ty, v) && !v.Fn? && v != Zero(ty) && v != Nil && !HoldsAny(ty) && !ty.TReg? && !ty.TIface?
    ensures ComesBack(env, ty, v)
  {
    if ty.TRaw? {
      RawComesBack(env, v);
    } else if ty.TList? || ty.TDict? || ty.TPtr? || ty.TRec? {
      ContainerComesBack(env, ty, v);
    } else {
      ScalarComesBack(env, ty, v);
    }
  }

  lemma {:induction false} ValueTrips(env: Env, ty: Type, v: Value)
    requires EnvOk(env) && Travels(env, ty, v) && !v.Fn? && v != Zero(ty) && v != Nil
    ensures ComesBack(env, ty, v)
    decreases v, 2, 1
  {
    if HoldsAny(ty) || ty.TReg? || ty.TIface? {
      if HoldsAny(ty) {
        DynamicTrips(env, ty, v);
      } else {
        RegTrips(env, ty, v);
      }
      ReadIsStored(env, ty, v);
    } else {
      StaticComesBack(env, ty, v);
    }
  }

  // ---------------------------------------------------------------- the registry behind the names

  /** The struct types by wire name that a sequence of registrations leaves, given each type's fields. */
  ghost function EnvOf(entries: seq<Registry.Entry>, decls: map<Registry.GoType, seq<Field>>): Env {
    var build := Registry.RecordAll(entries).build;
    map name | name in build && build[name] in decls :: decls[build[name]]
  }

  /** A pointer to the struct registered under a name is tagged with that name, the way the model tags it, if
      and only if the struct was not registered again later under another. */
  lemma TagIsTheNameIff(entries: seq<Registry.Entry>, decls: map<Registry.GoType, seq<Field>>, i: nat)
    requires Registry.Accepted(entries) && i < |entries| && entries[i].elem in decls
    ensures var name, s := entries[i].name, Registry.RecordAll(entries);
            name in EnvOf(entries, decls) && EnvOf(entries, decls)[name] == decls[entries[i].elem]
            && Registry.Pointer(entries[i].elem) in s.names
            && (s.names[Registry.Pointer(entries[i].elem)] == name
                <==> forall j :: i < j < |entries| ==> entries[j].elem != entries[i].elem)
  {
    Registry.Answers(entries, i);
    if j :| i < j < |entries| && entries[j].elem == entries[i].elem {
      var last := Registry.LatestOf(entries, j);
      Registry.Answers(entries, last);
    }
  }

  // ---------------------------------------------------------------- messages

  /** Deserialize the method: a value that is not one of the message types is refused. */
  ghost function Receive(env: Env, messages: set<string>, j: Json): Result<Value, Error> {
    match Deserialize(env, j)
    case Err(e) => Err(e)
    case Ok(v) => if v.Reg? && v.name in messages then Ok(v) else Err(NotAMessage)
  }

  /** A registered message crosses the bus as itself: the same concrete types in its interface fields, its
      bytes, its flattened and its omitted fields; only functions and unexported fields are left behind. */
  lemma MessageCrosses(env: Env, messages: set<string>, m: Value)
    requires EnvOk(env) && m.Reg? && m.name in messages && RegTravels(env, m)
    ensures Receive(env, messages, Serialize(env, TAny, m)) == Ok(Erase(env, TAny, m))
  {
    RegTrips(env, TAny, m);
  }

  /** A member no field of the struct is named after changes nothing: a newer peer may send more fields. */
  lemma {:induction false} UnknownMembersAreSkipped(env: Env, decl: seq<Field>, wire: map<string, Json>, wire': map<string, Json>, i: nat)
    requires i <= |decl| && Agree(wire, wire', Names(TRec(decl)))
    ensures ReadFields(env, decl, JObj(wire'), i) == ReadFields(env, decl, JObj(wire), i)
    decreases TRec(decl), 0, |decl| - i
  {
    if i < |decl| {
      NestedNames(TRec(decl), i);
      UnknownMembersAreSkippedInField(env, decl[i], wire, wire');
      UnknownMembersAreSkipped(env, decl, wire, wire', i + 1);
    }
  }

  lemma {:induction false} UnknownMembersAreSkippedInField(env: Env, f: Field, wire: map<string, Json>, wire': map<string, Json>)
    requires Agree(wire, wire', FieldNames(f))
    ensures ReadField(env, f, JObj(wire')) == ReadField(env, f, JObj(wire))
    decreases f.ty, 1, 0
  {
    if f.exported {
      if f.embedded && f.ty.TRec? {
        UnknownMembersAreSkipped(env, f.ty.decl, wire, wire', 0);
      } else {
        assert f.name in FieldNames(f);
      }
    }
  }

  // ---------------------------------------------------------------- where JSON is not faithful

  /** A 64-bit field comes back unchanged exactly when its value is a float64. */
  lemma IntegerFieldTrips(env: Env, f: Field, n: int)
    requires f.exported && f.ty.TInt? && f.ty.lo <= 0 <= f.ty.hi && f.ty.lo <= n <= f.ty.hi
    requires f.ty.lo <= Float64(n) <= f.ty.hi
    ensures ReadField(env, f, JObj(WriteField(env, f, Int(n)))) == Ok(Int(n)) <==> Float64(n) == n
  {
    SmallIntegersAreExact(0);
    if n != 0 {
      assert Truncate(Float64(n) as real) == Float64(n);
    }
  }

  lemma PointerFills(env: Env, ty: Type, r: real, digits: Option<int>)
    requires ty.TPtr? && ty.elem.TInt? && digits == Digits(r)
    ensures Unmarshal(env, ty, JNum(r))
            == if digits.Some? && ty.elem.lo <= digits.value <= ty.elem.hi then Ok(Ptr(Int(digits.value))) else Err(CannotFill)
  {
    var inner := Unmarshal(env, ty.elem, JNum(r));
    assert inner == if digits.Some? && ty.elem.lo <= digits.value <= ty.elem.hi then Ok(Int(digits.value)) else Err(CannotFill);
  }

  /** A 64-bit integer behind a pointer is read from the digits encoding/json writes for its float64: it comes
      back unchanged exactly when those are its own. */
  lemma IntegerPointerTrips(env: Env, f: Field, lo: int, hi: int, n: int)
    requires f.exported && f.ty == TPtr(TInt(lo, hi)) && lo <= n <= hi
    ensures ReadField(env, f, JObj(WriteField(env, f, Ptr(Int(n))))) == Ok(Ptr(Int(n))) <==> Digits(Float64(n) as real) == Some(n)
  {
    var x := Float64(n) as real;
    assert Serialize(env, TInt(lo, hi), Int(n)) == JNum(x);
    assert Serialize(env, f.ty, Ptr(Int(n))) == JNum(x);
    assert WriteField(env, f, Ptr(Int(n))) == map[f.name := JNum(x)];
    assert Deserialize(env, JNum(x)) == Ok(Float(x));
    PointerFills(env, f.ty, x, Digits(x));
    assert Store(env, f.ty, Float(x)) == Unmarshal(env, f.ty, JNum(x));
  }

  /** All integers below 2^53 do, but not every integer that is a float64: 2^60 does not. */
  lemma SmallIntegersHaveTheirDigits(n: int)
    ensures -TWO_53 < n < TWO_53 ==> Digits(Float64(n) as real) == Some(n)
    ensures Digits(Float64(TWO_60) as real) == Some(TWO_60_WRITTEN) && Float64(TWO_60) == TWO_60 != TWO_60_WRITTEN
  {
    if -TWO_53 < n < TWO_53 {
      SmallIntegersAreExact(n);
      SmallIntegersAreWritten(n);
    }
    RoundsInteger(TWO_60);
    TwoTo60IsRewritten();
  }

  /** Raw JSON without tagged objects, other than null or a bare string, comes back unchanged if and only if
      each of its numbers is still itself after being read as a float64 and written again. */
  lemma RawJsonTripsIff(env: Env, f: Field, tree: Json)
    requires f.exported && f.ty.TRaw? && PlainTree(tree) && !tree.JNull? && !tree.JStr?
    ensures ReadField(env, f, JObj(WriteField(env, f, Raw(tree)))) == Ok(Raw(tree)) <==> NumbersKept(tree)
  {
    RawIsStored(env, tree);
    RewritesIff(tree);
    assert Serialize(env, TRaw, Raw(tree)) == Parsed(tree);
    var wire := WriteField(env, f, Raw(tree));
    assert wire == map[f.name := Parsed(tree)];
    assert ReadField(env, f, JObj(wire)) == Store(env, TRaw, Deserialize(env, wire[f.name]).value);
  }

  /** The integers below 2^53 are; 2^53 + 1 is not. */
  lemma RawIntegers(n: int)
    ensures -TWO_53 < n < TWO_53 ==> NumbersKept(JNum(n as real))
    ensures !NumbersKept(JNum((TWO_53 + 1) as real))
  {
    if -TWO_53 < n < TWO_53 {
      SmallIntegersAreExact(n);
      SmallIntegersAreWritten(n);
      RoundsInteger(n);
    }
    FirstLostInteger();
    RoundsInteger(TWO_53 + 1);
    TwoTo53IsWritten();
  }

  /** Raw decimals of at most fifteen digits are, down to the 321st place. */
  lemma RawDecimals(n: int, j: int)
    requires -Rounding.TEN_15 < n < Rounding.TEN_15 && j >= -321
    ensures NumbersKept(JNum(Rounding.Tens(n as real, j)))
  {
    Rounding.FifteenDigitsAreKept(n, j);
  }

  /** So a raw 0.5 or 3.7 comes back. */
  lemma RawFractions()
    ensures NumbersKept(JNum(0.5)) && NumbersKept(JNum(3.7)) && Round(0.5) == 0.5
  {
    RawDecimals(5, -1);
    RawDecimals(37, -1);
    assert Rounding.Tens(5.0, -1) == 0.5 && Rounding.Tens(37.0, -1) == 3.7;
    Rounding.Float64IsKept(1, -1);
    assert Rounding.Shift(1.0, -1) == 0.5;
  }

  /** Raw JSON that is a bare string comes back as the string's characters, no longer the JSON it was. */
  lemma RawStringIsUnquoted(env: Env, f: Field, s: string)
    requires f.exported && f.ty.TRaw?
    ensures ReadField(env, f, JObj(WriteField(env, f, Raw(JStr(s))))) == Ok(RawText(s))
  {
  }

  /** An integer in an interface field comes back as a float. */
  lemma DynamicIntegerBecomesFloat(env: Env, f: Field, n: int)
    requires f.exported && f.ty.TAny?
    ensures ReadField(env, f, JObj(WriteField(env, f, Int(n)))) == Ok(Float(Float64(n) as real))
  {
  }

  /** A map that happens to hold a string under the type key is taken for a tagged value: whatever else it
      holds, it never comes back as a map. */
  lemma TypeKeyIsTaken(env: Env, ty: Type, entries: map<string, Value>)
    requires HoldsAny(ty) && TYPE_KEY in entries && entries[TYPE_KEY].Str?
    ensures var r := Deserialize(env, Serialize(env, ty, Dict(entries))); r.Ok? ==> !r.value.Dict?
  {
    var wire := Serialize(env, ty, Dict(entries)).members;
    assert Serialize(env, ElemType(ty), entries[TYPE_KEY]) == JStr(entries[TYPE_KEY].s);
    assert TYPE_KEY in wire && wire[TYPE_KEY].JStr?;
  }

  /** A map of dynamic values that travel comes back if and only if it holds no string under the type key. */
  lemma DynamicMapTripsIff(env: Env, ty: Type, entries: map<string, Value>)
    requires EnvOk(env) && (ty.TAny? || ty == TDict(TAny)) && forall k :: k in entries ==> Dynamic(env, entries[k])
    ensures Deserialize(env, Serialize(env, ty, Dict(entries))) == Ok(Erase(env, ty, Dict(entries)))
            <==> !(TYPE_KEY in entries && entries[TYPE_KEY].Str?)
  {
    if TYPE_KEY in entries && entries[TYPE_KEY].Str? {
      TypeKeyIsTaken(env, ty, entries);
    } else {
      DynamicTrips(env, ty, Dict(entries));
    }
  }

}
