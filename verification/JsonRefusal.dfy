/**
 What the far end refuses: values that are written, and that nothing on arrival can read. fillStruct then
 fails, and the whole message is lost with the one field.
 */
module JsonRefusal {
  import opened Wrappers
  import opened JsonWire
  import opened JsonRoundTrip
  import opened Numbers

  // ---------------------------------------------------------------- what encoding/json cannot read back

  /** Of what is written for a value of type ty, encoding/json can read something back into no value of ty: a
      struct that reads itself and is written by its fields, or anything at all in an interface with methods. */
  ghost predicate Unreadable(env: Env, ty: Type, v: Value)
    decreases v, 1
  {
    match ty
    case TOwn(decl) => v.Rec? && TYPE_KEY !in Names(TRec(decl))
    case TIface => Serialize(env, ty, v) != JNull
    case TPtr(elem) => v.Ptr? && Unreadable(env, elem, v.target)
    case TList(elem) => v.List? && exists i :: 0 <= i < |v.items| && Unreadable(env, elem, v.items[i])
    case TDict(elem) =>
      v.Dict? && (TYPE_KEY in v.entries ==> !Serialize(env, elem, v.entries[TYPE_KEY]).JStr?)
      && exists k :: k in v.entries && Unreadable(env, elem, v.entries[k])
    case TRec(_) => DistinctNames(ty) && TYPE_KEY !in Names(ty) && UnreadableFields(env, ty, v)
    case _ => false
  }

  ghost predicate UnreadableFields(env: Env, ty: Type, v: Value)
    requires ty.TRec?
    decreases v, 0
  {
    v.Rec? && |v.fields| == |ty.decl| && exists i :: 0 <= i < |ty.decl| && UnreadableField(env, ty.decl[i], v.fields[i])
  }

  ghost predicate UnreadableField(env: Env, f: Field, v: Value)
    decreases v, 2
  {
    f.exported
    && if f.embedded && f.ty.TRec? then UnreadableFields(env, f.ty, v) else v != Zero(f.ty) && Unreadable(env, f.ty, v)
  }

  /** Written out again, j reads into no value of type ty. */
  ghost predicate Sinks(env: Env, ty: Type, j: Json) {
    j != JNull
    && match Deserialize(env, j)
       case Err(_) => true
       case Ok(x) => Marshal(x).Some? ==> Marshal(x).value != JNull && Unmarshal(env, ty, Marshal(x).value).Err?
  }

  lemma PtrSinks(env: Env, elem: Type, j: Json)
    requires Sinks(env, elem, j)
    ensures Sinks(env, TPtr(elem), j)
  {
  }

  lemma IfaceSinks(env: Env, j: Json)
    requires j != JNull
    ensures Sinks(env, TIface, j)
  {
  }

  lemma ItemReads(env: Env, items: seq<Json>, i: nat)
    requires i < |items| && Deserialize(env, JArr(items)).Ok?
    ensures var v := Deserialize(env, JArr(items)).value;
            v.List? && |v.items| == |items| && Deserialize(env, items[i]) == Ok(v.items[i])
  {
    var x := Deserialize(env, JArr(items)).value.items[i];
    assert Deserialize(env, items[i]) == Ok(x);
  }

  lemma ItemMarshals(items: seq<Value>, i: nat)
    requires i < |items| && Marshal(List(items)).Some?
    ensures var j := Marshal(List(items)).value;
            j.JArr? && |j.items| == |items| && Marshal(items[i]) == Some(j.items[i])
  {
    var x := Marshal(List(items)).value.items[i];
    assert Marshal(items[i]) == Some(x);
  }

  lemma AllItemsUnmarshal(env: Env, elem: Type, items: seq<Json>)
    ensures UnmarshalItems(env, elem, JArr(items)).Ok? ==> forall i :: 0 <= i < |items| ==> Unmarshal(env, elem, items[i]).Ok?
  {
    var r := UnmarshalItems(env, elem, JArr(items));
    if r.Ok? {
      forall i | 0 <= i < |items| ensures Unmarshal(env, elem, items[i]).Ok? {
        assert Unmarshal(env, elem, items[i]) == Ok(r.value.items[i]);
      }
    }
  }

  lemma AllMembersUnmarshal(env: Env, elem: Type, members: map<string, Json>)
    ensures UnmarshalMembers(env, elem, JObj(members)).Ok? ==> forall k :: k in members ==> Unmarshal(env, elem, members[k]).Ok?
  {
    var r := UnmarshalMembers(env, elem, JObj(members));
    if r.Ok? {
      forall k | k in members ensures Unmarshal(env, elem, members[k]).Ok? {
        assert Unmarshal(env, elem, members[k]) == Ok(r.value.entries[k]);
      }
    }
  }

  lemma ItemsSink(env: Env, elem: Type, j: Json, items: seq<Json>, i: nat)
    requires i < |items| && Sinks(env, elem, j)
    requires Deserialize(env, j).Ok? && Marshal(Deserialize(env, j).value) == Some(items[i])
    ensures Unmarshal(env, TList(elem), JArr(items)).Err?
  {
    assert Unmarshal(env, elem, items[i]).Err?;
    AllItemsUnmarshal(env, elem, items);
  }

  lemma ListSinks(env: Env, elem: Type, items: seq<Json>, i: nat)
    requires i < |items| && Sinks(env, elem, items[i])
    ensures Sinks(env, TList(elem), JArr(items))
  {
    var r := Deserialize(env, JArr(items));
    if r.Ok? && Marshal(r.value).Some? {
      ItemReads(env, items, i);
      ItemMarshals(r.value.items, i);
      var back := Marshal(r.value).value;
      ItemsSink(env, elem, items[i], back.items, i);
      assert back == JArr(back.items);
    }
  }

  /** M holds, under each of names, what assign writes out again of what W holds there. */
  ghost predicate Carries(env: Env, W: map<string, Json>, M: map<string, Json>, names: set<string>) {
    forall n :: n in names ==>
      (n in W <==> n in M)
      && (n in W ==> Deserialize(env, W[n]).Ok? && Marshal(Deserialize(env, W[n]).value) == Some(M[n]))
  }

  lemma ObjectCarries(env: Env, W: map<string, Json>)
    requires Untagged(W) && Deserialize(env, JObj(W)).Ok? && Marshal(Deserialize(env, JObj(W)).value).Some?
    ensures var back := Marshal(Deserialize(env, JObj(W)).value).value;
            back.JObj? && back.members.Keys == W.Keys && Carries(env, W, back.members, W.Keys)
  {
    ObjectReads(env, W);
    EntriesMarshalled(Deserialize(env, JObj(W)).value.entries);
  }

  lemma ObjectReads(env: Env, W: map<string, Json>)
    requires Untagged(W) && Deserialize(env, JObj(W)).Ok?
    ensures var v := Deserialize(env, JObj(W)).value;
            v.Dict? && v.entries.Keys == W.Keys && forall k :: k in W ==> Deserialize(env, W[k]) == Ok(v.entries[k])
  {
  }

  lemma EntriesMarshalled(entries: map<string, Value>)
    requires Marshal(Dict(entries)).Some?
    ensures var j := Marshal(Dict(entries)).value;
            j.JObj? && j.members.Keys == entries.Keys && forall k :: k in entries ==> Marshal(entries[k]) == Some(j.members[k])
  {
  }

  lemma MembersSink(env: Env, elem: Type, W: map<string, Json>, M: map<string, Json>, k: string)
    requires k in W && Carries(env, W, M, W.Keys) && Sinks(env, elem, W[k])
    ensures Unmarshal(env, TDict(elem), JObj(M)).Err?
  {
    assert Unmarshal(env, elem, M[k]).Err?;
    AllMembersUnmarshal(env, elem, M);
  }

  lemma DictSinks(env: Env, elem: Type, W: map<string, Json>, k: string)
    requires Untagged(W) && k in W && Sinks(env, elem, W[k])
    ensures Sinks(env, TDict(elem), JObj(W))
  {
    var r := Deserialize(env, JObj(W));
    if r.Ok? && Marshal(r.value).Some? {
      ObjectCarries(env, W);
      var M := Marshal(r.value).value.members;
      MembersSink(env, elem, W, M, k);
      assert Marshal(r.value).value == JObj(M);
    }
  }

  lemma {:induction false} OneUnreadFails(env: Env, decl: seq<Field>, M: map<string, Json>, i: nat, k: nat)
    requires i <= k < |decl| && UnmarshalField(env, decl[k], JObj(M)).Err?
    ensures UnmarshalFields(env, decl, JObj(M), i).Err?
    decreases k - i
  {
    if i < k {
      OneUnreadFails(env, decl, M, i + 1, k);
    }
  }

  lemma {:induction false} FieldSinks(env: Env, f: Field, v: Value, M: map<string, Json>)
    requires UnreadableField(env, f, v) && (f.ty.TRec? ==> DistinctNames(f.ty))
    requires Carries(env, WriteField(env, f, v), M, FieldNames(f))
    ensures UnmarshalField(env, f, JObj(M)).Err?
    decreases v, 2, 0
  {
    if f.embedded && f.ty.TRec? {
      FieldsSink(env, f.ty, v, M);
    } else {
      UnreadableSinks(env, f.ty, v);
      assert f.name in FieldNames(f);
      assert WriteField(env, f, v) == map[f.name := Serialize(env, f.ty, v)];
    }
  }

  lemma {:induction false} FieldsSink(env: Env, ty: Type, v: Value, M: map<string, Json>)
    requires ty.TRec? && DistinctNames(ty) && UnreadableFields(env, ty, v)
    requires Carries(env, WriteFields(env, ty.decl, v, 0), M, Names(ty))
    ensures UnmarshalFields(env, ty.decl, JObj(M), 0).Err?
    decreases v, 0, 0
  {
    var k :| 0 <= k < |ty.decl| && UnreadableField(env, ty.decl[k], v.fields[k]);
    FlatteningKeepsField(env, ty.decl, v, 0, k);
    NestedNames(ty, k);
    FieldSinks(env, ty.decl[k], v.fields[k], M);
    OneUnreadFails(env, ty.decl, M, 0, k);
  }

  lemma StructIsUntagged(env: Env, decl: seq<Field>, v: Value)
    requires v.Rec? && TYPE_KEY !in Names(TRec(decl))
    ensures WriteFields(env, decl, v, 0).Keys <= Names(TRec(decl)) && Untagged(WriteFields(env, decl, v, 0))
  {
    WritesOwnNames(env, decl, v, 0);
    assert NamesFrom(decl, 0) == Names(TRec(decl));
  }

  lemma OwnSinks(env: Env, ty: Type, v: Value)
    requires ty.TOwn? && Unreadable(env, ty, v)
    ensures Sinks(env, ty, Serialize(env, ty, v))
  {
    StructIsUntagged(env, ty.decl, v);
    var W := WriteFields(env, ty.decl, v, 0);
    var r := Deserialize(env, JObj(W));
    if r.Ok? && Marshal(r.value).Some? {
      ObjectCarries(env, W);
    }
  }

  lemma RecSinks(env: Env, ty: Type, v: Value)
    requires ty.TRec? && Unreadable(env, ty, v)
    ensures Sinks(env, ty, Serialize(env, ty, v))
    decreases v, 0, 1
  {
    StructIsUntagged(env, ty.decl, v);
    var W := WriteFields(env, ty.decl, v, 0);
    var r := Deserialize(env, JObj(W));
    if r.Ok? && Marshal(r.value).Some? {
      ObjectCarries(env, W);
      FieldsSink(env, ty, v, Marshal(r.value).value.members);
    }
  }

  lemma {:induction false} UnreadableSinks(env: Env, ty: Type, v: Value)
    requires Unreadable(env, ty, v)
    ensures Sinks(env, ty, Serialize(env, ty, v))
    decreases v, 1, 0
  {
    match ty
    case TOwn(_) => OwnSinks(env, ty, v);
    case TIface => IfaceSinks(env, Serialize(env, ty, v));
    case TPtr(elem) =>
      UnreadableSinks(env, elem, v.target);
      PtrSinks(env, elem, Serialize(env, elem, v.target));
    case TList(elem) =>
      var i :| 0 <= i < |v.items| && Unreadable(env, elem, v.items[i]);
      UnreadableSinks(env, elem, v.items[i]);
      ListSinks(env, elem, Serialize(env, ty, v).items, i);
    case TDict(elem) =>
      var k :| k in v.entries && Unreadable(env, elem, v.entries[k]);
      UnreadableSinks(env, elem, v.entries[k]);
      DictWire(env, ty, v);
      DictSinks(env, elem, Serialize(env, ty, v).members, k);
    case TRec(_) => RecSinks(env, ty, v);
  }

  // ---------------------------------------------------------------- what fillStruct fails on

  /** Something is written, and nothing of it names a type. */
  ghost predicate Nameless(j: Json) {
    j != JNull && (j.JObj? ==> Untagged(j.members))
  }

  /** The far end cannot assign what is written for a value to a field of type ty. */
  ghost predicate ValueRefused(env: Env, ty: Type, v: Value)
    decreases v, 2
  {
    if HoldsAny(ty) then DynamicRefused(env, v)
    else if v.Reg? then (ty.TReg? || ty.TIface?) && RegRefused(env, v)
    else if ty.TIface? then Nameless(Serialize(env, ty, v))
    else Unreadable(env, ty, v)
  }

  /** A dynamic value holds a registered struct the far end cannot fill. */
  ghost predicate DynamicRefused(env: Env, v: Value)
    decreases v, 1
  {
    match v
    case List(items) => exists i :: 0 <= i < |items| && DynamicRefused(env, items[i])
    case Dict(entries) =>
      (TYPE_KEY in entries ==> !Serialize(env, TAny, entries[TYPE_KEY]).JStr?)
      && exists k :: k in entries && DynamicRefused(env, entries[k])
    case Reg(_, _) => RegRefused(env, v)
    case _ => false
  }

  ghost predicate RegRefused(env: Env, v: Value)
    requires v.Reg?
    decreases v, 0
  {
    v.name in env && |v.fields| == |env[v.name]|
    && exists i :: 0 <= i < |v.fields| && FieldRefused(env, env[v.name][i], v.fields[i])
  }

  /** A field of a registered struct is written, and cannot be assigned on arrival. */
  ghost predicate FieldRefused(env: Env, f: Field, v: Value)
    decreases v, 3
  {
    f.exported
    && if f.embedded && f.ty.TRec? then
         v.Rec? && |v.fields| == |f.ty.decl|
         && exists i :: 0 <= i < |v.fields| && FieldRefused(env, f.ty.decl[i], v.fields[i])
       else v != Zero(f.ty) && ValueRefused(env, f.ty, v)
  }

  /** Nothing but nil and functions is written as nothing. */
  lemma OnlyNullReadsAsNil(env: Env, j: Json)
    ensures Deserialize(env, j) == Ok(Nil) <==> j == JNull
  {
  }

  lemma {:induction false} OneRefusedFails(env: Env, decl: seq<Field>, wire: map<string, Json>, i: nat, k: nat)
    requires i <= k < |decl| && ReadField(env, decl[k], JObj(wire)).Err?
    ensures ReadFields(env, decl, JObj(wire), i).Err?
    decreases k - i
  {
    if i < k {
      OneRefusedFails(env, decl, wire, i + 1, k);
    }
  }

  /** What is written for a refused value cannot be stored on arrival. */
  ghost predicate Unstorable(env: Env, ty: Type, j: Json) {
    j != JNull && (Deserialize(env, j).Ok? ==> Store(env, ty, Deserialize(env, j).value).Err?)
  }

  lemma StaticIsRefused(env: Env, ty: Type, v: Value)
    requires Unreadable(env, ty, v) && !HoldsAny(ty) && !v.Reg? && !ty.TIface?
    ensures Unstorable(env, ty, Serialize(env, ty, v))
  {
    UnreadableSinks(env, ty, v);
  }

  lemma NamelessIsRefused(env: Env, j: Json)
    requires Nameless(j)
    ensures Unstorable(env, TIface, j)
  {
    IfaceSinks(env, j);
  }

  lemma {:induction false} ValueIsRefused(env: Env, ty: Type, v: Value)
    requires EnvOk(env) && ValueRefused(env, ty, v)
    ensures Unstorable(env, ty, Serialize(env, ty, v))
    decreases v, 2
  {
    if HoldsAny(ty) {
      DynamicIsRefused(env, ty, v);
    } else if v.Reg? {
      RegIsRefused(env, ty, v);
    } else if ty.TIface? {
      NamelessIsRefused(env, Serialize(env, ty, v));
    } else {
      StaticIsRefused(env, ty, v);
    }
  }

  lemma AllItemsRead(env: Env, items: seq<Json>)
    ensures Deserialize(env, JArr(items)).Ok? ==> forall i :: 0 <= i < |items| ==> Deserialize(env, items[i]).Ok?
  {
    if Deserialize(env, JArr(items)).Ok? {
      forall i | 0 <= i < |items| ensures Deserialize(env, items[i]).Ok? {
        ItemReads(env, items, i);
      }
    }
  }

  lemma AllMembersRead(env: Env, W: map<string, Json>)
    requires Untagged(W)
    ensures Deserialize(env, JObj(W)).Ok? ==> forall k :: k in W ==> Deserialize(env, W[k]).Ok?
  {
    if Deserialize(env, JObj(W)).Ok? {
      ObjectReads(env, W);
    }
  }

  lemma {:induction false} DynamicIsRefused(env: Env, ty: Type, v: Value)
    requires EnvOk(env) && HoldsAny(ty) && DynamicRefused(env, v)
    ensures Deserialize(env, Serialize(env, ty, v)).Err?
    decreases v, 1
  {
    match v
    case List(items) =>
      var i :| 0 <= i < |items| && DynamicRefused(env, items[i]);
      DynamicIsRefused(env, TAny, items[i]);
      var wire := Serialize(env, ty, v).items;
      assert wire[i] == Serialize(env, TAny, items[i]);
      AllItemsRead(env, wire);
    case Dict(entries) =>
      var k :| k in entries && DynamicRefused(env, entries[k]);
      DynamicIsRefused(env, TAny, entries[k]);
      var wire := Serialize(env, ty, v).members;
      assert wire[k] == Serialize(env, TAny, entries[k]);
      AllMembersRead(env, wire);
    case Reg(_, _) => RegIsRefused(env, ty, v);
  }

  lemma {:induction false} RegIsRefused(env: Env, ty: Type, v: Value)
    requires EnvOk(env) && v.Reg? && RegRefused(env, v)
    ensures Deserialize(env, Serialize(env, ty, v)).Err?
    decreases v, 0
  {
    var decl, wire := env[v.name], WriteFields(env, env[v.name], v, 0);
    var k :| 0 <= k < |v.fields| && FieldRefused(env, decl[k], v.fields[k]);
    assert DistinctNames(TRec(decl));
    FlatteningKeepsField(env, decl, v, 0, k);
    FieldIsRefused(env, decl[k], v.fields[k], wire);
    OneRefusedFails(env, decl, wire, 0, k);
    TaggedFails(env, v.name, wire);
  }

  lemma TaggedFails(env: Env, name: string, wire: map<string, Json>)
    requires name in env && name != BYTES_NAME && ReadFields(env, env[name], JObj(wire), 0).Err?
    ensures Deserialize(env, Tagged(name, JObj(wire))).Err?
  {
  }

  lemma {:induction false} FieldIsRefused(env: Env, f: Field, v: Value, wire: map<string, Json>)
    requires EnvOk(env) && FieldRefused(env, f, v) && (f.ty.TRec? ==> DistinctNames(f.ty))
    requires Agree(wire, WriteField(env, f, v), FieldNames(f))
    ensures ReadField(env, f, JObj(wire)).Err?
    decreases v, 3
  {
    if f.embedded && f.ty.TRec? {
      var k :| 0 <= k < |v.fields| && FieldRefused(env, f.ty.decl[k], v.fields[k]);
      FlatteningKeepsField(env, f.ty.decl, v, 0, k);
      NestedNames(f.ty, k);
      FieldIsRefused(env, f.ty.decl[k], v.fields[k], wire);
      OneRefusedFails(env, f.ty.decl, wire, 0, k);
    } else {
      ValueIsRefused(env, f.ty, v);
      assert f.name in FieldNames(f);
      var j := Serialize(env, f.ty, v);
      assert WriteField(env, f, v) == map[f.name := j];
      OnlyNullReadsAsNil(env, j);
    }
  }

  // ---------------------------------------------------------------- messages

  /** Each field of a registered struct travels or is refused. */
  ghost predicate TravelsOrRefused(env: Env, v: Value)
    requires v.Reg?
  {
    v.name in env && |v.fields| == |env[v.name]|
    && forall i :: 0 <= i < |v.fields| ==>
         FieldTravels(env, env[v.name][i], v.fields[i]) || FieldRefused(env, env[v.name][i], v.fields[i])
  }

  /** One refused field loses the whole message, and nothing else does: a message whose fields otherwise travel
      is received, as itself, if and only if it holds nothing the far end cannot read. */
  lemma MessageIsReceivedIff(env: Env, messages: set<string>, m: Value)
    requires EnvOk(env) && m.Reg? && m.name in messages && TravelsOrRefused(env, m)
    ensures Receive(env, messages, Serialize(env, TAny, m)).Ok? <==> !RegRefused(env, m)
    ensures !RegRefused(env, m) ==> Receive(env, messages, Serialize(env, TAny, m)) == Ok(Erase(env, TAny, m))
  {
    if RegRefused(env, m) {
      RegIsRefused(env, TAny, m);
    } else {
      MessageCrosses(env, messages, m);
    }
  }

  // ---------------------------------------------------------------- frames that are lost

  const NAMES_BASE := Field("BaseMessage", true, true, TRec([Field("From", true, false, TStr), Field("To", true, false, TStr)]))

  /** The message that carries a frame to another worker (bus/messages.go). */
  const FRAME_MESSAGE := "FrameMessage"
  const FRAME_MESSAGE_DECL := [
    Field("BaseDataMessage", true, true, TRec([NAMES_BASE])),
    Field("Frame", true, false, TIface),
    Field("Direction", true, false, TInt(-0x8000_0000_0000_0000, 0x7FFF_FFFF_FFFF_FFFF)),
    Field("Bridge", true, false, TStr)
  ]

  function FrameMessage(from: string, to: string, frame: Value, direction: int, bridge: string): Value {
    Reg(FRAME_MESSAGE, [Rec([Rec([Str(from), Str(to)])]), frame, Int(direction), Str(bridge)])
  }

  /** A frame handed to a bridged worker arrives if and only if it holds nothing the far end cannot read. */
  lemma FrameIsReceivedIff(env: Env, from: string, to: string, frame: Value, direction: int, bridge: string)
    requires EnvOk(env) && FRAME_MESSAGE in env && env[FRAME_MESSAGE] == FRAME_MESSAGE_DECL
    requires frame.Reg? && TravelsOrRefused(env, frame) && 0 <= direction <= 1
    ensures var m := FrameMessage(from, to, frame, direction, bridge);
            Receive(env, {FRAME_MESSAGE}, Serialize(env, TAny, m)).Ok? <==> !RegRefused(env, frame)
  {
    var m := FrameMessage(from, to, frame, direction, bridge);
    var decl := FRAME_MESSAGE_DECL;
    assert FieldRefused(env, decl[1], frame) <==> RegRefused(env, frame);
    if RegRefused(env, frame) {
      assert FieldRefused(env, env[m.name][1], m.fields[1]);
      RegIsRefused(env, TAny, m);
    } else {
      assert RegTravels(env, frame);
      CarrierTravels(env, from, to, frame, direction, bridge);
      MessageCrosses(env, {FRAME_MESSAGE}, m);
    }
  }

  lemma CarrierTravels(env: Env, from: string, to: string, frame: Value, direction: int, bridge: string)
    requires FRAME_MESSAGE in env && env[FRAME_MESSAGE] == FRAME_MESSAGE_DECL
    requires frame.Reg? && RegTravels(env, frame) && 0 <= direction <= 1
    ensures RegTravels(env, FrameMessage(from, to, frame, direction, bridge))
  {
    var m := FrameMessage(from, to, frame, direction, bridge);
    var decl := FRAME_MESSAGE_DECL;
    BaseTravels(env, from, to);
    SmallIntegersAreExact(direction);
    assert FieldTravels(env, decl[1], frame);
    assert FieldTravels(env, decl[2], m.fields[2]) && FieldTravels(env, decl[3], m.fields[3]);
  }

  lemma BaseTravels(env: Env, from: string, to: string)
    ensures FieldTravels(env, FRAME_MESSAGE_DECL[0], Rec([Rec([Str(from), Str(to)])]))
  {
    var base := Rec([Str(from), Str(to)]);
    assert FieldTravels(env, NAMES_BASE.ty.decl[0], base.fields[0]) && FieldTravels(env, NAMES_BASE.ty.decl[1], base.fields[1]);
    assert FieldTravels(env, NAMES_BASE, base);
  }

  /** time.Time: a struct with unexported fields only, which reads itself from a string. */
  const TIME := TOwn([
    Field("wall", false, false, TInt(0, 0xFFFF_FFFF_FFFF_FFFF)),
    Field("ext", false, false, TInt(-0x8000_0000_0000_0000, 0x7FFF_FFFF_FFFF_FFFF)),
    Field("loc", false, false, TPtr(TRec([])))
  ])

  /** What a frame's base holds does not leave the process. */
  const BASE_SYSTEM_FRAME := Field("BaseSystemFrame", true, true, TRec([]))

  lemma BaseIsRead(env: Env)
    ensures FieldTravels(env, BASE_SYSTEM_FRAME, Rec([])) && !FieldRefused(env, BASE_SYSTEM_FRAME, Rec([]))
  {
  }

  lemma ScalarIsRead(env: Env, f: Field, v: Value)
    requires (f.ty.TBool? || f.ty.TInt? || f.ty.TFloat? || f.ty.TStr?) && !v.Reg?
    ensures !FieldRefused(env, f, v)
  {
    assert !Unreadable(env, f.ty, v);
  }

  const VAD_STARTED := "VADUserStartedSpeakingFrame"
  const VAD_STARTED_DECL := [BASE_SYSTEM_FRAME, Field("StartSecs", true, false, TFloat), Field("Timestamp", true, false, TIME)]

  /** The frame that reports the user starting to speak arrives if and only if its time was never set. */
  lemma VadFrameIsReceivedIff(env: Env, startSecs: real, at: Value)
    requires EnvOk(env) && FRAME_MESSAGE in env && env[FRAME_MESSAGE] == FRAME_MESSAGE_DECL
    requires VAD_STARTED in env && env[VAD_STARTED] == VAD_STARTED_DECL && at.Rec?
    ensures var m := FrameMessage("a", "b", Reg(VAD_STARTED, [Rec([]), Float(startSecs), at]), 0, "");
            Receive(env, {FRAME_MESSAGE}, Serialize(env, TAny, m)).Ok? <==> at == Zero(TIME)
  {
    var frame := Reg(VAD_STARTED, [Rec([]), Float(startSecs), at]);
    var decl := VAD_STARTED_DECL;
    assert Names(TRec(TIME.decl)) == {};
    assert FieldRefused(env, decl[2], at) <==> at != Zero(TIME);
    BaseIsRead(env);
    ScalarIsRead(env, decl[1], frame.fields[1]);
    assert FieldTravels(env, decl[1], frame.fields[1]);
    assert at == Zero(TIME) ==> FieldTravels(env, decl[2], at);
    assert RegRefused(env, frame) <==> FieldRefused(env, env[VAD_STARTED][2], frame.fields[2]);
    FrameIsReceivedIff(env, "a", "b", frame, 0, "");
  }

  const METRICS := "MetricsFrame"
  const METRICS_DECL := [BASE_SYSTEM_FRAME, Field("Data", true, false, TList(TIface))]

  /** A metrics frame arrives if and only if it has no measurement in it. */
  lemma MetricsFrameIsReceivedIff(env: Env, data: seq<Value>)
    requires EnvOk(env) && FRAME_MESSAGE in env && env[FRAME_MESSAGE] == FRAME_MESSAGE_DECL
    requires METRICS in env && env[METRICS] == METRICS_DECL
    requires forall i :: 0 <= i < |data| ==> data[i].Boxed? && data[i].of.TRec? && data[i].held.Rec?
    ensures var m := FrameMessage("a", "b", Reg(METRICS, [Rec([]), List(data)]), 0, "");
            Receive(env, {FRAME_MESSAGE}, Serialize(env, TAny, m)).Ok? <==> data == []
  {
    var frame := Reg(METRICS, [Rec([]), List(data)]);
    var decl := METRICS_DECL;
    if data != [] {
      assert Serialize(env, TIface, data[0]).JObj?;
      assert Unreadable(env, TIface, data[0]);
      assert Unreadable(env, decl[1].ty, List(data));
    }
    assert FieldRefused(env, decl[1], List(data)) <==> data != [];
    assert data == [] ==> FieldTravels(env, decl[1], List(data));
    BaseIsRead(env);
    assert RegRefused(env, frame) <==> FieldRefused(env, env[METRICS][1], frame.fields[1]);
    FrameIsReceivedIff(env, "a", "b", frame, 0, "");
  }
}
