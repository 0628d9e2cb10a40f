/**
 The JSON wire form of bus messages (bus/jsonserializer.go), as trees: a type-directed writer and reader
 over a registry of named struct types. Reflection becomes recursion over types and values.
 */
module JsonWire {
  import opened Wrappers
  import opened Numbers
  import Base64

  /** A JSON text as a tree. A number of a raw tree is what its digits say; of a tree that json.Unmarshal read
      into an empty interface, a float64. */
  datatype Json =
    | JNull
    | JBool(b: bool)
    | JNum(r: real)
    | JStr(s: string)
    | JArr(items: seq<Json>)
    | JObj(members: map<string, Json>)

  /** The static type of a field. TInt is any integer type, by its bounds; TReg a pointer to a registered
      struct; TFn a function or channel; TAny the empty interface, TIface an interface with methods. TRec is a
      struct nobody registered; TOwn one that reads itself from JSON, and not from an object, as time.Time does. */
  datatype Type =
    | TBool | TInt(lo: int, hi: int) | TFloat | TStr | TBytes | TRaw | TAny | TIface | TFn
    | TReg(name: string)
    | TList(elem: Type) | TDict(elem: Type) | TPtr(elem: Type)
    | TRec(decl: seq<Field>) | TOwn(decl: seq<Field>)

  /** embedded says that a struct is embedded, by value. */
  datatype Field = Field(name: string, exported: bool, embedded: bool, ty: Type)

  /** A Go value. Nil is the nil pointer, slice, map, function or interface; Rec a struct, its fields in
      order; Reg a pointer to a registered struct; Raw a json.RawMessage, by the tree its text denotes; RawText
      raw JSON or bytes by its characters, which is what converting a string to either gives. In an interface
      Bool, Int, Float, Str, List and Dict are of the built-in types, with any for elements; Boxed is of another
      type, which nobody registered. */
  datatype Value =
    | Nil
    | Bool(b: bool) | Int(n: int) | Float(r: real) | Str(s: string)
    | Bytes(bytes: seq<Base64.Byte>)
    | Raw(tree: Json) | RawText(text: string)
    | Fn
    | List(items: seq<Value>)
    | Dict(entries: map<string, Value>)
    | Ptr(target: Value)
    | Rec(fields: seq<Value>)
    | Reg(name: string, fields: seq<Value>)
    | Boxed(of: Type, held: Value)

  /** The registered struct types, by wire name. */
  type Env = map<string, seq<Field>>

  datatype Error = UnknownType | WrongShape | BadBase64 | CannotFill | NotAMessage

  const TYPE_KEY := "__type__"
  const DATA_KEY := "__data__"
  const BYTES_NAME := "bytes"

  // ---------------------------------------------------------------- numbers in trees

  /** The tree with every number passed through f. */
  ghost function MapNumbers(j: Json, f: real -> real): Json {
    match j
    case JNum(r) => JNum(f(r))
    case JArr(items) => JArr(seq(|items|, i requires 0 <= i < |items| => MapNumbers(items[i], f)))
    case JObj(members) => JObj(map k | k in members :: MapNumbers(members[k], f))
    case _ => j
  }

  /** A raw text read into an empty interface. */
  ghost function Parsed(tree: Json): Json {
    MapNumbers(tree, r => Round(r))
  }

  /** The text encoding/json writes for a tree it read. */
  ghost function Written(tree: Json): Json {
    MapNumbers(tree, r => Shortest(r))
  }

  /** Every number of a raw tree is still itself after being read as a float64 and written again. */
  ghost predicate NumbersKept(tree: Json) {
    match tree
    case JNum(r) => Rewritten(r) == r
    case JArr(items) => forall i :: 0 <= i < |items| ==> NumbersKept(items[i])
    case JObj(members) => forall k :: k in members ==> NumbersKept(members[k])
    case _ => true
  }

  /** From here on encoding/json writes an exponent, which an integer field does not take. */
  const EXPONENT_FROM := 1_000_000_000_000_000_000_000

  /** The integer digits encoding/json writes for a float64, if that is what it writes. */
  ghost function Digits(r: real): Option<int> {
    if IsInt(Shortest(r)) && Abs(r) < EXPONENT_FROM as real then Some(Shortest(r).Floor) else None
  }

  // ---------------------------------------------------------------- writing

  function Zero(ty: Type): Value {
    match ty
    case TBool => Bool(false)
    case TInt(_, _) => Int(0)
    case TFloat => Float(0.0)
    case TStr => Str("")
    case TRec(decl) => Rec(seq(|decl|, i requires 0 <= i < |decl| => Zero(decl[i].ty)))
    case TOwn(decl) => Rec(seq(|decl|, i requires 0 <= i < |decl| => Zero(decl[i].ty)))
    case _ => Nil
  }

  function ElemType(ty: Type): Type {
    if ty.TList? || ty.TDict? || ty.TPtr? then ty.elem else TAny
  }

  function Decl(ty: Type): seq<Field> {
    if ty.TRec? || ty.TOwn? then ty.decl else []
  }

  function Tagged(name: string, data: Json): Json {
    JObj(map[TYPE_KEY := JStr(name), DATA_KEY := data])
  }

  /** serializeValue, then the text json.Marshal writes read back as a tree. Nothing to write is JNull. */
  ghost function Serialize(env: Env, ty: Type, v: Value): Json
    decreases v, 2, 0
  {
    match v
    case Nil => JNull
    case Fn => JNull
    case Raw(tree) => Parsed(tree)
    case RawText(text) => JNull
    case Bytes(bytes) => Tagged(BYTES_NAME, JStr(Base64.Encode(bytes)))
    case Bool(b) => JBool(b)
    case Int(n) => JNum(Float64(n) as real)
    case Float(r) => JNum(r)
    case Str(s) => JStr(s)
    case List(items) => JArr(seq(|items|, i requires 0 <= i < |items| => Serialize(env, ElemType(ty), items[i])))
    case Dict(entries) => JObj(map k | k in entries :: Serialize(env, ElemType(ty), entries[k]))
    case Ptr(target) => Serialize(env, ElemType(ty), target)
    case Boxed(of, held) => Serialize(env, of, held)
    case Rec(fs) => JObj(WriteFields(env, Decl(ty), v, 0))
    case Reg(name, fs) => Tagged(name, JObj(WriteFields(env, if name in env then env[name] else [], v, 0)))
  }

  /** serializeStruct from the i-th field on. A later field of the same name overwrites an earlier one. */
  ghost function WriteFields(env: Env, decl: seq<Field>, v: Value, i: nat): map<string, Json>
    requires v.Rec? || v.Reg?
    requires i <= |v.fields|
    decreases v, 1, |v.fields| - i
  {
    if i == |v.fields| || i >= |decl| then map[]
    else WriteField(env, decl[i], v.fields[i]) + WriteFields(env, decl, v, i + 1)
  }

  ghost function WriteField(env: Env, f: Field, v: Value): map<string, Json>
    decreases v, 3, 0
  {
    if !f.exported then map[]
    else if f.embedded && f.ty.TRec? then if v.Rec? then WriteFields(env, f.ty.decl, v, 0) else map[]
    else if v == Zero(f.ty) then map[]
    else
      var el := Serialize(env, f.ty, v);
      if el == JNull then map[] else map[f.name := el]
  }

  // ---------------------------------------------------------------- reading

  ghost function SomeError(errors: set<Error>): Error
    requires errors != {}
  {
    var e :| e in errors; e
  }

  /** All of rs, or one of their errors. */
  ghost function Collect<K(!new)>(rs: map<K, Result<Value, Error>>): Result<map<K, Value>, Error> {
    if forall k :: k in rs ==> rs[k].Ok? then Ok(map k | k in rs :: rs[k].value)
    else Err(SomeError(var k :| k in rs && rs[k].Err?; {rs[k].error}))
  }

  /** deserializeValue and deserializeTagged. */
  ghost function Deserialize(env: Env, j: Json): Result<Value, Error>
    decreases j, 2, TBool, 0, 0
  {
    match j
    case JNull => Ok(Nil)
    case JStr(s) => Ok(Str(s))
    case JBool(b) => Ok(Bool(b))
    case JNum(r) => Ok(Float(r))
    case JArr(items) =>
      var rs := seq(|items|, i requires 0 <= i < |items| => Deserialize(env, items[i]));
      if forall i :: 0 <= i < |rs| ==> rs[i].Ok? then Ok(List(seq(|rs|, i requires 0 <= i < |rs| => rs[i].value)))
      else (var i :| 0 <= i < |rs| && rs[i].Err?; Err(rs[i].error))
    case JObj(members) =>
      if TYPE_KEY in members && members[TYPE_KEY].JStr? then
        var name := members[TYPE_KEY].s;
        if name == BYTES_NAME then
          if DATA_KEY in members && members[DATA_KEY].JStr? then
            match Base64.Decode(members[DATA_KEY].s)
            case Some(bytes) => Ok(Bytes(bytes))
            case None => Err(BadBase64)
          else Err(WrongShape)
        else if name !in env then Err(UnknownType)
        else if DATA_KEY !in members || !members[DATA_KEY].JObj? then Err(WrongShape)
        else
          match ReadFields(env, env[name], members[DATA_KEY], 0)
          case Ok(fields) => Ok(Reg(name, fields))
          case Err(e) => Err(e)
      else
        match Collect(map k | k in members :: Deserialize(env, members[k]))
        case Ok(entries) => Ok(Dict(entries))
        case Err(e) => Err(e)
  }

  /** What encoding/json writes for a value Deserialize built. */
  ghost function Marshal(v: Value): Option<Json> {
    match v
    case Nil => Some(JNull)
    case Bool(b) => Some(JBool(b))
    case Float(r) => Some(JNum(r))
    case Str(s) => Some(JStr(s))
    case Bytes(bytes) => Some(JStr(Base64.Encode(bytes)))
    case List(items) =>
      var rs := seq(|items|, i requires 0 <= i < |items| => Marshal(items[i]));
      if forall i :: 0 <= i < |rs| ==> rs[i].Some? then Some(JArr(seq(|rs|, i requires 0 <= i < |rs| => rs[i].value)))
      else None
    case Dict(entries) =>
      var rs := map k | k in entries :: Marshal(entries[k]);
      if forall k :: k in rs ==> rs[k].Some? then Some(JObj(map k | k in rs :: rs[k].value)) else None
    case _ => None
  }

  /** What encoding/json reads into a fresh value of type ty. */
  ghost function Unmarshal(env: Env, ty: Type, j: Json): Result<Value, Error>
    decreases j, 2, ty, 0, 0
  {
    if ty.TRaw? then Ok(Raw(Written(j)))
    else if j.JNull? then Ok(Zero(ty))
    else
      match ty
      case TBool => if j.JBool? then Ok(Bool(j.b)) else Err(CannotFill)
      case TInt(lo, hi) =>
        if j.JNum? && Digits(j.r).Some? && lo <= Digits(j.r).value <= hi then Ok(Int(Digits(j.r).value)) else Err(CannotFill)
      case TFloat => if j.JNum? then Ok(Float(j.r)) else Err(CannotFill)
      case TStr => if j.JStr? then Ok(Str(j.s)) else Err(CannotFill)
      case TBytes => if j.JStr? && Base64.Decode(j.s).Some? then Ok(Bytes(Base64.Decode(j.s).value)) else Err(CannotFill)
      case TList(elem) => if j.JArr? then UnmarshalItems(env, elem, j) else Err(CannotFill)
      case TDict(elem) => if j.JObj? then UnmarshalMembers(env, elem, j) else Err(CannotFill)
      case TPtr(elem) =>
        var r := Unmarshal(env, elem, j);
        if r.Ok? then Ok(Ptr(r.value)) else r
      case TRec(decl) =>
        if !j.JObj? then Err(CannotFill)
        else
          var r := UnmarshalFields(env, decl, j, 0);
          if r.Ok? then Ok(Rec(r.value)) else Err(r.error)
      case TAny =>
        (match j
         case JBool(b) => Ok(Bool(b))
         case JNum(r) => Ok(Float(r))
         case JStr(text) => Ok(Str(text))
         case JArr(_) => UnmarshalItems(env, TAny, j)
         case JObj(_) => UnmarshalMembers(env, TAny, j))
      case _ => Err(CannotFill)
  }

  ghost function UnmarshalItems(env: Env, elem: Type, j: Json): Result<Value, Error>
    requires j.JArr?
    decreases j, 1, elem, 0, 0
  {
    var rs := seq(|j.items|, i requires 0 <= i < |j.items| => Unmarshal(env, elem, j.items[i]));
    if forall i :: 0 <= i < |rs| ==> rs[i].Ok? then Ok(List(seq(|rs|, i requires 0 <= i < |rs| => rs[i].value)))
    else Err(CannotFill)
  }

  ghost function UnmarshalMembers(env: Env, elem: Type, j: Json): Result<Value, Error>
    requires j.JObj?
    decreases j, 1, elem, 0, 0
  {
    var rs := map k | k in j.members :: Unmarshal(env, elem, j.members[k]);
    if forall k :: k in rs ==> rs[k].Ok? then Ok(Dict(map k | k in rs :: rs[k].value)) else Err(CannotFill)
  }

  ghost function UnmarshalFields(env: Env, decl: seq<Field>, j: Json, i: nat): Result<seq<Value>, Error>
    requires j.JObj? && i <= |decl|
    ensures var r := UnmarshalFields(env, decl, j, i); r.Ok? ==> |r.value| == |decl| - i
    decreases j, 1, TRec(decl), 0, |decl| - i
  {
    if i == |decl| then Ok([])
    else
      match UnmarshalField(env, decl[i], j)
      case Err(e) => Err(e)
      case Ok(v) =>
        match UnmarshalFields(env, decl, j, i + 1)
        case Err(e) => Err(e)
        case Ok(rest) => Ok([v] + rest)
  }

  ghost function UnmarshalField(env: Env, f: Field, j: Json): Result<Value, Error>
    requires j.JObj?
    decreases j, 1, f.ty, 1, 0
  {
    if !f.exported then Ok(Zero(f.ty))
    else if f.embedded && f.ty.TRec? then
      match UnmarshalFields(env, f.ty.decl, j, 0)
      case Ok(fields) => Ok(Rec(fields))
      case Err(e) => Err(e)
    else if f.name !in j.members then Ok(Zero(f.ty))
    else Unmarshal(env, f.ty, j.members[f.name])
  }

  function Truncate(r: real): int {
    if r < 0.0 then 0 - (0.0 - r).Floor else r.Floor
  }

  /** Go lets a deserialized value be set into a field of this type as it is, or converts it to itself. */
  predicate Assignable(ty: Type, v: Value) {
    match ty
    case TAny => true
    case TIface => v.Reg?
    case TReg(name) => v.Reg? && v.name == name
    case TBool => v.Bool?
    case TFloat => v.Float?
    case TStr => v.Str?
    case TBytes => v.Bytes?
    case TList(elem) => elem.TAny? && v.List?
    case TDict(elem) => elem.TAny? && v.Dict?
    case _ => false
  }

  /** The end of assign: set a non-nil deserialized value into a field as it is where Go lets it, converted
      where Go converts, and through a second JSON round trip otherwise. A float outside an integer type's
      range converts to no particular integer in Go; the lower bound stands for it. */
  ghost function Store(env: Env, ty: Type, v: Value): Result<Value, Error> {
    if Assignable(ty, v) then Ok(v)
    else if ty.TReg? && v.Reg? then Err(CannotFill)
    else if ty.TInt? && v.Float? then Ok(Int(if ty.lo <= Truncate(v.r) <= ty.hi then Truncate(v.r) else ty.lo))
    else if (ty.TRaw? || ty.TBytes?) && v.Str? then Ok(RawText(v.s))
    else
      match Marshal(v)
      case None => Err(CannotFill)
      case Some(j) => Unmarshal(env, ty, j)
  }

  /** fillStruct on a fresh struct, from the i-th field on. */
  ghost function ReadFields(env: Env, decl: seq<Field>, j: Json, i: nat): Result<seq<Value>, Error>
    requires j.JObj? && i <= |decl|
    ensures var r := ReadFields(env, decl, j, i); r.Ok? ==> |r.value| == |decl| - i
    decreases j, 1, TRec(decl), 0, |decl| - i
  {
    if i == |decl| then Ok([])
    else
      match ReadField(env, decl[i], j)
      case Err(e) => Err(e)
      case Ok(v) =>
        match ReadFields(env, decl, j, i + 1)
        case Err(e) => Err(e)
        case Ok(rest) => Ok([v] + rest)
  }

  ghost function ReadField(env: Env, f: Field, j: Json): Result<Value, Error>
    requires j.JObj?
    decreases j, 1, f.ty, 1, 0
  {
    if !f.exported then Ok(Zero(f.ty))
    else if f.embedded && f.ty.TRec? then
      match ReadFields(env, f.ty.decl, j, 0)
      case Ok(fields) => Ok(Rec(fields))
      case Err(e) => Err(e)
    else if f.name !in j.members then Ok(Zero(f.ty))
    else
      // assign
      match Deserialize(env, j.members[f.name])
      case Err(e) => Err(e)
      case Ok(v) => if v == Nil then Ok(Zero(f.ty)) else Store(env, f.ty, v)
  }

  // ---------------------------------------------------------------- what JSON carries faithfully

  /** No object of the tree reads as a tagged value. */
  ghost predicate PlainTree(j: Json) {
    match j
    case JArr(items) => forall i :: 0 <= i < |items| ==> PlainTree(items[i])
    case JObj(members) => Untagged(members) && forall k :: k in members ==> PlainTree(members[k])
    case _ => true
  }

  ghost predicate Untagged(members: map<string, Json>) {
    TYPE_KEY in members ==> !members[TYPE_KEY].JStr?
  }

  /** A dynamic value JSON describes on its own. */
  ghost predicate PlainValue(v: Value) {
    match v
    case Nil => true
    case Bool(_) => true
    case Float(_) => true
    case Str(_) => true
    case List(items) => forall i :: 0 <= i < |items| ==> PlainValue(items[i])
    case Dict(entries) =>
      (TYPE_KEY in entries ==> !entries[TYPE_KEY].Str?) && forall k :: k in entries ==> PlainValue(entries[k])
    case _ => false
  }

  /** The wire names a field writes, through the embedded structs it flattens. */
  ghost function FieldNames(f: Field): set<string>
    decreases f.ty, 1
  {
    if !f.exported then {}
    else if f.embedded && f.ty.TRec? then Names(f.ty)
    else {f.name}
  }

  ghost function Names(ty: Type): set<string>
    requires ty.TRec?
    decreases ty, 0
  {
    set i, n | 0 <= i < |ty.decl| && n in FieldNames(ty.decl[i]) :: n
  }

  /** Field names are distinct across embedded levels. */
  ghost predicate DistinctNames(ty: Type)
    requires ty.TRec?
  {
    (forall i :: 0 <= i < |ty.decl| && ty.decl[i].ty.TRec? ==> DistinctNames(ty.decl[i].ty))
    && forall i, j :: 0 <= i < j < |ty.decl| ==> FieldNames(ty.decl[i]) !! FieldNames(ty.decl[j])
  }

  ghost predicate EnvOk(env: Env) {
    BYTES_NAME !in env && forall name :: name in env ==> DistinctNames(TRec(env[name]))
  }

  /** A value of a type that comes back through assign's second JSON round trip. */
  ghost predicate Inner(env: Env, ty: Type, v: Value)
    decreases v, 1
  {
    match ty
    case TBool => v.Bool?
    case TInt(lo, hi) => v.Int? && lo <= v.n <= hi && Digits(Float64(v.n) as real) == Some(v.n)
    case TFloat => v.Float?
    case TStr => v.Str?
    case TBytes => v.Nil? || v.Bytes?
    case TRaw => v.Raw? && PlainTree(v.tree) && NumbersKept(v.tree)
    case TAny => PlainValue(v)
    case TIface => v.Nil?
    case TFn => false
    case TOwn(_) => false
    case TReg(_) => false
    case TList(elem) => v.Nil? || (v.List? && forall i :: 0 <= i < |v.items| ==> Inner(env, elem, v.items[i]))
    case TDict(elem) =>
      v.Nil?
      || (v.Dict? && (forall k :: k in v.entries ==> Inner(env, elem, v.entries[k]))
          && (TYPE_KEY in v.entries ==> !Serialize(env, elem, v.entries[TYPE_KEY]).JStr?))
    case TPtr(elem) => v.Nil? || (v.Ptr? && Inner(env, elem, v.target) && Serialize(env, elem, v.target) != JNull)
    case TRec(decl) => InnerFields(env, ty, v) && DistinctNames(ty) && TYPE_KEY !in Names(ty)
  }

  ghost predicate InnerFields(env: Env, ty: Type, v: Value)
    requires ty.TRec?
    decreases v, 0
  {
    v.Rec? && |v.fields| == |ty.decl|
    && forall i :: 0 <= i < |ty.decl| ==> InnerField(env, ty.decl[i], v.fields[i])
  }

  ghost predicate InnerField(env: Env, f: Field, v: Value)
    decreases v, 2
  {
    if !f.exported then true
    else if f.embedded && f.ty.TRec? then InnerFields(env, f.ty, v)
    else Dropped(f.ty, v) || v == Zero(f.ty) || (Inner(env, f.ty, v) && v != Raw(JNull))
  }

  /** A function, in a field of its type or in an interface: it is not written. */
  predicate Dropped(ty: Type, v: Value) {
    v.Fn? && (ty.TFn? || ty.TAny? || ty.TIface?)
  }

  /** A value of a field of a message or frame that JSON carries faithfully. */
  ghost predicate Travels(env: Env, ty: Type, v: Value)
    decreases v, 2
  {
    match ty
    case TInt(lo, hi) => v.Int? && lo <= v.n <= hi && Float64(v.n) == v.n
    case TRaw => v.Nil? || (v.Raw? && PlainTree(v.tree) && NumbersKept(v.tree) && !v.tree.JNull? && !v.tree.JStr?)
    case TAny => Dynamic(env, v)
    case TIface => v.Nil? || (v.Reg? && RegTravels(env, v))
    case TReg(name) => v.Nil? || (v.Reg? && v.name == name && RegTravels(env, v))
    case TList(elem) => if elem.TAny? then v.Nil? || (v.List? && Dynamic(env, v)) else Inner(env, ty, v)
    case TDict(elem) => if elem.TAny? then v.Nil? || (v.Dict? && Dynamic(env, v)) else Inner(env, ty, v)
    case _ => Inner(env, ty, v)
  }

  /** Plain JSON, bytes, pointers to registered structs, and lists and untagged maps of those. */
  ghost predicate Dynamic(env: Env, v: Value)
    decreases v, 1
  {
    match v
    case List(items) => forall i :: 0 <= i < |items| ==> Dynamic(env, items[i])
    case Dict(entries) =>
      (TYPE_KEY in entries ==> !entries[TYPE_KEY].Str?) && forall k :: k in entries ==> Dynamic(env, entries[k])
    case Reg(_, _) => RegTravels(env, v)
    case Bytes(_) => true
    case _ => v.Nil? || v.Bool? || v.Float? || v.Str?
  }

  ghost predicate RegTravels(env: Env, v: Value)
    requires v.Reg?
    decreases v, 0
  {
    v.name in env && |v.fields| == |env[v.name]|
    && forall i :: 0 <= i < |v.fields| ==> FieldTravels(env, env[v.name][i], v.fields[i])
  }

  ghost predicate FieldTravels(env: Env, f: Field, v: Value)
    decreases v, 3
  {
    if !f.exported then true
    else if f.embedded && f.ty.TRec? then
      v.Rec? && |v.fields| == |f.ty.decl|
      && forall i :: 0 <= i < |v.fields| ==> FieldTravels(env, f.ty.decl[i], v.fields[i])
    else Dropped(f.ty, v) || v == Zero(f.ty) || Travels(env, f.ty, v)
  }

  /** What of a value can cross: functions and unexported fields come back as zero values. */
  ghost function Erase(env: Env, ty: Type, v: Value): Value
    decreases v, 1
  {
    match v
    case Fn => Nil
    case List(items) => List(seq(|items|, i requires 0 <= i < |items| => Erase(env, ElemType(ty), items[i])))
    case Dict(entries) => Dict(map k | k in entries :: Erase(env, ElemType(ty), entries[k]))
    case Ptr(target) => Ptr(Erase(env, ElemType(ty), target))
    case Rec(fs) => Rec(EraseFields(env, Decl(ty), v))
    case Reg(name, fs) => Reg(name, EraseFields(env, if name in env then env[name] else [], v))
    case _ => v
  }

  ghost function EraseFields(env: Env, decl: seq<Field>, v: Value): seq<Value>
    requires v.Rec? || v.Reg?
    decreases v, 0
  {
    seq(|v.fields|, i requires 0 <= i < |v.fields| =>
      if i < |decl| then EraseField(env, decl[i], v.fields[i]) else v.fields[i])
  }

  ghost function EraseField(env: Env, f: Field, v: Value): Value
    decreases v, 2
  {
    if f.exported then Erase(env, f.ty, v) else Zero(f.ty)
  }
}
