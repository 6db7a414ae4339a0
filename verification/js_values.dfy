/** The script layer: values are tagged with a prefix, written through the native
    object with a bounded key and string size, and untagged on the way back. */
module JsValues {
  import opened Common
  import opened StorageEngine
  import T = TypedValues
  import BytesUtils
  import ChangePipeline

  const KEY_SIZE := 64
  const STR_MAX_LENGTH := 500 * 1024

  /** `Other` stands for functions, symbols and big integers; `Buffer` for array buffers. */
  datatype Js =
    | Undefined
    | Null
    | Bool(b: bool)
    | Number(d: T.Double)
    | Text(s: Bytes)
    | Object(id: nat)
    | Buffer(bytes: Bytes)
    | Other(id: nat)

  datatype Json = Json(stringify: Js -> Bytes, parse: Bytes -> Js)

  /** Parsing undoes stringifying a plain value, never makes an array buffer, and the text
      of a value holds no zero byte. */
  ghost predicate Inverse(json: Json) {
    && (forall v: Js :: v.Null? || v.Object? ==> json.parse(json.stringify(v)) == v)
    && (forall v: Js :: 0 !in json.stringify(v))
    && (forall t: Bytes :: !json.parse(t).Buffer?)
  }

  function Ascii(s: string): (r: Bytes)
    requires forall i :: 0 <= i < |s| ==> s[i] < 128 as char
    ensures |r| == |s| && forall i :: 0 <= i < |s| ==> r[i] == s[i] as int as byte
  {
    seq(|s|, i requires 0 <= i < |s| => s[i] as int as byte)
  }

  const STRING_TYPE: Bytes := Ascii("[STRING]")
  const COMPLEX_TYPE: Bytes := Ascii("[COMPLEX]")
  const NULL_TYPE: Bytes := Ascii("[NULL]")

  predicate StartsWith(s: Bytes, prefix: Bytes) {
    |prefix| <= |s| && s[..|prefix|] == prefix
  }

  /** What is put for a script value, and what a script sees of what was got. */
  function Tagged(json: Json, v: Js): Js {
    match v
    case Null | Object(_) | Buffer(_) => Text(COMPLEX_TYPE + json.stringify(v))
    case Text(s) => Text(STRING_TYPE + s)
    case Undefined => Text(NULL_TYPE)
    case _ => v
  }

  function Untagged(json: Json, r: Js): Js {
    if !r.Text? then r
    else if StartsWith(r.s, STRING_TYPE) then Text(r.s[|STRING_TYPE|..])
    else if StartsWith(r.s, COMPLEX_TYPE) then json.parse(r.s[|COMPLEX_TYPE|..])
    else if StartsWith(r.s, NULL_TYPE) then Null
    else r
  }

  // ---- The native object ----

  /** A C string ends at its first zero. */
  function CutAt<C(==)>(s: seq<C>, zero: C): (r: seq<C>)
    ensures r <= s && zero !in r && (r == s || s[|r|] == zero)
  {
    if s == [] || s[0] == zero then [] else [s[0]] + CutAt(s[1..], zero)
  }

  /** The key as it arrives in its fixed buffer. */
  function KeyOf(key: string): string {
    CutAt(if |key| < KEY_SIZE then key else key[..KEY_SIZE - 1], '\0')
  }

  datatype World = World(env: T.Env, deviceEnv: T.Env, networkId: Bytes)

  /** A string under a key with a dot first records this device as the one that wrote it. */
  function PutString(e: Engine, w: World, s: Session, key: string, value: Bytes): Engine {
    var e1 := if ChangePipeline.ASSET_DOT in key
              then T.PutOp(e, w.deviceEnv, s, ChangePipeline.DEVICEID_KEY, T.Encoded(T.Text(w.networkId))).0
              else e;
    T.PutOp(e1, w.env, s, key, T.Encoded(T.Text(value))).0
  }

  /** An object and the keys last put as undefined. */
  datatype JsObject = JsObject(engine: Engine, session: Session, undefinedKeys: set<string>)

  function DoPut(e: Engine, w: World, s: Session, key: string, v: Js): Engine {
    match v
    case Bool(b) => T.PutOp(e, w.env, s, key, T.Encoded(T.Flag(b))).0
    case Number(d) => T.PutOp(e, w.env, s, key, T.Encoded(T.Number(d))).0
    case Text(t) => if t == [] || |t| > STR_MAX_LENGTH then e else PutString(e, w, s, key, CutAt(t, 0))
    case Buffer(c) => if c == [] then e else T.PutOp(e, w.env, s, key, T.Encoded(T.Complex(c))).0
    case _ => e
  }

  function JsPut(o: JsObject, w: World, key: string, v: Js): JsObject {
    if v.Undefined? then o.(undefinedKeys := o.undefinedKeys + {KeyOf(key)})
    else o.(engine := DoPut(o.engine, w, o.session, KeyOf(key), v),
            undefinedKeys := o.undefinedKeys - {KeyOf(key)})
  }

  function FromReading(r: T.Reading): Js {
    match r
    case Failed(_) => Undefined
    case Got(Text(s)) => Text(s)
    case Got(Flag(b)) => Bool(b)
    case Got(Number(d)) => Number(d)
    case Got(Complex(c)) => Buffer(c)
  }

  /** The type is read first, by a call of its own; an unreadable one counts as a string. */
  function DoGet(e: Engine, typeEnv: T.Env, env: T.Env, s: Session, key: string): Js {
    var (status, code) := T.GetType(e, typeEnv, s, key);
    var e1 := T.GetOp(e, typeEnv, s, key).0;
    if status != SUCCESS || code == [0] then FromReading(T.GetAs(e1, env, s, key, T.TYPE_STRING))
    else if code == [2] then FromReading(T.GetAs(e1, env, s, key, T.TYPE_DOUBLE))
    else if code == [1] then FromReading(T.GetAs(e1, env, s, key, T.TYPE_BOOLEAN))
    else if code == [3] then FromReading(T.GetAs(e1, env, s, key, T.TYPE_COMPLEX))
    else Undefined
  }

  function JsGet(o: JsObject, typeEnv: T.Env, env: T.Env, key: string): Js {
    if KeyOf(key) in o.undefinedKeys then Undefined
    else DoGet(o.engine, typeEnv, env, o.session, KeyOf(key))
  }

  // ---- The whole stack ----

  function SetObjectValue(json: Json, o: JsObject, w: World, key: string, v: Js): JsObject {
    JsPut(o, w, key, Tagged(json, v))
  }

  function GetObjectValue(json: Json, o: JsObject, typeEnv: T.Env, env: T.Env, key: string): Js {
    Untagged(json, JsGet(o, typeEnv, env, key))
  }

  /** The object is joined to a session whose table is there. */
  predicate Joined(o: JsObject) {
    o.engine.isOpen && o.session in o.engine.delegates
  }

  /** The values that reach the store. */
  predicate Fits(json: Json, v: Js) {
    match v
    case Other(_) => false
    case Text(s) => |STRING_TYPE| + |s| <= STR_MAX_LENGTH
    case Null | Object(_) | Buffer(_) => |COMPLEX_TYPE| + |json.stringify(v)| <= STR_MAX_LENGTH
    case _ => true
  }

  /** What is read back of a value that reached it: of an array buffer, what its text
      parses to. */
  function Seen(json: Json, v: Js): Js {
    match v
    case Undefined => Null
    case Buffer(_) => json.parse(json.stringify(v))
    case Text(s) => Text(CutAt(s, 0))
    case _ => v
  }

  lemma {:induction false} CutAtWhole<C>(s: seq<C>, zero: C)
    requires zero !in s
    ensures CutAt(s, zero) == s
  {
  }

  lemma {:induction false} CutAtJoin<C>(prefix: seq<C>, s: seq<C>, zero: C)
    requires zero !in prefix
    ensures CutAt(prefix + s, zero) == prefix + CutAt(s, zero)
  {
    if prefix == [] {
      assert prefix + s == s;
    } else {
      assert (prefix + s)[1..] == prefix[1..] + s;
      CutAtJoin(prefix[1..], s, zero);
    }
  }

  /** A key without a zero is its own if under 64 bytes; longer ones share their first 63. */
  lemma KeyExact(key: string)
    requires '\0' !in key
    ensures KeyOf(key) == if |key| < 64 then key else key[..63]
  {
    CutAtWhole(if |key| < KEY_SIZE then key else key[..KEY_SIZE - 1], '\0');
  }

  lemma TagsApart(s: Bytes)
    ensures StartsWith(STRING_TYPE + s, STRING_TYPE) && (STRING_TYPE + s)[|STRING_TYPE|..] == s
    ensures StartsWith(COMPLEX_TYPE + s, COMPLEX_TYPE) && (COMPLEX_TYPE + s)[|COMPLEX_TYPE|..] == s
    ensures !StartsWith(COMPLEX_TYPE + s, STRING_TYPE)
    ensures StartsWith(NULL_TYPE, NULL_TYPE) && !StartsWith(NULL_TYPE, STRING_TYPE) && !StartsWith(NULL_TYPE, COMPLEX_TYPE)
    ensures 0 !in STRING_TYPE && 0 !in COMPLEX_TYPE && 0 !in NULL_TYPE
  {
    assert (COMPLEX_TYPE + s)[..8][1] == COMPLEX_TYPE[1] != STRING_TYPE[1];
    assert NULL_TYPE[..6] == NULL_TYPE;
  }

  /** A value put by its type is got by its type. */
  lemma NativeRoundTrip(e: Engine, env: T.Env, s: Session, key: string, v: T.Value, typeEnv: T.Env, later: T.Env)
    requires e.isOpen && s in e.delegates && env.dbOk && typeEnv.dbOk && later.dbOk
    requires T.Readable(v) && T.TypeReadable(v)
    ensures DoGet(T.PutOp(e, env, s, key, T.Encoded(v)).0, typeEnv, later, s, key) == FromReading(T.Got(v))
  {
    hide T.Encoded;
    T.PutThenGetValue(e, env, s, key, v, typeEnv);
    T.PutThenGetValue(e, env, s, key, v, later);
  }

  /** Nothing that a put leaves alone is got differently. */
  lemma SameGet(e: Engine, e': Engine, typeEnv: T.Env, later: T.Env, s: Session, key: string)
    requires e.isOpen && e'.isOpen
    requires forall env: T.Env :: T.GetOp(e', env, s, key).1 == T.GetOp(e, env, s, key).1
                               && T.GetOp(e', env, s, key).2 == T.GetOp(e, env, s, key).2
    ensures DoGet(e', typeEnv, later, s, key) == DoGet(e, typeEnv, later, s, key)
  {
    hide T.GetItemOp, T.ReadAs;
    var e1, e1' := T.GetOp(e, typeEnv, s, key).0, T.GetOp(e', typeEnv, s, key).0;
    OpenGet(e, typeEnv, s, key);
    OpenGet(e', typeEnv, s, key);
  }

  /** Getting from an open store does not change it. */
  lemma OpenGet(e: Engine, env: T.Env, s: Session, key: string)
    requires e.isOpen
    ensures T.GetOp(e, env, s, key).0 == e
  {
  }

  lemma PutLeaves(e: Engine, env: T.Env, s: Session, key: string, data: Bytes, key2: string)
    requires e.isOpen && key2 != key
    ensures var e' := T.PutOp(e, env, s, key, data).0;
            && e'.isOpen && e'.delegates.Keys == e.delegates.Keys
            && forall later: T.Env :: T.GetOp(e', later, s, key2).1 == T.GetOp(e, later, s, key2).1
                                   && T.GetOp(e', later, s, key2).2 == T.GetOp(e, later, s, key2).2
  {
    hide T.GetItemOp;
    var e' := T.PutOp(e, env, s, key, data).0;
    forall later: T.Env
      ensures T.GetOp(e', later, s, key2).1 == T.GetOp(e, later, s, key2).1
           && T.GetOp(e', later, s, key2).2 == T.GetOp(e, later, s, key2).2
    {
      T.PutFrame(e, env, s, key, data, s, key2, later);
    }
  }

  /** What a get sees after a put, for every value: the value as seen through the layers
      if it fits, and otherwise whatever the key held before. */
  lemma SetThenGet(json: Json, o: JsObject, w: World, key: string, v: Js, typeEnv: T.Env, later: T.Env)
    requires Inverse(json) && Joined(o) && w.env.dbOk && typeEnv.dbOk && later.dbOk
    ensures GetObjectValue(json, SetObjectValue(json, o, w, key, v), typeEnv, later, key)
         == if Fits(json, v) then Seen(json, v)
            else GetObjectValue(json, o.(undefinedKeys := o.undefinedKeys - {KeyOf(key)}), typeEnv, later, key)
  {
    hide T.PutOp, T.Encoded, DoGet, CutAt;
    var put, k := Tagged(json, v), KeyOf(key);
    match put
    case Bool(b) => NativeRoundTrip(o.engine, w.env, o.session, k, T.Flag(b), typeEnv, later);
    case Number(d) => NativeRoundTrip(o.engine, w.env, o.session, k, T.Number(d), typeEnv, later);
    case Text(t) =>
      if |t| <= STR_MAX_LENGTH {
        TextRoundTrip(o, w, k, CutAt(t, 0), typeEnv, later);
        TagSurvives(json, v);
      }
    case _ =>
  }

  lemma TextRoundTrip(o: JsObject, w: World, k: string, t: Bytes, typeEnv: T.Env, later: T.Env)
    requires Joined(o) && w.env.dbOk && typeEnv.dbOk && later.dbOk && 0 < |t| <= STR_MAX_LENGTH
    ensures DoGet(PutString(o.engine, w, o.session, k, t), typeEnv, later, o.session, k) == Text(t)
  {
    hide T.Encoded, DoGet;
    var e1 := if ChangePipeline.ASSET_DOT in k
              then T.PutOp(o.engine, w.deviceEnv, o.session, ChangePipeline.DEVICEID_KEY,
                           T.Encoded(T.Text(w.networkId))).0
              else o.engine;
    NativeRoundTrip(e1, w.env, o.session, k, T.Text(t), typeEnv, later);
  }

  lemma TextUntagged(json: Json, t: Bytes)
    ensures CutAt(STRING_TYPE + t, 0) == STRING_TYPE + CutAt(t, 0) != []
    ensures Untagged(json, Text(STRING_TYPE + CutAt(t, 0))) == Text(CutAt(t, 0))
  {
    TagsApart(CutAt(t, 0));
    hide Ascii, StartsWith, CutAt;
    CutAtJoin(STRING_TYPE, t, 0);
  }

  lemma ComplexUntagged(json: Json, t: Bytes)
    requires 0 !in t
    ensures CutAt(COMPLEX_TYPE + t, 0) == COMPLEX_TYPE + t != []
    ensures Untagged(json, Text(COMPLEX_TYPE + t)) == json.parse(t)
  {
    TagsApart(t);
    hide Ascii, StartsWith, CutAt;
    CutAtJoin(COMPLEX_TYPE, t, 0);
    CutAtWhole(t, 0);
  }

  lemma NullUntagged(json: Json)
    ensures CutAt(NULL_TYPE, 0) == NULL_TYPE != []
    ensures Untagged(json, Text(NULL_TYPE)) == Null
  {
    TagsApart([]);
    hide Ascii, StartsWith, CutAt;
    CutAtWhole(NULL_TYPE, 0);
  }

  /** The tag tells what the text is, whatever the string: even an empty one, and even
      one that itself begins like a tag. */
  lemma TagSurvives(json: Json, v: Js)
    requires Inverse(json) && Tagged(json, v).Text?
    ensures CutAt(Tagged(json, v).s, 0) != []
    ensures Untagged(json, Text(CutAt(Tagged(json, v).s, 0))) == Seen(json, v)
  {
    hide Ascii, StartsWith, CutAt, Untagged;
    match v
    case Undefined => NullUntagged(json);
    case Text(s) => TextUntagged(json, s);
    case _ => ComplexUntagged(json, json.stringify(v));
  }

  /** A value as another device finds it: the code of the type, and behind the code of a
      string the tag of what the text is. */
  ghost function Stored(json: Json, v: Js): Bytes
    requires !v.Other?
  {
    match v
    case Bool(b) => [1, if b then 1 else 0]
    case Number(d) => [2] + [d[7], d[6], d[5], d[4], d[3], d[2], d[1], d[0]]
    case Text(t) => [0] + (Ascii("[STRING]") + CutAt(t, 0))
    case Undefined => [0] + Ascii("[NULL]")
    case Null | Object(_) | Buffer(_) => [0] + (Ascii("[COMPLEX]") + json.stringify(v))
  }

  predicate Holds(e: Engine, s: Session, field: string, data: Bytes) {
    s in e.delegates && field in e.delegates[s] && e.delegates[s][field] == data
  }

  lemma TextCutNowhere(json: Json, v: Js)
    requires Inverse(json)
    ensures CutAt(COMPLEX_TYPE + json.stringify(v), 0) == COMPLEX_TYPE + json.stringify(v) != []
  {
    ComplexUntagged(json, json.stringify(v));
  }

  lemma ValueStored(e: Engine, env: T.Env, s: Session, key: string, v: T.Value)
    requires e.isOpen && s in e.delegates && env.dbOk
    ensures var e' := T.PutOp(e, env, s, key, T.Encoded(v)).0;
            Holds(e', s, "p_" + key, T.Encoded(v))
    ensures v.Flag? ==> T.Encoded(v) == [1, if v.b then 1 else 0]
    ensures v.Number? ==> T.Encoded(v) == [2] + [v.d[7], v.d[6], v.d[5], v.d[4], v.d[3], v.d[2], v.d[1], v.d[0]]
    ensures v.Text? ==> T.Encoded(v) == [0] + v.s
  {
    hide T.PutOp, T.Encoded;
    T.PutIs(e, env, s, key, T.Encoded(v));
    T.StoredAs(v);
  }

  lemma TextStored(o: JsObject, w: World, k: string, t: Bytes)
    requires Joined(o) && w.env.dbOk
    ensures var e := PutString(o.engine, w, o.session, k, t);
            Holds(e, o.session, "p_" + k, [0] + t)
  {
    hide T.PutOp, T.Encoded;
    T.PutIs(o.engine, w.deviceEnv, o.session, ChangePipeline.DEVICEID_KEY, T.Encoded(T.Text(w.networkId)));
    var e1 := if ChangePipeline.ASSET_DOT in k
              then T.PutOp(o.engine, w.deviceEnv, o.session, ChangePipeline.DEVICEID_KEY,
                           T.Encoded(T.Text(w.networkId))).0
              else o.engine;
    ValueStored(e1, w.env, o.session, k, T.Text(t));
  }

  lemma PutStores(o: JsObject, w: World, key: string, p: Js)
    requires Joined(o) && w.env.dbOk && !p.Buffer?
    ensures var e, field := JsPut(o, w, key, p).engine, "p_" + KeyOf(key);
            match p
            case Bool(b) => Holds(e, o.session, field, [1, if b then 1 else 0])
            case Number(d) => Holds(e, o.session, field, [2] + [d[7], d[6], d[5], d[4], d[3], d[2], d[1], d[0]])
            case Text(t) =>
              if 0 < |t| <= STR_MAX_LENGTH then Holds(e, o.session, field, [0] + CutAt(t, 0)) else e == o.engine
            case _ => e == o.engine
  {
    hide CutAt, KeyOf, T.Encoded, T.PutOp, PutString, Holds;
    var k := KeyOf(key);
    match p
    case Bool(b) => ValueStored(o.engine, w.env, o.session, k, T.Flag(b));
    case Number(d) => ValueStored(o.engine, w.env, o.session, k, T.Number(d));
    case Text(t) => TextStored(o, w, k, CutAt(t, 0));
    case _ =>
  }

  /** Setting a value stores exactly that if it fits, and nothing at all if it does not. */
  lemma SetStores(json: Json, o: JsObject, w: World, key: string, v: Js)
    requires Inverse(json) && Joined(o) && w.env.dbOk
    ensures var e, field := SetObjectValue(json, o, w, key, v).engine, "p_" + KeyOf(key);
            if Fits(json, v) then Holds(e, o.session, field, Stored(json, v)) else e == o.engine
  {
    hide Ascii, StartsWith, CutAt, Untagged, KeyOf, Inverse, JsPut, Holds;
    PutStores(o, w, key, Tagged(json, v));
    match v
    case Text(t) => TextUntagged(json, t);
    case Undefined => NullUntagged(json);
    case Null | Object(_) | Buffer(_) => TextCutNowhere(json, v);
    case _ =>
  }

  /** A key that is in neither the table nor the set of undefined ones reads as undefined. */
  lemma MissingIsUndefined(json: Json, o: JsObject, typeEnv: T.Env, later: T.Env, key: string)
    requires Joined(o) && KeyOf(key) !in o.undefinedKeys && "p_" + KeyOf(key) !in o.engine.delegates[o.session]
    ensures GetObjectValue(json, o, typeEnv, later, key) == Undefined
  {
  }

  /** On a key that held nothing, a value comes back as it was, with undefined as null,
      if and only if it fits, is no array buffer and, if a string, holds no zero byte. */
  lemma RoundTripIff(json: Json, o: JsObject, w: World, key: string, v: Js, typeEnv: T.Env, later: T.Env)
    requires Inverse(json) && Joined(o) && w.env.dbOk && typeEnv.dbOk && later.dbOk
    requires GetObjectValue(json, o.(undefinedKeys := {}), typeEnv, later, key) == Undefined
    ensures GetObjectValue(json, SetObjectValue(json, o, w, key, v), typeEnv, later, key)
            == (if v.Undefined? then Null else v)
            <==> Fits(json, v) && !v.Buffer? && (v.Text? ==> 0 !in v.s)
  {
    hide DoGet, DoPut, Untagged;
    SetThenGet(json, o, w, key, v, typeEnv, later);
    if v.Text? && 0 !in v.s {
      CutAtWhole(v.s, 0);
    }
  }

  /** Setting one property changes no other, but for the device that an asset part names. */
  lemma SetFrame(json: Json, o: JsObject, w: World, key: string, v: Js, key2: string, typeEnv: T.Env, later: T.Env)
    requires Joined(o) && KeyOf(key2) != KeyOf(key)
    requires !(ChangePipeline.ASSET_DOT in KeyOf(key) && KeyOf(key2) == ChangePipeline.DEVICEID_KEY)
    ensures GetObjectValue(json, SetObjectValue(json, o, w, key, v), typeEnv, later, key2)
         == GetObjectValue(json, o, typeEnv, later, key2)
  {
    hide T.PutOp, T.GetOp, T.Encoded, DoGet, CutAt, KeyOf;
    var put, k, k2 := Tagged(json, v), KeyOf(key), KeyOf(key2);
    var e, s := o.engine, o.session;
    match put
    case Bool(b) =>
      PutLeaves(e, w.env, s, k, T.Encoded(T.Flag(b)), k2);
      SameGet(e, DoPut(e, w, s, k, put), typeEnv, later, s, k2);
    case Number(d) =>
      PutLeaves(e, w.env, s, k, T.Encoded(T.Number(d)), k2);
      SameGet(e, DoPut(e, w, s, k, put), typeEnv, later, s, k2);
    case Text(t) =>
      if t != [] && |t| <= STR_MAX_LENGTH {
        var e1 := e;
        if ChangePipeline.ASSET_DOT in k {
          var id := T.Encoded(T.Text(w.networkId));
          PutLeaves(e, w.deviceEnv, s, ChangePipeline.DEVICEID_KEY, id, k2);
          e1 := T.PutOp(e, w.deviceEnv, s, ChangePipeline.DEVICEID_KEY, id).0;
        }
        PutLeaves(e1, w.env, s, k, T.Encoded(T.Text(CutAt(t, 0))), k2);
        SameGet(e, DoPut(e, w, s, k, put), typeEnv, later, s, k2);
      }
    case _ =>
  }

  /** What getting the device id reads after a put of a string. */
  lemma DeviceIdAfter(e: Engine, w: World, s: Session, k: string, value: Bytes, later: T.Env)
    requires e.isOpen && s in e.delegates && later.dbOk && k != ChangePipeline.DEVICEID_KEY
    ensures var e' := PutString(e, w, s, k, value);
            if '.' in k && w.deviceEnv.dbOk
            then T.GetOp(e', later, s, "__deviceId").1 == SUCCESS
                 && T.GetOp(e', later, s, "__deviceId").2 == T.Encoded(T.Text(w.networkId))
            else T.GetOp(e', later, s, "__deviceId").1 == T.GetOp(e, later, s, "__deviceId").1
                 && T.GetOp(e', later, s, "__deviceId").2 == T.GetOp(e, later, s, "__deviceId").2
  {
    hide T.Encoded;
    var id := T.Encoded(T.Text(w.networkId));
    var e1 := if ChangePipeline.ASSET_DOT in k
              then T.PutOp(e, w.deviceEnv, s, ChangePipeline.DEVICEID_KEY, id).0 else e;
    PutLeaves(e1, w.env, s, k, T.Encoded(T.Text(value)), ChangePipeline.DEVICEID_KEY);
  }

  /** Setting an asset part, a text under a key with a dot, records this device, so that the
      native layer reads back its id; setting any other property leaves the record alone. */
  lemma DeviceRecorded(json: Json, o: JsObject, w: World, key: string, v: Js, later: T.Env)
    requires Joined(o) && later.dbOk && KeyOf(key) != "__deviceId"
    ensures var e' := SetObjectValue(json, o, w, key, v).engine;
            if '.' in KeyOf(key) && Tagged(json, v).Text? && Fits(json, v) && w.deviceEnv.dbOk
            then T.GetAs(e', later, o.session, "__deviceId", T.TYPE_STRING)
                 == if T.Readable(T.Text(w.networkId)) then T.Got(T.Text(w.networkId)) else T.Failed(ERR_DATA_LEN)
            else T.GetAs(e', later, o.session, "__deviceId", T.TYPE_STRING)
                 == T.GetAs(o.engine, later, o.session, "__deviceId", T.TYPE_STRING)
  {
    hide T.PutOp, T.GetOp, T.Encoded, CutAt, KeyOf, PutString;
    var put, k := Tagged(json, v), KeyOf(key);
    match put
    case Bool(b) => PutLeaves(o.engine, w.env, o.session, k, T.Encoded(T.Flag(b)), "__deviceId");
    case Number(d) => PutLeaves(o.engine, w.env, o.session, k, T.Encoded(T.Number(d)), "__deviceId");
    case Text(t) =>
      DeviceIdAfter(o.engine, w, o.session, k, CutAt(t, 0), later);
      T.ValueReads(T.Text(w.networkId));
    case _ =>
  }

  // ---- The native interface by itself ----

  /** What the native interface keeps: an undefined, a truth value, a number, a string
      that is neither empty nor too long, cut at a zero, and a buffer that is not empty. */
  predicate Native(v: Js) {
    match v
    case Undefined | Bool(_) | Number(_) => true
    case Text(t) => t != [] && |t| <= STR_MAX_LENGTH && t[0] != 0
    case Buffer(c) => c != [] && (|c| + 1) % BytesUtils.TWO_32 != 0
    case _ => false
  }

  /** A value that it keeps is got as it was put. */
  lemma RawRoundTrip(o: JsObject, w: World, key: string, v: Js, typeEnv: T.Env, later: T.Env)
    requires Joined(o) && w.env.dbOk && typeEnv.dbOk && later.dbOk && Native(v)
    ensures JsGet(JsPut(o, w, key, v), typeEnv, later, key) == if v.Text? then Text(CutAt(v.s, 0)) else v
  {
    hide T.PutOp, T.Encoded, DoGet;
    var k := KeyOf(key);
    match v
    case Undefined =>
    case Bool(b) => NativeRoundTrip(o.engine, w.env, o.session, k, T.Flag(b), typeEnv, later);
    case Number(d) => NativeRoundTrip(o.engine, w.env, o.session, k, T.Number(d), typeEnv, later);
    case Text(t) => TextRoundTrip(o, w, k, CutAt(t, 0), typeEnv, later);
    case Buffer(c) => NativeRoundTrip(o.engine, w.env, o.session, k, T.Complex(c), typeEnv, later);
  }

  lemma NativeEmptyLost(e: Engine, env: T.Env, s: Session, key: string, typeEnv: T.Env, later: T.Env)
    requires e.isOpen && s in e.delegates && env.dbOk && typeEnv.dbOk && later.dbOk
    ensures DoGet(T.PutOp(e, env, s, key, T.Encoded(T.Text([]))).0, typeEnv, later, s, key) == Undefined
  {
  }

  /** The native layer alone loses the empty string, which the tag keeps. */
  lemma EmptyNeedsTag(json: Json, o: JsObject, w: World, key: string, typeEnv: T.Env, later: T.Env)
    requires Inverse(json) && Joined(o) && w.env.dbOk && typeEnv.dbOk && later.dbOk
    ensures DoGet(PutString(o.engine, w, o.session, KeyOf(key), []), typeEnv, later, o.session, KeyOf(key)) == Undefined
    ensures GetObjectValue(json, SetObjectValue(json, o, w, key, Text([])), typeEnv, later, key) == Text([])
  {
    SetThenGet(json, o, w, key, Text([]), typeEnv, later);
    hide T.Encoded, DoGet, SetObjectValue, GetObjectValue;
    var k := KeyOf(key);
    var e1 := if ChangePipeline.ASSET_DOT in k
              then T.PutOp(o.engine, w.deviceEnv, o.session, ChangePipeline.DEVICEID_KEY,
                           T.Encoded(T.Text(w.networkId))).0
              else o.engine;
    NativeEmptyLost(e1, w.env, o.session, k, typeEnv, later);
  }
}
