/** Typed values in the session store: each is a type byte and its bytes, under a
    prefixed key. Over all runs the store behaves as a plain map of typed values. */
module TypedValues {
  import opened Common
  import opened StorageEngine
  import opened BytesUtils
  import ChangePipeline

  const DOUBLE_SIZE := 8

  /** A double is its eight bytes, a string its bytes. */
  type Double = b: Bytes | |b| == DOUBLE_SIZE witness [0, 0, 0, 0, 0, 0, 0, 0]

  datatype Kind = TYPE_STRING | TYPE_BOOLEAN | TYPE_DOUBLE | TYPE_COMPLEX

  datatype Value = Text(s: Bytes) | Flag(b: bool) | Number(d: Double) | Complex(c: Bytes)

  datatype Reading = Failed(status: Status) | Got(value: Value)

  /** What the world answers to one call. */
  datatype Env = Env(openOk: bool, dbOk: bool, failure: nat)

  function Code(kind: Kind): byte {
    match kind
    case TYPE_STRING => 0
    case TYPE_BOOLEAN => 1
    case TYPE_DOUBLE => 2
    case TYPE_COMPLEX => 3
  }

  function KindOf(v: Value): Kind {
    match v
    case Text(_) => TYPE_STRING
    case Flag(_) => TYPE_BOOLEAN
    case Number(_) => TYPE_DOUBLE
    case Complex(_) => TYPE_COMPLEX
  }

  function Tagged(kind: Kind): Bytes {
    PutNumOp([], [Code(kind)], 0)
  }

  function BoolByte(b: bool): byte {
    if b then 1 else 0
  }

  function Encoded(v: Value): Bytes {
    match v
    case Text(s) => Tagged(TYPE_STRING) + s
    case Flag(b) => PutNumOp(Tagged(TYPE_BOOLEAN), [BoolByte(b)], 1)
    case Number(d) => PutNumOp(Tagged(TYPE_DOUBLE), d, 1)
    case Complex(c) => Tagged(TYPE_COMPLEX) + c
  }

  function BytesToStrWithType(data: Bytes): (Status, Bytes) {
    if |data| % TWO_32 <= 1 then (ERR_DATA_LEN, []) else (SUCCESS, data[1..])
  }

  function ReadAs(kind: Kind, data: Bytes): Reading
    requires kind == TYPE_COMPLEX ==> data != []
  {
    match kind
    case TYPE_STRING =>
      var (status, s) := BytesToStrWithType(data);
      if status == SUCCESS then Got(Text(s)) else Failed(status)
    case TYPE_BOOLEAN =>
      var (status, b) := GetNumOp(data, 1, 1);
      if status == SUCCESS then Got(Flag(b[0] != 0)) else Failed(status)
    case TYPE_DOUBLE =>
      var (status, d) := GetNumOp(data, 1, DOUBLE_SIZE);
      if status == SUCCESS then Got(Number(d)) else Failed(status)
    case TYPE_COMPLEX => Got(Complex(data[1..]))
  }

  /** The strings that read back: not the empty one, and none whose size wraps. */
  predicate Readable(v: Value) {
    v.Text? ==> (|v.s| + 1) % TWO_32 > 1
  }

  predicate TypeReadable(v: Value) {
    match v
    case Text(s) => (|s| + 1) % TWO_32 != 0
    case Complex(c) => (|c| + 1) % TWO_32 != 0
    case _ => true
  }

  /** What follows the type byte. */
  function Payload(v: Value): Bytes {
    match v
    case Text(s) => s
    case Flag(b) => [BoolByte(b)]
    case Number(d) => Reversed(d)
    case Complex(c) => c
  }

  lemma EncodedShape(v: Value)
    ensures Encoded(v) == [Code(KindOf(v))] + Payload(v)
  {
    var tag := Tagged(KindOf(v));
    assert tag == [Code(KindOf(v))];
    if v.Flag? {
      assert Reversed([BoolByte(v.b)]) == [BoolByte(v.b)];
      PutAfter(tag, [BoolByte(v.b)]);
    } else if v.Number? {
      PutAfter(tag, v.d);
    }
    hide PutNumOp, Reversed;
  }

  /** What is stored: the type, then the bytes of the value, a number's reversed. */
  lemma StoredAs(v: Value)
    ensures match v
            case Text(s) => Encoded(v) == [0] + s
            case Flag(b) => Encoded(v) == [1, if b then 1 else 0]
            case Number(d) => Encoded(v) == [2] + [d[7], d[6], d[5], d[4], d[3], d[2], d[1], d[0]]
            case Complex(c) => Encoded(v) == [3] + c
  {
    EncodedShape(v);
    hide Encoded;
    if v.Number? {
      hide Reversed;
      assert Reversed(v.d) == [v.d[7], v.d[6], v.d[5], v.d[4], v.d[3], v.d[2], v.d[1], v.d[0]];
    }
  }

  /** A write right behind the end appends. */
  lemma PutAfter(data: Bytes, val: Bytes)
    ensures PutNumOp(data, val, |data|) == data + Reversed(val)
  {
  }

  /** A value reads back as it was if and only if it is readable. */
  lemma ValueReads(v: Value)
    ensures Encoded(v) != []
    ensures ReadAs(KindOf(v), Encoded(v)) == if Readable(v) then Got(v) else Failed(ERR_DATA_LEN)
  {
    EncodedShape(v);
    hide Encoded;
    var data := Encoded(v);
    assert data[1..] == Payload(v);
    if v.Number? {
      assert data[1..1 + DOUBLE_SIZE] == Payload(v);
      ReversedTwice(v.d);
    } else if v.Flag? {
      assert Reversed(data[1..2]) == [BoolByte(v.b)];
    }
  }

  /** Its type reads back as the one it was put with, unless the size wraps to zero. */
  lemma TypeReads(v: Value)
    ensures GetNumOp(Encoded(v), 0, 1)
         == if TypeReadable(v) then (SUCCESS, [Code(KindOf(v))]) else (ERR_DATA_LEN, [])
  {
    EncodedShape(v);
    hide Encoded;
    assert Reversed(Encoded(v)[0..1]) == [Code(KindOf(v))];
  }

  // ---- Putting and getting ----

  function Opened(e: Engine, env: Env): Engine {
    e.(isOpen := e.isOpen || env.openOk)
  }

  function Field(key: string): string {
    ChangePipeline.FIELDS_PREFIX + key
  }

  function PutItemOp(e: Engine, env: Env, s: Session, item: string, data: Bytes): (Engine, Status) {
    if !e.isOpen && !env.openOk then (e, ERR_DB_NOT_INIT)
    else UpdateItem(Opened(e, env), s, item, data, env.dbOk)
  }

  function GetItemOp(e: Engine, env: Env, s: Session, item: string): (Engine, Status, Bytes) {
    if !e.isOpen && !env.openOk then (e, ERR_DB_NOT_INIT, [])
    else
      var (status, data) := GetItem(Opened(e, env), s, item, env.dbOk, env.failure);
      (Opened(e, env), status, data)
  }

  function PutOp(e: Engine, env: Env, s: Session, key: string, data: Bytes): (Engine, Status) {
    PutItemOp(e, env, s, Field(key), data)
  }

  function GetOp(e: Engine, env: Env, s: Session, key: string): (Engine, Status, Bytes) {
    GetItemOp(e, env, s, Field(key))
  }

  function GetAs(e: Engine, env: Env, s: Session, key: string, kind: Kind): Reading
    requires kind == TYPE_COMPLEX && GetOp(e, env, s, key).1 == SUCCESS ==> GetOp(e, env, s, key).2 != []
  {
    var (_, status, data) := GetOp(e, env, s, key);
    if status != SUCCESS then Failed(status) else ReadAs(kind, data)
  }

  function GetType(e: Engine, env: Env, s: Session, key: string): (Status, Bytes) {
    var (_, status, data) := GetOp(e, env, s, key);
    if status != SUCCESS then (status, []) else GetNumOp(data, 0, 1)
  }

  /** A put succeeds exactly if the engine is or can be opened, the session has a table and
      the database agrees; it then stores the bytes under the prefixed key, and otherwise
      changes no table. */
  lemma PutIs(e: Engine, env: Env, s: Session, key: string, data: Bytes)
    ensures var (after, status) := PutOp(e, env, s, key, data);
            && (status == SUCCESS <==> (e.isOpen || env.openOk) && s in e.delegates && env.dbOk)
            && after == Engine(e.isOpen || env.openOk,
                               if status == SUCCESS then e.delegates[s := e.delegates[s]["p_" + key := data]]
                               else e.delegates,
                               e.observers)
  {
  }

  /** A get succeeds exactly if moreover the prefixed key is stored, gives what is stored
      under it, and changes no table. */
  lemma GetIs(e: Engine, env: Env, s: Session, key: string)
    ensures var (after, status, data) := GetOp(e, env, s, key);
            && (status == SUCCESS <==> (e.isOpen || env.openOk) && s in e.delegates && env.dbOk
                                       && "p_" + key in e.delegates[s])
            && (status == SUCCESS ==> data == e.delegates[s]["p_" + key])
            && after == Engine(e.isOpen || env.openOk, e.delegates, e.observers)
  {
  }

  /** What one put does: the value reads back, with its type, by any later get that the
      database answers; no other key of any session reads differently. */
  lemma PutThenGetValue(e: Engine, env: Env, s: Session, key: string, v: Value, later: Env)
    requires PutOp(e, env, s, key, Encoded(v)).1 == SUCCESS && later.dbOk
    ensures var after := PutOp(e, env, s, key, Encoded(v)).0;
            && GetOp(after, later, s, key).2 != []
            && GetAs(after, later, s, key, KindOf(v)) == (if Readable(v) then Got(v) else Failed(ERR_DATA_LEN))
            && GetType(after, later, s, key)
               == if TypeReadable(v) then (SUCCESS, [Code(KindOf(v))]) else (ERR_DATA_LEN, [])
  {
    hide Encoded;
    ValueReads(v);
    TypeReads(v);
  }

  lemma PutFrame(e: Engine, env: Env, s: Session, key: string, data: Bytes, s2: Session, key2: string, later: Env)
    requires (s2, key2) != (s, key) || PutOp(e, env, s, key, data).1 != SUCCESS
    requires e.isOpen || later.openOk
    ensures var after := PutOp(e, env, s, key, data).0;
            && after.delegates.Keys == e.delegates.Keys && after.observers == e.observers
            && GetOp(after, later, s2, key2).1 == GetOp(e, later, s2, key2).1
            && GetOp(after, later, s2, key2).2 == GetOp(e, later, s2, key2).2
  {
    FieldInjective(key, key2);
  }

  lemma FieldInjective(a: string, b: string)
    ensures Field(a) == Field(b) ==> a == b
  {
    assert Field(a)[2..] == a && Field(b)[2..] == b;
  }

  // ---- Over whole runs: a map of typed values ----

  datatype Call =
    | CreateCall(s: Session, env: Env, pragmaOk: bool)
    | PutCall(s: Session, env: Env, key: string, v: Value)
    | DeleteCall(s: Session, env: Env)

  type Address = (Session, string)
  type Values = map<Address, Value>

  function Step(e: Engine, c: Call): (Engine, Status) {
    if !e.isOpen && !c.env.openOk then (e, ERR_DB_NOT_INIT)
    else
      match c
      case CreateCall(s, env, pragmaOk) => CreateTable(Opened(e, env), s, env.dbOk, pragmaOk)
      case PutCall(s, env, key, v) => PutOp(e, env, s, key, Encoded(v))
      case DeleteCall(s, env) => DeleteTable(Opened(e, env), s, env.dbOk)
  }

  /** The same call on a plain map, told only whether it succeeded. */
  function PlainStep(m: Values, c: Call, succeeded: bool): Values {
    if !succeeded then m
    else
      match c
      case CreateCall(_, _, _) => m
      case PutCall(s, _, key, v) => m[(s, key) := v]
      case DeleteCall(s, _) => map a | a in m && a.0 != s :: m[a]
  }

  function Run(e: Engine, calls: seq<Call>): Engine {
    if calls == [] then e else Step(Run(e, calls[..|calls| - 1]), calls[|calls| - 1]).0
  }

  function PlainRun(e: Engine, m: Values, calls: seq<Call>): Values {
    if calls == [] then m
    else
      var before, last := calls[..|calls| - 1], calls[|calls| - 1];
      PlainStep(PlainRun(e, m, before), last, Step(Run(e, before), last).1 == SUCCESS)
  }

  ghost predicate Holds(e: Engine, a: Address) {
    a.0 in e.delegates && Field(a.1) in e.delegates[a.0]
  }

  ghost predicate Represents(e: Engine, m: Values) {
    forall a: Address :: (a in m <==> Holds(e, a)) && (a in m ==> e.delegates[a.0][Field(a.1)] == Encoded(m[a]))
  }

  lemma PutRefines(e: Engine, m: Values, s: Session, key: string, v: Value)
    requires Represents(e, m) && s in e.delegates
    ensures Represents(e.(delegates := e.delegates[s := e.delegates[s][Field(key) := Encoded(v)]]), m[(s, key) := v])
  {
    hide Encoded, Field;
    var e', m' := e.(delegates := e.delegates[s := e.delegates[s][Field(key) := Encoded(v)]]), m[(s, key) := v];
    forall a: Address
      ensures (a in m' <==> Holds(e', a)) && (a in m' ==> e'.delegates[a.0][Field(a.1)] == Encoded(m'[a]))
    {
      assert a in m <==> Holds(e, a);
      FieldInjective(a.1, key);
    }
  }

  lemma StepRefines(e: Engine, m: Values, c: Call)
    requires Represents(e, m)
    ensures Represents(Step(e, c).0, PlainStep(m, c, Step(e, c).1 == SUCCESS))
  {
    hide Encoded, Field;
    if Step(e, c).1 != SUCCESS {
    } else if c.PutCall? {
      PutRefines(e, m, c.s, c.key, c.v);
    } else {
      assert forall a :: a in m <==> Holds(e, a);
    }
  }

  lemma {:induction false} RunRefines(e: Engine, m: Values, calls: seq<Call>)
    requires Represents(e, m)
    ensures Represents(Run(e, calls), PlainRun(e, m, calls))
  {
    if calls != [] {
      var before := calls[..|calls| - 1];
      RunRefines(e, m, before);
      StepRefines(Run(e, before), PlainRun(e, m, before), calls[|calls| - 1]);
    }
  }

  const EMPTY: Engine := Engine(false, map[], map[])

  /** After any run from the empty store, every get that the database answers reads what
      the plain map holds, and fails where the map holds nothing. */
  lemma {:induction false} GetsWhatWasPut(calls: seq<Call>, s: Session, key: string, later: Env)
    requires later.dbOk
    ensures var e, m := Run(EMPTY, calls), PlainRun(EMPTY, map[], calls);
            && ((s, key) in m && (e.isOpen || later.openOk) ==>
                  var v := m[(s, key)];
                  && GetOp(e, later, s, key).2 != []
                  && GetAs(e, later, s, key, KindOf(v)) == (if Readable(v) then Got(v) else Failed(ERR_DATA_LEN))
                  && (TypeReadable(v) ==> GetType(e, later, s, key) == (SUCCESS, [Code(KindOf(v))])))
            && ((s, key) !in m ==> GetOp(e, later, s, key).1 != SUCCESS)
  {
    var e, m := Run(EMPTY, calls), PlainRun(EMPTY, map[], calls);
    assert Represents(EMPTY, map[]);
    RunRefines(EMPTY, map[], calls);
    hide Encoded, Run, PlainRun;
    assert (s, key) in m <==> Holds(e, (s, key));
    if (s, key) in m {
      ValueReads(m[(s, key)]);
      TypeReads(m[(s, key)]);
    }
  }
}
