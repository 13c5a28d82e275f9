/**
 * The Python world the codec and the dispatcher work on: exceptions, type
 * annotations, runtime values, and the library calls the model takes as
 * parameters (JSON text, float parsing, text encoding, user-defined codecs).
 */
module Values {
  import opened Wrappers
  import opened Text

  type byte = x: int | 0 <= x < 256

  /** The exception classes the modelled code raises or distinguishes. */
  datatype Exn =
    | TypeError
    | ValueError          // also json.JSONDecodeError, UnicodeDecodeError and UnicodeEncodeError, all ValueError subclasses
    | KeyError
    | AttributeError
    | IndexError
    | RuntimeError
    | LookupError         // str.encode / bytes.decode given an unknown codec
    | SyntaxError
    | DuplicateRoute      // WebApplication.DuplicateRoute
    | PlainException      // `raise Exception(...)`
    | Raised(name: string)  // any other exception class raised by user code

  type Outcome<T> = Result<T, Exn>

  /** The type annotations the codec, the dispatcher and the stub generators dispatch on. */
  datatype Ty =
    | StrT | IntT | FloatT | BoolT
    | NoneT                                       // the annotation `None` (the object, not NoneType)
    | UnionT(first: Ty, rest: seq<Ty>)            // typing.Union[first, *rest], typing.Optional
    | EnumT(name: string, members: seq<Member>)   // a subclass of enum.Enum
    | ListT(elem: Ty)                             // typing.List[elem]
    | DictT(key: Ty, elem: Ty)                    // typing.Dict / typing.Mapping
    | BareListT | BareDictT                       // the builtins list and dict
    | RecordT(name: string, fields: seq<Field>)   // a dataclass
    | ClassT(name: string, deserializable: bool)  // any other class; whether it has `deserialize`
    | BytesT
    | AsyncIterT(elem: Ty)                        // typing.AsyncIterator[elem]
    | AsyncGenT(yieldT: Ty, sendT: Ty)            // typing.AsyncGenerator[yieldT, sendT]
    | CallableT(params: seq<Ty>, ret: Ty)         // typing.Callable[[params], ret]

  /** An Enum member, in declaration order; member values are None, str, int, float or bool. */
  datatype Member = Member(key: string, value: Prim)

  datatype Prim = PNone | PStr(s: string) | PInt(i: int) | PFloat(repr: string) | PBool(b: bool)

  /** A dataclass field, in declaration order. */
  datatype Field = Field(name: string, ty: Ty, default: Option<Value>)

  /** Python runtime values. */
  datatype Value =
    | VNone
    | VStr(s: string)
    | VInt(i: int)
    | VFloat(repr: string)                        // a float, carried as its `repr` text
    | VBool(b: bool)
    | VEnum(enumName: string, key: string, value: Prim)
    | VList(items: seq<Value>)
    | VDict(entries: seq<(Value, Value)>)         // insertion order; keys are distinct
    | VRecord(recName: string, fields: seq<(string, Value)>)
    | VBytes(bytes: seq<byte>)
    | VObject(className: string, image: Image)     // an instance of some other class

  /** What calling `serialize()` on an object does. */
  datatype Image = NoSerialize | SerializeRaises(e: Exn) | SerializesTo(v: Value)

  /** `NoneType`, the class of None, as it appears inside `Optional[X]`. */
  const NoneType: Ty := ClassT("NoneType", false)

  /** `Optional[t]`, i.e. `Union[t, NoneType]`. */
  function Optional(t: Ty): Ty
  {
    UnionT(t, [NoneType])
  }

  /** `AsyncLineGenerator = AsyncGenerator[None, bytes]`. */
  const AsyncLineGenerator: Ty := AsyncGenT(NoneType, BytesT)

  /** `AsyncChunkGenerator = Callable[[int], AsyncGenerator[None, bytes]]`. */
  const AsyncChunkGenerator: Ty := CallableT([IntT], AsyncGenT(NoneType, BytesT))

  /** A union whose `str()` starts with 'typing.Optional' (two members, one of them NoneType). */
  predicate PrintsAsOptional(t: Ty)
  {
    t.UnionT? && |t.rest| == 1 && (t.first == NoneType || t.rest[0] == NoneType)
  }

  predicate IsScalar(v: Value)
  {
    v.VStr? || v.VInt? || v.VFloat? || v.VBool?
  }

  /** The value an Enum member carries, as a Python value. */
  function PrimValue(p: Prim): (v: Value)
    ensures v.VNone? || IsScalar(v)
  {
    match p
    case PNone => VNone
    case PStr(s) => VStr(s)
    case PInt(i) => VInt(i)
    case PFloat(r) => VFloat(r)
    case PBool(b) => VBool(b)
  }

  /** `type(member.value)`. */
  function TypeOfPrim(p: Prim): Ty
  {
    match p
    case PNone => NoneType
    case PStr(_) => StrT
    case PInt(_) => IntT
    case PFloat(_) => FloatT
    case PBool(_) => BoolT
  }

  /** `str(v)` for None and the scalar types. */
  function PyStr(v: Value): string
    requires v.VNone? || IsScalar(v)
  {
    match v
    case VNone => "None"
    case VStr(s) => s
    case VInt(i) => IntToDecimal(i)
    case VFloat(r) => r
    case VBool(b) => if b then "True" else "False"
  }

  /** `EnumClass(v)`: the first member (in declaration order) whose value equals v. */
  function EnumLookup(members: seq<Member>, v: Value): (r: Option<nat>)
    ensures r.Some? ==> r.value < |members| && PrimValue(members[r.value].value) == v
    ensures r.Some? ==> forall k :: 0 <= k < r.value ==> PrimValue(members[k].value) != v
    ensures r.None? ==> forall k :: 0 <= k < |members| ==> PrimValue(members[k].value) != v
  {
    if |members| == 0 then None
    else if PrimValue(members[0].value) == v then Some(0)
    else match EnumLookup(members[1..], v)
      case None => None
      case Some(k) => Some(k + 1)
  }

  /** Entry i is the first entry of `es` with key k. */
  predicate FirstKeyAt<K(==,!new), V>(es: seq<(K, V)>, k: K, i: int)
  {
    0 <= i < |es| && es[i].0 == k && forall j :: 0 <= j < i ==> es[j].0 != k
  }

  /** Dictionary lookup `d.get(k)` (also `kwargs.get(k)`): the value of the first entry with key k. */
  function DictGet<K(==,!new), V>(es: seq<(K, V)>, k: K): (r: Option<V>)
    ensures r.None? <==> forall i :: 0 <= i < |es| ==> es[i].0 != k
  {
    if |es| == 0 then None
    else if es[0].0 == k then Some(es[0].1)
    else DictGet(es[1..], k)
  }

  /** The value found is that of the first entry with the key. */
  lemma {:induction false} DictGetFirst<K(!new), V>(es: seq<(K, V)>, k: K, i: int)
    requires FirstKeyAt(es, k, i)
    ensures DictGet(es, k) == Some(es[i].1)
    decreases |es|
  {
    if i > 0 {
      assert FirstKeyAt(es[1..], k, i - 1);
      DictGetFirst(es[1..], k, i - 1);
    }
  }

  /** `d[k] = v`: afterwards k maps to v and every other key keeps its value. */
  function DictSet<K(==,!new), V>(es: seq<(K, V)>, k: K, v: V): (r: seq<(K, V)>)
    ensures DictGet(r, k) == Some(v)
    ensures forall k' :: k' != k ==> DictGet(r, k') == DictGet(es, k')
    decreases |es|
  {
    if |es| == 0 then [(k, v)]
    else if es[0].0 == k then
      var r := [(k, v)] + es[1..];
      assert r[1..] == es[1..];
      r
    else
      var rest := DictSet(es[1..], k, v);
      var r := [es[0]] + rest;
      assert r[1..] == rest;
      r
  }

  /** `d[k] = v` replaces the value of an existing key in place, and a new key goes last. */
  lemma {:induction false} DictSetPlaces<K(!new), V>(es: seq<(K, V)>, k: K, v: V)
    ensures (forall i :: 0 <= i < |es| ==> es[i].0 != k) ==> DictSet(es, k, v) == es + [(k, v)]
    ensures forall i :: FirstKeyAt(es, k, i) ==> DictSet(es, k, v) == es[i := (k, v)]
    decreases |es|
  {
    if |es| > 0 {
      if es[0].0 == k {
        assert forall i :: FirstKeyAt(es, k, i) ==> i == 0;
      } else {
        DictSetPlaces(es[1..], k, v);
        assert forall i :: FirstKeyAt(es, k, i) ==> FirstKeyAt(es[1..], k, i - 1);
        assert es == [es[0]] + es[1..];
      }
    }
  }

  /**
   * The library calls the modelled code makes and this model does not define;
   * every operation that needs one takes the environment as a parameter.
   */
  datatype Env = Env(
    parseFloat: string -> Option<string>,             // float(s), as the repr of the result; None: ValueError
    loads: string -> Option<Value>,                   // json.loads; None: JSONDecodeError
    dumps: Value -> Outcome<string>,                  // json.dumps
    knownCodec: string -> bool,                       // whether codecs.lookup(encoding) succeeds
    encode: (string, string) -> Option<seq<byte>>,    // text.encode(encoding) with a known codec; None: UnicodeEncodeError
    decode: seq<byte> -> Option<string>,              // data.decode('utf-8'); None: UnicodeDecodeError
    deserialize: (string, string) -> Outcome<Value>,  // Cls.deserialize(text), by class name
    construct: (string, string) -> Outcome<Value>     // Cls(text) for a class the model does not know
  )
}
