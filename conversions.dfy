/**
 * The type codec of src/bantam/conversions.py: typed values to JSON data and
 * wire text, and back. JSON data are the Values satisfying IsJsonCompat;
 * json.loads/json.dumps and float() are taken from an Env.
 */
module Conversions {
  import opened Wrappers
  import opened Text
  import opened Values

  // ---------------------------------------------------------------------
  // Helpers: a nesting measure, dataclasses.asdict, and "first failure wins"

  function MaxOf(xs: seq<nat>): (m: nat)
    ensures forall i :: 0 <= i < |xs| ==> xs[i] <= m
  {
    if |xs| == 0 then 0
    else var t := MaxOf(xs[1..]); if xs[0] < t then t else xs[0]
  }

  /** How deeply lists, dicts and records nest inside v; it bounds the codec's recursion. */
  function Depth(v: Value): nat
  {
    match v
    case VList(items) => 1 + MaxOf(seq(|items|, i requires 0 <= i < |items| => Depth(items[i])))
    case VDict(es) => 1 + MaxOf(seq(|es|, i requires 0 <= i < |es| => Depth(es[i].1)))
    case VRecord(_, fs) => 1 + MaxOf(seq(|fs|, i requires 0 <= i < |fs| => Depth(fs[i].1)))
    case _ => 0
  }

  /**
   * `dataclasses.asdict` applied to a value: records become dicts keyed by
   * field name, recursively through lists and dict values; everything else is
   * copied unchanged.
   */
  function AsDictInner(v: Value): (r: Value)
    ensures Depth(r) == Depth(v)
    ensures v.VRecord? ==> r.VDict? && |r.entries| == |v.fields|
  {
    match v
    case VRecord(_, fs) =>
      var es := seq(|fs|, i requires 0 <= i < |fs| => (VStr(fs[i].0), AsDictInner(fs[i].1)));
      assert seq(|es|, i requires 0 <= i < |es| => Depth(es[i].1))
          == seq(|fs|, i requires 0 <= i < |fs| => Depth(fs[i].1));
      VDict(es)
    case VList(items) =>
      var xs := seq(|items|, i requires 0 <= i < |items| => AsDictInner(items[i]));
      assert seq(|xs|, i requires 0 <= i < |xs| => Depth(xs[i]))
          == seq(|items|, i requires 0 <= i < |items| => Depth(items[i]));
      VList(xs)
    case VDict(es) =>
      var es' := seq(|es|, i requires 0 <= i < |es| => (es[i].0, AsDictInner(es[i].1)));
      assert seq(|es'|, i requires 0 <= i < |es'| => Depth(es'[i].1))
          == seq(|es|, i requires 0 <= i < |es| => Depth(es[i].1));
      VDict(es')
    case _ => v
  }

  /** Every list element, dict value and field value is shallower than its container, also after asdict. */
  lemma ChildDepths(v: Value)
    ensures v.VList? ==> forall i :: 0 <= i < |v.items| ==> Depth(v.items[i]) < Depth(v)
    ensures v.VDict? ==> forall i :: 0 <= i < |v.entries| ==> Depth(v.entries[i].1) < Depth(v)
    ensures v.VRecord? ==> forall i :: 0 <= i < |v.fields| ==> Depth(v.fields[i].1) < Depth(v)
    ensures v.VRecord? ==> forall i :: 0 <= i < |AsDictInner(v).entries| ==> Depth(AsDictInner(v).entries[i].1) < Depth(v)
  {
    match v
    case VList(items) =>
      var ds := seq(|items|, i requires 0 <= i < |items| => Depth(items[i]));
      forall i | 0 <= i < |items| ensures Depth(items[i]) < Depth(v) { assert ds[i] <= MaxOf(ds); }
    case VDict(es) =>
      var ds := seq(|es|, i requires 0 <= i < |es| => Depth(es[i].1));
      forall i | 0 <= i < |es| ensures Depth(es[i].1) < Depth(v) { assert ds[i] <= MaxOf(ds); }
    case VRecord(_, fs) =>
      var ds := seq(|fs|, i requires 0 <= i < |fs| => Depth(fs[i].1));
      forall i | 0 <= i < |fs| ensures Depth(fs[i].1) < Depth(v) { assert ds[i] <= MaxOf(ds); }
      var es := AsDictInner(v).entries;
      forall i | 0 <= i < |es| ensures Depth(es[i].1) < Depth(v) {
        assert es[i].1 == AsDictInner(fs[i].1);
      }
    case _ =>
  }

  /** Evaluate left to right: the first failure is the outcome, otherwise all the values. */
  function AllOk<T>(rs: seq<Outcome<T>>): (r: Outcome<seq<T>>)
    ensures r.Ok? <==> forall i :: 0 <= i < |rs| ==> rs[i].Ok?
    ensures r.Ok? ==> |r.value| == |rs| && forall i :: 0 <= i < |rs| ==> rs[i] == Ok(r.value[i])
    ensures r.Err? ==> exists j :: 0 <= j < |rs| && rs[j] == Err(r.error) && forall i :: 0 <= i < j ==> rs[i].Ok?
  {
    if |rs| == 0 then Ok([])
    else match rs[0]
      case Err(e) => Err(e)
      case Ok(x) =>
        match AllOk(rs[1..])
        case Err(e) => Err(e)
        case Ok(xs) => Ok([x] + xs)
  }

  /** When everything before index j succeeded and rs[j] failed, AllOk fails with rs[j]'s error. */
  lemma AllOkFirstErr<T>(rs: seq<Outcome<T>>, j: nat)
    requires j < |rs| && rs[j].Err?
    requires forall i :: 0 <= i < j ==> rs[i].Ok?
    ensures AllOk(rs) == Err(rs[j].error)
  {
    var r := AllOk(rs);
    var k :| 0 <= k < |rs| && rs[k] == Err(r.error) && forall i :: 0 <= i < k ==> rs[i].Ok?;
    assert k == j;
  }

  // ---------------------------------------------------------------------
  // normalize_to_json_compat

  /** JSON data: None, str, int, float, bool, and lists and dicts of JSON data. */
  predicate IsJsonCompat(v: Value)
  {
    match v
    case VNone => true
    case VStr(_) => true
    case VInt(_) => true
    case VFloat(_) => true
    case VBool(_) => true
    case VList(items) => forall i :: 0 <= i < |items| ==> IsJsonCompat(items[i])
    case VDict(es) => forall i :: 0 <= i < |es| ==> IsJsonCompat(es[i].1)
    case _ => false
  }

  /**
   * `normalize_to_json_compat(val)`. A dataclass goes through asdict and then
   * every field value that is not None is normalised; an Enum member becomes
   * its normalised value; str/int/float/bool pass through; dict values and list
   * elements are normalised (dict keys are kept); anything else, None included,
   * raises RuntimeError.
   */
  function ToJsonCompat(v: Value): (r: Outcome<Value>)
    ensures r.Ok? ==> IsJsonCompat(r.value)
    decreases Depth(v), if v.VEnum? then 3 else 2
  {
    match v
    case VRecord(_, _) =>
      ChildDepths(v);
      NormEntries(AsDictInner(v).entries, true, Depth(v))
    case VEnum(_, _, p) => ToJsonCompat(PrimValue(p))
    case VStr(_) => Ok(v)
    case VInt(_) => Ok(v)
    case VFloat(_) => Ok(v)
    case VBool(_) => Ok(v)
    case VDict(es) =>
      ChildDepths(v);
      NormEntries(es, false, Depth(v))
    case VList(items) =>
      ChildDepths(v);
      (match AllOk(seq(|items|, i requires 0 <= i < |items| => ToJsonCompat(items[i])))
       case Err(e) => Err(e)
       case Ok(vals) => Ok(VList(vals)))
    case _ => Err(RuntimeError)
  }

  /** The dict loop of normalize_to_json_compat; skipNone is the dataclass loop's `is not None` test. */
  function NormEntries(es: seq<(Value, Value)>, skipNone: bool, bound: nat): (r: Outcome<Value>)
    requires forall i :: 0 <= i < |es| ==> Depth(es[i].1) < bound
    ensures r.Ok? ==> IsJsonCompat(r.value)
    decreases bound, 1
  {
    match AllOk(EntryOutcomes(es, skipNone, bound))
    case Err(e) => Err(e)
    case Ok(vals) => Ok(VDict(seq(|es|, i requires 0 <= i < |es| => (es[i].0, vals[i]))))
  }

  /** What normalising each entry's value gives, in entry order. */
  function EntryOutcomes(es: seq<(Value, Value)>, skipNone: bool, bound: nat): (rs: seq<Outcome<Value>>)
    requires forall i :: 0 <= i < |es| ==> Depth(es[i].1) < bound
    ensures |rs| == |es|
    ensures forall i :: 0 <= i < |es| ==> rs[i].Ok? ==> IsJsonCompat(rs[i].value)
    decreases bound, 0
  {
    seq(|es|, i requires 0 <= i < |es| => if skipNone && es[i].1 == VNone then Ok(VNone) else ToJsonCompat(es[i].1))
  }

  // ---------------------------------------------------------------------
  // normalize_from_json

  /**
   * The bool branch of normalize_from_json as written (conversions.py line 55):
   * `json_data.lower() == 'true'`, which only a str supports; a JSON boolean,
   * which json.loads yields as a Python bool, raises AttributeError.
   */
  function JsonBoolAsWritten(j: Value): Outcome<Value>
  {
    if j.VStr? then Ok(VBool(Lower(j.s) == "true")) else Err(AttributeError)
  }

  /** The bool branch as evidently intended: a JSON boolean is kept, a string is read as before. */
  function JsonBool(j: Value): (r: Outcome<Value>)
    ensures j.VBool? ==> r == Ok(j)
    ensures !j.VBool? ==> r == JsonBoolAsWritten(j)
  {
    if j.VBool? then Ok(j) else JsonBoolAsWritten(j)
  }

  /** normalize_from_json at an Enum member's value type (str, int, float, bool or NoneType). */
  function FromJsonLeaf(j: Value, t: Ty): Outcome<Value>
  {
    match t
    case StrT => Ok(j)
    case IntT => Ok(j)
    case FloatT => Ok(j)
    case BoolT => JsonBool(j)
    case _ => Err(TypeError)
  }

  /** `typ(x)` for an Enum class: the first member whose value is x, otherwise ValueError. */
  function EnumCall(name: string, ms: seq<Member>, x: Value): Outcome<Value>
  {
    match EnumLookup(ms, x)
    case Some(k) => Ok(VEnum(name, ms[k].key, ms[k].value))
    case None => Err(ValueError)
  }

  /** Member i "fits" j when converting j to member i's value type and then calling the class succeeds. */
  predicate Fits(j: Value, name: string, ms: seq<Member>, i: nat)
    requires i < |ms|
  {
    match FromJsonLeaf(j, TypeOfPrim(ms[i].value))
    case Ok(x) => EnumCall(name, ms, x).Ok?
    case Err(_) => false
  }

  /** The Enum loop: try each member's value type in declaration order, then fall back to `typ(json_data)`. */
  function EnumFromJson(j: Value, name: string, ms: seq<Member>, i: nat): Outcome<Value>
    decreases |ms| - i
  {
    if i >= |ms| then EnumCall(name, ms, j)
    else if Fits(j, name, ms, i) then EnumCall(name, ms, FromJsonLeaf(j, TypeOfPrim(ms[i].value)).value)
    else EnumFromJson(j, name, ms, i + 1)
  }

  /** The exception `dict(j).items()`-style access raises for JSON data that is not an object. */
  function NotAMappingError(j: Value): Exn
  {
    match j
    case VStr(s) => if s == "" then AttributeError else ValueError
    case VList(items) => ListToDictError(items)
    case _ => TypeError
  }

  /**
   * `dict(items)` then `.items()` on the list: element by element, one that is
   * not iterable raises TypeError, one whose length is not 2 raises
   * ValueError, and a pair whose key is a list or a dict (unhashable) raises
   * TypeError; when every element is a pair the list has no `.items`
   * (AttributeError).
   */
  function ListToDictError(items: seq<Value>): (e: Exn)
    ensures e in {TypeError, ValueError, AttributeError}
    ensures |items| > 0 && items[0].VList? && |items[0].items| == 2 && (items[0].items[0].VList? || items[0].items[0].VDict?)
      ==> e == TypeError
  {
    if |items| == 0 then AttributeError
    else
      var x := items[0];
      if !(x.VStr? || x.VList? || x.VDict?) then TypeError
      else if (x.VStr? && |x.s| != 2) || (x.VList? && |x.items| != 2) || (x.VDict? && |x.entries| != 2) then ValueError
      else if x.VList? && (x.items[0].VList? || x.items[0].VDict?) then TypeError
      else ListToDictError(items[1..])
  }

  /** Whether `k` names one of the dataclass fields. */
  predicate IsFieldKey(fields: seq<Field>, k: Value)
  {
    k.VStr? && exists f :: f in fields && f.name == k.s
  }

  /** The argument a dataclass constructor binds to field f from keyword arguments `data`. */
  function FieldArg(f: Field, data: seq<(Value, Value)>): Outcome<Value>
  {
    match DictGet(data, VStr(f.name))
    case Some(x) => Ok(x)
    case None => if f.default.Some? then Ok(f.default.value) else Err(TypeError)
  }

  /**
   * `typ(**data)` for a dataclass: an unexpected keyword or a missing field
   * without default raises TypeError.
   */
  function Construct(name: string, fields: seq<Field>, data: seq<(Value, Value)>): Outcome<Value>
  {
    if exists i :: 0 <= i < |data| && !IsFieldKey(fields, data[i].0) then Err(TypeError)
    else
      match AllOk(seq(|fields|, i requires 0 <= i < |fields| => FieldArg(fields[i], data)))
      case Err(e) => Err(e)
      case Ok(vals) => Ok(VRecord(name, seq(|fields|, i requires 0 <= i < |fields| => (fields[i].name, vals[i]))))
  }

  /**
   * `normalize_from_json(json_data, typ)`: a Union or Optional is replaced by
   * its first argument (None is returned for 'null' only when that argument
   * itself prints as Optional), then the type is dispatched on.
   */
  function FromJson(j: Value, t: Ty): Outcome<Value>
    decreases t, 1
  {
    if t.UnionT? then
      if PrintsAsOptional(t.first) && j == VStr("null") then Ok(VNone)
      else FromJsonUnwrapped(j, t.first)
    else FromJsonUnwrapped(j, t)
  }

  function FromJsonUnwrapped(j: Value, t: Ty): Outcome<Value>
    decreases t, 0
  {
    match t
    case EnumT(name, ms) => EnumFromJson(j, name, ms, 0)
    case StrT => Ok(j)
    case IntT => Ok(j)
    case FloatT => Ok(j)
    case BoolT => JsonBool(j)
    case DictT(_, _) =>
      if !j.VDict? then Err(NotAMappingError(j))
      else
        (match EntriesFromJson(j.entries, t, 0, j.entries)   // d = dict(json_data)
         case Err(e) => Err(e)
         case Ok(d) => Ok(VDict(d)))
    case ListT(et) =>
      if j.VList? then
        (match AllOk(seq(|j.items|, i requires 0 <= i < |j.items| => FromJson(j.items[i], et)))
         case Err(e) => Err(e)
         case Ok(vals) => Ok(VList(vals)))
      else if j.VStr? && |j.s| > 0 then
        // the first character is converted, then `json_data[0] = ...` on a str raises
        (match FromJson(VStr([j.s[0]]), et) case Err(e) => Err(e) case Ok(_) => Err(TypeError))
      else if j.VDict? && |j.entries| > 0 then
        // the first key is converted and stored under 0; the dict has grown, so the next step raises
        (match FromJson(j.entries[0].0, et) case Err(e) => Err(e) case Ok(_) => Err(RuntimeError))
      else if j.VStr? || j.VDict? then Ok(j)   // enumerate() of an empty str or dict
      else Err(TypeError)                      // a number, a bool or None is not iterable
    case RecordT(name, fields) =>
      if !j.VDict? then Err(TypeError)   // json_data[name] on a list, str or number
      else
        (match FieldsFromJson(j.entries, t, 0)
         case Err(e) => Err(e)
         case Ok(data) => Construct(name, fields, data))
    case _ => Err(TypeError)
  }

  /** The dict loop: `d[conv(k)] = conv(v)` for each entry in turn, the value converted first. */
  function EntriesFromJson(es: seq<(Value, Value)>, t: Ty, i: nat, d: seq<(Value, Value)>): Outcome<seq<(Value, Value)>>
    requires t.DictT? && i <= |es|
    decreases t, 0, |es| - i
  {
    if i == |es| then Ok(d)
    else
      match FromJson(es[i].1, t.elem)
      case Err(e) => Err(e)
      case Ok(y) =>
        match FromJson(es[i].0, t.key)
        case Err(e) => Err(e)
        case Ok(k) => EntriesFromJson(es, t, i + 1, DictSet(d, k, y))
  }

  /** The dataclass loop: `json_data[name] = conv(json_data[name])` for each field in turn. */
  function FieldsFromJson(data: seq<(Value, Value)>, t: Ty, i: nat): Outcome<seq<(Value, Value)>>
    requires t.RecordT? && i <= |t.fields|
    decreases t, 0, |t.fields| - i
  {
    if i == |t.fields| then Ok(data)
    else
      var key := VStr(t.fields[i].name);
      match DictGet(data, key)
      case None => Err(KeyError)
      case Some(x) =>
        match FromJson(x, t.fields[i].ty)
        case Err(e) => Err(e)
        case Ok(y) => FieldsFromJson(DictSet(data, key, y), t, i + 1)
  }

  // ---------------------------------------------------------------------
  // to_str and from_str

  /** `json.dumps(normalize_to_json_compat(v))`, as a str value. */
  function DumpsOf(v: Value, env: Env): Outcome<Value>
  {
    match ToJsonCompat(v)
    case Err(e) => Err(e)
    case Ok(j) =>
      match env.dumps(j)
      case Err(e) => Err(e)
      case Ok(text) => Ok(VStr(text))
  }

  /**
   * `to_str(val)`: None stays None, dataclasses, dicts and lists become JSON
   * text, an Enum member becomes its value, scalars are returned unchanged, and
   * anything else raises TypeError.
   */
  function ToStr(v: Value, env: Env): (r: Outcome<Value>)
    ensures r.Ok? ==> r.value.VNone? || IsScalar(r.value)
    ensures v.VNone? ==> r == Ok(VNone)
    ensures IsScalar(v) ==> r == Ok(v)
    ensures v.VEnum? ==> r == Ok(PrimValue(v.value))
    ensures v.VBytes? || v.VObject? ==> r == Err(TypeError)
  {
    match v
    case VNone => Ok(VNone)
    case VRecord(_, _) => DumpsOf(v, env)
    case VEnum(_, _, p) => Ok(PrimValue(p))
    case VStr(_) => Ok(v)
    case VInt(_) => Ok(v)
    case VFloat(_) => Ok(v)
    case VBool(_) => Ok(v)
    case VDict(_) => DumpsOf(v, env)
    case VList(_) => DumpsOf(v, env)
    case _ => Err(TypeError)
  }

  /** `_issubclass_safe(typ, Enum)`: a type that is not a class gives false rather than raising. */
  predicate IsEnumClass(t: Ty)
  {
    t.EnumT?
  }

  /**
   * `from_str(image, typ)`: a Union or Optional is replaced by its first
   * argument, then the type is dispatched on.
   */
  function FromStr(image: string, t: Ty, env: Env): Outcome<Value>
  {
    var u := if t.UnionT? then t.first else t;
    if IsEnumClass(u) then EnumCall(u.name, u.members, VStr(image))
    else match u
      case StrT => Ok(VStr(image))
      case IntT => (match ParseInt(image) case Some(i) => Ok(VInt(i)) case None => Err(ValueError))
      case FloatT => (match env.parseFloat(image) case Some(r) => Ok(VFloat(r)) case None => Err(ValueError))
      case BoolT => Ok(VBool(Lower(image) == "true"))
      case DictT(_, _) => FromJsonText(image, u, env)
      case ListT(_) => FromJsonText(image, u, env)
      case BareDictT => FromJsonText(image, u, env)
      case BareListT => FromJsonText(image, u, env)
      case RecordT(_, _) => FromJsonText(image, u, env)
      case NoneT => if image != "" then Err(ValueError) else Ok(VNone)
      case _ => Err(TypeError)
  }

  /** `normalize_from_json(json.loads(image), typ)`; malformed JSON raises a ValueError subclass. */
  function FromJsonText(image: string, t: Ty, env: Env): Outcome<Value>
  {
    match env.loads(image)
    case None => Err(ValueError)
    case Some(j) => FromJson(j, t)
  }

  // ---------------------------------------------------------------------
  // Properties of to_str and from_str

  /** A type from_str has no rule for (after Union unwrapping). */
  predicate NoStrRule(t: Ty)
  {
    t.BytesT? || t.ClassT? || t.AsyncIterT? || t.AsyncGenT? || t.CallableT? || t.UnionT?
  }

  /** Union and Optional convert against their first argument only. */
  lemma FromStrUnionFirst(image: string, first: Ty, rest: seq<Ty>, env: Env)
    requires !first.UnionT?
    ensures FromStr(image, UnionT(first, rest), env) == FromStr(image, first, env)
  {
  }

  /** from_str(s, bool) never fails, and is true exactly when s.lower() == 'true'. */
  lemma FromStrBool(image: string, env: Env)
    ensures FromStr(image, BoolT, env).Ok? && FromStr(image, BoolT, env).value.VBool?
    ensures FromStr(image, BoolT, env).value.b <==> Lower(image) == "true"
  {
  }

  /** from_str(s, None) accepts only the empty string; a type with no rule raises TypeError. */
  lemma FromStrNoneAndUnsupported(image: string, t: Ty, env: Env)
    ensures FromStr(image, NoneT, env) == (if image == "" then Ok(VNone) else Err(ValueError))
    ensures NoStrRule(t) && !t.UnionT? ==> FromStr(image, t, env) == Err(TypeError)
  {
  }

  /** A str survives to_str and from_str unchanged. */
  lemma StrRoundTrip(x: string, env: Env)
    ensures ToStr(VStr(x), env) == Ok(VStr(x))
    ensures FromStr(PyStr(ToStr(VStr(x), env).value), StrT, env) == Ok(VStr(x))
  {
  }

  /** An int survives to_str, `str()` and from_str unchanged. */
  lemma IntRoundTrip(i: int, env: Env)
    ensures FromStr(PyStr(ToStr(VInt(i), env).value), IntT, env) == Ok(VInt(i))
  {
    DecimalRoundTrip(i);
  }

  /** A bool survives to_str, `str()` ('True'/'False') and from_str unchanged. */
  lemma BoolRoundTrip(b: bool, env: Env)
    ensures FromStr(PyStr(ToStr(VBool(b), env).value), BoolT, env) == Ok(VBool(b))
  {
    if b {
      assert Lower("True") == "true";
    } else {
      assert Lower("False")[0] == 'f';
    }
  }

  lemma PrimValueInjective(p: Prim, q: Prim)
    ensures PrimValue(p) == PrimValue(q) ==> p == q
  {
  }

  /** A str-valued Enum member whose value no earlier member shares comes back from its value. */
  lemma EnumStrRoundTrip(name: string, ms: seq<Member>, k: nat, env: Env)
    requires k < |ms| && ms[k].value.PStr?
    requires forall i :: 0 <= i < k ==> ms[i].value != ms[k].value
    ensures FromStr(PyStr(ToStr(VEnum(name, ms[k].key, ms[k].value), env).value), EnumT(name, ms), env)
         == Ok(VEnum(name, ms[k].key, ms[k].value))
  {
    forall i | 0 <= i < k ensures PrimValue(ms[i].value) != PrimValue(ms[k].value) {
      PrimValueInjective(ms[i].value, ms[k].value);
    }
  }

  // ---------------------------------------------------------------------
  // Properties of normalize_to_json_compat

  /** Lists keep their length and order; the list fails exactly when an element fails. */
  lemma ToJsonCompatList(v: Value)
    requires v.VList?
    ensures ToJsonCompat(v).Ok? <==> forall i :: 0 <= i < |v.items| ==> ToJsonCompat(v.items[i]).Ok?
    ensures ToJsonCompat(v).Ok? ==>
              ToJsonCompat(v).value.VList? && |ToJsonCompat(v).value.items| == |v.items| &&
              forall i :: 0 <= i < |v.items| ==> ToJsonCompat(v).value.items[i] == ToJsonCompat(v.items[i]).value
  {
    var rs := seq(|v.items|, i requires 0 <= i < |v.items| => ToJsonCompat(v.items[i]));
    assert ToJsonCompat(v) == (match AllOk(rs) case Err(e) => Err(e) case Ok(vals) => Ok(VList(vals)));
    assert forall i :: 0 <= i < |rs| ==> rs[i] == ToJsonCompat(v.items[i]);
  }

  /** Dicts keep their keys in order and normalise each value. */
  lemma ToJsonCompatDict(v: Value)
    requires v.VDict?
    ensures ToJsonCompat(v).Ok? <==> forall i :: 0 <= i < |v.entries| ==> ToJsonCompat(v.entries[i].1).Ok?
    ensures ToJsonCompat(v).Ok? ==>
              ToJsonCompat(v).value.VDict? &&
              var es := ToJsonCompat(v).value.entries;
              |es| == |v.entries| &&
              forall i :: 0 <= i < |es| ==> es[i] == (v.entries[i].0, ToJsonCompat(v.entries[i].1).value)
  {
    ChildDepths(v);
    var rs := EntryOutcomes(v.entries, false, Depth(v));
    assert forall i :: 0 <= i < |rs| ==> rs[i] == ToJsonCompat(v.entries[i].1);
  }

  /** A dataclass becomes a dict keyed by its field names, in field order; None fields stay None. */
  lemma ToJsonCompatRecord(v: Value)
    requires v.VRecord?
    ensures ToJsonCompat(v).Ok? ==>
              ToJsonCompat(v).value.VDict? &&
              var es := ToJsonCompat(v).value.entries;
              |es| == |v.fields| &&
              forall i :: 0 <= i < |es| ==>
                es[i].0 == VStr(v.fields[i].0) && (v.fields[i].1 == VNone ==> es[i].1 == VNone)
  {
    var w := AsDictInner(v);
    assert forall i :: 0 <= i < |w.entries| ==> w.entries[i] == (VStr(v.fields[i].0), AsDictInner(v.fields[i].1));
    ChildDepths(v);
    var rs := EntryOutcomes(w.entries, true, Depth(v));
    assert ToJsonCompat(v) == NormEntries(w.entries, true, Depth(v));
  }

  /** Values with no JSON rule raise RuntimeError. */
  lemma ToJsonCompatUnsupported(v: Value)
    requires v.VNone? || v.VBytes? || v.VObject? || (v.VEnum? && v.value.PNone?)
    ensures ToJsonCompat(v) == Err(RuntimeError)
  {
  }

  // ---------------------------------------------------------------------
  // Properties of normalize_from_json

  /** The Enum loop's non-recursive conversion agrees with normalize_from_json at every member value type. */
  lemma FromJsonLeafAgrees(j: Value, p: Prim)
    ensures FromJsonLeaf(j, TypeOfPrim(p)) == FromJson(j, TypeOfPrim(p))
  {
  }

  /** A Union is decoded as its first argument (unless that argument prints as Optional and the data is 'null'). */
  lemma FromJsonUnionFirst(j: Value, first: Ty, rest: seq<Ty>)
    requires !first.UnionT?
    ensures FromJson(j, UnionT(first, rest)) == FromJson(j, first)
  {
  }

  /**
   * At a List type, only an empty str or an empty dict passes unchanged. A
   * non-empty one fails: with the first character's or key's conversion error
   * if it has one, otherwise with TypeError (a str cannot be assigned to) or
   * RuntimeError (the dict grew while it was being iterated).
   */
  lemma FromJsonListNonList(j: Value, et: Ty)
    requires !j.VList?
    ensures FromJson(j, ListT(et)).Ok? <==> j == VStr("") || j == VDict([])
    ensures FromJson(j, ListT(et)).Ok? ==> FromJson(j, ListT(et)).value == j
    ensures j.VStr? && |j.s| > 0 ==>
      FromJson(j, ListT(et)) == if FromJson(VStr([j.s[0]]), et).Err? then FromJson(VStr([j.s[0]]), et) else Err(TypeError)
    ensures j.VDict? && |j.entries| > 0 ==>
      FromJson(j, ListT(et)) == if FromJson(j.entries[0].0, et).Err? then FromJson(j.entries[0].0, et) else Err(RuntimeError)
    ensures !j.VStr? && !j.VDict? ==> FromJson(j, ListT(et)) == Err(TypeError)
  {
  }

  /** A str at `List[Dict[str, str]]`: `dict('a')` raises ValueError before the str is assigned to. */
  lemma FromJsonListOfDictsOnStr()
    ensures FromJson(VStr("a"), ListT(DictT(StrT, StrT))) == Err(ValueError)
  {
  }

  /** `dict([[[1], 2]])`: a list key is unhashable, so the dict branch raises TypeError. */
  lemma FromJsonDictUnhashableKey()
    ensures FromJson(VList([VList([VList([VInt(1)]), VInt(2)])]), DictT(StrT, IntT)) == Err(TypeError)
  {
  }

  /** Lists are converted element by element, keeping length and order. */
  lemma FromJsonList(j: Value, et: Ty)
    requires j.VList?
    ensures FromJson(j, ListT(et)).Ok? <==> forall i :: 0 <= i < |j.items| ==> FromJson(j.items[i], et).Ok?
    ensures FromJson(j, ListT(et)).Ok? ==>
              FromJson(j, ListT(et)).value.VList? && |FromJson(j, ListT(et)).value.items| == |j.items| &&
              forall i :: 0 <= i < |j.items| ==> FromJson(j, ListT(et)).value.items[i] == FromJson(j.items[i], et).value
  {
    var rs := seq(|j.items|, i requires 0 <= i < |j.items| => FromJson(j.items[i], et));
    assert forall i :: 0 <= i < |rs| ==> rs[i] == FromJson(j.items[i], et);
  }

  /**
   * The Enum rule picks the first member, in declaration order, whose value
   * type converts j into the value of some member.
   */
  lemma {:induction false} EnumFirstFit(j: Value, name: string, ms: seq<Member>, k: nat)
    requires k < |ms| && Fits(j, name, ms, k)
    requires forall i :: 0 <= i < k ==> !Fits(j, name, ms, i)
    ensures FromJson(j, EnumT(name, ms)) == EnumCall(name, ms, FromJsonLeaf(j, TypeOfPrim(ms[k].value)).value)
    ensures FromJson(j, EnumT(name, ms)).Ok?
  {
    EnumFirstFitFrom(j, name, ms, k, 0);
  }

  lemma {:induction false} EnumFirstFitFrom(j: Value, name: string, ms: seq<Member>, k: nat, i: nat)
    requires i <= k < |ms| && Fits(j, name, ms, k)
    requires forall n :: i <= n < k ==> !Fits(j, name, ms, n)
    ensures EnumFromJson(j, name, ms, i) == EnumCall(name, ms, FromJsonLeaf(j, TypeOfPrim(ms[k].value)).value)
    decreases k - i
  {
    if i < k {
      EnumFirstFitFrom(j, name, ms, k, i + 1);
    }
  }

  /** When no member fits, the Enum rule falls back to `typ(json_data)`. */
  lemma {:induction false} EnumFallback(j: Value, name: string, ms: seq<Member>)
    requires forall i :: 0 <= i < |ms| ==> !Fits(j, name, ms, i)
    ensures FromJson(j, EnumT(name, ms)) == EnumCall(name, ms, j)
  {
    EnumFallbackFrom(j, name, ms, 0);
  }

  lemma {:induction false} EnumFallbackFrom(j: Value, name: string, ms: seq<Member>, i: nat)
    requires i <= |ms|
    requires forall n :: i <= n < |ms| ==> !Fits(j, name, ms, n)
    ensures EnumFromJson(j, name, ms, i) == EnumCall(name, ms, j)
    decreases |ms| - i
  {
    if i < |ms| {
      EnumFallbackFrom(j, name, ms, i + 1);
    }
  }

  /**
   * The defect of line 55: a dataclass `bool` field is normalised to a JSON
   * boolean, and the code as written cannot read that boolean back.
   */
  lemma BoolFieldAsWrittenFails()
    ensures ToJsonCompat(VRecord("R", [("flag", VBool(true))])) == Ok(VDict([(VStr("flag"), VBool(true))]))
    ensures JsonBoolAsWritten(VBool(true)) == Err(AttributeError)
  {
    var v := VRecord("R", [("flag", VBool(true))]);
    var es := AsDictInner(v).entries;
    assert es == [(VStr("flag"), VBool(true))];
    ChildDepths(v);
    var rs := EntryOutcomes(es, true, Depth(v));
    assert rs[0] == ToJsonCompat(VBool(true)) == Ok(VBool(true));
    assert AllOk(rs).Ok?;
    var vals := AllOk(rs).value;
    assert |vals| == 1 && vals[0] == VBool(true);
    assert vals == [VBool(true)];
    var n := NormEntries(es, true, Depth(v));
    assert n == Ok(VDict(seq(1, k requires 0 <= k < 1 => (es[k].0, [VBool(true)][k]))));
    assert n.value.entries == [(VStr("flag"), VBool(true))];
  }

  // ---------------------------------------------------------------------
  // The JSON round trip: normalize_from_json inverts normalize_to_json_compat

  predicate DistinctKeys(d: seq<(Value, Value)>)
  {
    forall i, k :: 0 <= i < k < |d| ==> d[i].0 != d[k].0
  }

  predicate DistinctNames(fields: seq<Field>)
  {
    forall i, k :: 0 <= i < k < |fields| ==> fields[i].name != fields[k].name
  }

  /**
   * v is a value of type t that JSON data can carry back: Unions are flat,
   * Enum members carry a non-None value that the first member's value type
   * reads unchanged and v is the canonical member for its value, dict keys
   * are distinct strings, List and Dict element types satisfy `EvalsBack`,
   * and records match their dataclass field by field. A record field typed `Optional[str]`, `Optional[int]` or
   * `Optional[float]` may hold None, except in a value that sits inside a
   * record (`nested`): asdict has turned such a record into a dict, and the
   * dict loop raises RuntimeError on the None.
   */
  predicate WellTypedAt(v: Value, t: Ty, nested: bool)
    decreases t
  {
    match t
    case StrT => v.VStr?
    case IntT => v.VInt?
    case FloatT => v.VFloat?
    case BoolT => v.VBool?
    case UnionT(first, _) => !first.UnionT? && WellTypedAt(v, first, nested)
    case EnumT(name, ms) =>
      v.VEnum? && v.enumName == name && !v.value.PNone? && |ms| > 0 &&
      (match ms[0].value case PNone => false case PBool(_) => v.value.PBool? case _ => true) &&
      (match EnumLookup(ms, PrimValue(v.value)) case Some(k) => ms[k].key == v.key case None => false)
    case ListT(et) => v.VList? && EvalsBack(et) && forall i :: 0 <= i < |v.items| ==> WellTypedAt(v.items[i], et, nested)
    case DictT(kt, et) =>
      kt == StrT && EvalsBack(et) && v.VDict? && DistinctKeys(v.entries) &&
      forall i :: 0 <= i < |v.entries| ==> v.entries[i].0.VStr? && WellTypedAt(v.entries[i].1, et, nested)
    case RecordT(name, fields) =>
      v.VRecord? && v.recName == name && |v.fields| == |fields| && DistinctNames(fields) &&
      forall i :: 0 <= i < |fields| ==>
        v.fields[i].0 == fields[i].name &&
        (WellTypedAt(v.fields[i].1, fields[i].ty, true) || (!nested && v.fields[i].1 == VNone && NullableField(fields[i].ty)))
    case _ => false
  }

  /**
   * The text `str(t)` names t again when evaluated in the conversions module,
   * as the List and Dict rules need (conversions.py lines 57 and 63): the
   * builtins by their bare names, and `typing` aliases built from them. A
   * user dataclass or Enum prints with its module (`mod.Rec`), which that
   * scope does not define.
   */
  predicate EvalsBack(t: Ty)
  {
    match t
    case StrT => true
    case IntT => true
    case FloatT => true
    case BoolT => true
    case BytesT => true
    case BareListT => true
    case BareDictT => true
    case ListT(et) => EvalsBack(et)
    case DictT(kt, et) => EvalsBack(kt) && EvalsBack(et)
    case _ => false
  }

  /** `Optional[str]`, `Optional[int]` or `Optional[float]` (any Union whose first argument is one of them). */
  predicate NullableField(t: Ty)
  {
    t.UnionT? && (t.first == StrT || t.first == IntT || t.first == FloatT)
  }

  /** A value JSON data can carry back, where it is not inside a record. */
  predicate WellTyped(v: Value, t: Ty)
  {
    WellTypedAt(v, t, false)
  }

  /** What may sit inside a record may also stand on its own. */
  lemma {:induction false} NestedIsWellTyped(v: Value, t: Ty)
    requires WellTypedAt(v, t, true)
    ensures WellTyped(v, t)
    decreases t
  {
    match t
    case UnionT(first, _) => NestedIsWellTyped(v, first);
    case ListT(et) =>
      forall i | 0 <= i < |v.items| ensures WellTyped(v.items[i], et) {
        NestedIsWellTyped(v.items[i], et);
      }
    case DictT(_, et) =>
      forall i | 0 <= i < |v.entries| ensures WellTyped(v.entries[i].1, et) {
        NestedIsWellTyped(v.entries[i].1, et);
      }
    case _ =>
  }

  lemma {:induction false} DictGetAt(d: seq<(Value, Value)>, j: nat)
    requires DistinctKeys(d) && j < |d|
    ensures DictGet(d, d[j].0) == Some(d[j].1)
  {
    assert FirstKeyAt(d, d[j].0, j);
    DictGetFirst(d, d[j].0, j);
  }

  lemma {:induction false} DictSetAt(d: seq<(Value, Value)>, j: nat, x: Value)
    requires DistinctKeys(d) && j < |d|
    ensures DictSet(d, d[j].0, x) == d[j := (d[j].0, x)]
  {
    assert FirstKeyAt(d, d[j].0, j);
    DictSetPlaces(d, d[j].0, x);
  }

  /** A well-typed value is never None, also after asdict. */
  lemma {:induction false} WellTypedNotNone(v: Value, t: Ty, nested: bool)
    ensures WellTypedAt(v, t, nested) ==> v != VNone && AsDictInner(v) != VNone
    decreases t
  {
    if t.UnionT? {
      WellTypedNotNone(v, t.first, nested);
    }
  }

  /** For well-typed values, normalising asdict's output is the same as normalising the value. */
  lemma {:induction false} AsDictNormalizes(v: Value, t: Ty)
    requires WellTypedAt(v, t, true)
    ensures ToJsonCompat(AsDictInner(v)) == ToJsonCompat(v)
    decreases t, 1
  {
    match t
    case UnionT(first, _) => AsDictNormalizes(v, first);
    case ListT(_) => AsDictNormalizesList(v, t);
    case DictT(_, _) => AsDictNormalizesDict(v, t);
    case RecordT(_, _) => AsDictNormalizesRecord(v, t);
    case _ =>
  }

  lemma {:induction false} AsDictNormalizesList(v: Value, t: Ty)
    requires t.ListT? && WellTypedAt(v, t, true)
    ensures ToJsonCompat(AsDictInner(v)) == ToJsonCompat(v)
    decreases t, 0
  {
    var xs := AsDictInner(v).items;
    forall i | 0 <= i < |v.items| ensures ToJsonCompat(AsDictInner(v.items[i])) == ToJsonCompat(v.items[i]) {
      AsDictNormalizes(v.items[i], t.elem);
    }
    assert seq(|xs|, i requires 0 <= i < |xs| => ToJsonCompat(xs[i]))
        == seq(|v.items|, i requires 0 <= i < |v.items| => ToJsonCompat(v.items[i]));
  }

  lemma {:induction false} AsDictNormalizesDict(v: Value, t: Ty)
    requires t.DictT? && WellTypedAt(v, t, true)
    ensures ToJsonCompat(AsDictInner(v)) == ToJsonCompat(v)
    decreases t, 0
  {
    var es := v.entries;
    var es' := AsDictInner(v).entries;
    forall i | 0 <= i < |es| ensures es'[i].0 == es[i].0 && ToJsonCompat(es'[i].1) == ToJsonCompat(es[i].1) {
      assert es'[i] == (es[i].0, AsDictInner(es[i].1));
      AsDictNormalizes(es[i].1, t.elem);
    }
    ChildDepths(v);
    ChildDepths(AsDictInner(v));
    DictEntriesCongruent(es, es', Depth(v));
  }

  /** Two dicts with the same keys whose values normalise alike normalise alike. */
  lemma DictEntriesCongruent(es: seq<(Value, Value)>, es': seq<(Value, Value)>, bound: nat)
    requires forall i :: 0 <= i < |es| ==> Depth(es[i].1) < bound
    requires forall i :: 0 <= i < |es'| ==> Depth(es'[i].1) < bound
    requires |es'| == |es|
    requires forall i :: 0 <= i < |es| ==> es'[i].0 == es[i].0 && ToJsonCompat(es'[i].1) == ToJsonCompat(es[i].1)
    ensures NormEntries(es', false, bound) == NormEntries(es, false, bound)
  {
    var rs := EntryOutcomes(es, false, bound);
    assert EntryOutcomes(es', false, bound) == rs;
    if AllOk(rs).Ok? {
      var vals := AllOk(rs).value;
      assert seq(|es'|, i requires 0 <= i < |es'| => (es'[i].0, vals[i]))
          == seq(|es|, i requires 0 <= i < |es| => (es[i].0, vals[i]));
    }
  }

  lemma {:induction false} AsDictNormalizesRecord(v: Value, t: Ty)
    requires t.RecordT? && WellTypedAt(v, t, true)
    ensures ToJsonCompat(AsDictInner(v)) == ToJsonCompat(v)
    decreases t, 0
  {
    var es := AsDictInner(v).entries;
    forall i | 0 <= i < |es| ensures es[i].1 != VNone {
      assert es[i].1 == AsDictInner(v.fields[i].1);
      WellTypedNotNone(v.fields[i].1, t.fields[i].ty, true);
    }
    ChildDepths(v);
    ChildDepths(AsDictInner(v));
    assert EntryOutcomes(es, true, Depth(v)) == EntryOutcomes(es, false, Depth(v));
  }

  /**
   * The codec's central promise: a well-typed value, normalised to JSON data
   * and decoded at its own type, comes back unchanged.
   */
  lemma {:induction false} JsonRoundTrip(v: Value, t: Ty)
    requires WellTyped(v, t)
    ensures ToJsonCompat(v).Ok? && FromJson(ToJsonCompat(v).value, t) == Ok(v)
    decreases t, 1
  {
    match t
    case UnionT(first, rest) => JsonRoundTrip(v, first);
    case EnumT(name, ms) => RoundTripEnum(v, name, ms);
    case ListT(et) => RoundTripList(v, t);
    case DictT(_, _) => RoundTripDict(v, t);
    case RecordT(_, _) => RoundTripRecord(v, t);
    case _ =>
  }

  lemma RoundTripEnum(v: Value, name: string, ms: seq<Member>)
    requires WellTyped(v, EnumT(name, ms))
    ensures ToJsonCompat(v).Ok? && FromJson(ToJsonCompat(v).value, EnumT(name, ms)) == Ok(v)
  {
    var j := PrimValue(v.value);
    assert ToJsonCompat(v) == Ok(j);
    var k := EnumLookup(ms, j).value;
    PrimValueInjective(ms[k].value, v.value);
    assert Fits(j, name, ms, 0);
    EnumFirstFit(j, name, ms, 0);
  }

  lemma {:induction false} RoundTripList(v: Value, t: Ty)
    requires t.ListT? && WellTyped(v, t)
    ensures ToJsonCompat(v).Ok? && FromJson(ToJsonCompat(v).value, t) == Ok(v)
    decreases t, 0
  {
    var items := v.items;
    forall i | 0 <= i < |items| ensures ToJsonCompat(items[i]).Ok? && FromJson(ToJsonCompat(items[i]).value, t.elem) == Ok(items[i]) {
      JsonRoundTrip(items[i], t.elem);
    }
    ToJsonCompatList(v);
    var j := ToJsonCompat(v).value;
    FromJsonList(j, t.elem);
    assert FromJson(j, t).value.items == items;
  }

  lemma {:induction false} RoundTripDict(v: Value, t: Ty)
    requires t.DictT? && WellTyped(v, t)
    ensures ToJsonCompat(v).Ok? && FromJson(ToJsonCompat(v).value, t) == Ok(v)
    decreases t, 0
  {
    var es := v.entries;
    forall i | 0 <= i < |es| ensures ToJsonCompat(es[i].1).Ok? && FromJson(ToJsonCompat(es[i].1).value, t.elem) == Ok(es[i].1) {
      JsonRoundTrip(es[i].1, t.elem);
    }
    ToJsonCompatDict(v);
    var js := ToJsonCompat(v).value.entries;
    EntriesFromJsonAligned(js, es, t, 0, js);
  }

  /** The dict loop over a string-keyed object whose values decode to es's values rebuilds es in place. */
  lemma {:induction false} EntriesFromJsonAligned(js: seq<(Value, Value)>, es: seq<(Value, Value)>, t: Ty, i: nat, d: seq<(Value, Value)>)
    requires t.DictT? && t.key == StrT && i <= |es| && DistinctKeys(es)
    requires |js| == |es| && |d| == |es|
    requires forall k :: 0 <= k < |es| ==> js[k].0 == es[k].0 && d[k].0 == es[k].0
    requires forall k :: 0 <= k < i ==> d[k] == es[k]
    requires forall k :: 0 <= k < |es| ==> FromJson(js[k].1, t.elem) == Ok(es[k].1)
    ensures EntriesFromJson(js, t, i, d) == Ok(es)
    decreases |es| - i
  {
    if i == |es| {
      assert d == es;
    } else {
      assert DistinctKeys(d);
      DictSetAt(d, i, es[i].1);
      EntriesFromJsonAligned(js, es, t, i + 1, d[i := es[i]]);
    }
  }

  lemma {:induction false} RoundTripRecord(v: Value, t: Ty)
    requires t.RecordT? && WellTyped(v, t)
    ensures ToJsonCompat(v).Ok? && FromJson(ToJsonCompat(v).value, t) == Ok(v)
    decreases t, 0
  {
    var fs := v.fields;
    forall i | 0 <= i < |fs| && fs[i].1 != VNone
      ensures ToJsonCompat(fs[i].1).Ok? && FromJson(ToJsonCompat(fs[i].1).value, t.fields[i].ty) == Ok(fs[i].1)
    {
      NestedIsWellTyped(fs[i].1, t.fields[i].ty);
      JsonRoundTrip(fs[i].1, t.fields[i].ty);
    }
    RecordToJson(v, t);
    var js := ToJsonCompat(v).value.entries;
    forall i | 0 <= i < |js| ensures FromJson(js[i].1, t.fields[i].ty) == Ok(fs[i].1) {
      if fs[i].1 == VNone {
        WellTypedNotNone(fs[i].1, t.fields[i].ty, true);
        NullFieldFromJson(t.fields[i].ty);
      }
    }
    RecordFromJson(v, t, js);
  }

  /** A None in an `Optional[str|int|float]` field decodes to None: the str, int and float rules return the data as is. */
  lemma NullFieldFromJson(t: Ty)
    requires NullableField(t)
    ensures FromJson(VNone, t) == Ok(VNone)
  {
  }

  /** `R(x=None)` for `x: Optional[str] = None` (or int, or float) goes to `{"x": None}` and comes back. */
  lemma OptionalNoneFieldRoundTrip(name: string, x: string, base: Ty)
    requires base == StrT || base == IntT || base == FloatT
    ensures var t := RecordT(name, [Field(x, Optional(base), Some(VNone))]);
      var v := VRecord(name, [(x, VNone)]);
      ToJsonCompat(v) == Ok(VDict([(VStr(x), VNone)])) && FromJson(ToJsonCompat(v).value, t) == Ok(v)
  {
    var t := RecordT(name, [Field(x, Optional(base), Some(VNone))]);
    var v := VRecord(name, [(x, VNone)]);
    assert NullableField(t.fields[0].ty);
    assert WellTyped(v, t);
    RoundTripRecord(v, t);
    RecordToJson(v, t);
    var es := ToJsonCompat(v).value.entries;
    assert |es| == 1 && es[0] == (VStr(x), VNone);
    assert es == [(VStr(x), VNone)];
  }

  /**
   * Inside another record the same None field is fatal: asdict turns the
   * inner record into a dict, and the dict loop raises RuntimeError on None.
   */
  lemma NestedNoneFieldFails()
    ensures ToJsonCompat(VRecord("Outer", [("inner", VRecord("R", [("x", VNone)]))])) == Err(RuntimeError)
  {
    var inner := VRecord("R", [("x", VNone)]);
    var v := VRecord("Outer", [("inner", inner)]);
    var d := VDict([(VStr("x"), VNone)]);
    assert AsDictInner(inner) == d;
    assert AsDictInner(v).entries == [(VStr("inner"), d)];
    ChildDepths(d);
    assert EntryOutcomes(d.entries, false, Depth(d)) == [Err(RuntimeError)];
    assert ToJsonCompat(d) == Err(RuntimeError);
    ChildDepths(v);
    assert EntryOutcomes(AsDictInner(v).entries, true, Depth(v)) == [Err(RuntimeError)];
  }

  /**
   * A well-typed record normalises to the dict of its field names and
   * normalised field values, with None fields kept None.
   */
  lemma RecordToJson(v: Value, t: Ty)
    requires t.RecordT? && WellTyped(v, t)
    requires forall i :: 0 <= i < |v.fields| && v.fields[i].1 != VNone ==> ToJsonCompat(v.fields[i].1).Ok?
    ensures ToJsonCompat(v).Ok? && ToJsonCompat(v).value.VDict?
    ensures |ToJsonCompat(v).value.entries| == |v.fields|
    ensures forall i :: 0 <= i < |v.fields| ==>
              ToJsonCompat(v).value.entries[i]
              == (VStr(t.fields[i].name), if v.fields[i].1 == VNone then VNone else ToJsonCompat(v.fields[i].1).value)
  {
    var fs := v.fields;
    var es := AsDictInner(v).entries;
    assert forall i :: 0 <= i < |es| ==> es[i] == (VStr(fs[i].0), AsDictInner(fs[i].1));
    ChildDepths(v);
    var rs := EntryOutcomes(es, true, Depth(v));
    forall i | 0 <= i < |fs|
      ensures rs[i] == if fs[i].1 == VNone then Ok(VNone) else ToJsonCompat(fs[i].1)
    {
      if fs[i].1 != VNone {
        WellTypedNotNone(fs[i].1, t.fields[i].ty, true);
        AsDictNormalizes(fs[i].1, t.fields[i].ty);
      }
    }
    assert ToJsonCompat(v) == NormEntries(es, true, Depth(v));
  }

  /** Decoding the dict of field names and encoded field values at the record type rebuilds the record. */
  lemma RecordFromJson(v: Value, t: Ty, js: seq<(Value, Value)>)
    requires t.RecordT? && WellTyped(v, t)
    requires |js| == |v.fields|
    requires forall i :: 0 <= i < |js| ==> js[i].0 == VStr(t.fields[i].name)
    requires forall i :: 0 <= i < |js| ==> FromJson(js[i].1, t.fields[i].ty) == Ok(v.fields[i].1)
    ensures FromJson(VDict(js), t) == Ok(v)
  {
    var data := seq(|js|, i requires 0 <= i < |js| => (VStr(t.fields[i].name), v.fields[i].1));
    FieldsFromJsonAligned(v, t, js, 0, js);
    ConstructAligned(v, t, data);
  }

  /** The dataclass loop finds every field at its own position and replaces it with the decoded value. */
  lemma {:induction false} FieldsFromJsonAligned(v: Value, t: Ty, js: seq<(Value, Value)>, i: nat, data: seq<(Value, Value)>)
    requires t.RecordT? && WellTyped(v, t) && i <= |t.fields|
    requires |js| == |t.fields| && |data| == |t.fields|
    requires forall k :: 0 <= k < |js| ==> js[k].0 == VStr(t.fields[k].name) && data[k].0 == js[k].0
    requires forall k :: 0 <= k < i ==> data[k].1 == v.fields[k].1
    requires forall k :: i <= k < |js| ==> data[k] == js[k]
    requires forall k :: 0 <= k < |js| ==> FromJson(js[k].1, t.fields[k].ty) == Ok(v.fields[k].1)
    ensures FieldsFromJson(data, t, i) == Ok(seq(|js|, k requires 0 <= k < |js| => (VStr(t.fields[k].name), v.fields[k].1)))
    decreases |t.fields| - i
  {
    assert DistinctKeys(data);
    if i == |t.fields| {
      assert data == seq(|js|, k requires 0 <= k < |js| => (VStr(t.fields[k].name), v.fields[k].1));
    } else {
      DictGetAt(data, i);
      DictSetAt(data, i, v.fields[i].1);
      FieldsFromJsonAligned(v, t, js, i + 1, data[i := (data[i].0, v.fields[i].1)]);
    }
  }

  /** `typ(**data)` with exactly the fields, in order, builds the record. */
  lemma ConstructAligned(v: Value, t: Ty, data: seq<(Value, Value)>)
    requires t.RecordT? && v.VRecord? && |v.fields| == |t.fields| && DistinctNames(t.fields)
    requires forall i :: 0 <= i < |t.fields| ==> v.fields[i].0 == t.fields[i].name
    requires v.recName == t.name
    requires |data| == |t.fields|
    requires forall i :: 0 <= i < |data| ==> data[i] == (VStr(t.fields[i].name), v.fields[i].1)
    ensures Construct(t.name, t.fields, data) == Ok(v)
  {
    var fields := t.fields;
    assert DistinctKeys(data);
    forall i | 0 <= i < |data| ensures IsFieldKey(fields, data[i].0) {
      assert fields[i] in fields;
    }
    var args := seq(|fields|, i requires 0 <= i < |fields| => FieldArg(fields[i], data));
    forall i | 0 <= i < |fields| ensures args[i] == Ok(v.fields[i].1) {
      DictGetAt(data, i);
    }
    var vals := AllOk(args).value;
    assert seq(|fields|, i requires 0 <= i < |fields| => (fields[i].name, vals[i])) == v.fields;
  }

  // ---------------------------------------------------------------------
  // The loops of normalize_to_json_compat and normalize_from_json

  /** normalize_to_json_compat as the source runs it: loops that fill `json_data`. */
  method NormalizeToJsonCompat(v: Value) returns (r: Outcome<Value>)
    ensures r == ToJsonCompat(v)
    decreases Depth(v), if v.VEnum? then 2 else 1
  {
    ChildDepths(v);
    match v {
      case VRecord(_, _) =>
        r := NormalizeRecordFields(AsDictInner(v).entries, Depth(v));
      case VEnum(_, _, p) =>
        r := NormalizeToJsonCompat(PrimValue(p));
      case VStr(_) => r := Ok(v);
      case VInt(_) => r := Ok(v);
      case VFloat(_) => r := Ok(v);
      case VBool(_) => r := Ok(v);
      case VDict(es) =>
        r := NormalizeDictEntries(es, Depth(v));
      case VList(items) =>
        r := NormalizeListItems(items, Depth(v));
      case _ =>
        r := Err(RuntimeError);
    }
  }

  /** The dataclass loop: `json_data = asdict(val)`, then every value that is not None is replaced in place. */
  method NormalizeRecordFields(es: seq<(Value, Value)>, bound: nat) returns (r: Outcome<Value>)
    requires forall i :: 0 <= i < |es| ==> Depth(es[i].1) < bound
    ensures r == NormEntries(es, true, bound)
    decreases bound, 0
  {
    var rs := EntryOutcomes(es, true, bound);
    var json := es;
    var i := 0;
    while i < |json|
      invariant 0 <= i <= |json| && |json| == |es|
      invariant forall k :: i <= k < |es| ==> json[k] == es[k]
      invariant forall k :: 0 <= k < i ==> json[k].0 == es[k].0 && rs[k] == Ok(json[k].1)
    {
      if json[i].1 != VNone {
        var x := NormalizeToJsonCompat(json[i].1);
        if x.Err? {
          AllOkFirstErr(rs, i);
          return x;
        }
        json := json[i := (json[i].0, x.value)];
      }
      i := i + 1;
    }
    assert seq(|es|, k requires 0 <= k < |es| => (es[k].0, AllOk(rs).value[k])) == json;
    r := Ok(VDict(json));
  }

  /** The dict loop: `json_data = {}`; a dict's keys are distinct, so each assignment adds an entry. */
  method NormalizeDictEntries(es: seq<(Value, Value)>, bound: nat) returns (r: Outcome<Value>)
    requires forall i :: 0 <= i < |es| ==> Depth(es[i].1) < bound
    ensures r == NormEntries(es, false, bound)
    decreases bound, 0
  {
    var rs := EntryOutcomes(es, false, bound);
    var json: seq<(Value, Value)> := [];
    var i := 0;
    while i < |es|
      invariant 0 <= i <= |es| && |json| == i
      invariant forall k :: 0 <= k < i ==> json[k].0 == es[k].0 && rs[k] == Ok(json[k].1)
    {
      var x := NormalizeToJsonCompat(es[i].1);
      if x.Err? {
        AllOkFirstErr(rs, i);
        return x;
      }
      json := json + [(es[i].0, x.value)];
      i := i + 1;
    }
    assert seq(|es|, k requires 0 <= k < |es| => (es[k].0, AllOk(rs).value[k])) == json;
    r := Ok(VDict(json));
  }

  /** The list loop: every element normalised, in order. */
  method NormalizeListItems(items: seq<Value>, bound: nat) returns (r: Outcome<Value>)
    requires forall i :: 0 <= i < |items| ==> Depth(items[i]) < bound
    ensures r == match AllOk(seq(|items|, i requires 0 <= i < |items| => ToJsonCompat(items[i])))
                 case Err(e) => Err(e)
                 case Ok(vals) => Ok(VList(vals))
    decreases bound, 0
  {
    var rs := seq(|items|, k requires 0 <= k < |items| => ToJsonCompat(items[k]));
    var json: seq<Value> := [];
    var i := 0;
    while i < |items|
      invariant 0 <= i <= |items| && |json| == i
      invariant forall k :: 0 <= k < i ==> rs[k] == Ok(json[k])
    {
      var x := NormalizeToJsonCompat(items[i]);
      if x.Err? {
        AllOkFirstErr(rs, i);
        return x;
      }
      json := json + [x.value];
      i := i + 1;
    }
    assert AllOk(rs).value == json;
    r := Ok(VList(json));
  }

  /**
   * normalize_from_json with its loops: Union unwrapping, then the type
   * dispatch. The bool branch is the corrected `JsonBool`.
   */
  method NormalizeFromJson(j: Value, t: Ty) returns (r: Outcome<Value>)
    ensures r == FromJson(j, t)
    decreases t, 2
  {
    var typ := t;
    if t.UnionT? {
      typ := t.first;
      if PrintsAsOptional(typ) && j == VStr("null") {
        return Ok(VNone);
      }
    }
    r := NormalizeUnwrapped(j, typ);
  }

  /** The type dispatch of normalize_from_json, after a Union has been unwrapped. */
  method NormalizeUnwrapped(j: Value, t: Ty) returns (r: Outcome<Value>)
    ensures r == FromJsonUnwrapped(j, t)
    decreases t, 1
  {
    match t {
      case EnumT(_, _) => r := NormalizeEnum(j, t);
      case StrT => r := Ok(j);
      case IntT => r := Ok(j);
      case FloatT => r := Ok(j);
      case BoolT => r := JsonBool(j);
      case DictT(_, _) => r := NormalizeDict(j, t);
      case ListT(_) => r := NormalizeList(j, t);
      case RecordT(_, _) => r := NormalizeRecord(j, t);
      case _ =>
        r := Err(TypeError);
    }
  }

  /** The Enum loop: each member's value type in turn, then `typ(json_data)`. */
  method NormalizeEnum(j: Value, t: Ty) returns (r: Outcome<Value>)
    requires t.EnumT?
    ensures r == FromJsonUnwrapped(j, t)
    decreases t, 0
  {
    var name, ms := t.name, t.members;
    var i := 0;
    while i < |ms|
      invariant 0 <= i <= |ms|
      invariant EnumFromJson(j, name, ms, i) == EnumFromJson(j, name, ms, 0)
    {
      var x := FromJsonLeaf(j, TypeOfPrim(ms[i].value));
      if x.Ok? {
        var m := EnumCall(name, ms, x.value);
        if m.Ok? {
          return m;
        }
      }
      i := i + 1;
    }
    r := EnumCall(name, ms, j);
  }

  /** The dict branch: each value and then its key normalised, the entry set in the dict. */
  method NormalizeDict(j: Value, t: Ty) returns (r: Outcome<Value>)
    requires t.DictT?
    ensures r == FromJsonUnwrapped(j, t)
    decreases t, 0
  {
    if !j.VDict? {
      return Err(NotAMappingError(j));
    }
    var es := j.entries;
    var d := es;
    var i := 0;
    while i < |es|
      invariant 0 <= i <= |es|
      invariant EntriesFromJson(es, t, i, d) == EntriesFromJson(es, t, 0, es)
    {
      var y := NormalizeFromJson(es[i].1, t.elem);
      if y.Err? {
        return Err(y.error);
      }
      var k := NormalizeFromJson(es[i].0, t.key);
      if k.Err? {
        return Err(k.error);
      }
      d := DictSet(d, k.value, y.value);
      i := i + 1;
    }
    r := Ok(VDict(d));
  }

  /**
   * The list branch: every element normalised in place. A str or a dict is
   * enumerated too: its first character or key is normalised before the
   * assignment fails.
   */
  method NormalizeList(j: Value, t: Ty) returns (r: Outcome<Value>)
    requires t.ListT?
    ensures r == FromJsonUnwrapped(j, t)
    decreases t, 0
  {
    var et := t.elem;
    if j.VStr? && |j.s| > 0 {
      var x := NormalizeFromJson(VStr([j.s[0]]), et);
      if x.Err? {
        return Err(x.error);
      }
      return Err(TypeError);
    }
    if j.VDict? && |j.entries| > 0 {
      var x := NormalizeFromJson(j.entries[0].0, et);
      if x.Err? {
        return Err(x.error);
      }
      return Err(RuntimeError);
    }
    if !j.VList? {
      return if j.VStr? || j.VDict? then Ok(j) else Err(TypeError);
    }
    var rs := seq(|j.items|, k requires 0 <= k < |j.items| => FromJson(j.items[k], et));
    var items := j.items;
    var i := 0;
    while i < |items|
      invariant 0 <= i <= |items| && |items| == |j.items|
      invariant forall k :: i <= k < |items| ==> items[k] == j.items[k]
      invariant forall k :: 0 <= k < i ==> rs[k] == Ok(items[k])
    {
      var x := NormalizeFromJson(items[i], et);
      if x.Err? {
        AllOkFirstErr(rs, i);
        return x;
      }
      items := items[i := x.value];
      i := i + 1;
    }
    assert AllOk(rs).value == items;
    r := Ok(VList(items));
  }

  /** The dataclass branch: every field looked up, normalised and written back, then the class called. */
  method NormalizeRecord(j: Value, t: Ty) returns (r: Outcome<Value>)
    requires t.RecordT?
    ensures r == FromJsonUnwrapped(j, t)
    decreases t, 0
  {
    if !j.VDict? {
      return Err(TypeError);
    }
    var fields := t.fields;
    var data := j.entries;
    var i := 0;
    while i < |fields|
      invariant 0 <= i <= |fields|
      invariant FieldsFromJson(data, t, i) == FieldsFromJson(j.entries, t, 0)
    {
      var key := VStr(fields[i].name);
      var x := DictGet(data, key);
      if x.None? {
        return Err(KeyError);
      }
      var y := NormalizeFromJson(x.value, fields[i].ty);
      if y.Err? {
        return Err(y.error);
      }
      data := DictSet(data, key, y.value);
      i := i + 1;
    }
    r := Construct(t.name, fields, data);
  }
}
