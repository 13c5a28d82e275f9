/**
 * Server-side dispatch: how a request for a `@web_api` function is turned
 * into a call and the call's result into an HTTP reply, and how the
 * decorator derives the route and registers the function.
 */
module Decorators {
  import opened Wrappers
  import opened Text
  import opened Values
  import Conversions
  import Web

  datatype RestMethod = GET | POST

  // ---------------------------------------------------------------------------
  // the decorated function
  // ---------------------------------------------------------------------------

  /** A parameter of the decorated function, with its type hint if it has one. */
  datatype Param = Param(name: string, annotation: Option<Ty>, hasDefault: bool)

  /** Keyword arguments in insertion order; the names are distinct. */
  type Kwargs = seq<(string, Value)>

  /** What iterating an async generator gives: the items it yields, then the exception it ends with, if any. */
  datatype Stream = Stream(items: seq<Value>, failure: Option<Exn>)

  /** What calling the function and awaiting or iterating the result does. */
  datatype Body =
    | Coroutine(run: Kwargs -> Outcome<Value>)   // `async def`: awaiting gives a value or raises
    | AsyncGen(gen: Kwargs -> Stream)            // `async def` with `yield`
    | Sync(call: Kwargs -> Outcome<Value>)       // a plain `def`

  /** The decorated function: qualified name, parameters, return hint and behaviour. */
  datatype WebFunc = WebFunc(qualname: string, params: seq<Param>, returnType: Option<Ty>, body: Body)

  /** `annotations[name]` once 'return' is removed: the hint of the first parameter so named. */
  function AnnotationOf(params: seq<Param>, name: string): (r: Option<Ty>)
    ensures r.Some? <==> exists i :: 0 <= i < |params| && params[i].name == name && params[i].annotation.Some?
  {
    if |params| == 0 then None
    else if params[0].name == name && params[0].annotation.Some? then params[0].annotation
    else AnnotationOf(params[1..], name)
  }

  /** A key naming an annotated parameter. */
  predicate Known(params: seq<Param>, k: Value)
  {
    k.VStr? && AnnotationOf(params, k.s).Some?
  }

  // ---------------------------------------------------------------------------
  // _convert_request_param
  // ---------------------------------------------------------------------------

  /**
   * `typ(value)` for a type that reaches the generic branch of
   * _convert_request_param. Classes the model does not know are constructed
   * by the environment.
   */
  function TypeCall(t: Ty, value: string, env: Env): Outcome<Value>
  {
    match t
    case StrT => Ok(VStr(value))
    case IntT => (match ParseInt(value) case Some(i) => Ok(VInt(i)) case None => Err(ValueError))
    case FloatT => (match env.parseFloat(value) case Some(r) => Ok(VFloat(r)) case None => Err(ValueError))
    case EnumT(name, ms) => Conversions.EnumCall(name, ms, VStr(value))
    case BareListT => Ok(VList(seq(|value|, i requires 0 <= i < |value| => VStr([value[i]]))))
    case BareDictT => if value == "" then Ok(VDict([])) else Err(ValueError)
    case RecordT(name, fields) =>
      if |fields| == 0 then Err(TypeError)
      else Conversions.Construct(name, fields, [(VStr(fields[0].name), VStr(value))])
    case ClassT(name, _) => env.construct(name, value)
    case _ => Err(TypeError)
  }

  /**
   * `_convert_request_param(value, typ)` (decorators.py lines 20-43): a union
   * whose repr starts with 'typing.Union' is replaced by its first argument; a
   * class with `deserialize` decodes the text itself; bool accepts only 'true'
   * and 'false' in any letter case; every other type is called on the text,
   * and any failure of that call is reported as TypeError.
   */
  function ConvertRequestParam(value: string, t: Ty, env: Env): (r: Outcome<Value>)
    decreases t
  {
    if t.UnionT? && !PrintsAsOptional(t) then ConvertRequestParam(value, t.first, env)
    else if t.ClassT? && t.deserializable then env.deserialize(t.name, value)
    else if t == BoolT then
      if Lower(value) == "true" then Ok(VBool(true))
      else if Lower(value) == "false" then Ok(VBool(false))
      else Err(ValueError)
    else
      match TypeCall(t, value, env)
      case Ok(v) => Ok(v)
      case Err(_) => Err(TypeError)
  }

  /** A bool parameter is true or false exactly for 'true' or 'false' in any case; anything else is ValueError. */
  lemma ConvertBoolParam(value: string, env: Env)
    ensures ConvertRequestParam(value, BoolT, env) == Ok(VBool(true)) <==> Lower(value) == "true"
    ensures ConvertRequestParam(value, BoolT, env) == Ok(VBool(false)) <==> Lower(value) == "false"
    ensures ConvertRequestParam(value, BoolT, env).Err? <==> Lower(value) != "true" && Lower(value) != "false"
    ensures ConvertRequestParam(value, BoolT, env).Err? ==> ConvertRequestParam(value, BoolT, env).error == ValueError
  {
  }

  /** A union that does not print as Optional converts against its first argument only. */
  lemma ConvertUnionFirst(value: string, first: Ty, rest: seq<Ty>, env: Env)
    requires !PrintsAsOptional(UnionT(first, rest))
    ensures ConvertRequestParam(value, UnionT(first, rest), env) == ConvertRequestParam(value, first, env)
  {
  }

  /**
   * `Optional[X]` prints as 'typing.Optional[X]', so it is not unwrapped:
   * calling it raises, and every value is refused with TypeError.
   */
  lemma ConvertOptionalRefused(value: string, t: Ty, env: Env)
    ensures ConvertRequestParam(value, Optional(t), env) == Err(TypeError)
  {
  }

  /** Outside the union, deserialize and bool rules, a failed conversion is always TypeError. */
  lemma ConvertFailureIsTypeError(value: string, t: Ty, env: Env)
    requires !t.UnionT? && !(t.ClassT? && t.deserializable) && t != BoolT
    ensures ConvertRequestParam(value, t, env).Err? <==> TypeCall(t, value, env).Err?
    ensures ConvertRequestParam(value, t, env).Err? ==> ConvertRequestParam(value, t, env).error == TypeError
  {
  }

  /** The text `str(v)` of a str, int or bool converts back to v. */
  lemma ConvertParamRoundTrip(v: Value, t: Ty, env: Env)
    requires (v.VStr? && t == StrT) || (v.VInt? && t == IntT) || (v.VBool? && t == BoolT)
    ensures ConvertRequestParam(PyStr(v), t, env) == Ok(v)
  {
    if v.VInt? {
      ConvertIntRoundTrip(v.i, env);
    } else if v.VBool? {
      ConvertBoolRoundTrip(v.b, env);
    }
  }

  lemma ConvertIntRoundTrip(i: int, env: Env)
    ensures ConvertRequestParam(IntToDecimal(i), IntT, env) == Ok(VInt(i))
  {
    DecimalRoundTrip(i);
    ConvertParsedInt(IntToDecimal(i), i, env);
  }

  lemma ConvertParsedInt(s: string, i: int, env: Env)
    requires ParseInt(s) == Some(i)
    ensures ConvertRequestParam(s, IntT, env) == Ok(VInt(i))
  {
  }

  lemma ConvertBoolRoundTrip(b: bool, env: Env)
    ensures ConvertRequestParam(if b then "True" else "False", BoolT, env) == Ok(VBool(b))
  {
    assert Lower("True") == "true";
    assert Lower("False") == "false";
  }

  // ---------------------------------------------------------------------------
  // _serialize_return_value
  // ---------------------------------------------------------------------------

  /**
   * `text.encode(encoding)`: an unknown codec raises LookupError (even for the
   * empty text); a character the codec cannot encode raises
   * UnicodeEncodeError, a ValueError.
   */
  function Encode(text: string, encoding: string, env: Env): (r: Outcome<seq<byte>>)
    ensures !env.knownCodec(encoding) <==> r == Err(LookupError)
    ensures env.knownCodec(encoding) ==> (r.Ok? <==> env.encode(text, encoding).Some?)
    ensures env.knownCodec(encoding) && r.Ok? ==> r.value == env.encode(text, encoding).value
    ensures r.Err? ==> r.error in {LookupError, ValueError}
  {
    if !env.knownCodec(encoding) then Err(LookupError)
    else match env.encode(text, encoding)
      case Some(b) => Ok(b)
      case None => Err(ValueError)
  }

  /** Values `_serialize_return_value` falls through on, so that it returns None. */
  predicate SerializesToNothing(v: Value)
  {
    !IsScalar(v) && !(v.VObject? && !v.image.NoSerialize?)
  }

  /**
   * `_serialize_return_value(value, encoding)` (decorators.py lines 46-67):
   * str, bool, int and float are sent as their `str()` text; an object with
   * `serialize` is sent as the str image encoded or the bytes image as is; a
   * failing `serialize` or an image of another type raises TypeError; any
   * other value gives None.
   */
  function SerializeReturnValue(v: Value, encoding: string, env: Env): (r: Outcome<Option<seq<byte>>>)
    ensures r == Ok(None) <==> SerializesToNothing(v)
    ensures IsScalar(v) && !env.knownCodec(encoding) ==> r == Err(LookupError)
    ensures IsScalar(v) && env.knownCodec(encoding) ==>
      (env.encode(PyStr(v), encoding).Some? <==> r.Ok?)
      && (r.Ok? ==> r.value == env.encode(PyStr(v), encoding))
      && (r.Err? ==> r.error == ValueError)
    ensures v.VObject? && v.image.SerializesTo? && v.image.v.VStr? ==> r == match Encode(v.image.v.s, encoding, env)
      case Ok(b) => Ok(Some(b)) case Err(e) => Err(e)
    ensures v.VObject? && v.image.SerializesTo? && v.image.v.VBytes? ==> r == Ok(Some(v.image.v.bytes))
    ensures v.VObject? && v.image.SerializeRaises? ==> r == Err(TypeError)
    ensures v.VObject? && v.image.SerializesTo? && !v.image.v.VStr? && !v.image.v.VBytes? ==> r == Err(TypeError)
  {
    if IsScalar(v) then
      match Encode(PyStr(v), encoding, env)
      case Ok(b) => Ok(Some(b))
      case Err(e) => Err(e)
    else if v.VObject? && !v.image.NoSerialize? then
      match v.image
      case SerializeRaises(_) => Err(TypeError)
      case SerializesTo(img) =>
        if img.VStr? then
          (match Encode(img.s, encoding, env) case Ok(b) => Ok(Some(b)) case Err(e) => Err(e))
        else if img.VBytes? then Ok(Some(img.bytes))
        else Err(TypeError)
    else Ok(None)
  }

  // ---------------------------------------------------------------------------
  // the charset scan
  // ---------------------------------------------------------------------------

  /** A content-type item as matched: lower-cased on the GET path, as is on the POST path. */
  function ItemText(item: string, lower: bool): string
  {
    if lower then Lower(item) else item
  }

  predicate IsCharsetItem(item: string, lower: bool)
  {
    StartsWith(ItemText(item, lower), "charset=")
  }

  /** The encoding named by ';'-separated items: the last charset item wins, 'utf-8' when there is none. */
  function EncodingOf(items: seq<string>, lower: bool): string
  {
    if |items| == 0 then "utf-8"
    else if IsCharsetItem(items[|items| - 1], lower) then RemoveAll(ItemText(items[|items| - 1], lower), "charset=")
    else EncodingOf(items[..|items| - 1], lower)
  }

  /** With a charset item at k and none after it, the encoding is k's item with 'charset=' removed. */
  lemma {:induction false} CharsetLastWins(items: seq<string>, lower: bool, k: nat)
    requires k < |items| && IsCharsetItem(items[k], lower)
    requires forall j :: k < j < |items| ==> !IsCharsetItem(items[j], lower)
    ensures EncodingOf(items, lower) == RemoveAll(ItemText(items[k], lower), "charset=")
    decreases |items|
  {
    if k < |items| - 1 {
      var init := items[..|items| - 1];
      assert forall j :: k < j < |init| ==> init[j] == items[j];
      CharsetLastWins(init, lower, k);
    }
  }

  /** Without a charset item the encoding is 'utf-8'. */
  lemma {:induction false} CharsetDefault(items: seq<string>, lower: bool)
    requires forall j :: 0 <= j < |items| ==> !IsCharsetItem(items[j], lower)
    ensures EncodingOf(items, lower) == "utf-8"
    decreases |items|
  {
    if |items| > 0 {
      var init := items[..|items| - 1];
      assert forall j :: 0 <= j < |init| ==> init[j] == items[j];
      CharsetDefault(init, lower);
    }
  }

  /** The loop at decorators.py lines 73-77 (lower = true) and 127-130 (lower = false). */
  method ContentEncoding(contentType: string, lower: bool) returns (encoding: string)
    ensures encoding == EncodingOf(Split(contentType, ';'), lower)
  {
    encoding := "utf-8";
    var items := Split(contentType, ';');
    var i := 0;
    while i < |items|
      invariant 0 <= i <= |items|
      invariant encoding == EncodingOf(items[..i], lower)
    {
      assert items[..i + 1][..i] == items[..i];
      var item := items[i];
      if lower {
        item := Lower(item);
      }
      if StartsWith(item, "charset=") {
        encoding := RemoveAll(item, "charset=");
      }
      i := i + 1;
    }
    assert items[..i] == items;
  }

  // ---------------------------------------------------------------------------
  // parameter checks and keyword arguments
  // ---------------------------------------------------------------------------

  /** The first key that names no annotated parameter. */
  function FirstUnknown(keys: seq<Value>, params: seq<Param>): (r: Option<Value>)
    ensures r.None? <==> forall i :: 0 <= i < |keys| ==> Known(params, keys[i])
    ensures r.Some? ==> exists i :: 0 <= i < |keys| && keys[i] == r.value && !Known(params, keys[i])
                          && forall j :: 0 <= j < i ==> Known(params, keys[j])
  {
    if |keys| == 0 then None
    else if !Known(params, keys[0]) then Some(keys[0])
    else
      var r := FirstUnknown(keys[1..], params);
      assert forall i :: 0 <= i < |keys| - 1 ==> keys[1..][i] == keys[i + 1];
      r
  }

  /** `for k in [p for p in keys if p not in annotations]: return ...` */
  method FindUnknown(keys: seq<Value>, params: seq<Param>) returns (r: Option<Value>)
    ensures r == FirstUnknown(keys, params)
  {
    var i := 0;
    while i < |keys|
      invariant 0 <= i <= |keys|
      invariant FirstUnknown(keys[i..], params) == FirstUnknown(keys, params)
    {
      assert keys[i..][1..] == keys[i + 1..];
      if !Known(params, keys[i]) {
        return Some(keys[i]);
      }
      i := i + 1;
    }
    r := None;
  }

  /** The names of the query pairs, in order, repeats kept. */
  function QueryKeys(query: seq<(string, string)>): (r: seq<Value>)
    ensures |r| == |query| && forall i :: 0 <= i < |query| ==> r[i] == VStr(query[i].0)
  {
    seq(|query|, i requires 0 <= i < |query| => VStr(query[i].0))
  }

  /**
   * `{k: _convert_request_param(v, annotations[k]) for k, v in query}` added
   * to `acc`: pairs are converted in order and the first failure wins; an
   * unannotated name is a KeyError; a repeated name keeps its first position
   * and takes its last value.
   */
  function ConvertQuery(query: seq<(string, string)>, params: seq<Param>, env: Env, acc: Kwargs): (r: Outcome<Kwargs>)
    ensures r.Ok? ==> forall i :: 0 <= i < |query| ==> AnnotationOf(params, query[i].0).Some?
    ensures r.Ok? ==> forall k :: DictGet(acc, k).Some? ==> DictGet(r.value, k).Some?
    ensures r.Ok? ==> forall i :: 0 <= i < |query| ==> DictGet(r.value, query[i].0).Some?
    ensures r.Ok? ==> forall k :: (forall i :: 0 <= i < |query| ==> query[i].0 != k) ==> DictGet(r.value, k) == DictGet(acc, k)
    decreases |query|
  {
    if |query| == 0 then Ok(acc)
    else
      assert forall i :: 0 <= i < |query| - 1 ==> query[1..][i] == query[i + 1];
      match AnnotationOf(params, query[0].0)
      case None => Err(KeyError)
      case Some(t) =>
        match ConvertRequestParam(query[0].1, t, env)
        case Err(e) => Err(e)
        case Ok(v) => ConvertQuery(query[1..], params, env, DictSet(acc, query[0].0, v))
  }

  /** The keyword argument of a pair whose name does not occur later holds that pair's converted value. */
  lemma {:induction false} ConvertQueryLastWins(query: seq<(string, string)>, params: seq<Param>, env: Env, acc: Kwargs, i: nat)
    requires ConvertQuery(query, params, env, acc).Ok?
    requires i < |query|
    requires forall j :: i < j < |query| ==> query[j].0 != query[i].0
    ensures AnnotationOf(params, query[i].0).Some?
    ensures ConvertRequestParam(query[i].1, AnnotationOf(params, query[i].0).value, env).Ok?
    ensures DictGet(ConvertQuery(query, params, env, acc).value, query[i].0)
         == Some(ConvertRequestParam(query[i].1, AnnotationOf(params, query[i].0).value, env).value)
    decreases |query|
  {
    var t := AnnotationOf(params, query[0].0).value;
    var v := ConvertRequestParam(query[0].1, t, env).value;
    var acc' := DictSet(acc, query[0].0, v);
    assert ConvertQuery(query, params, env, acc) == ConvertQuery(query[1..], params, env, acc');
    if i == 0 {
      assert forall j :: 0 <= j < |query| - 1 ==> query[1..][j].0 != query[0].0;
    } else {
      assert forall j :: i - 1 < j < |query| - 1 ==> query[1..][j] == query[j + 1];
      ConvertQueryLastWins(query[1..], params, env, acc', i - 1);
    }
  }

  /** The comprehension's loop, folding each converted pair into `kwargs`. */
  method ConvertQueryParams(query: seq<(string, string)>, params: seq<Param>, env: Env, init: Kwargs) returns (r: Outcome<Kwargs>)
    ensures r == ConvertQuery(query, params, env, init)
  {
    var kwargs := init;
    var i := 0;
    while i < |query|
      invariant 0 <= i <= |query|
      invariant ConvertQuery(query[i..], params, env, kwargs) == ConvertQuery(query, params, env, init)
    {
      assert query[i..][1..] == query[i + 1..];
      var (k, text) := query[i];
      var t := AnnotationOf(params, k);
      if t.None? {
        return Err(KeyError);
      }
      var v := ConvertRequestParam(text, t.value, env);
      if v.Err? {
        return Err(v.error);
      }
      kwargs := DictSet(kwargs, k, v.value);
      i := i + 1;
    }
    r := Ok(kwargs);
  }

  /** `func(**kwargs)` binds: every name is a parameter, and every parameter without a default is given. */
  predicate Binds(params: seq<Param>, kwargs: Kwargs)
  {
    (forall i :: 0 <= i < |kwargs| ==> exists p :: p in params && p.name == kwargs[i].0)
    && (forall p :: p in params && !p.hasDefault ==> exists i :: 0 <= i < |kwargs| && kwargs[i].0 == p.name)
  }

  // ---------------------------------------------------------------------------
  // replies
  // ---------------------------------------------------------------------------

  datatype ReplyBody =
    | Payload(bytes: seq<byte>)
    | NoSuchParameter(key: Value)   // "No such parameter or missing type hint for param ..."
    | Failure(e: Exn)               // the text of the exception

  /** What the wrapper coroutine produces for one request. */
  datatype Reply =
    | Respond(status: int, body: ReplyBody)
    | Streamed(chunks: seq<seq<byte>>)              // a 200 StreamResponse, written, closed, returned
    | StreamedUnreturned(chunks: seq<seq<byte>>)    // the same, but the wrapper returns None
    | Escaped(e: Exn)                               // the wrapper itself raises

  /** The catch-all handlers: TypeError is the caller's fault (400), anything else the server's (500). */
  function ErrorReply(e: Exn): (r: Reply)
    ensures r.Respond? && r.body == Failure(e)
    ensures r.status == 400 <==> e == TypeError
    ensures r.status == 500 <==> e != TypeError
  {
    Respond(if e == TypeError then 400 else 500, Failure(e))
  }

  const Success: seq<byte> := [83, 117, 99, 99, 101, 115, 115]   // b"Success"

  /**
   * A single awaited result, serialized into a 200 reply. aiohttp's
   * `Response` refuses a `content_type` that contains 'charset' with
   * ValueError; that happens inside the wrapper's try, so the reply is 500.
   */
  function SingleReply(v: Value, contentType: string, encoding: string, env: Env): (r: Reply)
    ensures r.Respond?
    ensures r.status == 200 <==> SerializeReturnValue(v, encoding, env).Ok? && !Contains(contentType, "charset")
    ensures SerializeReturnValue(v, encoding, env).Err? ==> r == ErrorReply(SerializeReturnValue(v, encoding, env).error)
    ensures SerializeReturnValue(v, encoding, env).Ok? && Contains(contentType, "charset") ==> r == ErrorReply(ValueError)
    ensures SerializesToNothing(v) && !Contains(contentType, "charset") ==> r == Respond(200, Payload(Success))
    ensures var s := SerializeReturnValue(v, encoding, env);
      s.Ok? && s.value.Some? && !Contains(contentType, "charset") ==> r == Respond(200, Payload(s.value.value))
  {
    match SerializeReturnValue(v, encoding, env)
    case Err(e) => ErrorReply(e)
    case Ok(b) =>
      if Contains(contentType, "charset") then ErrorReply(ValueError)
      else if b.None? then Respond(200, Payload(Success))
      else Respond(200, Payload(b.value))
  }

  /** One streamed item's chunk: its serialization, followed by a newline unless the item is a str. */
  function Frame(v: Value, encoding: string, env: Env): (r: Outcome<seq<byte>>)
    ensures r.Ok? <==> SerializeReturnValue(v, encoding, env).Ok? && SerializeReturnValue(v, encoding, env).value.Some?
    ensures r.Ok? && v.VStr? ==> r.value == SerializeReturnValue(v, encoding, env).value.value
    ensures r.Ok? && !v.VStr? ==> r.value == SerializeReturnValue(v, encoding, env).value.value + [10]
  {
    match SerializeReturnValue(v, encoding, env)
    case Err(e) => Err(e)
    case Ok(None) => Err(TypeError)   // `None += b'\n'`
    case Ok(Some(b)) => Ok(if v.VStr? then b else b + [10])
  }

  /**
   * The chunks written for the yielded items: one per item, in order, up to
   * the first item that cannot be framed; that exception is swallowed.
   */
  function StreamChunks(items: seq<Value>, encoding: string, env: Env): (r: seq<seq<byte>>)
    ensures |r| <= |items|
  {
    if |items| == 0 then []
    else
      match Frame(items[0], encoding, env)
      case Err(_) => []
      case Ok(c) => [c] + StreamChunks(items[1..], encoding, env)
  }

  /**
   * Chunk i is the frame of item i, and the stream stops exactly at the
   * first item that cannot be framed.
   */
  lemma {:induction false} StreamChunksFrames(items: seq<Value>, encoding: string, env: Env)
    ensures var r := StreamChunks(items, encoding, env);
      (forall i :: 0 <= i < |r| ==> Frame(items[i], encoding, env) == Ok(r[i]))
      && (|r| < |items| ==> Frame(items[|r|], encoding, env).Err?)
    decreases |items|
  {
    if |items| > 0 && Frame(items[0], encoding, env).Ok? {
      StreamChunksFrames(items[1..], encoding, env);
      var rest := StreamChunks(items[1..], encoding, env);
      assert forall i :: 0 <= i < |items| - 1 ==> items[1..][i] == items[i + 1];
      assert StreamChunks(items, encoding, env) == [Frame(items[0], encoding, env).value] + rest;
    }
  }

  /** When every item frames, one chunk is written per item. */
  lemma StreamAllItems(items: seq<Value>, encoding: string, env: Env)
    requires forall i :: 0 <= i < |items| ==> Frame(items[i], encoding, env).Ok?
    ensures |StreamChunks(items, encoding, env)| == |items|
  {
    StreamChunksFrames(items, encoding, env);
  }

  /** aiohttp's StreamResponse as the wrappers use it: prepared with status 200, written to, closed. */
  class StreamResponse {
    var status: int
    var contentType: string
    var written: seq<seq<byte>>
    var eof: bool

    constructor(contentType: string)
      ensures status == 200 && this.contentType == contentType && written == [] && !eof
    {
      status := 200;
      this.contentType := contentType;
      written := [];
      eof := false;
    }

    method Write(data: seq<byte>)
      requires !eof
      modifies this
      ensures written == old(written) + [data]
      ensures status == old(status) && contentType == old(contentType) && !eof
    {
      written := written + [data];
    }

    method WriteEof()
      modifies this
      ensures eof
      ensures written == old(written) && status == old(status) && contentType == old(contentType)
    {
      eof := true;
    }
  }

  /**
   * The `async for` loop at decorators.py lines 99-109 and 181-191: each item
   * is framed and written; the first failure ends the loop and the response
   * is closed all the same.
   */
  method WriteStream(response: StreamResponse, items: seq<Value>, encoding: string, env: Env)
    requires !response.eof
    modifies response
    ensures response.written == old(response.written) + StreamChunks(items, encoding, env)
    ensures response.eof
    ensures response.status == old(response.status) && response.contentType == old(response.contentType)
  {
    ghost var start := response.written;
    ghost var chunks := StreamChunks(items, encoding, env);
    StreamChunksFrames(items, encoding, env);
    var i := 0;
    var open := true;
    while i < |items| && open
      invariant 0 <= i <= |chunks|
      invariant !response.eof
      invariant response.status == old(response.status) && response.contentType == old(response.contentType)
      invariant response.written == start + chunks[..i]
      invariant !open ==> i == |chunks|
      decreases if open then |items| - i + 1 else 0
    {
      open := WriteItem(response, items[i], encoding, env);
      if open {
        assert chunks[..i + 1] == chunks[..i] + [chunks[i]];
        i := i + 1;
      }
    }
    assert chunks[..i] == chunks;
    response.WriteEof();
  }

  /** One item of the loop: its frame is written, or nothing is when it cannot be framed. */
  method WriteItem(response: StreamResponse, v: Value, encoding: string, env: Env) returns (ok: bool)
    requires !response.eof
    modifies response
    ensures ok == Frame(v, encoding, env).Ok?
    ensures ok ==> response.written == old(response.written) + [Frame(v, encoding, env).value]
    ensures !ok ==> response.written == old(response.written)
    ensures !response.eof && response.status == old(response.status) && response.contentType == old(response.contentType)
  {
    var chunk := Frame(v, encoding, env);
    if chunk.Err? {
      return false;
    }
    response.Write(chunk.value);
    ok := true;
  }

  /**
   * `result = func(**kwargs)` and what follows: a binding error or an
   * exception of the awaited coroutine is an error reply; an async generator
   * is streamed (and, on the POST path, not returned); a coroutine's result is
   * serialized; a plain function's result cannot be awaited (TypeError).
   */
  function CallReply(f: WebFunc, kwargs: Kwargs, contentType: string, encoding: string, env: Env, returned: bool): Reply
  {
    if !Binds(f.params, kwargs) then ErrorReply(TypeError)
    else
      match f.body
      case AsyncGen(gen) =>
        var chunks := StreamChunks(gen(kwargs).items, encoding, env);
        if returned then Streamed(chunks) else StreamedUnreturned(chunks)
      case Coroutine(run) =>
        (match run(kwargs)
         case Err(e) => ErrorReply(e)
         case Ok(v) => SingleReply(v, contentType, encoding, env))
      case Sync(call) =>
        (match call(kwargs)
         case Err(e) => ErrorReply(e)
         case Ok(_) => ErrorReply(TypeError))
  }

  /**
   * `_invoke_get_api_wrapper` (decorators.py lines 70-122): the charset scan,
   * the check that every query name is an annotated parameter (400 naming the
   * first that is not), conversion of the query, and the call.
   */
  function GetReply(f: WebFunc, contentType: string, query: seq<(string, string)>, env: Env): Reply
  {
    var encoding := EncodingOf(Split(contentType, ';'), true);
    match FirstUnknown(QueryKeys(query), f.params)
    case Some(k) => Respond(400, NoSuchParameter(k))
    case None =>
      match ConvertQuery(query, f.params, env, [])
      case Err(e) => ErrorReply(e)
      case Ok(kwargs) => CallReply(f, kwargs, contentType, encoding, env, true)
  }

  /** A POST request as the wrapper sees it. */
  datatype PostRequest = PostRequest(canReadBody: bool, query: seq<(string, string)>, body: seq<byte>)

  /** A parameter annotated bytes, AsyncChunkGenerator or AsyncLineGenerator. */
  predicate IsStreamParam(p: Param)
  {
    p.annotation.Some? && p.annotation.value in {BytesT, AsyncChunkGenerator, AsyncLineGenerator}
  }

  /**
   * `[a for a in annotations.items() if a[1] in (bytes, AsyncChunkGenerator,
   * AsyncLineGenerator)]`: exactly the stream parameters, with their types.
   */
  function StreamParams(params: seq<Param>): (r: seq<(string, Ty)>)
    ensures |r| <= |params|
    ensures forall i :: 0 <= i < |r| ==> r[i].1 in {BytesT, AsyncChunkGenerator, AsyncLineGenerator}
    ensures forall x :: x in r <==> exists i :: 0 <= i < |params| && IsStreamParam(params[i]) && x == (params[i].name, params[i].annotation.value)
  {
    if |params| == 0 then []
    else
      var rest := StreamParams(params[1..]);
      assert forall i :: 0 <= i < |params| - 1 ==> params[1..][i] == params[i + 1];
      if IsStreamParam(params[0]) then [(params[0].name, params[0].annotation.value)] + rest
      else rest
  }

  /** The stream parameters keep the order of the signature. */
  lemma {:induction false} StreamParamsAppend(a: seq<Param>, b: seq<Param>)
    ensures StreamParams(a + b) == StreamParams(a) + StreamParams(b)
    decreases |a|
  {
    if |a| > 0 {
      assert (a + b)[1..] == a[1..] + b;
      StreamParamsAppend(a[1..], b);
    } else {
      assert a + b == b;
    }
  }

  /** The argument the POST wrapper passes for the stream parameter. */
  function StreamArg(t: Ty, req: PostRequest): Value
  {
    if t == BytesT then VBytes(req.body)                              // await request.read()
    else if t == AsyncLineGenerator then VObject("async_generator", NoSerialize)
    else VObject("function", NoSerialize)                             // the chunk iterator factory
  }

  /** `dict(json_dict)` for an object whose keys are all strings. */
  function JsonKwargs(es: seq<(Value, Value)>): (r: Kwargs)
    ensures |r| == |es|
    ensures forall i :: 0 <= i < |es| && es[i].0.VStr? ==> r[i] == (es[i].0.s, es[i].1)
  {
    seq(|es|, i requires 0 <= i < |es| => (if es[i].0.VStr? then es[i].0.s else "", es[i].1))
  }

  /** The JSON-body branch once the body parsed: every key must be annotated; values are passed unconverted. */
  function JsonReply(f: WebFunc, json: Value, contentType: string, encoding: string, env: Env): Reply
  {
    if !json.VDict? then ErrorReply(TypeError)
    else
      match FirstUnknown(seq(|json.entries|, i requires 0 <= i < |json.entries| => json.entries[i].0), f.params)
      case Some(k) => Respond(400, NoSuchParameter(k))
      case None => CallReply(f, JsonKwargs(json.entries), contentType, encoding, env, false)
  }

  /**
   * `_invoke_post_api_wrapper` (decorators.py lines 125-203): the charset scan
   * without lower-casing and the readable-body check both sit outside the try;
   * with a stream parameter (at most one) the query is converted into the
   * remaining arguments, otherwise the body is a JSON object of arguments.
   */
  function PostReply(f: WebFunc, contentType: string, req: PostRequest, env: Env): Reply
  {
    var encoding := EncodingOf(Split(contentType, ';'), false);
    if !req.canReadBody then Escaped(TypeError)
    else
      var streams := StreamParams(f.params);
      if |streams| > 0 then
        if |streams| != 1 then ErrorReply(ValueError)
        else
          match ConvertQuery(req.query, f.params, env, [(streams[0].0, StreamArg(streams[0].1, req))])
          case Err(e) => ErrorReply(e)
          case Ok(kwargs) => CallReply(f, kwargs, contentType, encoding, env, false)
      else
        match env.decode(req.body)
        case None => ErrorReply(ValueError)
        case Some(text) =>
          match env.loads(text)
          case None => ErrorReply(ValueError)
          case Some(json) => JsonReply(f, json, contentType, encoding, env)
  }

  /** The call and the stream or single reply, as the wrappers perform it. */
  method Invoke(f: WebFunc, kwargs: Kwargs, contentType: string, encoding: string, env: Env, returned: bool) returns (reply: Reply)
    ensures reply == CallReply(f, kwargs, contentType, encoding, env, returned)
  {
    if !Binds(f.params, kwargs) {
      return ErrorReply(TypeError);
    }
    match f.body {
      case AsyncGen(gen) =>
        var response := new StreamResponse(contentType);
        WriteStream(response, gen(kwargs).items, encoding, env);
        if returned {
          reply := Streamed(response.written);
        } else {
          reply := StreamedUnreturned(response.written);
        }
      case Coroutine(run) =>
        var result := run(kwargs);
        if result.Err? {
          return ErrorReply(result.error);
        }
        reply := SingleReply(result.value, contentType, encoding, env);
      case Sync(call) =>
        var result := call(kwargs);
        if result.Err? {
          return ErrorReply(result.error);
        }
        reply := ErrorReply(TypeError);
    }
  }

  /** `_invoke_get_api_wrapper` step by step. */
  method InvokeGetApi(f: WebFunc, contentType: string, query: seq<(string, string)>, env: Env) returns (reply: Reply)
    ensures reply == GetReply(f, contentType, query, env)
  {
    var encoding := ContentEncoding(contentType, true);
    var unknown := FindUnknown(QueryKeys(query), f.params);
    if unknown.Some? {
      return Respond(400, NoSuchParameter(unknown.value));
    }
    var kwargs := ConvertQueryParams(query, f.params, env, []);
    if kwargs.Err? {
      return ErrorReply(kwargs.error);
    }
    reply := Invoke(f, kwargs.value, contentType, encoding, env, true);
  }

  /** `_invoke_post_api_wrapper` step by step. */
  method InvokePostApi(f: WebFunc, contentType: string, req: PostRequest, env: Env) returns (reply: Reply)
    ensures reply == PostReply(f, contentType, req, env)
  {
    var encoding := ContentEncoding(contentType, false);
    if !req.canReadBody {
      return Escaped(TypeError);
    }
    var streams := StreamParams(f.params);
    if |streams| > 0 {
      if |streams| != 1 {
        return ErrorReply(ValueError);
      }
      var (key, t) := streams[0];
      var kwargs := ConvertQueryParams(req.query, f.params, env, [(key, StreamArg(t, req))]);
      if kwargs.Err? {
        return ErrorReply(kwargs.error);
      }
      reply := Invoke(f, kwargs.value, contentType, encoding, env, false);
    } else {
      var text := env.decode(req.body);
      if text.None? {
        return ErrorReply(ValueError);
      }
      var json := env.loads(text.value);
      if json.None? {
        return ErrorReply(ValueError);
      }
      if !json.value.VDict? {
        return ErrorReply(TypeError);
      }
      var es := json.value.entries;
      var unknown := FindUnknown(seq(|es|, i requires 0 <= i < |es| => es[i].0), f.params);
      if unknown.Some? {
        return Respond(400, NoSuchParameter(unknown.value));
      }
      reply := Invoke(f, JsonKwargs(es), contentType, encoding, env, false);
    }
  }

  // ---------------------------------------------------------------------------
  // properties of the replies
  // ---------------------------------------------------------------------------

  /** A GET query naming an unannotated parameter gets 400, whatever the function would have done. */
  lemma GetUnknownRejected(f: WebFunc, contentType: string, query: seq<(string, string)>, env: Env, i: nat)
    requires i < |query| && AnnotationOf(f.params, query[i].0).None?
    ensures GetReply(f, contentType, query, env).Respond?
    ensures GetReply(f, contentType, query, env).status == 400
    ensures forall b :: GetReply(f.(body := b), contentType, query, env) == GetReply(f, contentType, query, env)
  {
    assert !Known(f.params, QueryKeys(query)[i]);
  }

  /** A POST JSON object with a key naming no annotated parameter gets 400, whatever the function would have done. */
  lemma PostUnknownRejected(f: WebFunc, contentType: string, req: PostRequest, env: Env, text: string, es: seq<(Value, Value)>, i: nat)
    requires req.canReadBody && |StreamParams(f.params)| == 0
    requires env.decode(req.body) == Some(text) && env.loads(text) == Some(VDict(es))
    requires i < |es| && !Known(f.params, es[i].0)
    ensures PostReply(f, contentType, req, env).Respond?
    ensures PostReply(f, contentType, req, env).status == 400
    ensures forall b :: PostReply(f.(body := b), contentType, req, env) == PostReply(f, contentType, req, env)
  {
    var keys := seq(|es|, j requires 0 <= j < |es| => es[j].0);
    assert !Known(f.params, keys[i]);
  }

  /**
   * A coroutine returning a value with nothing to serialize is answered 200
   * "Success", on both verbs, when the content type names no charset.
   */
  lemma NothingIsSuccess(f: WebFunc, kwargs: Kwargs, contentType: string, encoding: string, env: Env, returned: bool, v: Value)
    requires Binds(f.params, kwargs) && f.body.Coroutine? && f.body.run(kwargs) == Ok(v)
    requires SerializesToNothing(v) && !Contains(contentType, "charset")
    ensures CallReply(f, kwargs, contentType, encoding, env, returned) == Respond(200, Payload(Success))
  {
  }

  /**
   * With a content type that contains 'charset', every coroutine result that
   * serializes is answered 500: the reply object cannot be built.
   */
  lemma CharsetContentTypeRefused(f: WebFunc, kwargs: Kwargs, contentType: string, encoding: string, env: Env, returned: bool, v: Value)
    requires Binds(f.params, kwargs) && f.body.Coroutine? && f.body.run(kwargs) == Ok(v)
    requires SerializeReturnValue(v, encoding, env).Ok? && Contains(contentType, "charset")
    ensures CallReply(f, kwargs, contentType, encoding, env, returned) == Respond(500, Failure(ValueError))
  {
  }

  /**
   * A streamed reply does not depend on how the generator ends: the chunks
   * are those of the yielded items, and an exception raised by the generator
   * still gives a closed 200 stream.
   */
  lemma StreamIgnoresFailure(f: WebFunc, kwargs: Kwargs, contentType: string, encoding: string, env: Env, returned: bool)
    requires Binds(f.params, kwargs) && f.body.AsyncGen?
    ensures CallReply(f, kwargs, contentType, encoding, env, returned)
         == (if returned then Streamed(StreamChunks(f.body.gen(kwargs).items, encoding, env))
             else StreamedUnreturned(StreamChunks(f.body.gen(kwargs).items, encoding, env)))
  {
  }

  /** More than one stream parameter is refused with ValueError, i.e. status 500. */
  lemma TwoStreamParamsRefused(f: WebFunc, contentType: string, req: PostRequest, env: Env)
    requires req.canReadBody && |StreamParams(f.params)| > 1
    ensures PostReply(f, contentType, req, env) == Respond(500, Failure(ValueError))
  {
  }

  // ---------------------------------------------------------------------------
  // web_api
  // ---------------------------------------------------------------------------

  /** The last two parts of a dotted name (fewer when there are fewer). */
  function LastTwo(parts: seq<string>): (r: seq<string>)
    ensures |r| == if |parts| >= 2 then 2 else |parts|
    ensures r == parts[|parts| - |r|..]
  {
    if |parts| >= 2 then parts[|parts| - 2..] else parts
  }

  /** `'/' + '/'.join(qualname.split('.')[-2:])`. */
  function RouteOf(qualname: string): string
  {
    "/" + Join(LastTwo(Split(qualname, '.')), "/")
  }

  predicate NoDot(s: string)
  {
    '.' !in s
  }

  /** `Cls.meth` splits into its two parts. */
  lemma SplitMethodName(cls: string, meth: string)
    requires NoDot(cls) && NoDot(meth)
    ensures Split(cls + "." + meth, '.') == [cls, meth]
  {
    SplitNoSep(meth, '.');
    SplitCons(cls, '.', meth);
  }

  /** A method `Cls.meth`, possibly nested in other scopes, is served at '/Cls/meth'. */
  lemma RouteOfMethod(scope: string, cls: string, meth: string)
    requires NoDot(cls) && NoDot(meth)
    ensures RouteOf(cls + "." + meth) == "/" + cls + "/" + meth
    ensures RouteOf(scope + "." + cls + "." + meth) == "/" + cls + "/" + meth
  {
    var name := cls + "." + meth;
    SplitMethodName(cls, meth);
    assert Join([cls, meth], "/") == cls + "/" + meth;
    assert scope + "." + cls + "." + meth == scope + ['.'] + name;
    SplitConcat(scope, '.', name);
    var parts := Split(scope, '.') + [cls, meth];
    assert parts[|parts| - 2..] == [cls, meth];
  }

  /** A name without a dot is served at '/' followed by the name. */
  lemma RouteOfPlainName(name: string)
    requires NoDot(name)
    ensures RouteOf(name) == "/" + name
  {
    SplitNoSep(name, '.');
  }

  /** The `method` argument: one of the two RestMethod members, or something else. */
  datatype MethodArg = Verb(m: RestMethod) | NotARestMethod

  /** The object `@web_api(...)` is applied to. */
  datatype Decoratee = Decoratee(isStaticMethod: bool, moduleName: string, func: WebFunc)

  /** Every check `web_api` and its inner wrapper make before registering. */
  predicate Accepted(contentType: Value, verb: MethodArg, d: Decoratee)
  {
    contentType.VStr? && d.isStaticMethod && !d.func.body.Sync? && verb.Verb?
  }

  /** The exception the checks raise, in the order they are made. */
  function Refusal(contentType: Value, verb: MethodArg, d: Decoratee): (e: Exn)
    requires !Accepted(contentType, verb, d)
    ensures !contentType.VStr? ==> e == PlainException
    ensures contentType.VStr? ==> e == ValueError
  {
    if !contentType.VStr? then PlainException
    else ValueError   // not a staticmethod, not a coroutine or async generator function, or not a RestMethod
  }

  /**
   * `web_api(content_type, method)(func)` (decorators.py lines 206-258): the
   * checks, then registration of `invoke_get` or `invoke_post` under the
   * derived route; the undecorated function is returned.
   */
  method WebApi(tables: Web.RouteTables, contentType: Value, verb: MethodArg, d: Decoratee) returns (r: Outcome<WebFunc>)
    requires tables.Valid()
    modifies tables
    ensures tables.Valid()
    ensures !Accepted(contentType, verb, d) ==> r == Err(Refusal(contentType, verb, d)) && unchanged(tables)
    ensures Accepted(contentType, verb, d) && old(tables.Registered(RouteOf(d.func.qualname))) ==>
      r == Err(DuplicateRoute) && unchanged(tables)
    ensures Accepted(contentType, verb, d) && !old(tables.Registered(RouteOf(d.func.qualname))) ==>
      var route := RouteOf(d.func.qualname);
      var ref := Web.WebApiRef(d.moduleName, d.func.qualname);
      r == Ok(d.func)
      && tables.contentType == old(tables.contentType)[route := contentType.s]
      && (verb.m == GET ==>
            tables.routesGet == old(tables.routesGet)[route := Web.InvokeGet(ref, contentType.s)]
            && tables.callablesGet == old(tables.callablesGet)[route := ref]
            && tables.orderGet == old(tables.orderGet) + [route]
            && tables.routesPost == old(tables.routesPost)
            && tables.callablesPost == old(tables.callablesPost)
            && tables.orderPost == old(tables.orderPost))
      && (verb.m == POST ==>
            tables.routesPost == old(tables.routesPost)[route := Web.InvokePost(ref, contentType.s)]
            && tables.callablesPost == old(tables.callablesPost)[route := ref]
            && tables.orderPost == old(tables.orderPost) + [route]
            && tables.routesGet == old(tables.routesGet)
            && tables.callablesGet == old(tables.callablesGet)
            && tables.orderGet == old(tables.orderGet))
  {
    if !contentType.VStr? {
      return Err(PlainException);
    }
    if !d.isStaticMethod {
      return Err(ValueError);
    }
    if d.func.body.Sync? {
      return Err(ValueError);
    }
    var route := RouteOf(d.func.qualname);
    var ref := Web.WebApiRef(d.moduleName, d.func.qualname);
    match verb {
      case Verb(GET) =>
        var done := tables.RegisterRouteGet(route, Web.InvokeGet(ref, contentType.s), ref, contentType.s);
        if done.Err? {
          return Err(done.error);
        }
      case Verb(POST) =>
        var done := tables.RegisterRoutePost(route, Web.InvokePost(ref, contentType.s), ref, contentType.s);
        if done.Err? {
          return Err(done.error);
        }
      case NotARestMethod =>
        return Err(ValueError);
    }
    r := Ok(d.func);
  }
}
