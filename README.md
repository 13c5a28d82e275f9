# bantam in Dafny

Bantam is a Python framework for typed RPC over HTTP. A server class marks
its static coroutines with `@web_api(content_type, method)`. That registers
each one under the route `/<Class>/<method>` in the class-level tables of
`WebApplication`. The request wrappers then:

- turn query strings or a JSON body into typed arguments;
- call the function;
- send back its serialized result, or stream the items an async generator
  yields.

On the client side, `WebInterface.Client` builds a stub class whose methods
send the matching requests. `JavascriptGenerator` emits browser stubs,
grouped by module namespace and class.

This project models that core in Dafny and proves what it promises:

| Python file | Dafny module | form |
|---|---|---|
| `src/bantam/conversions.py` | `Conversions` | The codec, as recursive functions. Its loops are methods proved against them. |
| `src/bantam/decorators.py` | `Decorators` | Parameter conversion, serialization, the charset scan, the request wrappers and `web_api`. The loops are methods, and the streamed response is a class with a `written` log. |
| `src/bantam/web.py` | `Web` | The class-level route tables, as a class with maps and a disjointness invariant, plus the server object. |
| `src/bantam/client.py` | `Client` | The URL builder, endpoint and name normalisation, the stub scan, the stub cache (a class), argument binding and reading replies. |
| `src/bantam/js.py` | `Js` | The namespace tree (a class) and route collection in `generate`, docstring re-indenting and the template choices. |

Two support modules sit beside them:

- `Text` holds the Python string operations the core relies on: `lower`, `split`, `join`, `strip`, `splitlines`, `replace`, `int()` and `str()` of an int.
- `Values` holds Python types (`Ty`), Python values (`Value`), exceptions (`Exn`), and the environment `Env`. `Env` stands for what the model cannot see: `json.loads`/`json.dumps`, `float()`, codecs, user `deserialize` methods and constructors.

JSON data is the subset of `Value` that `IsJsonCompat` admits. The HTTP layer
is abstract:

- a GET request is its query pairs, and a POST request is its query pairs, its body bytes and whether the body can be read;
- a reply is a status with a body, or a closed stream of chunks, or an exception that escapes the wrapper.

Where the code and its design notes disagree, the model follows the code,
with two exceptions, both corrections logged under "## Findings":

- The bool branch of `normalize_from_json` (conversions.py:55) is the corrected rule of the first Findings row, which keeps a JSON boolean. `JsonBoolAsWritten` is the code as written; `FromJson` and the methods that compute it use the corrected `JsonBool`.
- Positional arguments are bound with the receiver skipped (`SkipReceiver`, offset 1) for every stub kind, as client.py:67-69 does. For the non-streamed instance stub this is the corrected rule of the second Findings row: client.py:173-175 as written uses offset 0, which `ArgOffsetAsWritten` and `InstanceArgBindsSelf` model.

- aiohttp's `Response` refuses a `content_type` argument that contains 'charset' with ValueError. The wrappers build their 200 reply inside the try, so such a content type turns every successful non-streamed call into a 500.

- An invalid bool parameter raises `ValueError` (decorators.py:39), and the wrapper maps that to 500, not 400.
- Python prints `Optional[X]` as `typing.Optional[X]`, so `_convert_request_param` does not unwrap it; calling it raises, which the wrapper reports as TypeError.
- A streamed POST reply is written and closed, but `_invoke_post_api_wrapper` returns None for it (decorators.py:192); the model records this as `StreamedUnreturned`.
- On both paths a content-type item with a leading space (`"text/plain; charset=x"`) does not match `charset=`, because the items are not stripped; the GET loop only lower-cases them.
- The instance POST streamed stub and the class POST streamed stub differ in NUL stripping:
  - the instance stub strips a final NUL byte from str chunks;
  - the class stub does not (client.py:146-150).
- `_generate_get_request` uses the return annotation unchanged as its converter key, so a missing one would select `'(null'`. That converter is never written: `_generate_docs` runs first and evaluates `None.__name__` for a missing or `None` return type, which raises AttributeError (js.py:108-110, 187).
- `_generate_post_request` takes `__args__[1]` of the return annotation. A plain class there raises AttributeError.

## Model

| member | source | states |
|---|---|---|
| Text.Lower | src/bantam/decorators.py:35-37 | `str.lower()` keeps the length and lower-cases each character. |
| Text.Split | src/bantam/decorators.py:73 | `split(sep)` never returns an empty list, and no part contains the separator. |
| Text.JoinSplit | src/bantam/decorators.py:242-243 | Joining the parts of a split with the same separator gives the text back. |
| Text.SplitJoin | src/bantam/decorators.py:242-243 | Splitting a join of separator-free parts gives the parts back. |
| Text.SplitNoSep | src/bantam/decorators.py:242 | A name without a dot splits into itself alone. |
| Text.SplitCons | src/bantam/decorators.py:242 | A separator-free head splits off as the first part. |
| Text.SplitConcat | src/bantam/decorators.py:242 | Splitting at a separator splits both sides independently. |
| Text.RemoveAll | src/bantam/decorators.py:77 | `replace(pat, '')` never lengthens the text. |
| Text.LStrip | src/bantam/js.py:106 | The result is a suffix of the input that does not start with whitespace. |
| Text.RStrip | src/bantam/js.py:106 | The result is a prefix of the input that does not end with whitespace. |
| Text.Strip | src/bantam/js.py:106 | `strip()` leaves text that neither starts nor ends with whitespace. |
| Text.StripUnpadded | src/bantam/js.py:106 | `strip()` leaves text without surrounding whitespace unchanged. |
| Text.StripNewline | src/bantam/decorators.py:103-104 | A newline-framed item strips back to its text. |
| Text.FirstBreak | src/bantam/js.py:105 | Gives the index of the first line boundary; no boundary comes before it. |
| Text.SplitLines | src/bantam/js.py:105 | No line of `splitlines()` holds a line boundary. |
| Text.FirstBreakAppend | src/bantam/js.py:105 | A boundary-free head moves the first boundary by its length. |
| Text.StripNoBreak | src/bantam/js.py:106 | A stripped line stays free of line boundaries. |
| Text.SplitLinesCons | src/bantam/js.py:105-106 | A boundary-free line followed by "\n" splits off as exactly that line. |
| Text.SplitLinesTerminated | src/bantam/js.py:105-106 | Boundary-free lines, each followed by "\n", split back into the same lines. |
| Text.NatToDecimal | src/bantam/conversions.py:83-84 | `str(n)` for a natural number is a non-empty run of digits. |
| Text.IntToDecimal | src/bantam/conversions.py:83-84 | `str(i)` is non-empty and made of digits and '-'. |
| Text.DigitsOfNat | src/bantam/conversions.py:111-112 | The digits of `str(n)` denote n. |
| Text.DecimalRoundTrip | src/bantam/conversions.py:111-112 | `int(str(i)) == i` for every int, negative ones included. |
| Text.DecimalNewlineRoundTrip | src/bantam/decorators.py:103-104 | For every int, `int(str(i) + '\n') == i`. |
| Values.PrimValue | src/bantam/conversions.py:42 | An Enum member's value is None or a scalar. |
| Values.EnumLookup | src/bantam/conversions.py:49 | `EnumClass(v)` finds the first member whose value is v, and none when no member has it. |
| Values.DictGet | src/bantam/conversions.py:58-60 | `d.get(k)` finds nothing exactly when no entry has key k. |
| Values.DictGetFirst | src/bantam/conversions.py:58-60 | The value `d.get(k)` finds is that of the first entry with key k. |
| Values.DictSet | src/bantam/conversions.py:60 | After `d[k] = v`, looking k up gives v and every other key keeps its value. |
| Values.DictSetPlaces | src/bantam/conversions.py:60 | `d[k] = v` overwrites the first entry with key k in place, and a new key goes last. |
| Conversions.MaxOf | src/bantam/conversions.py:12-32 | Gives an upper bound of a list of depths (the measure of the codec's recursion). |
| Conversions.AsDictInner | src/bantam/conversions.py:14 | `asdict` turns a record into a dict with one entry per field and keeps the nesting depth. |
| Conversions.ChildDepths | src/bantam/conversions.py:14-29 | Every element, value and field is shallower than its container, also after `asdict`. |
| Conversions.AllOk | src/bantam/conversions.py:24-29 | Evaluates left to right. The whole fails exactly when some part fails, and then with the first failure. Otherwise it gives every value in order. |
| Conversions.AllOkFirstErr | src/bantam/conversions.py:24-29 | When everything before j succeeded, the failure at j is the outcome. |
| Conversions.ToJsonCompat | src/bantam/conversions.py:12-32 | Everything `normalize_to_json_compat` returns is JSON data. |
| Conversions.NormEntries | src/bantam/conversions.py:15-17 | The dict and dataclass loops produce JSON data. |
| Conversions.EntryOutcomes | src/bantam/conversions.py:24-25 | There is one outcome per entry, and every success is JSON data. |
| Conversions.JsonBool | src/bantam/conversions.py:54-55 | A JSON boolean is kept. A string is read as the code reads it. |
| Conversions.ToStr | src/bantam/conversions.py:75-91 | `to_str`: None gives None; scalars come back unchanged, not stringified; an Enum gives its `.value`; bytes and foreign objects raise TypeError; every success is None or a scalar. |
| Conversions.FromStrUnionFirst | src/bantam/conversions.py:103-105 | `from_str` with a Union or Optional converts against the first argument only. |
| Conversions.FromStrBool | src/bantam/conversions.py:113-114 | `from_str(s, bool)` never fails, and it is true exactly when `s.lower() == 'true'`. |
| Conversions.FromStrNoneAndUnsupported | src/bantam/conversions.py:119-124 | `from_str(s, None)` accepts only "" (giving None) and raises ValueError otherwise. A type with no rule raises TypeError. |
| Conversions.StrRoundTrip | src/bantam/conversions.py:83-84 | For every str, `to_str` returns it unchanged and `from_str(to_str(x), str) == x`. |
| Conversions.IntRoundTrip | src/bantam/conversions.py:111-112 | For every int, `from_str(str(to_str(i)), int) == i`. |
| Conversions.BoolRoundTrip | src/bantam/conversions.py:113-114 | `from_str(str(to_str(b)), bool) == b`; 'True' and 'False' lower-case to the expected words. |
| Conversions.PrimValueInjective | src/bantam/conversions.py:42 | Distinct member values stay distinct as Python values. |
| Conversions.EnumStrRoundTrip | src/bantam/conversions.py:81-82 | A str-valued Enum member round-trips through `to_str` and `from_str` when no earlier member shares its value. |
| Conversions.ToJsonCompatList | src/bantam/conversions.py:26-29 | A list keeps its length and order. It fails exactly when an element fails. |
| Conversions.ToJsonCompatDict | src/bantam/conversions.py:22-25 | A dict keeps its keys in order, each value normalised. It fails exactly when a value fails. |
| Conversions.ToJsonCompatRecord | src/bantam/conversions.py:13-17 | A dataclass becomes a dict keyed by its field names in field order, and None fields stay None. |
| Conversions.ToJsonCompatUnsupported | src/bantam/conversions.py:30-31 | None, bytes, foreign objects and None-valued Enum members raise RuntimeError. |
| Conversions.FromJsonLeafAgrees | src/bantam/conversions.py:42-45 | The conversion the Enum loop applies agrees with `normalize_from_json` at each member value type. |
| Conversions.FromJsonUnionFirst | src/bantam/conversions.py:36-39 | A Union is decoded as its first argument. |
| Conversions.FromJsonListNonList | src/bantam/conversions.py:62-66 | At a List type, data that is not a list passes only when it is an empty str or dict. A non-empty str fails with its first character's conversion error or TypeError, a non-empty dict with its first key's error or RuntimeError, and anything else with TypeError. |
| Conversions.FromJsonListOfDictsOnStr | src/bantam/conversions.py:56-66 | A str at `List[Dict[str, str]]` fails with the ValueError of `dict('a')`. |
| Conversions.FromJsonDictUnhashableKey | src/bantam/conversions.py:56-58 | `dict()` of a pair whose key is a list fails with TypeError. |
| Conversions.FromJsonList | src/bantam/conversions.py:62-66 | Lists are converted element by element, keeping length and order. The list fails exactly when an element fails. |
| Conversions.EnumFirstFit | src/bantam/conversions.py:40-48 | The Enum rule takes the first member, in declaration order, whose value type converts the data into a member. |
| Conversions.EnumFirstFitFrom | src/bantam/conversions.py:41-48 | The same, from any starting member. |
| Conversions.EnumFallback | src/bantam/conversions.py:49 | When no member fits, the result is `typ(json_data)`. |
| Conversions.EnumFallbackFrom | src/bantam/conversions.py:41-49 | The same, from any starting member. |
| Conversions.BoolFieldAsWrittenFails | src/bantam/conversions.py:55 | A record with a bool field normalises to a JSON boolean, and line 55 as written fails on it with AttributeError. |
| Conversions.DictGetAt | src/bantam/conversions.py:69 | With distinct keys, `json_data[name]` finds the entry at its own position. |
| Conversions.DictSetAt | src/bantam/conversions.py:69 | With distinct keys, `json_data[name] = x` replaces that entry in place. |
| Conversions.WellTypedNotNone | src/bantam/conversions.py:16 | A well-typed value is not None, also after `asdict`. |
| Conversions.AsDictNormalizes | src/bantam/conversions.py:13-17 | For well-typed values, normalising `asdict`'s output equals normalising the value. |
| Conversions.DictEntriesCongruent | src/bantam/conversions.py:22-25 | Dicts with the same keys whose values normalise alike normalise alike. |
| Conversions.JsonRoundTrip | src/bantam/conversions.py:12-70 | A well-typed value normalises to JSON data, and `normalize_from_json` at its own type gives it back unchanged. Well-typed admits None in an `Optional[str]`, `Optional[int]` or `Optional[float]` field of a record that is not inside another record, and List and Dict only over types whose printed name `eval` reads back. |
| Conversions.RoundTripEnum | src/bantam/conversions.py:18-19 | The round trip for Enum members. |
| Conversions.RoundTripList | src/bantam/conversions.py:26-29 | The round trip for lists. |
| Conversions.RoundTripDict | src/bantam/conversions.py:22-25 | The round trip for str-keyed dicts. |
| Conversions.EntriesFromJsonAligned | src/bantam/conversions.py:56-61 | The dict loop over an object whose values decode to a dict's values rebuilds that dict. |
| Conversions.RoundTripRecord | src/bantam/conversions.py:13-17 | The round trip for dataclasses, None-valued Optional fields included. |
| Conversions.NullFieldFromJson | src/bantam/conversions.py:36-37 | None at an `Optional[str|int|float]` field type decodes to None: the Union is unwrapped and the str, int and float rules return the data as is. |
| Conversions.OptionalNoneFieldRoundTrip | src/bantam/conversions.py:13-17 | A one-field dataclass whose `Optional[str]`, `Optional[int]` or `Optional[float]` field holds None normalises to `{name: None}` and decodes back to itself. |
| Conversions.NestedNoneFieldFails | src/bantam/conversions.py:14-17 | A record holding a record with a None field raises RuntimeError: asdict makes the inner record a dict, and the dict loop has no None rule. |
| Conversions.RecordToJson | src/bantam/conversions.py:13-17 | A well-typed record normalises to the dict of its field names and normalised field values, with None fields kept None. |
| Conversions.RecordFromJson | src/bantam/conversions.py:67-70 | Decoding the dict of field names and encoded values at the record type rebuilds the record. |
| Conversions.FieldsFromJsonAligned | src/bantam/conversions.py:68-69 | The dataclass loop finds every field at its position and replaces it with its decoded value. |
| Conversions.ConstructAligned | src/bantam/conversions.py:70 | `typ(**data)` with exactly the fields, in order, builds the record. |
| Conversions.NormalizeToJsonCompat | src/bantam/conversions.py:12-32 | The loops of `normalize_to_json_compat` compute `ToJsonCompat`. |
| Conversions.NormalizeRecordFields | src/bantam/conversions.py:14-17 | The in-place loop over the `asdict` output computes the dataclass rule. |
| Conversions.NormalizeDictEntries | src/bantam/conversions.py:23-25 | The loop filling `json_data = {}` computes the dict rule. |
| Conversions.NormalizeListItems | src/bantam/conversions.py:27-29 | The append loop computes the list rule: the first failure, or every element normalised in order. |
| Conversions.NormalizeFromJson | src/bantam/conversions.py:35-72 | The loops of `normalize_from_json` compute `FromJson`, whose bool branch is the corrected `JsonBool`. |
| Conversions.NormalizeUnwrapped | src/bantam/conversions.py:40-72 | The dispatch after Union unwrapping computes the unwrapped rule, with the corrected `JsonBool` at bool. |
| Conversions.NormalizeEnum | src/bantam/conversions.py:40-49 | The Enum loop computes the Enum rule. |
| Conversions.NormalizeDict | src/bantam/conversions.py:56-61 | The loop filling `d` computes the dict rule, including the exception `dict()` raises for data that is not an object. |
| Conversions.NormalizeList | src/bantam/conversions.py:62-66 | The in-place loop over `json_data[index]` computes the list rule: a list element by element; a non-empty str or dict fails after its first character or key is converted. |
| Conversions.NormalizeRecord | src/bantam/conversions.py:67-70 | The in-place loop over `json_data[name]` computes the dataclass rule. |
| Decorators.AnnotationOf | src/bantam/decorators.py:78-80 | A name has an annotation exactly when some parameter so named is annotated. |
| Decorators.ConvertBoolParam | src/bantam/decorators.py:34-39 | A bool is true exactly for 'true' and false exactly for 'false', in any case. Every other text raises ValueError. |
| Decorators.ConvertUnionFirst | src/bantam/decorators.py:29-31 | A union printed as 'typing.Union' converts against its first argument only. |
| Decorators.ConvertOptionalRefused | src/bantam/decorators.py:29-43 | `Optional[X]` is not unwrapped, and every value is refused with TypeError. |
| Decorators.ConvertFailureIsTypeError | src/bantam/decorators.py:40-43 | Outside the union, deserialize and bool rules, the conversion fails exactly when `typ(value)` fails, and always with TypeError. |
| Decorators.ConvertParamRoundTrip | src/bantam/decorators.py:20-43 | The text `str(v)` of a str, int or bool converts back to v. |
| Decorators.ConvertIntRoundTrip | src/bantam/decorators.py:40-41 | `int(str(i))` as a parameter gives i back. |
| Decorators.ConvertParsedInt | src/bantam/decorators.py:40-41 | An int parameter converts whatever `int()` parses. |
| Decorators.ConvertBoolRoundTrip | src/bantam/decorators.py:34-38 | 'True' and 'False' convert back to the bool they print. |
| Decorators.SerializeReturnValue | src/bantam/decorators.py:46-67 | Scalars are sent as their `str()` encoded: an unknown codec gives LookupError, an unencodable character ValueError. A str image is encoded the same way and a bytes image is sent unchanged. A `serialize` that raises, or whose result is neither str nor bytes, gives TypeError. The result is None exactly for values with no rule. |
| Decorators.CharsetLastWins | src/bantam/decorators.py:73-77 | With the last charset item at k, the encoding is that item with 'charset=' removed. |
| Decorators.CharsetDefault | src/bantam/decorators.py:72-77 | Without a charset item the encoding is 'utf-8'. |
| Decorators.ContentEncoding | src/bantam/decorators.py:72-77 | The charset loops of both wrappers (items lower-cased on GET, not on POST) compute `EncodingOf`. |
| Decorators.FirstUnknown | src/bantam/decorators.py:82-84 | Gives none exactly when every key is an annotated parameter. Otherwise it gives the first key that is not. |
| Decorators.FindUnknown | src/bantam/decorators.py:82-84 | The scanning loop finds that first unknown key. |
| Decorators.QueryKeys | src/bantam/decorators.py:82 | Gives the query names, in order, repeats kept. |
| Decorators.ConvertQuery | src/bantam/decorators.py:87 | On success every query name is annotated and bound, earlier arguments stay bound, and names outside the query are untouched. |
| Decorators.ConvertQueryLastWins | src/bantam/decorators.py:87 | The argument for a name not repeated later holds that pair's converted value. |
| Decorators.ConvertQueryParams | src/bantam/decorators.py:87 | The comprehension's loop computes `ConvertQuery`. |
| Decorators.ErrorReply | src/bantam/decorators.py:119-122 | TypeError gives 400 and every other exception 500, each carrying the exception. |
| Decorators.SingleReply | src/bantam/decorators.py:115-122 | The status is 200 exactly when serialization succeeds and the content type holds no 'charset'. Then the body is the serialization, or "Success" for a result with nothing to serialize. A serialization failure is an error reply for its exception, and a 'charset' content type a 500 for ValueError. |
| Decorators.Frame | src/bantam/decorators.py:102-104 | A streamed item is its serialization, with b'\n' appended unless the item is a str. |
| Decorators.StreamChunks | src/bantam/decorators.py:101-109 | At most one chunk is written per item. |
| Decorators.StreamChunksFrames | src/bantam/decorators.py:101-108 | Chunk i is the frame of item i, and the stream stops exactly at the first item that cannot be framed. |
| Decorators.StreamAllItems | src/bantam/decorators.py:101-105 | When every item frames, one chunk is written per item. |
| Decorators.StreamResponse.constructor | src/bantam/decorators.py:97 | The response starts with status 200, the content type and nothing written. |
| Decorators.StreamResponse.Write | src/bantam/decorators.py:105 | Appends one chunk to what was written. |
| Decorators.StreamResponse.WriteEof | src/bantam/decorators.py:109 | Closes the stream and leaves the written chunks unchanged. |
| Decorators.WriteStream | src/bantam/decorators.py:99-109 | The written chunks are exactly `StreamChunks`, the stream ends closed, and status and content type are unchanged. |
| Decorators.WriteItem | src/bantam/decorators.py:102-105 | Writes the frame of one item, or nothing when it cannot be framed (and the loop then ends). |
| Decorators.StreamParams | src/bantam/decorators.py:139 | Lists exactly the parameters typed bytes, AsyncChunkGenerator or AsyncLineGenerator, with their types. |
| Decorators.StreamParamsAppend | src/bantam/decorators.py:139 | The stream parameters of a joined signature are those of each part, in order. |
| Decorators.JsonKwargs | src/bantam/decorators.py:168 | `dict(json_dict)` keeps every key and its value, in order. |
| Decorators.Invoke | src/bantam/decorators.py:171-198 | The call and the stream or single reply compute `CallReply`. |
| Decorators.InvokeGetApi | src/bantam/decorators.py:70-122 | `_invoke_get_api_wrapper` step by step computes `GetReply`. |
| Decorators.InvokePostApi | src/bantam/decorators.py:125-203 | `_invoke_post_api_wrapper` step by step computes `PostReply`. |
| Decorators.GetUnknownRejected | src/bantam/decorators.py:82-84 | A query naming an unannotated parameter gets 400 whatever the function does, so the handler is not invoked. |
| Decorators.PostUnknownRejected | src/bantam/decorators.py:163-165 | A JSON key naming no annotated parameter gets 400 whatever the function does. |
| Decorators.CharsetContentTypeRefused | src/bantam/decorators.py:115-122 | With a content type that contains 'charset', every result that serializes is answered 500 for ValueError. |
| Decorators.NothingIsSuccess | src/bantam/decorators.py:115-117 | A coroutine whose result serializes to nothing is answered 200 "Success" on both verbs, when the content type names no charset. |
| Decorators.StreamIgnoresFailure | src/bantam/decorators.py:106-110 | A streamed reply is the closed stream of the yielded items' chunks, however the generator ends. |
| Decorators.TwoStreamParamsRefused | src/bantam/decorators.py:140-142 | Two stream parameters raise ValueError, answered 500. |
| Decorators.LastTwo | src/bantam/decorators.py:242 | `[-2:]` keeps the last two parts, or all of them when there are fewer. |
| Decorators.SplitMethodName | src/bantam/decorators.py:242 | 'Cls.meth' splits into its two parts. |
| Decorators.RouteOfMethod | src/bantam/decorators.py:241-243 | A method `Cls.meth`, nested in any scope, is served at '/Cls/meth'. |
| Decorators.RouteOfPlainName | src/bantam/decorators.py:241-243 | A name without a dot is served at '/' followed by the name. |
| Decorators.Refusal | src/bantam/decorators.py:232-239 | A non-str content type raises a plain Exception, and a rejected function raises ValueError. |
| Decorators.WebApi | src/bantam/decorators.py:230-257 | A refused decoratee changes nothing, and neither does an existing route (DuplicateRoute). Otherwise the GET or POST tables gain `invoke_get` or `invoke_post` under the derived route, which goes last in that verb's order; the other verb's handlers, callables and order are unchanged, and the function is returned. |
| Web.RouteTables.constructor | src/bantam/web.py:82-86 | The tables start empty and valid. |
| Web.RouteTables.RegisterRouteGet | src/bantam/web.py:117-123 | A route registered under either verb is refused with DuplicateRoute and nothing changes. Otherwise the three GET entries are set, the POST tables stay unchanged, and GET and POST routes stay disjoint with content types for all. |
| Web.RouteTables.RegisterRoutePost | src/bantam/web.py:136-142 | The same, with the roles of GET and POST exchanged. |
| Web.RouteTables.Registered | src/bantam/web.py:117 | A route is taken when it is in either table. |
| Web.RouterEntries | src/bantam/web.py:98-101 | Gives one router entry per route, in order, each carrying its handler. |
| Web.CollectEntries | src/bantam/web.py:98-101 | The `add_get`/`add_post` loops compute `RouterEntries`. |
| Web.WebApplication.constructor | src/bantam/web.py:96-104 | The router holds every GET route, then every POST route, in registration order, then the static directory when given. The server starts stopped. |
| Web.WebApplication.Start | src/bantam/web.py:170 | Marks the server started. |
| Web.WebApplication.Shutdown | src/bantam/web.py:175-181 | Shuts down only when started, and leaves the server stopped. |
| Client.UrlPairs | src/bantam/client.py:45 | Pair i is `k=to_str(v)` for entry i of `Present`. The pairs fail exactly when some not-None value has no `to_str`. |
| Client.GenerateUrlArgs | src/bantam/client.py:41-45 | Gives '' without an id and without arguments. Otherwise it gives '?self=<id>&' or '?', then the pairs joined by '&'. |
| Client.PairReachesServer | src/bantam/client.py:45 | A str, int or bool value whose name and text hold no '&' or '=' makes one pair with no '&'. The pair splits at '=' into its name and text, and the server's conversion gives the value back. |
| Client.UrlArgsReachServer | src/bantam/client.py:41-45 | The query string splits back into its name/text pairs, and the server's conversion turns each text back into the value passed. |
| Client.TrimSlashes | src/bantam/client.py:256-257 | Removes exactly the trailing '/' characters. |
| Client.TrimSlashesStable | src/bantam/client.py:256-257 | Trimming is idempotent, and extra trailing slashes name the same endpoint. |
| Client.StripEndpoint | src/bantam/client.py:256-257 | The `while` loop computes `TrimSlashes`. |
| Client.ImplName | src/bantam/client.py:249-255 | `WebInterface` itself is refused, and a given name is kept. Otherwise the class name must end in 'Interface', and the name is what comes before it. |
| Client.BaseUrlIsRoute | src/bantam/client.py:55 | A stub calls the endpoint at exactly the route the server derives for the method. |
| Client.FunctionStub | src/bantam/client.py:272-287 | A plain static method is skipped and a decorated one refused (Exception). A non-async function is refused (Exception), and an undecorated async one raises AttributeError. Every other function becomes an instance stub at its base URL, streamed exactly for async generators. |
| Client.ClassMethodStub | src/bantam/client.py:289-298 | 'Client' and private names are skipped. A non-async method is refused (Exception). An async generator without a descriptor, or with a streamed request, raises SyntaxError. A coroutine without a descriptor raises AttributeError. Every other method becomes a class stub, streamed exactly for async generators. |
| Client.StubsOf | src/bantam/client.py:273-298 | Succeeds exactly when no member is refused, and then holds exactly the members' stubs. A failure is the exception of a refused member before which every member succeeded. |
| Client.StubsOfStep | src/bantam/client.py:273-298 | One member of the scan: refused, skipped, or stubbed before the rest. |
| Client.Impl.constructor | src/bantam/client.py:262 | A new stub class has no stubs. |
| Client.Impl.Attach | src/bantam/client.py:100 | `setattr` adds one stub. |
| Client.ClientCache.constructor | src/bantam/client.py:38 | The cache starts empty. |
| Client.ClientCache.AttachAll | src/bantam/client.py:273-298 | The member loop attaches exactly the stubs `StubsOf` gives, or fails with its exception. |
| Client.ClientCache.Build | src/bantam/client.py:262-298 | Builds a fresh class holding exactly the stubs of the functions followed by those of the class methods, or fails with the first refused member's exception. |
| Client.ClientCache.Client | src/bantam/client.py:247-301 | A bad name raises and nothing is cached. A cached key returns the cached class itself. Otherwise a fresh class with all the stubs is built and cached under `<Class>.<endpoint>`. The cache only grows. |
| Client.Positional | src/bantam/client.py:67-69 | Binding succeeds exactly when every argument has a name, and otherwise fails with IndexError. |
| Client.PositionalBinds | src/bantam/client.py:67-69 | Argument n binds the name at n + offset, and every other name keeps its keyword value. |
| Client.PositionalKeeps | src/bantam/client.py:67-69 | Binding arguments from n on leaves a name untouched when no argument from n on binds it. |
| Client.InstanceArgBindsSelf | src/bantam/client.py:173-179 | As written, `x.m(5)` for `m(self, n)` binds 5 to 'self' and sends '?self=id&self=5'. |
| Client.StubArgsSkipReceiver | src/bantam/client.py:67-69 | With the receiver skipped, argument n binds parameter n + 1, and the receiver's name is never bound. |
| Client.SkipReceiverAsWritten | src/bantam/client.py:67-69 | The as-written offset equals the receiver-skipping one exactly for the stub kinds other than the non-streamed instance stub, which then bind alike. |
| Client.BindPositional | src/bantam/client.py:67-69 | The comprehension's loop computes `Positional` with the receiver skipped. |
| Client.StubRequest | src/bantam/client.py:72-92 | A GET stub sends a GET to the base URL followed by the query, with the id first for instance stubs. A POST stub sends a POST to the base URL, or, for a streamed instance stub, to the base URL with '?self=' and the id. The payload is the JSON of the arguments, with 'self' set for instance stubs. |
| Client.TokenKey | src/bantam/client.py:82 | `uuid_param or 'uuid'`: a non-empty uuid_param, otherwise 'uuid'. |
| Client.SelfIdFrom | src/bantam/client.py:82-85 | The id is the key's value in a JSON object. A missing key is KeyError. |
| Client.CallResult | src/bantam/client.py:79-98 | An undecodable body is ValueError. A plain method reads the text as its return type. An instance POST constructor binds the id under 'self_id'. A class constructor binds it under the descriptor's key, read through `jsonrepr` on GET when the class has one. Only a constructor returns a bound instance. |
| Client.ConstructorToken | src/bantam/client.py:84-86 | A constructor's reply object gives a client bound to its 'uuid' field when no uuid_param is set. |
| Client.SingleReplyRoundTrip | src/bantam/client.py:87 | The server's single reply for a str, int or bool reads back on the client as the value returned. |
| Client.StripNul | src/bantam/client.py:137-138 | A str chunk ending in byte 0 loses exactly that byte. Every other chunk is unchanged. |
| Client.StreamResults | src/bantam/client.py:135-140 | Yields at most one value per chunk, and nothing for empty chunks. |
| Client.StreamResultsStep | src/bantam/client.py:135-140 | One chunk of the loop: skipped when empty, failing when unreadable, otherwise yielded before the rest. |
| Client.StreamSkipsAt | src/bantam/client.py:136 | An empty chunk is skipped. |
| Client.StreamFailsAt | src/bantam/client.py:139-140 | An unreadable chunk ends the stream with its exception. |
| Client.StreamYieldsAt | src/bantam/client.py:140 | A readable chunk yields its value before the rest. |
| Client.ReadStream | src/bantam/client.py:135-140 | The `async for` loop computes `StreamResults`. |
| Client.StreamedStrRoundTrip | src/bantam/client.py:224-229 | A str the server streams, received as one chunk, is yielded unchanged. |
| Client.StreamedIntRoundTrip | src/bantam/client.py:135-140 | An int streamed with its newline is read back as the same int. |
| Js.WalkIn | src/bantam/js.py:22-30 | A walk through the namespace tree ends at a node of the tree. |
| Js.WalkCons | src/bantam/js.py:23-26 | A walk goes one component at a time. |
| Js.WalkExtends | src/bantam/js.py:25-29 | A walk that succeeds keeps its leaf as the tree grows. |
| Js.Padded | src/bantam/js.py:20 | New namespaces start with no classes, and old ones keep theirs. |
| Js.AddEdge | src/bantam/js.py:25 | Adds the child under its name and keeps the other children. |
| Js.NamespaceTree.constructor | src/bantam/js.py:18-20 | A namespace starts with no children and no classes. |
| Js.NamespaceTree.SetDefault | src/bantam/js.py:25-29 | `setdefault` returns the existing child and changes nothing, or appends one new empty child under the name. |
| Js.NamespaceTree.AddModule | src/bantam/js.py:22-30 | One namespace per dot component, reused or created, and the leaf is the end of that walk. An existing path changes nothing, so a repeat returns the same leaf. |
| Js.NamespaceTree.AddClassAndRoute | src/bantam/js.py:32-38 | Appends exactly one entry to the leaf's class list and keeps the earlier entries as a prefix. Every entry is the new one or an old one. |
| Js.NamespaceTree.AppendRoute | src/bantam/js.py:32-38 | The append changes only the class list and leaves the tree. |
| Js.AddRoute | src/bantam/js.py:32-38 | Only the leaf's class changes, gaining the entry at its end. Other classes and nodes are unchanged. |
| Js.AddRouteKeeps | src/bantam/js.py:32-38 | The earlier route lists stay prefixes, and no entry but the new one appears. |
| Js.IndexOf | src/bantam/js.py:61 | Gives the first position of a character. |
| Js.ClassName | src/bantam/js.py:61 | The class name holds no '/'. |
| Js.ClassNameFirstSegment | src/bantam/js.py:61 | The class name is the first path segment of the route. |
| Js.ClassNameOfMethodRoute | src/bantam/js.py:61 | A `web_api` route of `Cls.meth` is emitted under `Cls`. |
| Js.HtmlSkipped | src/bantam/js.py:60 | 'text/html' in any case is skipped exactly when skip_html is set. |
| Js.CollectRoutes | src/bantam/js.py:57-67 | Every included GET and POST route is held under its module's leaf and its class. Every held entry comes from an included route of its verb. |
| Js.CollectedHoldsExactly | src/bantam/js.py:57-67 | After both loops, the tree holds exactly the included routes. |
| Js.CollectGet | src/bantam/js.py:58-62 | The GET loop handles every GET route. |
| Js.CollectPost | src/bantam/js.py:63-67 | The POST loop handles every POST route. |
| Js.AddGetRoute | src/bantam/js.py:59-62 | One GET iteration keeps the collection property. |
| Js.AddPostRoute | src/bantam/js.py:64-67 | One POST iteration keeps the collection property. |
| Js.SkipKeepsCollected | src/bantam/js.py:60 | A skipped route keeps the collection property. |
| Js.JustifiedMonotone | src/bantam/js.py:57-67 | Entries justified by fewer handled routes are justified by more. |
| Js.AddAndKeep | src/bantam/js.py:58-67 | Adding an included route keeps everything held, holds the new route, and justifies every entry. |
| Js.AddKeepsHeld | src/bantam/js.py:32-38 | After an add, the tree holds the route and everything it held before. |
| Js.AddKeepsCollected | src/bantam/js.py:58-67 | The collection property carries over one added route. |
| Js.Prefix | src/bantam/js.py:103-107 | The `prefix` loop computes `PrefixLines` of `splitlines()`. |
| Js.PrefixLinesAt | src/bantam/js.py:105-106 | One iteration of the loop: the piece for line i comes first. |
| Js.TabbedLines | src/bantam/js.py:106 | Gives one tabbed, stripped line per input line, in order. |
| Js.PrefixLinesTerminated | src/bantam/js.py:105-106 | The prefixed text is the tabbed lines, each ended by '\n'. |
| Js.PrefixLinesSplit | src/bantam/js.py:103-107 | The prefixed text has one line per input line: line i is `tab` followed by input line i stripped. |
| Js.PrefixKeepsLines | src/bantam/js.py:103-112 | Re-indenting a docstring gives one output line per docstring line. |
| Js.DocBlock | src/bantam/js.py:102-112 | A missing docstring (`__doc__` is None) raises AttributeError at `splitlines()`. An empty docstring gives the placeholder, and any other gives its prefixed lines. |
| Js.UndocumentedApiFails | src/bantam/js.py:102-112 | A function without a docstring stops the generator with an exception. |
| Js.DocBlockIntended | src/bantam/js.py:111 | The placeholder is written for a missing docstring as well as for an empty one, and every docstring that works as written gives the same text. |
| Js.TemplateThresholds | src/bantam/js.py:130-135 | A streamed template passes data to 'onreceive' at ready states 3 and DONE. A single-shot template passes it to 'onsuccess' only at DONE. |
| Js.Converter | src/bantam/js.py:141-145 | Gives parseInt( for int, parseFloat( for float, ('true'== for bool and (null for a missing annotation or the annotation None. Every other type, NoneType included, gets '('. |
| Js.ReturnAnnotation | src/bantam/js.py:123 | `annotations.get('return')` finds the return entry exactly when there is one. |
| Js.PostReturnType | src/bantam/js.py:123-127 | A missing or None return type becomes str. Otherwise the result is `__args__[1]` of the annotation: the send type of an AsyncGenerator, the value type of a Dict, the second Union member, the second Callable parameter (its return type when it takes one parameter), with a None argument stored as NoneType. A generic alias with one type argument raises IndexError and a plain class AttributeError. The result is never the object None. |
| Js.StoredArg | src/bantam/js.py:127 | A None inside a subscription is stored as NoneType; every other type argument is kept. |
| Js.DocsReturnName | src/bantam/js.py:107-109 | `return_type_name` is 'bytes' for bytes and for an AsyncGenerator; a missing or None return type raises AttributeError, and so does any failure. |
| Js.GetConverterNeverNull | src/bantam/js.py:187-194 | Whenever the GET docs are written, the converter chosen afterwards is not '(null'. |
| Js.GetUnannotatedReturnFails | src/bantam/js.py:107-110 | A GET function with no return annotation, or `-> None`, raises AttributeError while its docs are written. |
| Js.PostConverterNeverNull | src/bantam/js.py:124-145 | The POST template never uses the '(null' converter, for any annotation it can read. |
| Js.PostNoneArgConverter | src/bantam/js.py:127-145 | `AsyncGenerator[T, None]`, `Optional[T]` and `Dict[K, None]` give NoneType, which reads with '('. |
| Js.PostPlainReturnRefused | src/bantam/js.py:127 | A plain-class return annotation raises AttributeError at `__args__[1]`. |
| Js.ArgNames | src/bantam/js.py:128-137 | Gives the annotation keys other than 'return'. |
| Js.ArgNamesInOrder | src/bantam/js.py:176-180 | With the return annotation stored last, the argument names are the parameter names in declaration order. |

## Left out

- aiohttp is not modelled: `Application`, the router, `web_run_app`, `ClientSession`, `raise_for_status` and the request body readers. Requests and replies are abstract values, and `start` only sets the flag.
- Async and concurrency are not modelled: `await`, `asyncio.Queue` and cancellation. A generator is a finite list of items plus an optional final exception.
- `json.loads`, `json.dumps`, `float()`, `str.encode`, `bytes.decode`, user `deserialize`/`serialize` and constructors are not modelled directly. In `Env` they are partial functions: inputs are known only through the contracts that mention them.
- Text.LowerChar: `str.lower` changes only the ASCII letters in this model; Unicode case mapping is left out, so non-ASCII letters keep their case.
- Equality between Python ints, floats and bools (`1 == 1.0 == True`) is not modelled. The codec's equality tests compare `Value`s structurally.
- A JSON object passed to a POST function is assumed to have str keys. A body that is JSON but not an object is modelled as a TypeError. In the source (decorators.py:162-168) such a body goes through the parameter check and `dict()`: a list holding an unknown name is answered 400, `[]` calls the function with no arguments, and a list of two-character names becomes a dict of their characters.
- How `iter_chunks` splits a streamed body into chunks is not modelled. The chunks are an input to the client's stream loop, so the streaming round-trip lemmas take one chunk per item.
- `dataclasses.asdict` is modelled on the record's own field list: its keys are the field names, in field order. Deep copying of values it does not recurse into is not modelled.
- The instance id a client holds is modelled as a string.
- `inspect.getmembers` returns members sorted by name. Here the interface lists its members in the order the scan visits them.
- `inspect` is replaced by explicit descriptors (parameter names, annotations and defaults; the async kind; the `_bantam_web_api` record).
- `bantam.api`, `bantam.http` and the server-side identity manager are not part of this model.
- The literal JavaScript text is not modelled, and neither is the output of `process_namespace`. The model covers the choices that shape that text:
  - the namespace tree;
  - the routes grouped under their classes;
  - the docstring re-indenting and the placeholder;
  - each template's callback, threshold, converter and argument names.
- `_generate_docs`' `return_type_name` is modelled only for its outcome (`DocsReturnName`: 'bytes', a class's `__name__`, or AttributeError); the text of the comment block it is written into is not. The `:returns:`/`:return:` replacements on the docstring are not modelled.
- `JavascriptGenerator.Namespace` objects are modelled as nodes of one arena: node ids index sequences of child maps and class maps. The model does not capture aliasing between separately created Namespace objects, which the source never shares.
- `src/bantam/xforms.py`, the tests and the examples are not part of this model.
- NormalizeFromJson: computes `FromJson`, whose bool branch is the corrected rule of the first Findings row, not conversions.py:55 as written. `JsonBoolAsWritten` and `BoolFieldAsWrittenFails` model that line as written.
- NormalizeUnwrapped: the same corrected bool branch as NormalizeFromJson.
- SerializeReturnValue: an IntEnum, IntFlag or str-mixin Enum result is an instance of int or str, so decorators.py:56 sends its `str()`. Enum values here carry no mixin base, so such a result gives None. Only a plain class (`VObject`) can carry a `serialize` method in this model: a dataclass or Enum result that defines one, which decorators.py:58-67 serializes (or answers with TypeError), gives None here.
- ConvertRequestParam: only a plain class (`ClassT`) can carry a `deserialize` method in this model. A dataclass or Enum that defines one is converted by calling the type instead.
- UrlArgsReachServer: the client builds the query without URL encoding (client.py:45). The lemma requires names and texts free of '&' and '='; how the server decodes '+', '#', '%' and spaces is not modelled.
- JsonRoundTrip: the List and Dict rules of `normalize_from_json` find the element type by `eval` of `str(typ)` (conversions.py:57, 63) in the conversions module, so a user dataclass or Enum there (`List[mod.Rec]`) raises NameError. `FromJson` decodes such types structurally instead; `WellTyped` admits List and Dict only over builtins and `typing` aliases of them (`EvalsBack`), so the round trip is claimed only where the `eval` succeeds. Unions inside a List or Dict are excluded as well.
- JsonRoundTrip: a None in an `Optional[str]`, `Optional[int]` or `Optional[float]` record field is covered only where the record is not itself inside a record. Inside one, asdict has turned the inner record into a dict and the dict loop raises RuntimeError on the None (`NestedNoneFieldFails`). None in fields of other types (`Optional[bool]`, Optional Enums, lists, dicts or records) is excluded because decoding it fails or changes it.
- BindPositional: binds every stub kind with offset 1; the non-streamed instance stub's offset 0 (client.py:173-175) is modelled only by `ArgOffsetAsWritten` and `InstanceArgBindsSelf`.
- Text.ParseInt: reads only ASCII digits. Python's `int()` also accepts the decimal digits of other scripts.

## Findings

| source | as written | input that shows it | evidently intended | confidence | as-written member | corrected member |
|---|---|---|---|---|---|---|
| src/bantam/conversions.py:55 | `json_data.lower() == 'true'` assumes a str, but `normalize_to_json_compat` emits a JSON boolean for a bool field, which `json.loads` delivers as a Python bool | a dataclass `R(flag=True)`: normalised to `{"flag": true}`, decoding raises AttributeError | keep a JSON boolean as it is | not executed | Conversions.BoolFieldAsWrittenFails | Conversions.JsonBool, Conversions.JsonRoundTrip |
| src/bantam/client.py:173-175 | a non-streamed instance stub binds positional argument n to `arg_spec.args[n]`, which for n = 0 is `self`. Every other stub uses n + 1 | `x.m(5)` for `async def m(self, n)` sends `?self=id&self=5` and never sends `n` | skip the receiver as the other stubs do | not executed | Client.InstanceArgBindsSelf | Client.StubArgsSkipReceiver, Client.BindPositional |
| src/bantam/js.py:111-112 | `prefix(api.__doc__, tab) or "<<No API documentation provided>>"` calls `splitlines()` on the docstring before the `or`, so a function without a docstring (`__doc__` is None) raises AttributeError | any `@web_api` function with no docstring makes `generate` raise | write the placeholder when there is no docstring | not executed | Js.UndocumentedApiFails | Js.DocBlockIntended |
