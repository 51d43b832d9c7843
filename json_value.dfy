/**
 * The JSON-like value tree that a decoded OpenAPI document or a response
 * body is made of.  Objects keep their members in document order, as a
 * Python dict does.  Numbers are integers only.
 */
module JsonValue {
  import opened Wrappers
  import OrderedDict

  datatype Json =
    | Null
    | Bool(b: bool)
    | Int(i: int)
    | Str(s: string)
    | Arr(items: seq<Json>)
    | Obj(fields: seq<(string, Json)>)

  /** An empty object `{}`. */
  const EmptyObj: Json := Obj([])

  /** Python truthiness: `bool(value)`. */
  predicate Truthy(j: Json) {
    match j
    case Null => false
    case Bool(b) => b
    case Int(i) => i != 0
    case Str(s) => s != ""
    case Arr(items) => |items| > 0
    case Obj(fields) => |fields| > 0
  }

  /** `key in j` for a dict `j`. */
  predicate HasKey(j: Json, key: string) {
    j.Obj? && key in OrderedDict.Keys(j.fields)
  }

  /** `j.get(key)` for a dict `j`; nothing for any other value. */
  function Member(j: Json, key: string): (r: Option<Json>)
    ensures r.Some? <==> HasKey(j, key)
  {
    if j.Obj? then OrderedDict.Get(j.fields, key) else None
  }

  /** `j.get(key, default)` for a dict `j`. */
  function MemberOr(j: Json, key: string, default: Json): Json {
    match Member(j, key)
    case Some(v) => v
    case None => default
  }

  /** A string member, or `default` when it is absent or not a string. */
  function StrMemberOr(j: Json, key: string, default: string): string {
    match Member(j, key)
    case Some(Str(s)) => s
    case _ => default
  }

  /** A string member that may be absent: `j.get(key)` typed `str | None`. */
  function OptStrMember(j: Json, key: string): Option<string> {
    match Member(j, key)
    case Some(Str(s)) => Some(s)
    case _ => None
  }

  /** A boolean member, or `default` when it is absent or not a boolean. */
  function BoolMemberOr(j: Json, key: string, default: bool): bool {
    match Member(j, key)
    case Some(Bool(b)) => b
    case _ => default
  }

  /** The members of a dict; nothing for any other value. */
  function Fields(j: Json): seq<(string, Json)> {
    if j.Obj? then j.fields else []
  }

  /** The items of a list; nothing for any other value. */
  function Items(j: Json): seq<Json> {
    if j.Arr? then j.items else []
  }

  /** The key set of a dict: `set(j.keys())`. */
  function KeySet(fields: seq<(string, Json)>): (ks: set<string>)
    ensures forall k :: k in ks <==> k in OrderedDict.Keys(fields)
  {
    if |fields| == 0 then {} else {fields[0].0} + KeySet(fields[1..])
  }
}
