/** Decoded JSON values (what `response.json()` and `json.load` return) and
    the Python operations the code applies to them, with Python's failure
    behaviour written out. */
module Json {
  import opened Wrappers
  import Text

  /** A decoded JSON document.  Numbers are integers only. */
  datatype Json =
    | JNull
    | JBool(b: bool)
    | JNum(n: int)
    | JStr(s: string)
    | JArr(elems: seq<Json>)
    | JObj(members: map<string, Json>)

  /** Python truthiness, as `if value:` and `if not value:` test it. */
  predicate Truthy(j: Json)
  {
    match j
    case JNull => false
    case JBool(b) => b
    case JNum(n) => n != 0
    case JStr(s) => s != []
    case JArr(es) => es != []
    case JObj(m) => m != map[]
  }

  /** `key in j`: a key test on a dict, an element test on a list, a substring
      test on a str; a TypeError on anything else. */
  function PyIn(key: string, j: Json): (r: Result<bool>)
    ensures j.JObj? ==> r == Ok(key in j.members)
    ensures r.Err? <==> (j.JNull? || j.JBool? || j.JNum?)
  {
    match j
    case JObj(m) => Ok(key in m)
    case JArr(es) => Ok(JStr(key) in es)
    case JStr(s) => Ok(key == [] || Text.Occurs(key, s))
    case _ => Err(TypeError)
  }

  /** `j[key]` with a string key. */
  function Subscript(j: Json, key: string): (r: Result<Json>)
    ensures r.Ok? <==> j.JObj? && key in j.members
    ensures r.Ok? ==> r.value == j.members[key]
    ensures r.Err? ==> r.error == (if j.JObj? then KeyError else TypeError)
  {
    match j
    case JObj(m) => if key in m then Ok(m[key]) else Err(KeyError)
    case _ => Err(TypeError)
  }

  /** `j.get(key)`: null for a missing key, an AttributeError on a non-dict. */
  function DictGet(j: Json, key: string): (r: Result<Json>)
    ensures r.Ok? <==> j.JObj?
    ensures r.Ok? ==> r.value == if key in j.members then j.members[key] else JNull
  {
    match j
    case JObj(m) => Ok(if key in m then m[key] else JNull)
    case _ => Err(AttributeError)
  }

  /** `j[k0][k1]...[kn]`, stopping at the first failing subscript. */
  function Path(j: Json, keys: seq<string>): Result<Json>
    decreases |keys|
  {
    if keys == [] then Ok(j)
    else match Subscript(j, keys[0])
      case Err(e) => Err(e)
      case Ok(child) => Path(child, keys[1..])
  }

  /** Subscripting a path and then one more key is subscripting the longer path. */
  lemma {:induction false} PathSnoc(j: Json, keys: seq<string>, key: string)
    ensures Path(j, keys + [key]) ==
              match Path(j, keys)
              case Err(e) => Err(e)
              case Ok(v) => Subscript(v, key)
    decreases |keys|
  {
    if keys != [] {
      assert (keys + [key])[1..] == keys[1..] + [key];
      match Subscript(j, keys[0])
      case Err(e) =>
      case Ok(child) => PathSnoc(child, keys[1..], key);
    }
    else {
      assert Path(j, [key]) == match Subscript(j, key) case Err(e) => Err(e) case Ok(c) => Path(c, []);
    }
  }

  /** Subscripting along `a + b` is subscripting along `a`, then along `b`. */
  lemma {:induction false} PathAppend(j: Json, a: seq<string>, b: seq<string>)
    ensures Path(j, a + b) ==
              match Path(j, a)
              case Err(e) => Err(e)
              case Ok(v) => Path(v, b)
    decreases |a|
  {
    if a != [] {
      assert (a + b)[0] == a[0];
      assert (a + b)[1..] == a[1..] + b;
      match Subscript(j, a[0])
      case Err(e) =>
      case Ok(child) => PathAppend(child, a[1..], b);
    } else {
      assert a + b == b;
    }
  }

  /** The guard `k0 in j and k1 in j[k0] and ... and kn in j[k0]...[kn-1]`,
      evaluated left to right with short-circuit `and`. */
  function Guard(j: Json, keys: seq<string>): Result<bool>
    decreases |keys|
  {
    if keys == [] then Ok(true)
    else match PyIn(keys[0], j)
      case Err(e) => Err(e)
      case Ok(present) =>
        if !present then Ok(false)
        else if |keys| == 1 then Ok(true)
        else match Subscript(j, keys[0])
          case Err(e) => Err(e)
          case Ok(child) => Guard(child, keys[1..])
  }

  /** The guard holds whenever the path of subscripts it protects succeeds.
      (The converse fails: `k in j` also holds for a list that contains the
      string `k`, and then `j[k]` raises TypeError.) */
  lemma {:induction false} GuardHoldsOnPath(j: Json, keys: seq<string>)
    requires Path(j, keys).Ok?
    ensures Guard(j, keys) == Ok(true)
    decreases |keys|
  {
    if |keys| > 1 {
      GuardHoldsOnPath(j.members[keys[0]], keys[1..]);
    }
  }

  /** `for x in j`: a list yields its elements; an empty dict or str yields
      nothing; a non-empty dict or str yields str keys or characters, on which
      the loop body's `x['id']` raises TypeError; anything else cannot be
      iterated (TypeError). */
  function Elements(j: Json): (r: Result<seq<Json>>)
    ensures j.JArr? ==> r == Ok(j.elems)
    ensures r.Ok? ==> j.JArr? || r.value == []
  {
    match j
    case JArr(es) => Ok(es)
    case JObj(m) => if m == map[] then Ok([]) else Err(TypeError)
    case JStr(s) => if s == [] then Ok([]) else Err(TypeError)
    case _ => Err(TypeError)
  }

  /** `str(j)` as an f-string renders it: exact for null, booleans, integers
      and strings; lists and dicts are rendered by a placeholder. */
  function Format(j: Json): string
  {
    match j
    case JNull => "None"
    case JBool(b) => if b then "True" else "False"
    case JNum(n) => Text.IntToString(n)
    case JStr(s) => s
    case JArr(_) => "[...]"
    case JObj(_) => "{...}"
  }
}
