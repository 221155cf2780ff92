/** JSON values as the client builds them with nlohmann::json, and the
    insertion idioms every request payload is made of. */
module Json {

  datatype Option<+T> = None | Some(value: T)

  /** A JSON document. nlohmann's floating-point numbers are not modelled:
      no payload the client builds contains one. */
  datatype JSON =
    | JNull
    | JBool(b: bool)
    | JInt(n: int)
    | JStr(s: string)
    | JArr(items: seq<JSON>)
    | JObj(fields: map<string, JSON>)

  /** The value stored under `key` when `j` is an object that holds it. */
  function Member(j: JSON, key: string): Option<JSON>
  {
    if j.JObj? && key in j.fields then Some(j.fields[key]) else None
  }

  /** The value stored under `key` in a map of members. */
  function Get(m: map<string, JSON>, key: string): Option<JSON>
  {
    if key in m then Some(m[key]) else None
  }

  /** The keys of an object; nothing for any other value. */
  function KeysOf(j: JSON): set<string>
  {
    if j.JObj? then j.fields.Keys else {}
  }

  /** nlohmann's `empty()`: true of null, of an empty array and of an empty
      object, false of every scalar. */
  predicate IsEmpty(j: JSON)
  {
    j == JNull || j == JArr([]) || j == JObj(map[])
  }

  /** A table of candidate members: each key maps to the value the source
      would insert under it, or to None when its guard keeps it out. */
  type Fields = map<string, Option<JSON>>

  function Lookup(fields: Fields, key: string): Option<JSON>
  {
    if key in fields then fields[key] else None
  }

  /** `j` holds exactly the members the table lets through: every key with
      a value in the table is present with that value, and no other key is. */
  ghost predicate Carries(j: JSON, fields: Fields)
  {
    forall k :: Member(j, k) == Lookup(fields, k)
  }

  /** `j` is the payload a run of guarded insertions makes of the table:
      it carries exactly the table's present members, and it is null, never
      `{}`, when the table lets nothing through. */
  ghost predicate Payload(j: JSON, fields: Fields)
  {
    Carries(j, fields) && (j.JNull? || (j.JObj? && |j.fields| > 0))
  }

  /** The object built by a run of guarded insertions `if (x) obj[key] = *x;`
      on a default-constructed nlohmann::json. That value starts out null
      and turns into an object on its first keyed insertion, so a payload
      into which nothing was inserted is `null`, never `{}`. */
  function ObjectOf(fields: Fields): (j: JSON)
    ensures Payload(j, fields)
  {
    var m := map k | k in fields && fields[k].Some? :: fields[k].value;
    if |m| == 0 then
      assert forall k :: k in fields && fields[k].Some? ==> k in m;
      JNull
    else JObj(m)
  }

  /** The payload is `null` exactly when every guard kept its key out. */
  lemma ObjectOfNull(fields: Fields)
    ensures ObjectOf(fields) == JNull <==> forall k :: k in fields ==> fields[k].None?
  {
    var j := ObjectOf(fields);
    if j != JNull {
      var k :| k in j.fields;
      assert Member(j, k).Some?;
      assert Lookup(fields, k).Some?;
    } else {
      forall k | k in fields ensures fields[k].None? {
        assert Member(j, k) == Lookup(fields, k);
      }
    }
  }

  /** One key let through makes the payload an object. */
  lemma ObjectOfPresent(fields: Fields, key: string)
    requires key in fields && fields[key].Some?
    ensures ObjectOf(fields).JObj?
  {
    assert Member(ObjectOf(fields), key) == Lookup(fields, key);
  }

  /** A document that carries a table has the table's present keys as its
      keys, and no others. */
  lemma CarriesKeys(j: JSON, fields: Fields)
    requires Carries(j, fields)
    ensures KeysOf(j) == set k | k in fields && fields[k].Some?
  {
    forall k ensures k in KeysOf(j) <==> k in fields && fields[k].Some? {
      assert Member(j, k) == Lookup(fields, k);
    }
  }

  /** Two documents that carry the same table and are each either null or a
      non-empty object are the same document. */
  lemma CarriesUnique(j1: JSON, j2: JSON, fields: Fields)
    requires Carries(j1, fields) && Carries(j2, fields)
    requires j1.JNull? || (j1.JObj? && |j1.fields| > 0)
    requires j2.JNull? || (j2.JObj? && |j2.fields| > 0)
    ensures j1 == j2
    decreases if j1.JObj? then 0 else 1
  {
    if j1.JObj? {
      var k :| k in j1.fields;
      assert Member(j1, k).Some? && Member(j2, k).Some?;
      forall k' ensures k' in j1.fields <==> k' in j2.fields {
        assert Member(j1, k') == Member(j2, k');
      }
      forall k' | k' in j1.fields ensures j1.fields[k'] == j2.fields[k'] {
        assert Member(j1, k') == Member(j2, k');
      }
      assert j1.fields == j2.fields;
    } else if j2.JObj? {
      CarriesUnique(j2, j1, fields);
    }
  }

  /** The array a loop builds by pushing one item per element, in order. */
  function Items<T>(xs: seq<T>, item: T -> JSON): (items: seq<JSON>)
    ensures |items| == |xs|
    ensures forall i :: 0 <= i < |xs| ==> items[i] == item(xs[i])
  {
    seq(|xs|, i requires 0 <= i < |xs| => item(xs[i]))
  }

  /** One more pushed element extends the array by its item. */
  lemma ItemsSnoc<T>(xs: seq<T>, i: int, item: T -> JSON)
    requires 0 <= i < |xs|
    ensures Items(xs[..i + 1], item) == Items(xs[..i], item) + [item(xs[i])]
  {
  }

  /** The members inserted so far into `m` are those the table lets through. */
  ghost predicate Tracks(m: map<string, JSON>, fields: Fields)
  {
    forall k :: Get(m, k) == Lookup(fields, k)
  }

  /** One more guarded insertion `if (v) obj[key] = *v;` under a key not yet
      in the table keeps the members and the table in step. */
  lemma TrackInsert(m: map<string, JSON>, fields: Fields, key: string, v: Option<JSON>)
    requires Tracks(m, fields) && key !in fields
    ensures Tracks(if v.Some? then m[key := v.value] else m, fields[key := v])
  {
    var m' := if v.Some? then m[key := v.value] else m;
    forall k ensures Get(m', k) == Lookup(fields[key := v], k) {
      assert Get(m, k) == Lookup(fields, k);
    }
  }

  /** A map of members built by guarded insertions: the object it forms is
      the one the table describes. */
  lemma ObjectOfMembers(m: map<string, JSON>, fields: Fields)
    requires Tracks(m, fields)
    ensures ObjectOf(fields) == if |m| == 0 then JNull else JObj(m)
  {
    var j := if |m| == 0 then JNull else JObj(m);
    forall k ensures Member(j, k) == Lookup(fields, k) {
      assert Get(m, k) == Lookup(fields, k);
      if |m| == 0 {
        assert k !in m;
      }
    }
    CarriesUnique(j, ObjectOf(fields), fields);
  }

  /** A document that carries a table of pruned values is itself pruned. */
  lemma CarriesNoEmptyContainer(j: JSON, fields: Fields)
    requires Carries(j, fields)
    requires j.JNull? || (j.JObj? && |j.fields| > 0)
    requires forall k :: k in fields && fields[k].Some? ==> NoEmptyContainer(fields[k].value)
    ensures NoEmptyContainer(j)
  {
    if j.JObj? {
      forall k | k in j.fields ensures NoEmptyContainer(j.fields[k]) {
        assert Member(j, k) == Lookup(fields, k);
      }
    }
  }

  /** An array of JSON strings, element for element. */
  function StrArr(s: seq<string>): (j: JSON)
    ensures j.JArr? && |j.items| == |s|
    ensures forall i :: 0 <= i < |s| ==> j.items[i] == JStr(s[i])
  {
    JArr(seq(|s|, i requires 0 <= i < |s| => JStr(s[i])))
  }

  function Str(o: Option<string>): Option<JSON>
  {
    if o.Some? then Some(JStr(o.value)) else None
  }

  function Bool(o: Option<bool>): Option<JSON>
  {
    if o.Some? then Some(JBool(o.value)) else None
  }

  function Int(o: Option<int>): Option<JSON>
  {
    if o.Some? then Some(JInt(o.value)) else None
  }

  /** An optional vector of strings, written even when it is empty. */
  function Strs(o: Option<seq<string>>): Option<JSON>
  {
    if o.Some? then Some(StrArr(o.value)) else None
  }

  /** `if (!s.empty()) obj[key] = s;` for a plain string argument. */
  function NonEmptyStr(s: string): Option<JSON>
  {
    if s != "" then Some(JStr(s)) else None
  }

  /** `if (!v.empty()) obj[key] = v;` for a plain vector argument. */
  function NonEmptyStrs(v: seq<string>): Option<JSON>
  {
    if v != [] then Some(StrArr(v)) else None
  }

  /** `if (o && !o->empty()) obj[key] = *o;`: an optional vector that is
      dropped when it is present but empty. */
  function PresentNonEmptyStrs(o: Option<seq<string>>): Option<JSON>
  {
    if o.Some? && o.value != [] then Some(StrArr(o.value)) else None
  }

  /** True when no array and no object anywhere inside `j` is empty. */
  predicate NoEmptyContainer(j: JSON)
    decreases j
  {
    match j
    case JArr(items) => items != [] && forall i :: 0 <= i < |items| ==> NoEmptyContainer(items[i])
    case JObj(m) => m != map[] && forall k :: k in m ==> NoEmptyContainer(m[k])
    case _ => true
  }
}

/** What a facade operation does once its arguments are known: either it
    fails locally and makes no request, or it hands a request to the shared
    response decoder. */
module Requests {
  import opened Json

  datatype Request =
      /** A parameter check failed; nothing is sent. */
    | LocalError(code: int, message: string)
      /** POST to the base URL followed by `path`, with the dumped `payload`. */
    | Send(path: string, payload: JSON)
      /** The decoder is called with the path alone and no payload. */
    | SendWithoutBody(path: string)

  /** The error for a required string argument left empty: code -1 and a
      message naming the argument and the operation. */
  function Missing(field: string, operation: string): (r: Request)
    ensures r.LocalError? && r.code == -1
    ensures r.message == "'" + field + "' is required for " + operation + "."
  {
    LocalError(-1, "'" + field + "' is required for " + operation + ".")
  }

  /** An operation whose only argument is one required string: rejected
      when empty, otherwise sent as the one-key object `{field: value}`. */
  function RequireOne(path: string, field: string, value: string): (r: Request)
    ensures r.LocalError? <==> value == ""
    ensures r.LocalError? ==> r == Missing(field, path)
    ensures r.Send? ==> r.path == path && r.payload == JObj(map[field := JStr(value)])
    ensures r.Send? ==> KeysOf(r.payload) == {field}
  {
    if value == "" then Missing(field, path)
    else Send(path, JObj(map[field := JStr(value)]))
  }
}
