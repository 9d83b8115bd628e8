/**
 * JavaScript values as the templates build and read them: the JSON-like
 * subset of `unknown` (null, booleans, integers, strings, arrays, plain
 * objects). A plain object is an ORDERED list of members, because JavaScript
 * keeps string keys in insertion order and both `Object.entries` and lodash
 * `merge` observe that order. CloudFormation intrinsics (`Ref`,
 * `Fn::GetAtt`, `Fn::Join`) are ordinary one-member objects.
 */
module Json {
  import opened Wrappers
  import Strings

  datatype Value =
    | Null
    | Bool(b: bool)
    | Num(n: int)
    | Str(s: string)
    | Arr(items: seq<Value>)
    | Obj(members: seq<Member>)

  datatype Member = Member(key: string, val: Value)

  /** One step of a property path: `o[key]` or `a[index]`. */
  datatype Step = Key(k: string) | Index(i: nat)

  // ---------------------------------------------------------------------
  // Member lists (the body of a plain object)
  // ---------------------------------------------------------------------

  function Keys(ms: seq<Member>): set<string> {
    if ms == [] then {} else {ms[0].key} + Keys(ms[1..])
  }

  predicate DistinctKeys(ms: seq<Member>) {
    ms == [] || (ms[0].key !in Keys(ms[1..]) && DistinctKeys(ms[1..]))
  }

  lemma {:induction false} KeysAppend(ms: seq<Member>, ns: seq<Member>)
    ensures Keys(ms + ns) == Keys(ms) + Keys(ns)
  {
    if ms == [] {
      assert ms + ns == ns;
    } else {
      assert (ms + ns)[1..] == ms[1..] + ns;
      KeysAppend(ms[1..], ns);
    }
  }

  lemma {:induction false} MemberKey(ms: seq<Member>, m: Member)
    requires m in ms
    ensures m.key in Keys(ms)
  {
    if ms[0] != m {
      MemberKey(ms[1..], m);
    }
  }

  /** `o[k]` on an object: the value of the first member named `k`. */
  function Lookup(ms: seq<Member>, k: string): (r: Option<Value>)
    ensures r.Some? <==> k in Keys(ms)
    ensures r.Some? ==> Member(k, r.value) in ms
  {
    if ms == [] then None
    else if ms[0].key == k then Some(ms[0].val)
    else Lookup(ms[1..], k)
  }

  lemma {:induction false} LookupMember(ms: seq<Member>, k: string, v: Value)
    requires DistinctKeys(ms) && Member(k, v) in ms
    ensures Lookup(ms, k) == Some(v)
  {
    if ms[0] != Member(k, v) {
      if ms[0].key == k {
        MemberKey(ms[1..], Member(k, v));
      } else {
        LookupMember(ms[1..], k, v);
      }
    }
  }

  /** Pairwise-distinct keys, stated by position (convenient for object literals). */
  predicate UniqueKeys(ms: seq<Member>) {
    forall i, j :: 0 <= i < j < |ms| ==> ms[i].key != ms[j].key
  }

  lemma {:induction false} UniqueKeysDistinct(ms: seq<Member>)
    requires UniqueKeys(ms)
    ensures DistinctKeys(ms)
  {
    if ms != [] {
      var tail := ms[1..];
      assert forall j :: 0 <= j < |tail| ==> tail[j].key != ms[0].key by {
        forall j | 0 <= j < |tail| ensures tail[j].key != ms[0].key {
          assert tail[j] == ms[j + 1];
        }
      }
      AbsentKey(tail, ms[0].key);
      assert UniqueKeys(tail) by {
        forall i, j | 0 <= i < j < |tail| ensures tail[i].key != tail[j].key {
          assert tail[i] == ms[i + 1] && tail[j] == ms[j + 1];
        }
      }
      UniqueKeysDistinct(tail);
    }
  }

  lemma {:induction false} AbsentKey(ms: seq<Member>, k: string)
    requires forall j :: 0 <= j < |ms| ==> ms[j].key != k
    ensures k !in Keys(ms)
  {
    if ms != [] {
      assert ms[0].key != k;
      AbsentKey(ms[1..], k);
    }
  }

  /** Every key of a member list is the key of some member. */
  lemma {:induction false} KeyHasMember(ms: seq<Member>, k: string)
    requires k in Keys(ms)
    ensures exists i :: 0 <= i < |ms| && ms[i].key == k
  {
    var m := Member(k, Lookup(ms, k).value);
    var i :| 0 <= i < |ms| && ms[i] == m;
  }

  /** In an object with unique keys, a member's key finds that member's value. */
  lemma LookupUnique(ms: seq<Member>, k: string, v: Value)
    requires UniqueKeys(ms) && Member(k, v) in ms
    ensures Lookup(ms, k) == Some(v)
  {
    MemberKey(ms, Member(k, v));
    var w := Lookup(ms, k).value;
    var i :| 0 <= i < |ms| && ms[i] == Member(k, v);
    var j :| 0 <= j < |ms| && ms[j] == Member(k, w);
    assert i == j;
  }

  /** `o[k] = v`: an existing member keeps its position, a new one is appended. */
  function Put(ms: seq<Member>, k: string, v: Value): (r: seq<Member>)
    ensures Keys(r) == Keys(ms) + {k}
    ensures Lookup(r, k) == Some(v)
    ensures forall k' :: k' != k ==> Lookup(r, k') == Lookup(ms, k')
    ensures k !in Keys(ms) ==> r == ms + [Member(k, v)]
    ensures k in Keys(ms) ==> |r| == |ms| && forall i :: 0 <= i < |ms| ==> r[i].key == ms[i].key
    ensures DistinctKeys(ms) ==> DistinctKeys(r)
  {
    if ms == [] then [Member(k, v)]
    else if ms[0].key == k then
      var r := [Member(k, v)] + ms[1..];
      assert r[1..] == ms[1..];
      r
    else
      var tail := Put(ms[1..], k, v);
      var r := [ms[0]] + tail;
      assert r[1..] == tail;
      r
  }

  /** Writing back the value an object already holds changes nothing. */
  lemma {:induction false} PutExisting(ms: seq<Member>, k: string, v: Value)
    requires Lookup(ms, k) == Some(v)
    ensures Put(ms, k, v) == ms
  {
    if ms[0].key != k {
      PutExisting(ms[1..], k, v);
    }
  }

  /** `delete o[k]`. */
  function Remove(ms: seq<Member>, k: string): (r: seq<Member>)
    ensures Keys(r) == Keys(ms) - {k}
    ensures forall k' :: k' != k ==> Lookup(r, k') == Lookup(ms, k')
    ensures Lookup(r, k) == None
    ensures k !in Keys(ms) ==> r == ms
    ensures DistinctKeys(ms) ==> DistinctKeys(r)
  {
    if ms == [] then []
    else
      var tail := Remove(ms[1..], k);
      if ms[0].key == k then tail
      else
        var r := [ms[0]] + tail;
        assert r[1..] == tail;
        r
  }

  /** Deleting a key undoes any earlier write to it. */
  lemma {:induction false} RemovePut(ms: seq<Member>, k: string, v: Value)
    ensures Remove(Put(ms, k, v), k) == Remove(ms, k)
  {
    if ms != [] && ms[0].key != k {
      RemovePut(ms[1..], k, v);
      var put := Put(ms, k, v);
      assert put[1..] == Put(ms[1..], k, v);
    }
  }

  /** An object with no keys is the empty object. */
  lemma NoKeysEmpty(ms: seq<Member>)
    requires Keys(ms) == {}
    ensures ms == []
  {
  }

  /** Every object, at every depth, has distinct keys (what an object literal
      or a parsed document always has). */
  predicate Wf(v: Value)
    decreases v
  {
    match v
    case Arr(items) => forall i :: 0 <= i < |items| ==> Wf(items[i])
    case Obj(ms) => DistinctKeys(ms) && forall i :: 0 <= i < |ms| ==> Wf(ms[i].val)
    case _ => true
  }

  // ---------------------------------------------------------------------
  // JavaScript reading conventions
  // ---------------------------------------------------------------------

  /** The values JavaScript's `ToBoolean` maps to `false`, as that
      operation lists them (`undefined` is represented by `Null`). */
  const FALSY: set<Value> := {Null, Bool(false), Num(0), Str("")}

  /** JavaScript truthiness: every value but the falsy ones, so an empty
      object or array is truthy. */
  function Truthy(v: Value): (r: bool)
    ensures r <==> v !in FALSY
  {
    match v
    case Null => false
    case Bool(b) => b
    case Num(n) => n != 0
    case Str(s) => s != ""
    case Arr(_) => true
    case Obj(_) => true
  }

  /** `v.k` where only the truthiness or `||` of the result matters:
      a missing property reads as `Null`. */
  function Prop(v: Value, k: string): (r: Value)
    ensures v.Obj? && k in Keys(v.members) ==> Member(k, r) in v.members
    ensures !v.Obj? || k !in Keys(v.members) ==> r == Null
  {
    if v.Obj? then Lookup(v.members, k).GetOr(Null) else Null
  }

  /** `a || b`. */
  function Or(a: Value, b: Value): (r: Value)
    ensures r == a || r == b
    ensures Truthy(r) <==> Truthy(a) || Truthy(b)
  {
    if Truthy(a) then a else b
  }

  /** The value at a property path, if every step exists. */
  function At(v: Value, path: seq<Step>): Option<Value>
    decreases |path|
  {
    if path == [] then Some(v)
    else
      match path[0]
      case Key(k) =>
        if v.Obj? && k in Keys(v.members) then At(Lookup(v.members, k).value, path[1..]) else None
      case Index(i) =>
        if v.Arr? && i < |v.items| then At(v.items[i], path[1..]) else None
  }

  lemma {:induction false} AtMember(ms: seq<Member>, k: string, v: Value, rest: seq<Step>)
    requires DistinctKeys(ms) && Member(k, v) in ms
    ensures At(Obj(ms), [Key(k)] + rest) == At(v, rest)
  {
    LookupMember(ms, k, v);
    assert ([Key(k)] + rest)[1..] == rest;
  }

  lemma AtItem(items: seq<Value>, i: nat, rest: seq<Step>)
    requires i < |items|
    ensures At(Arr(items), [Index(i)] + rest) == At(items[i], rest)
  {
    assert ([Index(i)] + rest)[1..] == rest;
  }

  /** The first member with a given key decides the lookup. */
  lemma {:induction false} LookupFirst(ms: seq<Member>, i: nat)
    requires i < |ms|
    requires forall j :: 0 <= j < i ==> ms[j].key != ms[i].key
    ensures Lookup(ms, ms[i].key) == Some(ms[i].val)
  {
    if i > 0 {
      assert ms[0].key != ms[i].key;
      assert ms[1..][i - 1] == ms[i];
      LookupFirst(ms[1..], i - 1);
    }
  }

  /** Two member lists with the same keys in the same order, whose values
      differ at most under key `k0`, answer every other lookup alike. */
  lemma {:induction false} LookupAgrees(ms1: seq<Member>, ms2: seq<Member>, k0: string, k: string)
    requires |ms1| == |ms2| && k != k0
    requires forall i :: 0 <= i < |ms1| ==> ms1[i].key == ms2[i].key
    requires forall i :: 0 <= i < |ms1| && ms1[i].key != k0 ==> ms1[i].val == ms2[i].val
    ensures Lookup(ms1, k) == Lookup(ms2, k)
  {
    if ms1 != [] && ms1[0].key != k {
      assert forall i :: 0 <= i < |ms1[1..]| ==> ms1[1..][i] == ms1[i + 1] && ms2[1..][i] == ms2[i + 1];
      LookupAgrees(ms1[1..], ms2[1..], k0, k);
    }
  }

  /** One `Key` step of a path, to the `i`-th member of an object when no
      earlier member has its key. */
  lemma AtMemberIndex(v: Value, i: nat, path: seq<Step>)
    requires v.Obj? && i < |v.members|
    requires forall j :: 0 <= j < i ==> v.members[j].key != v.members[i].key
    requires |path| > 0 && path[0] == Key(v.members[i].key)
    ensures At(v, path) == At(v.members[i].val, path[1..])
  {
    LookupFirst(v.members, i);
  }

  /** One `Index` step of a path into an array. */
  lemma AtIndex(v: Value, i: nat, path: seq<Step>)
    requires v.Arr? && i < |v.items|
    requires |path| > 0 && path[0] == Index(i)
    ensures At(v, path) == At(v.items[i], path[1..])
  {
  }

  // ---------------------------------------------------------------------
  // CloudFormation intrinsic functions
  // ---------------------------------------------------------------------

  function Ref(name: string): Value {
    Obj([Member("Ref", Str(name))])
  }

  function GetAtt(name: string, attribute: string): Value {
    Obj([Member("Fn::GetAtt", Arr([Str(name), Str(attribute)]))])
  }

  function Join(separator: string, parts: seq<Value>): Value {
    Obj([Member("Fn::Join", Arr([Str(separator), Arr(parts)]))])
  }

  /** The resource name a `Ref` or `Fn::GetAtt` document points at. */
  function Target(v: Value): Option<string> {
    if v.Obj? && |v.members| == 1 then
      var m := v.members[0];
      if m.key == "Ref" && m.val.Str? then Some(m.val.s)
      else if m.key == "Fn::GetAtt" && m.val.Arr? && |m.val.items| == 2 && m.val.items[0].Str? then
        Some(m.val.items[0].s)
      else None
    else None
  }

  // ---------------------------------------------------------------------
  // JSON.stringify (compact form)
  // ---------------------------------------------------------------------

  function HexDigit(d: nat): char
    requires d < 16
  {
    if d < 10 then ('0' as int + d) as char else ('a' as int + d - 10) as char
  }

  function EscapeChar(c: char): string {
    if c == '"' then "\\\""
    else if c == '\\' then "\\\\"
    else if c == '\n' then "\\n"
    else if c == '\r' then "\\r"
    else if c == '\t' then "\\t"
    else if c as int == 8 then "\\b"
    else if c as int == 12 then "\\f"
    else if (c as int) < 0x20 then "\\u00" + [HexDigit(c as int / 16), HexDigit(c as int % 16)]
    else [c]
  }

  function Escape(s: string): string {
    if s == [] then "" else EscapeChar(s[0]) + Escape(s[1..])
  }

  function Quote(s: string): string {
    "\"" + Escape(s) + "\""
  }

  /** The compact `JSON.stringify` text. Its first character tells the kind
      of value, and a container's text is closed by the matching bracket. */
  function Stringify(v: Value): (r: string)
    ensures |r| > 0
    ensures r[0] == '{' <==> v.Obj?
    ensures r[0] == '[' <==> v.Arr?
    ensures r[0] == '"' <==> v.Str?
    ensures v.Obj? ==> r[|r| - 1] == '}'
    ensures v.Arr? ==> r[|r| - 1] == ']'
    decreases v
  {
    match v
    case Null => "null"
    case Bool(b) => if b then "true" else "false"
    case Num(n) => Strings.IntToString(n)
    case Str(s) => Quote(s)
    case Arr(items) => "[" + StringifyItems(items) + "]"
    case Obj(ms) => "{" + StringifyMembers(ms) + "}"
  }

  function StringifyItems(items: seq<Value>): string
    decreases items
  {
    if items == [] then ""
    else if |items| == 1 then Stringify(items[0])
    else Stringify(items[0]) + "," + StringifyItems(items[1..])
  }

  function StringifyMembers(ms: seq<Member>): string
    decreases ms
  {
    if ms == [] then ""
    else
      var first := Quote(ms[0].key) + ":" + Stringify(ms[0].val);
      if |ms| == 1 then first else first + "," + StringifyMembers(ms[1..])
  }

  // ---------------------------------------------------------------------
  // A plain object that callers share and the templates mutate in place
  // ---------------------------------------------------------------------

  class JsObject {
    var members: seq<Member>

    constructor (ms: seq<Member>)
      ensures members == ms
    {
      members := ms;
    }

    function Value(): Value
      reads this
    {
      Obj(members)
    }

    /** `delete o[k]` */
    method Delete(k: string)
      modifies this
      ensures members == Remove(old(members), k)
    {
      members := Remove(members, k);
    }

    /** `o[k] = v` */
    method Set(k: string, v: Value)
      modifies this
      ensures members == Put(old(members), k, v)
    {
      members := Put(members, k, v);
    }
  }
}
