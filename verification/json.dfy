/** JSON values as `response.json()` hands them to the adapters, the optional-chaining reads
    (`data.a?.[0]?.b`) the adapters perform on them, JavaScript truthiness of what such a read
    finds, and `JSON.stringify` for the error messages that echo a reply body. */
module Json {
  import opened Basics
  import Strings

  /** A parsed JSON value. Numbers are integers (token counts, status codes); an object keeps
      its members in enumeration order. */
  datatype Json =
    | Null
    | Bool(b: bool)
    | Num(n: int)
    | Str(s: string)
    | Arr(items: seq<Json>)
    | Obj(members: seq<Member>)

  datatype Member = Member(key: string, value: Json)

  /** `obj[key]`: JSON.parse keeps the last of duplicated keys, so the search runs backwards. */
  function Lookup(ms: seq<Member>, key: string): (r: Option<Json>)
    ensures r.None? <==> forall i | 0 <= i < |ms| :: ms[i].key != key
    ensures r.Some? ==> exists i | 0 <= i < |ms| :: ms[i].key == key && ms[i].value == r.value
    ensures r.Some? ==> exists i | 0 <= i < |ms| ::
      ms[i].key == key && ms[i].value == r.value && forall j | i < j < |ms| :: ms[j].key != key
  {
    if ms == [] then None
    else if ms[|ms| - 1].key == key then Some(ms[|ms| - 1].value)
    else Lookup(ms[..|ms| - 1], key)
  }

  /** One step of a property path: `.name` or `[i]`. */
  datatype Step = Key(name: string) | Index(i: nat)

  /** Reading one step from a value that is neither `null` nor `undefined`. Only objects have the
      member names the adapters read (arrays and strings have `length`, which is never read);
      `[i]` indexes arrays, reads member "i" of objects and picks a character of a string. */
  function Prop(j: Json, step: Step): Option<Json> {
    match step
    case Key(k) =>
      (match j
       case Obj(ms) => Lookup(ms, k)
       case _ => None)
    case Index(i) =>
      (match j
       case Arr(items) => if i < |items| then Some(items[i]) else None
       case Obj(ms) => Lookup(ms, Strings.NatToString(i))
       case Str(s) => if i < |s| then Some(Str([s[i]])) else None
       case _ => None)
  }

  /** `v?.p1?.p2...`: every step is guarded, so a missing or `null` value anywhere along the
      path makes the whole read `undefined` (None) instead of throwing. */
  function Follow(v: Option<Json>, path: seq<Step>): (r: Option<Json>)
    ensures v.None? ==> r.None?
    ensures path == [] ==> r == v
    decreases |path|
  {
    if path == [] || v.None? then v
    else if v.value.Null? then None
    else Follow(Prop(v.value, path[0]), path[1..])
  }

  /** `data.p1?.p2...` on a parsed body that is not `null`. */
  function Read(data: Json, path: seq<Step>): (r: Option<Json>)
    ensures path == [] ==> r == Some(data)
    ensures !data.Null? && path != [] && Prop(data, path[0]).None? ==> r.None?
  {
    Follow(Some(data), path)
  }

  /** A path read stops at the first missing step. */
  lemma {:induction false} FollowMissingPrefix(v: Option<Json>, path: seq<Step>, k: nat)
    requires k <= |path|
    requires Follow(v, path[..k]).None?
    ensures Follow(v, path).None?
    decreases |path|
  {
    if path != [] && v.Some? && !v.value.Null? {
      assert path[..0] == [];
      assert path[..k][0] == path[0];
      assert path[..k][1..] == path[1..][..k - 1];
      FollowMissingPrefix(Prop(v.value, path[0]), path[1..], k - 1);
    }
  }

  /** A two-step read `data.a?.b` through an object member `a`. */
  lemma ReadTwo(data: Json, a: string, b: string, inner: Json)
    requires data.Obj? && Lookup(data.members, a) == Some(inner) && !inner.Null?
    ensures Read(data, [Key(a), Key(b)]) == Prop(inner, Key(b))
  {
    var path := [Key(a), Key(b)];
    assert path[1..] == [Key(b)] && [Key(b)][1..] == [];
    assert Prop(data, Key(a)) == Some(inner);
    assert Follow(Some(data), path) == Follow(Some(inner), [Key(b)]);
    assert Follow(Some(inner), [Key(b)]) == Follow(Prop(inner, Key(b)), []);
  }

  /** JavaScript truthiness of a read; `undefined` is falsy. */
  predicate Truthy(v: Option<Json>)
    ensures Truthy(v) ==> v.Some? && !v.value.Null?
    ensures v.Some? && (v.value.Arr? || v.value.Obj?) ==> Truthy(v)
  {
    match v
    case None => false
    case Some(j) =>
      match j
      case Null => false
      case Bool(b) => b
      case Num(n) => n != 0
      case Str(s) => s != ""
      case Arr(_) => true
      case Obj(_) => true
  }

  /** A truthy string read, as `if (x)` and `x || ...` use it when `x` is a string. */
  function TruthyString(v: Option<Json>): (r: Option<string>)
    ensures r.Some? <==> Truthy(v) && v.value.Str?
    ensures r.Some? ==> r.value != "" && v == Some(Str(r.value))
  {
    if v.Some? && v.value.Str? && v.value.s != "" then Some(v.value.s) else None
  }

  /** `v || d` for a read that is expected to be a string. */
  function StringOrDefault(v: Option<Json>, d: string): (r: string)
    ensures Truthy(v) && v.value.Str? ==> r == v.value.s
    ensures !Truthy(v) ==> r == d
  {
    TruthyString(v).GetOr(d)
  }

  /** `v || 0` for a read that is expected to be a number. */
  function NumberOrZero(v: Option<Json>): (r: int)
    ensures Truthy(v) && v.value.Num? ==> r == v.value.n
    ensures !Truthy(v) ==> r == 0
  {
    if v.Some? && v.value.Num? then v.value.n else 0
  }

  // ---------------------------------------------------------------------------
  // JSON.stringify

  function HexDigit(d: nat): char
    requires d < 16
  {
    "0123456789abcdef"[d]
  }

  /** The escape JSON.stringify writes for one character of a string. */
  function EscapeChar(c: char): string {
    if c == '"' then "\\\""
    else if c == '\\' then "\\\\"
    else if c == '\U{0008}' then "\\b"
    else if c == '\U{000C}' then "\\f"
    else if c == '\n' then "\\n"
    else if c == '\r' then "\\r"
    else if c == '\t' then "\\t"
    else if c < ' ' then "\\u00" + [HexDigit(c as int / 16), HexDigit(c as int % 16)]
    else [c]
  }

  function Escape(s: string): string {
    if s == [] then "" else EscapeChar(s[0]) + Escape(s[1..])
  }

  function Quote(s: string): string {
    "\"" + Escape(s) + "\""
  }

  /** `JSON.stringify(j)`, compact and without spaces. Object members are written in the order
      they were parsed; JavaScript would write integer-like keys first. */
  function Stringify(j: Json): (r: string)
    ensures r != ""
    ensures j.Null? ==> r == "null"
    ensures j.Str? ==> |r| >= 2 && r[0] == '"' && r[|r| - 1] == '"'
    ensures j.Arr? ==> |r| >= 2 && r[0] == '[' && r[|r| - 1] == ']'
    ensures j.Obj? ==> |r| >= 2 && r[0] == '{' && r[|r| - 1] == '}'
    ensures j == Obj([]) ==> r == "{}"
    decreases j
  {
    match j
    case Null => "null"
    case Bool(b) => if b then "true" else "false"
    case Num(n) => if n < 0 then "-" + Strings.NatToString(-n) else Strings.NatToString(n)
    case Str(s) => Quote(s)
    case Arr(items) =>
      "[" + Strings.Join(seq(|items|, i requires 0 <= i < |items| => Stringify(items[i])), ",") + "]"
    case Obj(ms) =>
      "{" + Strings.Join(seq(|ms|, i requires 0 <= i < |ms| => StringifyMember(ms[i], j)), ",") + "}"
  }

  function StringifyMember(m: Member, ghost parent: Json): string
    requires m < parent
    decreases parent, 0
  {
    Quote(m.key) + ":" + Stringify(m.value)
  }
}
