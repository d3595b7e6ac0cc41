/** The part of encoding/json the payloads rely on. A Go struct value is a
    map from the struct's fields to their values, each of the field's
    declared kind. Encoding it writes one member per field under the key
    its tag names; a field tagged `omitempty` is dropped when it holds the
    empty value of its kind (`""`, `0`, `false`), and a struct-valued field
    never counts as empty. Decoding starts from the zero struct and sets
    each field whose member is present with a value of the field's kind. */
module Json {
  import opened Wrappers

  datatype Value =
    | Null
    | Bool(b: bool)
    | Int(i: int)
    | Str(s: string)
    | Object(members: seq<Member>)

  datatype Member = Member(key: string, value: Value)

  /** The Go type of a struct field, as far as encoding cares; a struct
      type carries the members its zero value encodes to. */
  datatype Kind = StrKind | IntKind | BoolKind | StructKind(zero: seq<Member>)

  function Zero(k: Kind): Value
  {
    match k
    case StrKind => Str("")
    case IntKind => Int(0)
    case BoolKind => Bool(false)
    case StructKind(zero) => Object(zero)
  }

  predicate HasKind(v: Value, k: Kind)
  {
    match k
    case StrKind => v.Str?
    case IntKind => v.Int?
    case BoolKind => v.Bool?
    case StructKind(_) => v.Object?
  }

  /** encoding/json's "empty value" test behind `omitempty`. */
  predicate IsEmptyValue(v: Value)
  {
    v == Null || v == Bool(false) || v == Int(0) || v == Str("")
  }

  /** For a scalar field, empty means zero; a struct-valued field is never empty. */
  lemma EmptyIsZero(v: Value, k: Kind)
    requires HasKind(v, k)
    ensures IsEmptyValue(v) <==> (!k.StructKind? && v == Zero(k))
  {
  }

  /** `s` is a value of a struct type whose fields are `fields`, of kinds `kindOf`. */
  ghost predicate IsStruct<F>(fields: set<F>, kindOf: F -> Kind, s: map<F, Value>)
  {
    s.Keys == fields && forall f :: f in s ==> HasKind(s[f], kindOf(f))
  }

  /** `new(T)`: every field at its zero value. */
  function ZeroStruct<F>(fields: set<F>, kindOf: F -> Kind): (s: map<F, Value>)
    ensures IsStruct(fields, kindOf, s)
    ensures forall f :: f in s ==> s[f] == Zero(kindOf(f))
  {
    map f | f in fields :: Zero(kindOf(f))
  }

  /** The members encoding writes for struct `s`, by field; `keep(f)` holds
      for the fields whose tag lacks `omitempty`. */
  function Marshal<F>(s: map<F, Value>, keep: F -> bool): (obj: map<F, Value>)
    ensures obj.Keys <= s.Keys
    ensures forall f :: f in s ==> (f in obj <==> keep(f) || !IsEmptyValue(s[f]))
    ensures forall f :: f in obj ==> obj[f] == s[f]
  {
    map f | f in s && (keep(f) || !IsEmptyValue(s[f])) :: s[f]
  }

  /** What decoding leaves in a field of kind `k` given the member's value, if any. */
  function FieldFrom(v: Option<Value>, k: Kind): (r: Value)
    ensures HasKind(r, k)
  {
    if v.Some? && HasKind(v.value, k) then v.value else Zero(k)
  }

  /** Decoding the members `obj` into a zero struct. */
  function Unmarshal<F>(fields: set<F>, kindOf: F -> Kind, obj: map<F, Value>): (s: map<F, Value>)
    ensures IsStruct(fields, kindOf, s)
    ensures forall f :: f in fields ==>
      s[f] == FieldFrom(if f in obj then Some(obj[f]) else None, kindOf(f))
  {
    map f | f in fields :: FieldFrom(if f in obj then Some(obj[f]) else None, kindOf(f))
  }

  /** Decoding what encoding wrote gives the struct back: an omitted field
      held its zero value, and decoding leaves exactly that in it. */
  lemma UnmarshalMarshal<F>(fields: set<F>, kindOf: F -> Kind, keep: F -> bool, s: map<F, Value>)
    requires IsStruct(fields, kindOf, s)
    ensures Unmarshal(fields, kindOf, Marshal(s, keep)) == s
  {
    var back := Unmarshal(fields, kindOf, Marshal(s, keep));
    forall f | f in fields ensures back[f] == s[f] {
      EmptyIsZero(s[f], kindOf(f));
    }
  }

  /** When every `omitempty` field is empty, only the kept fields `ks` are written. */
  lemma MarshalOnly<F>(s: map<F, Value>, keep: F -> bool, ks: set<F>)
    requires forall f :: f in s ==> (keep(f) <==> f in ks)
    requires forall f :: f in s && f !in ks ==> IsEmptyValue(s[f])
    ensures Marshal(s, keep) == map f | f in s && f in ks :: s[f]
  {
  }

  /** The value of the first member under `key`. */
  function Lookup(obj: seq<Member>, key: string): Option<Value>
    decreases |obj|
  {
    if obj == [] then None
    else if obj[0].key == key then Some(obj[0].value)
    else Lookup(obj[1..], key)
  }

  lemma LookupCons(m: Member, rest: seq<Member>, key: string)
    ensures Lookup([m] + rest, key) == if m.key == key then Some(m.value) else Lookup(rest, key)
  {
    assert ([m] + rest)[0] == m && ([m] + rest)[1..] == rest;
  }

  /** The members on the wire for field-keyed members `obj`: the fields in
      declaration order `order`, each under its tag's key. */
  function Wire<F>(order: seq<F>, key: F -> string, obj: map<F, Value>): seq<Member>
    decreases |order|
  {
    if order == [] then []
    else
      var f := order[0];
      (if f in obj then [Member(key(f), obj[f])] else []) + Wire(order[1..], key, obj)
  }
}
