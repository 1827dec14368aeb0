/** The configuration scheme as the validator sees it.  A scheme maps keys to
    attribute dicts ("scheme nodes").  The validator rewrites some nodes in
    place, so nodes live in a `Store` and are referred to by index, the way
    Python code holds references to shared dicts. */
module Scheme {
  import opened PyValues

  /** The type names that have a handler of their own. */
  datatype TypeName = TBool | TInt | TStr | TList | TListOfStrs | TFunc | TDict | TVarsInDict

  function TypeNameOf(t: TypeName): string {
    match t
    case TBool => "bool"
    case TInt => "int"
    case TStr => "str"
    case TList => "list"
    case TListOfStrs => "list-of-strs"
    case TFunc => "func"
    case TDict => "dict"
    case TVarsInDict => "vars-in-dict"
  }

  /** The handler name table; 'complex' is reached through a list of names. */
  function ParseTypeName(s: string): (r: Option<TypeName>)
    ensures r.Some? ==> TypeNameOf(r.value) == s
  {
    if s == "bool" then Some(TBool)
    else if s == "int" then Some(TInt)
    else if s == "str" then Some(TStr)
    else if s == "list" then Some(TList)
    else if s == "list-of-strs" then Some(TListOfStrs)
    else if s == "func" then Some(TFunc)
    else if s == "dict" then Some(TDict)
    else if s == "vars-in-dict" then Some(TVarsInDict)
    else None
  }

  lemma ParseTypeNameOf(t: TypeName)
    ensures ParseTypeName(TypeNameOf(t)) == Some(t)
  {
  }

  /** How a type appears in the message of a failed union. */
  function DisplayName(s: string): string {
    if s == "str" then "string"
    else if s == "list-of-strs" then "list of strings"
    else if s == "dict" then "dict/another map type"
    else s
  }

  type NodeId = nat
  type FuncId = nat

  /** The value a scheme key maps to: a dict, or a callable that produces
      one from `(value, fullkey)`. */
  datatype NodeRef = Node(id: NodeId) | Computed(fn: FuncId)

  /** A scheme key: a plain name, or the marker that stands for any number
      of further string keys. */
  datatype SchemeKey = Named(name: string) | AnyAmountStrs(marker: string)

  type SchemeMap = seq<(SchemeKey, NodeRef)>

  /** The value of one scheme attribute. */
  datatype Attr =
    | AStr(str: string)
    | AList(values: seq<Value>)
    | AFlag(flag: bool)
    | ASub(scheme: SchemeMap)
    | ACall(fn: FuncId)
    | ANone

  type Attrs = map<string, Attr>

  /** The scheme nodes of one validation run, indexed by `NodeId`. */
  type Store = seq<Attrs>

  /** The callables a scheme may hold, as functions of `(value, fullkey)`. */
  datatype Callables = Callables(
    allowed: (FuncId, Value, string) -> Option<seq<Value>>,
    vars: (FuncId, Value, string) -> SchemeMap,
    node: (FuncId, Value, string) -> NodeId)

  /** Python truthiness of an attribute value. */
  predicate Truthy(a: Attr) {
    match a
    case AStr(s) => |s| > 0
    case AList(vs) => |vs| > 0
    case AFlag(b) => b
    case ASub(s) => |s| > 0
    case ACall(_) => true
    case ANone => false
  }

  /** `attrs.get(key, None)`, a stored `None` counting as absent. */
  function Lookup(attrs: Attrs, key: string): Option<Attr> {
    if key in attrs && attrs[key] != ANone then Some(attrs[key]) else None
  }

  /** `_getAttrValue(attrs, key, typename)`: the attribute under its own
      name, else under `<typename>-<key>`; `None` when neither is set. */
  function GetAttrValue(attrs: Attrs, key: string, typename: string): (r: Option<Attr>)
    ensures r.Some? ==> r.value != ANone
    ensures Lookup(attrs, key).Some? ==> r == Lookup(attrs, key)
    ensures Lookup(attrs, key).None? ==> r == Lookup(attrs, typename + "-" + key)
  {
    var byName := Lookup(attrs, key);
    if byName.Some? then byName else Lookup(attrs, typename + "-" + key)
  }

  /** `x in a` for an attribute used as a container; `None` when Python
      would raise because the attribute is not a list. */
  function Contains(a: Attr, x: Value): (r: Option<bool>)
    ensures a.AList? ==> r == Some(x in a.values)
  {
    if a.AList? then Some(x in a.values) else None
  }

  /** The attributes of node `id`; an unknown id reads as an empty dict. */
  function At(st: Store, id: NodeId): Attrs {
    if id < |st| then st[id] else map[]
  }

  /** Overwrites node `id` in place. */
  function Put(st: Store, id: NodeId, attrs: Attrs): (r: Store)
    ensures |r| == |st|
    ensures id < |st| ==> At(r, id) == attrs
    ensures forall j :: 0 <= j < |st| && j != id ==> r[j] == st[j]
  {
    if id < |st| then st[id := attrs] else st
  }

  /** The only in-place change validation makes to a node: `type` becomes
      the node's `vars-type`, `allow-unknown-keys` its
      `vars-allow-unknown-keys`; every other attribute stays. */
  ghost predicate NodeEvolves(a: Attrs, b: Attrs) {
    && a - {"type", "allow-unknown-keys"} == b - {"type", "allow-unknown-keys"}
    && (Lookup(b, "type") == Lookup(a, "type") || Lookup(b, "type") == Lookup(a, "vars-type"))
    && (Lookup(b, "allow-unknown-keys") == Lookup(a, "allow-unknown-keys")
        || Lookup(b, "allow-unknown-keys") == Lookup(a, "vars-allow-unknown-keys"))
  }

  /** A later store: nodes may be added; existing nodes only evolve. */
  ghost predicate Evolves(st: Store, st': Store) {
    |st| <= |st'| && forall j :: 0 <= j < |st| ==> NodeEvolves(st[j], st'[j])
  }

  lemma LookupOutside(a: Attrs, b: Attrs, k: string)
    requires a - {"type", "allow-unknown-keys"} == b - {"type", "allow-unknown-keys"}
    requires k != "type" && k != "allow-unknown-keys"
    ensures Lookup(a, k) == Lookup(b, k)
  {
    var fixed := {"type", "allow-unknown-keys"};
    assert k in a <==> k in a - fixed;
    assert k in b <==> k in b - fixed;
    if k in a {
      assert (a - fixed)[k] == a[k];
      assert (b - fixed)[k] == b[k];
    }
  }

  lemma {:induction false} EvolvesTransitive(s1: Store, s2: Store, s3: Store)
    requires Evolves(s1, s2) && Evolves(s2, s3)
    ensures Evolves(s1, s3)
  {
    forall j | 0 <= j < |s1| ensures NodeEvolves(s1[j], s3[j]) {
      var a, b, c := s1[j], s2[j], s3[j];
      assert NodeEvolves(a, b) && NodeEvolves(b, c);
      LookupOutside(a, b, "vars-type");
      LookupOutside(a, b, "vars-allow-unknown-keys");
    }
  }

  lemma EvolvesReflexive(st: Store)
    ensures Evolves(st, st)
  {
  }

  /** Appending a node (a copy made by the list handler) is an evolution. */
  lemma EvolvesAppend(st: Store, a: Attrs)
    ensures Evolves(st, st + [a])
  {
    assert forall j :: 0 <= j < |st| ==> (st + [a])[j] == st[j];
  }
}
