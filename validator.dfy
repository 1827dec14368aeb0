/** The recursive checks of `Validator` (buildconf/validator.py): one handler
    per type name, the union ("complex") handler, and `_validate`, which walks
    the keys of one mapping against one scheme.

    Every handler gets the value, the id of its scheme node and the dotted
    key path, and returns an `Outcome` together with the store of scheme
    nodes as the handler leaves it: `_handleVarsInDict` rewrites its node in
    place and `_handleList` allocates a copy, and later visits see that. */
module Validator {
  import opened PyValues
  import opened Scheme
  import Utils

  /** The exceptions validation raises.  `ConfTypeError` and
      `ConfValueError` stand for subclasses of `ConfError`; `Uncaught` is any
      Python exception outside that family (a `KeyError` for a missing
      scheme attribute, an `AttributeError`, a `NotImplementedError`). */
  datatype ErrorKind = ConfError | ConfTypeError | ConfValueError | Uncaught

  /** `fromSub` marks a `ZenMakeConfSubTypeError`: a type error raised
      inside a nested structure, which a union must not swallow. */
  datatype Outcome = Pass | Err(kind: ErrorKind, fromSub: bool, msg: string)

  /** Only type errors can be sub-type errors (the class is a subclass of
      the type error). */
  predicate WellFormed(o: Outcome) {
    o.Err? && o.fromSub ==> o.kind == ConfTypeError
  }

  /** Caught by `except ZenMakeConfTypeError`. */
  predicate IsTypeError(o: Outcome) {
    o.Err? && o.kind == ConfTypeError
  }

  /** Caught by the union handler: a type error that is not a sub-type error. */
  predicate IsPlainTypeError(o: Outcome) {
    IsTypeError(o) && !o.fromSub
  }

  /** Caught by `except ZenMakeConfError`. */
  predicate IsConfError(o: Outcome) {
    o.Err? && o.kind != Uncaught
  }

  function TypeErr(msg: string): Outcome { Err(ConfTypeError, false, msg) }
  function ValueErr(msg: string): Outcome { Err(ConfValueError, false, msg) }
  function Fault(msg: string): Outcome { Err(Uncaught, false, msg) }

  /** `except ZenMakeConfTypeError as ex: raise ZenMakeConfSubTypeError(ex = ex)` */
  function WrapSub(o: Outcome): (r: Outcome)
    ensures IsTypeError(o) ==> r == Err(ConfTypeError, true, o.msg)
    ensures !IsTypeError(o) ==> r == o
    ensures WellFormed(o) ==> WellFormed(r)
  {
    if IsTypeError(o) then Err(ConfTypeError, true, o.msg) else o
  }

  /** The handler `_getHandler` picks for a `type` attribute. */
  datatype Handler = Simple(t: TypeName) | Complex

  /** `_getHandler(typeName)`: a list or tuple of names is a union; a name
      must be in the handler table, else Python raises `KeyError` (`None`). */
  function GetHandler(a: Attr): (r: Option<Handler>)
    ensures a.AList? ==> r == Some(Complex)
    ensures a.AStr? && ParseTypeName(a.str).Some? ==> r == Some(Simple(ParseTypeName(a.str).value))
    ensures a == AStr("complex") ==> r == Some(Complex)
    ensures a.AStr? && a.str != "complex" && ParseTypeName(a.str).None? ==> r.None?
    ensures !a.AList? && !a.AStr? ==> r.None?
  {
    match a
    case AList(_) => Some(Complex)
    case AStr(s) =>
      if s == "complex" then Some(Complex)
      else if ParseTypeName(s).Some? then Some(Simple(ParseTypeName(s).value))
      else None
    case _ => None
  }

  /** `_genFullKey(keyprefix, key)` */
  function GenFullKey(prefix: string, key: string): (r: string)
    ensures prefix == "" ==> r == key
    ensures prefix != "" ==> |r| == |prefix| + 1 + |key|
    ensures prefix != "" ==> r[..|prefix|] == prefix && r[|prefix|] == '.' && r[|prefix| + 1..] == key
  {
    if prefix != "" then prefix + "." + key else key
  }

  // ---------------------------------------------------------------------
  // Handlers that only look at the value

  /** `_handleBool` */
  function HandleBool(v: Value, fullkey: string): (r: Outcome)
    ensures r.Pass? <==> v.PyBool?
    ensures r.Err? ==> IsPlainTypeError(r)
  {
    if v.PyBool? then Pass else TypeErr("Param " + Quote(fullkey) + " should be bool")
  }

  /** `_handleInt`: `isinstance(True, int)` holds in Python, so a bool passes. */
  function HandleInt(v: Value, fullkey: string): (r: Outcome)
    ensures r.Pass? <==> v.PyInt? || v.PyBool?
    ensures r.Err? ==> IsPlainTypeError(r)
  {
    if v.PyInt? || v.PyBool? then Pass else TypeErr("Param " + Quote(fullkey) + " should be integer")
  }

  /** `_handleFunc` */
  function HandleFunc(v: Value, fullkey: string): (r: Outcome)
    ensures r.Pass? <==> v.PyFunc?
    ensures r.Err? ==> IsPlainTypeError(r)
  {
    if v.PyFunc? then Pass else TypeErr("Param " + Quote(fullkey) + " should be function")
  }

  /** `allowed`, called with `(value, fullkey)` when it is callable. */
  function ResolveAllowed(a: Option<Attr>, v: Value, fullkey: string, cx: Callables): Option<Attr> {
    match a
    case None => None
    case Some(ACall(f)) =>
      (match cx.allowed(f, v, fullkey)
       case None => None
       case Some(vs) => Some(AList(vs)))
    case Some(x) => Some(x)
  }

  /** `allowed is None or x in allowed`; `None` when the test raises. */
  function Admits(allowed: Option<Attr>, x: Value): (r: Option<bool>)
    ensures allowed.None? ==> r == Some(true)
    ensures allowed.Some? && allowed.value.AList? ==> r == Some(x in allowed.value.values)
  {
    if allowed.None? then Some(true) else Contains(allowed.value, x)
  }

  /** The `allowed` a `str` node puts on its value. */
  function StrAllowed(attrs: Attrs, v: Value, fullkey: string, cx: Callables): Option<Attr> {
    ResolveAllowed(GetAttrValue(attrs, "allowed", "str"), v, fullkey, cx)
  }

  /** `_handleStr`: a non-string is a type error; a string outside the
      resolved `allowed` set is a value error; an empty node checks nothing. */
  function HandleStr(v: Value, attrs: Attrs, fullkey: string, cx: Callables): (r: Outcome)
    ensures !v.PyStr? ==> IsPlainTypeError(r)
    ensures v.PyStr? && |attrs| == 0 ==> r.Pass?
    ensures v.PyStr? && |attrs| > 0 ==>
      (r.Pass? <==> Admits(StrAllowed(attrs, v, fullkey, cx), v) == Some(true))
    ensures v.PyStr? && |attrs| > 0 && Admits(StrAllowed(attrs, v, fullkey, cx), v) == Some(false) ==>
      r.Err? && r.kind == ConfValueError
    ensures WellFormed(r) && (r.Err? ==> !r.fromSub)
  {
    if !v.PyStr? then TypeErr("Param " + Quote(fullkey) + " should be string")
    else if |attrs| == 0 then Pass
    else
      match Admits(StrAllowed(attrs, v, fullkey, cx), v)
      case None => Fault("TypeError: argument of type is not iterable")
      case Some(true) => Pass
      case Some(false) =>
        ValueErr("Value `" + Show(v) + "` is invalid for the param " + Quote(fullkey) + ".")
  }

  /** What is wrong with one element of a list of strings, if anything. */
  function ElemFault(x: Value, allowed: Option<Attr>): Option<ErrorKind> {
    if !x.PyStr? then Some(ConfTypeError)
    else match Admits(allowed, x)
      case None => Some(Uncaught)
      case Some(true) => None
      case Some(false) => Some(ConfValueError)
  }

  /** The element loop of `_handleListOfStrs`, from index `i`: the first
      faulty element decides the error. */
  function CheckStrElems(items: seq<Value>, i: nat, allowed: Option<Attr>, fullkey: string): (r: Outcome)
    requires i <= |items|
    ensures r.Pass? <==> forall j :: i <= j < |items| ==> ElemFault(items[j], allowed).None?
    ensures r.Err? ==> !r.fromSub
    ensures r.Err? ==>
              exists j :: i <= j < |items| && ElemFault(items[j], allowed) == Some(r.kind)
                && forall k :: i <= k < j ==> ElemFault(items[k], allowed).None?
    decreases |items| - i
  {
    if i == |items| then Pass
    else
      match ElemFault(items[i], allowed)
      case None => CheckStrElems(items, i + 1, allowed, fullkey)
      case Some(k) =>
        var msg := if k == ConfTypeError then "Value `" + Show(items[i]) + "` is invalid for the param "
                     + Quote(fullkey) + ". It should be list of strings"
                   else "Value " + Show(items[i]) + " is invalid for the param " + Quote(fullkey) + ".\nAllowed values: ...";
        Err(k, false, msg)
  }

  /** `_handleListOfStrs` */
  function HandleListOfStrs(v: Value, attrs: Attrs, fullkey: string, cx: Callables): (r: Outcome)
    ensures !v.IsSequence() ==> IsPlainTypeError(r)
    ensures v.IsSequence() ==> r == CheckStrElems(v.items, 0,
      ResolveAllowed(GetAttrValue(attrs, "allowed", "list-of-strs"), v, fullkey, cx), fullkey)
    ensures WellFormed(r) && (r.Err? ==> !r.fromSub)
  {
    if !v.IsSequence() then
      TypeErr("Value `" + Show(v) + "` is invalid for the param " + Quote(fullkey) + ". It should be list of strings")
    else
      CheckStrElems(v.items, 0, ResolveAllowed(GetAttrValue(attrs, "allowed", "list-of-strs"), v, fullkey, cx), fullkey)
  }

  // ---------------------------------------------------------------------
  // Scheme helpers used by `_validate`

  /** The last any-amount-of-strings marker of a scheme, as the partition
      loop of `_validate` leaves it. */
  function Wildcard(scheme: SchemeMap): (r: Option<NodeRef>)
    ensures r.None? <==> forall j :: 0 <= j < |scheme| ==> scheme[j].0.Named?
    ensures r.Some? ==>
              exists j :: 0 <= j < |scheme| && scheme[j].0.AnyAmountStrs? && scheme[j].1 == r.value
                && forall k :: j < k < |scheme| ==> scheme[k].0.Named?
    decreases |scheme|
  {
    if |scheme| == 0 then None
    else
      var last := scheme[|scheme| - 1];
      if last.0.AnyAmountStrs? then Some(last.1) else Wildcard(scheme[..|scheme| - 1])
  }

  /** The named entries of a scheme, in order. */
  function UsualItems(scheme: SchemeMap): (r: seq<(string, NodeRef)>)
    ensures |r| <= |scheme|
    ensures forall p :: p in r <==> (Named(p.0), p.1) in scheme
    decreases |scheme|
  {
    if |scheme| == 0 then []
    else
      var rest := UsualItems(scheme[..|scheme| - 1]);
      var last := scheme[|scheme| - 1];
      assert scheme == scheme[..|scheme| - 1] + [last];
      if last.0.Named? then rest + [(last.0.name, last.1)] else rest
  }

  /** `idx` lists, strictly increasing, the positions in `scheme` of the
      items of `r`, and every named entry of `scheme` is at one of them. */
  ghost predicate NamedInOrder(scheme: SchemeMap, r: seq<(string, NodeRef)>, idx: seq<nat>) {
    && |idx| == |r|
    && (forall k :: 0 <= k < |idx| ==> idx[k] < |scheme| && scheme[idx[k]] == (Named(r[k].0), r[k].1))
    && (forall k :: 0 <= k < |idx| - 1 ==> idx[k] < idx[k + 1])
    && (forall m :: 0 <= m < |scheme| && scheme[m].0.Named? ==> m in idx)
  }

  /** The usual items are the named entries of the scheme in scheme order. */
  lemma {:induction false} UsualItemsInOrder(scheme: SchemeMap) returns (idx: seq<nat>)
    ensures NamedInOrder(scheme, UsualItems(scheme), idx)
    decreases |scheme|
  {
    if |scheme| == 0 {
      idx := [];
    } else {
      var n := |scheme| - 1;
      var init := scheme[..n];
      var idx0 := UsualItemsInOrder(init);
      if scheme[n].0.Named? {
        idx := idx0 + [n];
        NamedInOrderExtend(scheme, UsualItems(init), idx0);
      } else {
        idx := idx0;
        assert forall m :: 0 <= m < n ==> init[m] == scheme[m];
      }
    }
  }

  lemma NamedInOrderExtend(scheme: SchemeMap, rest: seq<(string, NodeRef)>, idx0: seq<nat>)
    requires |scheme| > 0 && scheme[|scheme| - 1].0.Named?
    requires NamedInOrder(scheme[..|scheme| - 1], rest, idx0)
    ensures var last := scheme[|scheme| - 1];
      NamedInOrder(scheme, rest + [(last.0.name, last.1)], idx0 + [|scheme| - 1])
  {
    var n := |scheme| - 1;
    assert forall m :: 0 <= m < n ==> scheme[..n][m] == scheme[m];
  }

  /** The names `sorted(scheme.keys())` lists in the unknown-key message. */
  function SchemeKeyNames(scheme: SchemeMap): seq<string> {
    if |scheme| == 0 then []
    else
      (match scheme[0].0 case Named(n) => [n] case AnyAmountStrs(m) => [m]) + SchemeKeyNames(scheme[1..])
  }

  /** Code-point order on strings, as Python compares them. */
  predicate LexLeq(a: string, b: string) {
    |a| == 0 || (|b| > 0 && (a[0] < b[0] || (a[0] == b[0] && LexLeq(a[1..], b[1..]))))
  }

  lemma LexLeqTotal(a: string, b: string)
    ensures LexLeq(a, b) || LexLeq(b, a)
  {
    if |a| > 0 && |b| > 0 && a[0] == b[0] {
      LexLeqTotal(a[1..], b[1..]);
    }
  }

  predicate SortedStrs(s: seq<string>) {
    forall j :: 0 <= j < |s| - 1 ==> LexLeq(s[j], s[j + 1])
  }

  function InsertSorted(x: string, s: seq<string>): (r: seq<string>)
    requires SortedStrs(s)
    ensures SortedStrs(r)
    ensures multiset(r) == multiset(s) + multiset{x}
    ensures |s| > 0 && |r| > 0 ==> r[0] == x || r[0] == s[0]
  {
    if |s| == 0 then [x]
    else if LexLeq(x, s[0]) then [x] + s
    else
      LexLeqTotal(x, s[0]);
      var rest := InsertSorted(x, s[1..]);
      assert s == [s[0]] + s[1..];
      [s[0]] + rest
  }

  /** `sorted(names)` */
  function SortStrs(s: seq<string>): (r: seq<string>)
    ensures SortedStrs(r)
    ensures multiset(r) == multiset(s)
  {
    if |s| == 0 then []
    else
      assert s == [s[0]] + s[1..];
      InsertSorted(s[0], SortStrs(s[1..]))
  }

  function UnknownKeyMessage(key: Value, prefix: string, scheme: SchemeMap): string {
    "Unknown key " + Show(key) + " is in the param " + Quote(prefix) + ". Unknown keys aren't allowed here."
    + "\nValid values: " + Join(SortStrs(SchemeKeyNames(scheme)), ", ")
  }

  /** `set(keys) - set(allowedKeys)`, in the order the keys come. */
  function UnknownKeys(keys: seq<Value>, allowedKeys: seq<Value>): (r: seq<Value>)
    ensures forall x :: x in r <==> x in keys && x !in allowedKeys
  {
    if |keys| == 0 then []
    else (if keys[0] in allowedKeys then [] else [keys[0]]) + UnknownKeys(keys[1..], allowedKeys)
  }

  function DisallowedMessage(key: Value, prefix: string): string {
    "The key " + Show(key) + " is not allowed in the param " + Quote(prefix) + "."
  }

  /** `_checkStrKey` */
  function KeyTypeMessage(key: Value, fullkey: string): string {
    "Type of key `" + Show(key) + "` is invalid. In " + Quote(fullkey) + " this key should be string."
  }

  function UnionMessage(v: Value, fullkey: string, types: seq<Value>): string {
    "Value `" + Show(v) + "` is invalid for the param " + Quote(fullkey) + ". It should be "
    + Join(DisplayNames(types), " or ") + "."
  }

  function DisplayNames(types: seq<Value>): (r: seq<string>)
    ensures |r| == |types|
    ensures forall j :: 0 <= j < |types| && types[j].PyStr? ==> r[j] == DisplayName(types[j].s)
  {
    if |types| == 0 then []
    else [if types[0].PyStr? then DisplayName(types[0].s) else Show(types[0])] + DisplayNames(types[1..])
  }

  /** The special order of the union handler: `list-of-strs` then `str`,
      chosen when `allowed` is present and the union is exactly those two. */
  predicate StrsOrStrUnion(attrs: Attrs, types: seq<Value>) {
    "allowed" in attrs && multiset(types) == multiset{PyStr("list-of-strs"), PyStr("str")}
  }

  // ---------------------------------------------------------------------
  // The recursive handlers

  /** A result together with the store of scheme nodes after the call. */
  datatype Run = Run(out: Outcome, st: Store)

  /** The result of `_validateUsualItems`: also the keys it handled. */
  datatype UsualRun = UsualRun(out: Outcome, handled: seq<string>, st: Store)

  /** How the candidate loop of the union handler ends. */
  datatype Attempt = Passed(st: Store) | Raised(out: Outcome, st: Store) | Exhausted(st: Store)

  /** Calls the handler `_getHandler` chose. */
  function Dispatch(h: Handler, v: Value, ref: NodeId, fullkey: string, st: Store, cx: Callables): (r: Run)
    ensures WellFormed(r.out) && Evolves(st, r.st)
    decreases v, 6, 0
  {
    match h
    case Simple(t) => Handle(t, v, ref, fullkey, st, cx)
    case Complex => HandleComplex(v, ref, fullkey, st, cx)
  }

  /** The handler of one type name. */
  function Handle(t: TypeName, v: Value, ref: NodeId, fullkey: string, st: Store, cx: Callables): (r: Run)
    ensures WellFormed(r.out) && Evolves(st, r.st)
    decreases v, 3, 0
  {
    EvolvesReflexive(st);
    match t
    case TBool => Run(HandleBool(v, fullkey), st)
    case TInt => Run(HandleInt(v, fullkey), st)
    case TStr => Run(HandleStr(v, At(st, ref), fullkey, cx), st)
    case TFunc => Run(HandleFunc(v, fullkey), st)
    case TListOfStrs => Run(HandleListOfStrs(v, At(st, ref), fullkey, cx), st)
    case TList => HandleList(v, ref, fullkey, st, cx)
    case TDict => HandleDict(v, ref, fullkey, st, cx)
    case TVarsInDict => HandleVarsInDict(v, ref, fullkey, st, cx)
  }

  /** `_handleComplex`: reads the node's `type` when it runs. */
  function HandleComplex(v: Value, ref: NodeId, fullkey: string, st: Store, cx: Callables): (r: Run)
    ensures WellFormed(r.out) && Evolves(st, r.st)
    decreases v, 5, 0
  {
    EvolvesReflexive(st);
    var attrs := At(st, ref);
    if "type" !in attrs then Run(Fault("KeyError: 'type'"), st)
    else
      match attrs["type"]
      case AList(types) =>
        var special := StrsOrStrUnion(attrs, types);
        var order := if special then [PyStr("list-of-strs"), PyStr("str")] else types;
        (match TryCandidates(v, ref, fullkey, order, special, 0, st, cx)
         case Passed(st') => Run(Pass, st')
         case Raised(o, st') => Run(o, st')
         case Exhausted(st') => Run(TypeErr(UnionMessage(v, fullkey, types)), st'))
      case AStr(s) =>
        // the loop runs over the characters, and no character names a handler
        if |s| == 0 then Run(TypeErr(UnionMessage(v, fullkey, [])), st)
        else Run(Fault("KeyError: '" + [s[0]] + "'"), st)
      case _ => Run(Fault("TypeError: 'type' is not iterable"), st)
  }

  /** One candidate of the union loop: a name outside the handler table
      raises `KeyError` (a nested list or `complex` would re-enter the union
      handler without end); under the special order `list-of-strs` sees the
      value through `toList`. */
  function RunCandidate(cand: Value, v: Value, ref: NodeId, fullkey: string, toList: bool,
                        st: Store, cx: Callables): (r: Run)
    ensures WellFormed(r.out) && Evolves(st, r.st)
    decreases v, 3, 1
  {
    EvolvesReflexive(st);
    if !cand.PyStr? || ParseTypeName(cand.s).None? then Run(Fault("KeyError: " + Show(cand)), st)
    else
      var t := ParseTypeName(cand.s).value;
      if t == TListOfStrs then Run(HandleListOfStrs(if toList then Utils.ToList(v) else v, At(st, ref), fullkey, cx), st)
      else Handle(t, v, ref, fullkey, st, cx)
  }

  /** The candidate loop of `_handleComplex` from candidate `i`: a pass
      ends it, a plain type error moves on, any other error propagates. */
  function TryCandidates(v: Value, ref: NodeId, fullkey: string, order: seq<Value>, toList: bool, i: nat,
                         st: Store, cx: Callables): (r: Attempt)
    requires i <= |order|
    ensures Evolves(st, r.st)
    ensures r.Raised? ==> WellFormed(r.out) && r.out.Err? && !IsPlainTypeError(r.out)
    decreases v, 4, |order| - i
  {
    EvolvesReflexive(st);
    if i == |order| then Exhausted(st)
    else
      var res := RunCandidate(order[i], v, ref, fullkey, toList, st, cx);
      if res.out.Pass? then Passed(res.st)
      else if IsPlainTypeError(res.out) then
        var rest := TryCandidates(v, ref, fullkey, order, toList, i + 1, res.st, cx);
        EvolvesTransitive(st, res.st, rest.st);
        rest
      else Raised(res.out, res.st)
  }

  /** `_handleList`: with a truthy `vars-type`, every element is checked
      against a copy of the node whose `type` is that `vars-type`. */
  function HandleList(v: Value, ref: NodeId, fullkey: string, st: Store, cx: Callables): (r: Run)
    ensures WellFormed(r.out) && Evolves(st, r.st)
    ensures !v.IsSequence() ==> IsPlainTypeError(r.out)
    ensures v.IsSequence() ==> !IsPlainTypeError(r.out)
    decreases v, 2, 0
  {
    EvolvesReflexive(st);
    if !v.IsSequence() then
      Run(TypeErr("Value `" + Show(v) + "` is invalid for the param " + Quote(fullkey) + ". It should be list"), st)
    else
      var attrs := At(st, ref);
      var allowed := GetAttrValue(attrs, "allowed", "list");
      var varsType := GetAttrValue(attrs, "vars-type", "list");
      var elemType := if varsType.Some? && Truthy(varsType.value) then varsType else None;
      var h := if elemType.Some? then GetHandler(elemType.value) else None;
      if elemType.Some? && h.None? then Run(Fault("KeyError: vars-type"), st)
      else
        var elemRef := if elemType.Some? then |st| else ref;
        var st1 := if elemType.Some? then st + [attrs["type" := elemType.value]] else st;
        assert Evolves(st, st1) by {
          if elemType.Some? { EvolvesAppend(st, attrs["type" := elemType.value]); }
        }
        var res := ListElems(v, h, elemRef, fullkey, ResolveAllowed(allowed, v, fullkey, cx), 0, st1, cx);
        EvolvesTransitive(st, st1, res.st);
        res
  }

  /** The element loop of `_handleList`, from index `i`. */
  function ListElems(v: Value, h: Option<Handler>, elemRef: NodeId, fullkey: string, allowed: Option<Attr>,
                     i: nat, st: Store, cx: Callables): (r: Run)
    requires v.IsSequence() && i <= |v.items|
    ensures WellFormed(r.out) && Evolves(st, r.st)
    ensures !IsPlainTypeError(r.out)
    decreases v, 1, |v.items| - i
  {
    EvolvesReflexive(st);
    if i == |v.items| then Run(Pass, st)
    else
      var elem := v.items[i];
      match Admits(allowed, elem)
      case None => Run(Fault("TypeError: argument is not iterable"), st)
      case Some(false) =>
        Run(ValueErr("Value " + Show(elem) + " is invalid for the param " + Quote(fullkey) + ". Allowed values: ..."), st)
      case Some(true) =>
        if h.None? then ListElems(v, h, elemRef, fullkey, allowed, i + 1, st, cx)
        else
          assert elem in v.items;
          var res := Dispatch(h.value, elem, elemRef, fullkey + ".[" + NatToString(i) + "]", st, cx);
          if res.out.Err? then Run(WrapSub(res.out), res.st)
          else
            var rest := ListElems(v, h, elemRef, fullkey, allowed, i + 1, res.st, cx);
            EvolvesTransitive(st, res.st, rest.st);
            rest
  }

  /** `_handleDict`: a mapping is checked against the node's `vars`
      sub-scheme; a non-empty `disallowed-keys` forces unknown keys to be
      rejected; type errors from inside come out as sub-type errors. */
  function HandleDict(v: Value, ref: NodeId, fullkey: string, st: Store, cx: Callables): (r: Run)
    ensures WellFormed(r.out) && Evolves(st, r.st)
    ensures !v.PyMap? ==> IsPlainTypeError(r.out)
    ensures v.PyMap? ==> !IsPlainTypeError(r.out)
    decreases v, 2, 0
  {
    EvolvesReflexive(st);
    if !v.PyMap? then Run(TypeErr("Param " + Quote(fullkey) + " should be dict or another map type."), st)
    else
      var attrs := At(st, ref);
      var sub := GetAttrValue(attrs, "vars", "dict");
      if sub.None? then Run(Fault("KeyError: 'vars'"), st)
      else
        var disallowed := GetAttrValue(attrs, "disallowed-keys", "dict");
        var allowUnknown := DictAllowsUnknown(attrs);
        var scheme := match sub.value
          case ACall(f) => Some(cx.vars(f, v, fullkey))
          case ASub(s) => Some(s)
          case _ => None;
        if scheme.None? then Run(Fault("AttributeError: vars is not a dict"), st)
        else
          var res := ValidateMap(v, scheme.value, fullkey, allowUnknown, disallowed, st, cx);
          Run(WrapSub(res.out), res.st)
  }

  /** The `allowUnknownKeys` `_handleDict` passes on. */
  function DictAllowsUnknown(attrs: Attrs): (r: bool)
    ensures (var d := GetAttrValue(attrs, "disallowed-keys", "dict"); d.Some? && Truthy(d.value)) ==> !r
  {
    var disallowed := GetAttrValue(attrs, "disallowed-keys", "dict");
    if disallowed.Some? && Truthy(disallowed.value) then false
    else
      var a := GetAttrValue(attrs, "allow-unknown-keys", "dict");
      a.Some? && Truthy(a.value)
  }

  /** The node as `_handleVarsInDict` leaves it: `type` := `vars-type`, and
      for a `dict` vars-type `allow-unknown-keys` := `vars-allow-unknown-keys`
      when that is set. */
  function Retyped(attrs: Attrs): (r: Attrs)
    requires "vars-type" in attrs
    ensures "type" in r && r["type"] == attrs["vars-type"]
    ensures NodeEvolves(attrs, r)
  {
    var vt := attrs["vars-type"];
    var retyped := attrs["type" := vt];
    var param := Lookup(attrs, "vars-allow-unknown-keys");
    var r := if vt == AStr("dict") && param.Some? then retyped["allow-unknown-keys" := param.value] else retyped;
    assert r - {"type", "allow-unknown-keys"} == attrs - {"type", "allow-unknown-keys"};
    r
  }

  /** `_handleVarsInDict`: rewrites its node in place (`Retyped`), then
      checks the keys `bylist` or `anystr`; type errors from inside come out
      as sub-type errors. */
  function HandleVarsInDict(v: Value, ref: NodeId, fullkey: string, st: Store, cx: Callables): (r: Run)
    ensures WellFormed(r.out) && Evolves(st, r.st)
    ensures !v.PyMap? ==> IsPlainTypeError(r.out)
    ensures v.PyMap? ==> !IsPlainTypeError(r.out)
    decreases v, 2, 0
  {
    EvolvesReflexive(st);
    if !v.PyMap? then Run(TypeErr("Param " + Quote(fullkey) + " should be dict or another map type."), st)
    else
      var attrs := At(st, ref);
      if "vars-type" !in attrs then Run(Fault("KeyError: 'vars-type'"), st)
      else
        var updated := Retyped(attrs);
        var st1 := Put(st, ref, updated);
        assert Evolves(st, st1);
        if "keys-kind" !in updated then Run(Fault("KeyError: 'keys-kind'"), st1)
        else
          var kind := updated["keys-kind"];
          var res :=
            if kind == AStr("bylist") then VarsByList(v, ref, fullkey, st1, cx)
            else if kind == AStr("anystr") then VarsAnyStr(v, ref, fullkey, st1, cx)
            else Run(Fault("NotImplementedError"), st1);
          EvolvesTransitive(st, st1, res.st);
          Run(WrapSub(res.out), res.st)
  }

  /** `_handleVarsInDictWithKeysByList` */
  function VarsByList(v: Value, ref: NodeId, fullkey: string, st: Store, cx: Callables): (r: Run)
    requires v.PyMap?
    ensures WellFormed(r.out) && Evolves(st, r.st)
    decreases v, 1, 0
  {
    EvolvesReflexive(st);
    var attrs := At(st, ref);
    if "type" !in attrs || GetHandler(attrs["type"]).None? then Run(Fault("KeyError: type"), st)
    else if "keys-list" !in attrs || !attrs["keys-list"].AList? then Run(Fault("KeyError: 'keys-list'"), st)
    else
      var allowedKeys := attrs["keys-list"].values;
      var unknown := UnknownKeys(Keys(v.entries), allowedKeys);
      if |unknown| == 1 then
        Run(ValueErr("Key " + Show(unknown[0]) + " isn't allowed in " + Quote(fullkey) + "."), st)
      else if |unknown| > 1 then
        Run(ValueErr("Keys " + Join(ShowAll(unknown), ", ") + " aren't allowed in " + Quote(fullkey) + "."), st)
      else
        ByListElems(v, GetHandler(attrs["type"]).value, ref, fullkey, allowedKeys, 0, st, cx)
  }

  function ShowAll(vs: seq<Value>): seq<string> {
    if |vs| == 0 then [] else [Show(vs[0])] + ShowAll(vs[1..])
  }

  /** The loop over `keys-list`: listed keys whose value is absent or `None`
      are skipped. */
  function ByListElems(v: Value, h: Handler, ref: NodeId, fullkey: string, keys: seq<Value>, i: nat,
                       st: Store, cx: Callables): (r: Run)
    requires v.PyMap? && i <= |keys|
    ensures WellFormed(r.out) && Evolves(st, r.st)
    decreases v, 0, |keys| - i
  {
    EvolvesReflexive(st);
    if i == |keys| then Run(Pass, st)
    else
      var k := keys[i];
      var idx := FindKey(v.entries, k);
      if idx.None? || v.entries[idx.value].1 == PyNone then ByListElems(v, h, ref, fullkey, keys, i + 1, st, cx)
      else if !k.PyStr? then Run(Fault("TypeError: sequence item: expected str"), st)
      else
        assert v.entries[idx.value] in v.entries;
        var res := Dispatch(h, v.entries[idx.value].1, ref, fullkey + "." + k.s, st, cx);
        if res.out.Err? then res
        else
          var rest := ByListElems(v, h, ref, fullkey, keys, i + 1, res.st, cx);
          EvolvesTransitive(st, res.st, rest.st);
          rest
  }

  /** `_handleVarsInDictWithKeysAnyStr` */
  function VarsAnyStr(v: Value, ref: NodeId, fullkey: string, st: Store, cx: Callables): (r: Run)
    requires v.PyMap?
    ensures WellFormed(r.out) && Evolves(st, r.st)
    decreases v, 1, 0
  {
    EvolvesReflexive(st);
    var attrs := At(st, ref);
    if "type" !in attrs || GetHandler(attrs["type"]).None? then Run(Fault("KeyError: type"), st)
    else AnyStrElems(v, GetHandler(attrs["type"]).value, ref, fullkey, 0, st, cx)
  }

  /** The item loop of `_handleVarsInDictWithKeysAnyStr`: every key must be
      a string (`_checkStrKey`), every value is checked. */
  function AnyStrElems(v: Value, h: Handler, ref: NodeId, fullkey: string, j: nat, st: Store, cx: Callables): (r: Run)
    requires v.PyMap? && j <= |v.entries|
    ensures WellFormed(r.out) && Evolves(st, r.st)
    decreases v, 0, |v.entries| - j
  {
    EvolvesReflexive(st);
    if j == |v.entries| then Run(Pass, st)
    else
      var k := v.entries[j].0;
      if !k.PyStr? then
        Run(TypeErr(KeyTypeMessage(k, fullkey)), st)
      else
        assert v.entries[j] in v.entries;
        var res := Dispatch(h, v.entries[j].1, ref, fullkey + "." + k.s, st, cx);
        if res.out.Err? then res
        else
          var rest := AnyStrElems(v, h, ref, fullkey, j + 1, res.st, cx);
          EvolvesTransitive(st, res.st, rest.st);
          rest
  }

  /** The wildcard node and its handler, chosen once before the loop over
      the remaining keys; `Failure` when Python raises there. */
  function WildcardHandler(wild: Option<NodeRef>, st: Store): Result<Option<(NodeId, Handler)>, string> {
    match wild
    case None => Ok(None)
    case Some(Computed(_)) => Failure("TypeError: 'function' object is not subscriptable")
    case Some(Node(id)) =>
      var attrs := At(st, id);
      if "type" !in attrs then Failure("KeyError: 'type'")
      else match GetHandler(attrs["type"])
        case None => Failure("KeyError: type")
        case Some(h) => Ok(Some((id, h)))
  }

  /** `_validate(conf, scheme, keyprefix, allowUnknownKeys, disallowedKeys)`
      for the mapping `v`. */
  function ValidateMap(v: Value, scheme: SchemeMap, prefix: string, allowUnknown: bool, disallowed: Option<Attr>,
                       st: Store, cx: Callables): (r: Run)
    requires v.PyMap?
    ensures WellFormed(r.out) && Evolves(st, r.st)
    decreases v, 1, 0
  {
    var wild := Wildcard(scheme);
    var u := ValidateUsual(v, UsualItems(scheme), 0, prefix, [], st, cx);
    if u.out.Err? then Run(u.out, u.st)
    else if wild.None? && allowUnknown then Run(Pass, u.st)
    else
      match WildcardHandler(wild, u.st)
      case Failure(msg) => Run(Fault(msg), u.st)
      case Ok(w) =>
        var rest := ValidateRest(v, 0, prefix, allowUnknown, disallowed, u.handled, w, scheme, u.st, cx);
        EvolvesTransitive(st, u.st, rest.st);
        rest
  }

  /** The named keys of `usual` that are set in the mapping to something
      other than `None`, in scheme order. */
  function PresentNames(v: Value, usual: seq<(string, NodeRef)>): seq<string>
    requires v.PyMap?
  {
    if |usual| == 0 then []
    else
      (if Get(v.entries, PyStr(usual[0].0)) == PyNone then [] else [usual[0].0]) + PresentNames(v, usual[1..])
  }

  /** One step of `PresentNames` from item `i`, after the keys already
      handled. */
  lemma PresentNamesStep(v: Value, usual: seq<(string, NodeRef)>, i: nat, handled: seq<string>)
    requires v.PyMap? && i < |usual|
    ensures var idx := FindKey(v.entries, PyStr(usual[i].0));
      if idx.None? || v.entries[idx.value].1 == PyNone
      then handled + PresentNames(v, usual[i..]) == handled + PresentNames(v, usual[i + 1..])
      else handled + PresentNames(v, usual[i..]) == (handled + [usual[i].0]) + PresentNames(v, usual[i + 1..])
  {
    assert usual[i..][1..] == usual[i + 1..];
  }

  /** `_validateUsualItems` from item `i`: named keys that are absent or
      `None` are skipped; each other one is checked against its node (a
      callable node is called with `(value, fullkey)` first). */
  function ValidateUsual(v: Value, usual: seq<(string, NodeRef)>, i: nat, prefix: string, handled: seq<string>,
                         st: Store, cx: Callables): (r: UsualRun)
    requires v.PyMap? && i <= |usual|
    ensures WellFormed(r.out) && Evolves(st, r.st)
    ensures r.out.Pass? ==> r.handled == handled + PresentNames(v, usual[i..])
    decreases v, 0, |usual| - i
  {
    EvolvesReflexive(st);
    if i == |usual| then UsualRun(Pass, handled, st)
    else
      PresentNamesStep(v, usual, i, handled);
      var name := usual[i].0;
      var idx := FindKey(v.entries, PyStr(name));
      if idx.None? || v.entries[idx.value].1 == PyNone then ValidateUsual(v, usual, i + 1, prefix, handled, st, cx)
      else
        var node := v.entries[idx.value].1;
        assert v.entries[idx.value] in v.entries;
        var full := GenFullKey(prefix, name);
        var id := match usual[i].1 case Node(n) => n case Computed(f) => cx.node(f, node, full);
        var attrs := At(st, id);
        if "type" !in attrs then UsualRun(Fault("KeyError: 'type'"), handled, st)
        else match GetHandler(attrs["type"])
          case None => UsualRun(Fault("KeyError: type"), handled, st)
          case Some(h) =>
            var res := Dispatch(h, node, id, full, st, cx);
            if res.out.Err? then UsualRun(res.out, handled, res.st)
            else
              var rest := ValidateUsual(v, usual, i + 1, prefix, handled + [name], res.st, cx);
              EvolvesTransitive(st, res.st, rest.st);
              rest
  }

  /** The loop of `_validate` over the keys of the mapping, from item `j`. */
  function ValidateRest(v: Value, j: nat, prefix: string, allowUnknown: bool, disallowed: Option<Attr>,
                        handled: seq<string>, wild: Option<(NodeId, Handler)>, scheme: SchemeMap,
                        st: Store, cx: Callables): (r: Run)
    requires v.PyMap? && j <= |v.entries|
    ensures WellFormed(r.out) && Evolves(st, r.st)
    decreases v, 0, |v.entries| - j
  {
    EvolvesReflexive(st);
    if j == |v.entries| then Run(Pass, st)
    else
      var key := v.entries[j].0;
      var hit := if disallowed.Some? && Truthy(disallowed.value) then Contains(disallowed.value, key) else Some(false);
      if hit.None? then Run(Fault("TypeError: argument is not iterable"), st)
      else if hit.value then
        Run(Err(ConfError, false, DisallowedMessage(key, prefix)), st)
      else if key.PyStr? && key.s in handled then
        ValidateRest(v, j + 1, prefix, allowUnknown, disallowed, handled, wild, scheme, st, cx)
      else if wild.Some? && key.PyStr? then
        assert v.entries[j] in v.entries;
        var res := Dispatch(wild.value.1, v.entries[j].1, wild.value.0, GenFullKey(prefix, key.s), st, cx);
        if res.out.Err? then res
        else
          var rest := ValidateRest(v, j + 1, prefix, allowUnknown, disallowed, handled, wild, scheme, res.st, cx);
          EvolvesTransitive(st, res.st, rest.st);
          rest
      else if !allowUnknown then Run(Err(ConfError, false, UnknownKeyMessage(key, prefix, scheme)), st)
      else ValidateRest(v, j + 1, prefix, allowUnknown, disallowed, handled, wild, scheme, st, cx)
  }
}
