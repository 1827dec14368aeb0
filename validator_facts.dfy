/** Properties of the recursive checks of `Validator`: how a union picks its
    candidate, the `str`/`list-of-strs` special case, what a passing `dict`,
    `list` or `vars-in-dict` check guarantees about the value, and that the
    in-place rewrite of a `vars-in-dict` node persists. */
module ValidatorFacts {
  import opened PyValues
  import opened Scheme
  import opened Validator
  import opened ConfValidation
  import Utils

  // ---------------------------------------------------------------------
  // Unions

  /** The type names whose handler neither recurses nor touches the scheme. */
  predicate FlatType(t: TypeName) {
    t == TBool || t == TInt || t == TStr || t == TFunc || t == TListOfStrs
  }

  predicate FlatName(x: Value) {
    x.PyStr? && ParseTypeName(x.s).Some? && FlatType(ParseTypeName(x.s).value)
  }

  /** What the candidate `x` of a union says about `v`. */
  function Candidate(x: Value, v: Value, attrs: Attrs, fullkey: string, cx: Callables): Outcome
    requires FlatName(x)
  {
    match ParseTypeName(x.s).value
    case TBool => HandleBool(v, fullkey)
    case TInt => HandleInt(v, fullkey)
    case TStr => HandleStr(v, attrs, fullkey, cx)
    case TFunc => HandleFunc(v, fullkey)
    case TListOfStrs => HandleListOfStrs(v, attrs, fullkey, cx)
  }

  /** One candidate of a union of simple types: a pass ends the loop, a
      plain type error moves on with the store unchanged, and any other error
      is raised. */
  lemma FlatStep(v: Value, ref: NodeId, fullkey: string, order: seq<Value>, i: nat, st: Store, cx: Callables)
    requires i < |order| && FlatName(order[i])
    ensures var c := Candidate(order[i], v, At(st, ref), fullkey, cx);
      TryCandidates(v, ref, fullkey, order, false, i, st, cx)
        == if c.Pass? then Passed(st)
           else if IsPlainTypeError(c) then TryCandidates(v, ref, fullkey, order, false, i + 1, st, cx)
           else Raised(c, st)
  {
    assert RunCandidate(order[i], v, ref, fullkey, false, st, cx) == Run(Candidate(order[i], v, At(st, ref), fullkey, cx), st);
  }

  /** A union of simple types tries its candidates in declaration order:
      it is exhausted exactly when every candidate gives a plain type error,
      and otherwise the first candidate that does not decides, passing or
      raising its own error. */
  lemma {:induction false} FlatUnion(v: Value, ref: NodeId, fullkey: string, order: seq<Value>, i: nat,
                                    st: Store, cx: Callables)
    requires i <= |order|
    requires forall k :: i <= k < |order| ==> FlatName(order[k])
    ensures var r := TryCandidates(v, ref, fullkey, order, false, i, st, cx);
      && r.st == st
      && (r.Exhausted? <==> AllPlain(v, At(st, ref), fullkey, cx, order, i, |order|))
      && (!r.Exhausted? ==>
            exists k :: i <= k < |order| && AllPlain(v, At(st, ref), fullkey, cx, order, i, k)
                        && Decides(r, Candidate(order[k], v, At(st, ref), fullkey, cx)))
    decreases |order| - i
  {
    var attrs := At(st, ref);
    if i < |order| {
      var c := Candidate(order[i], v, attrs, fullkey, cx);
      FlatStep(v, ref, fullkey, order, i, st, cx);
      if IsPlainTypeError(c) {
        FlatUnion(v, ref, fullkey, order, i + 1, st, cx);
        AllPlainStep(v, attrs, fullkey, cx, order, i, |order|);
        var r := TryCandidates(v, ref, fullkey, order, false, i + 1, st, cx);
        if !r.Exhausted? {
          var k :| i + 1 <= k < |order| && AllPlain(v, attrs, fullkey, cx, order, i + 1, k)
                   && Decides(r, Candidate(order[k], v, attrs, fullkey, cx));
          AllPlainStep(v, attrs, fullkey, cx, order, i, k);
        }
      } else {
        assert AllPlain(v, attrs, fullkey, cx, order, i, i);
        assert !AllPlain(v, attrs, fullkey, cx, order, i, |order|);
      }
    } else {
      assert AllPlain(v, attrs, fullkey, cx, order, i, |order|);
    }
  }

  /** Candidates `i` up to `k` (excluded) are simple type names that each
      give a plain type error. */
  predicate AllPlain(v: Value, attrs: Attrs, fullkey: string, cx: Callables, order: seq<Value>, i: nat, k: nat)
    requires k <= |order|
  {
    forall m :: i <= m < k ==> FlatName(order[m]) && IsPlainTypeError(Candidate(order[m], v, attrs, fullkey, cx))
  }

  /** The candidate outcome `c` ends the union loop with the attempt `r`. */
  predicate Decides(r: Attempt, c: Outcome) {
    !IsPlainTypeError(c) && (r.Passed? <==> c.Pass?) && (r.Raised? ==> r.out == c)
  }

  lemma AllPlainStep(v: Value, attrs: Attrs, fullkey: string, cx: Callables, order: seq<Value>, i: nat, k: nat)
    requires i < k <= |order| && FlatName(order[i])
    ensures AllPlain(v, attrs, fullkey, cx, order, i, k)
            <==> IsPlainTypeError(Candidate(order[i], v, attrs, fullkey, cx)) && AllPlain(v, attrs, fullkey, cx, order, i + 1, k)
  {
  }

  /** Runs the candidates `i` up to `k` (excluded) in turn, each on the store
      the one before left: the store after them when every one gives a plain
      type error, `None` as soon as one does not. */
  function PlainPrefix(v: Value, ref: NodeId, fullkey: string, order: seq<Value>, toList: bool,
                       i: nat, k: nat, st: Store, cx: Callables): Option<Store>
    requires i <= k <= |order|
    decreases k - i
  {
    if i == k then Some(st)
    else
      var res := RunCandidate(order[i], v, ref, fullkey, toList, st, cx);
      if IsPlainTypeError(res.out) then PlainPrefix(v, ref, fullkey, order, toList, i + 1, k, res.st, cx) else None
  }

  /** The candidate loop of any union, whatever its members (`dict`, `list`
      and `vars-in-dict` ones included, which may rewrite or extend the
      store): it is exhausted exactly when every candidate, run in turn,
      gives a plain type error, and then leaves the store they leave;
      otherwise candidate `k`, the first that does not, decides it with its
      own outcome (a sub-type error from inside it included) and store. */
  lemma {:induction false} UnionDecides(v: Value, ref: NodeId, fullkey: string, order: seq<Value>, toList: bool,
                                       i: nat, st: Store, cx: Callables) returns (k: nat)
    requires i <= |order|
    ensures var r := TryCandidates(v, ref, fullkey, order, toList, i, st, cx);
      var all := PlainPrefix(v, ref, fullkey, order, toList, i, |order|, st, cx);
      && (r.Exhausted? <==> all.Some?)
      && (all.Some? ==> r.st == all.value)
      && (all.None? ==>
            && i <= k < |order|
            && PlainPrefix(v, ref, fullkey, order, toList, i, k, st, cx).Some?
            && (var c := RunCandidate(order[k], v, ref, fullkey, toList,
                                      PlainPrefix(v, ref, fullkey, order, toList, i, k, st, cx).value, cx);
                Decides(r, c.out) && r.st == c.st))
    decreases |order| - i
  {
    k := i;
    if i < |order| {
      var res := RunCandidate(order[i], v, ref, fullkey, toList, st, cx);
      if IsPlainTypeError(res.out) {
        k := UnionDecides(v, ref, fullkey, order, toList, i + 1, res.st, cx);
      }
    }
  }

  /** `_handleComplex` over a list of types: when every candidate, run in
      turn, gives a plain type error, the union fails with its own type
      error naming all the declared types; otherwise its result is exactly
      the result of the first candidate that does not, which is never a
      plain type error. */
  lemma ComplexUnion(v: Value, ref: NodeId, fullkey: string, st: Store, cx: Callables) returns (k: nat)
    requires "type" in At(st, ref) && At(st, ref)["type"].AList?
    ensures var types := At(st, ref)["type"].values;
      var special := StrsOrStrUnion(At(st, ref), types);
      var order := if special then [PyStr("list-of-strs"), PyStr("str")] else types;
      var all := PlainPrefix(v, ref, fullkey, order, special, 0, |order|, st, cx);
      var r := HandleComplex(v, ref, fullkey, st, cx);
      && (all.Some? ==> r == Run(TypeErr(UnionMessage(v, fullkey, types)), all.value))
      && (all.None? ==>
            && k < |order|
            && PlainPrefix(v, ref, fullkey, order, special, 0, k, st, cx).Some?
            && r == RunCandidate(order[k], v, ref, fullkey, special,
                                 PlainPrefix(v, ref, fullkey, order, special, 0, k, st, cx).value, cx)
            && !IsPlainTypeError(r.out))
  {
    var attrs := At(st, ref);
    var types := attrs["type"].values;
    var special := StrsOrStrUnion(attrs, types);
    var order := if special then [PyStr("list-of-strs"), PyStr("str")] else types;
    k := UnionDecides(v, ref, fullkey, order, special, 0, st, cx);
  }

  /** A `dict` or `vars-in-dict` member decides a union for a mapping, and a
      `list` member for a list or tuple: their handlers never give such a
      value a plain type error, so the union does not try the members after
      them and returns what they return. */
  lemma NestedMemberDecides(t: TypeName, v: Value, ref: NodeId, fullkey: string, order: seq<Value>, toList: bool,
                            i: nat, st: Store, cx: Callables)
    requires i < |order| && order[i] == PyStr(TypeNameOf(t))
    requires ((t == TDict || t == TVarsInDict) && v.PyMap?) || (t == TList && v.IsSequence())
    ensures var r := TryCandidates(v, ref, fullkey, order, toList, i, st, cx);
      var c := Handle(t, v, ref, fullkey, st, cx);
      Decides(r, c.out) && r.st == c.st
  {
    ParseTypeNameOf(t);
  }

  /** The `str`/`list-of-strs` union with an `allowed` list checks a bare
      string as the list of its whitespace-separated words, each against
      `allowed`; the `str` candidate is never reached and the store is left
      as it was. */
  lemma StrsOrStrSplitsString(s: string, ref: NodeId, fullkey: string, st: Store, cx: Callables)
    requires "type" in At(st, ref) && At(st, ref)["type"].AList?
    requires StrsOrStrUnion(At(st, ref), At(st, ref)["type"].values)
    ensures var r := HandleComplex(PyStr(s), ref, fullkey, st, cx);
      var words := Utils.ToList(PyStr(s));
      var allowed := ResolveAllowed(GetAttrValue(At(st, ref), "allowed", "list-of-strs"), words, fullkey, cx);
      && r.st == st
      && r.out == CheckStrElems(words.items, 0, allowed, fullkey)
      && (r.out.Pass? <==> forall j :: 0 <= j < |words.items| ==> Admits(allowed, words.items[j]) == Some(true))
  {
    var attrs := At(st, ref);
    var words := Utils.ToList(PyStr(s));
    var allowed := ResolveAllowed(GetAttrValue(attrs, "allowed", "list-of-strs"), words, fullkey, cx);
    var o := CheckStrElems(words.items, 0, allowed, fullkey);
    StrsOrStrFirstCandidate(s, ref, fullkey, st, cx);
    forall j | 0 <= j < |words.items|
      ensures ElemFault(words.items[j], allowed).None? <==> Admits(allowed, words.items[j]) == Some(true)
    {
      assert words.items[j].PyStr?;
    }
  }

  /** The first candidate of the `str`/`list-of-strs` union decides it: it
      either passes or raises an error that is not a plain type error. */
  lemma StrsOrStrFirstCandidate(s: string, ref: NodeId, fullkey: string, st: Store, cx: Callables)
    ensures var words := Utils.ToList(PyStr(s));
      var allowed := ResolveAllowed(GetAttrValue(At(st, ref), "allowed", "list-of-strs"), words, fullkey, cx);
      var o := CheckStrElems(words.items, 0, allowed, fullkey);
      TryCandidates(PyStr(s), ref, fullkey, [PyStr("list-of-strs"), PyStr("str")], true, 0, st, cx)
        == if o.Pass? then Passed(st) else Raised(o, st)
  {
    var words := Utils.ToList(PyStr(s));
    var allowed := ResolveAllowed(GetAttrValue(At(st, ref), "allowed", "list-of-strs"), words, fullkey, cx);
    StrElemsNoTypeError(words.items, allowed, fullkey);
    ListOfStrsStep(PyStr(s), ref, fullkey, [PyStr("list-of-strs"), PyStr("str")], true, 0, st, cx);
  }

  /** A `list-of-strs` candidate is checked in place: its outcome decides the
      union unless it is a plain type error, and the store is kept. */
  lemma ListOfStrsStep(v: Value, ref: NodeId, fullkey: string, order: seq<Value>, toList: bool, i: nat,
                       st: Store, cx: Callables)
    requires i < |order| && order[i] == PyStr(TypeNameOf(TListOfStrs))
    ensures var o := HandleListOfStrs(if toList then Utils.ToList(v) else v, At(st, ref), fullkey, cx);
      TryCandidates(v, ref, fullkey, order, toList, i, st, cx)
        == if o.Pass? then Passed(st)
           else if IsPlainTypeError(o) then TryCandidates(v, ref, fullkey, order, toList, i + 1, st, cx)
           else Raised(o, st)
  {
    ParseTypeNameOf(TListOfStrs);
  }

  /** A list made only of strings never fails the element loop with a type
      error. */
  lemma StrElemsNoTypeError(items: seq<Value>, allowed: Option<Attr>, fullkey: string)
    requires forall j :: 0 <= j < |items| ==> items[j].PyStr?
    ensures !IsTypeError(CheckStrElems(items, 0, allowed, fullkey))
  {
    var o := CheckStrElems(items, 0, allowed, fullkey);
    if o.Err? {
      var j :| 0 <= j < |items| && ElemFault(items[j], allowed) == Some(o.kind);
      assert items[j].PyStr?;
    }
  }


  /** An empty string passes that union whatever `allowed` holds. */
  lemma StrsOrStrAcceptsEmpty(ref: NodeId, fullkey: string, st: Store, cx: Callables)
    requires "type" in At(st, ref) && At(st, ref)["type"].AList?
    requires StrsOrStrUnion(At(st, ref), At(st, ref)["type"].values)
    ensures HandleComplex(PyStr(""), ref, fullkey, st, cx).out.Pass?
  {
    StrsOrStrSplitsString("", ref, fullkey, st, cx);
    assert Utils.ToList(PyStr("")).items == [];
  }

  // ---------------------------------------------------------------------
  // What a pass guarantees

  /** A list passes only if every element is admitted by the resolved
      `allowed`. */
  lemma {:induction false} ListPassAdmitsAll(v: Value, h: Option<Handler>, elemRef: NodeId, fullkey: string,
                                            allowed: Option<Attr>, i: nat, st: Store, cx: Callables)
    requires v.IsSequence() && i <= |v.items|
    requires ListElems(v, h, elemRef, fullkey, allowed, i, st, cx).out.Pass?
    ensures forall j :: i <= j < |v.items| ==> Admits(allowed, v.items[j]) == Some(true)
    decreases |v.items| - i
  {
    if i < |v.items| {
      if h.None? {
        ListPassAdmitsAll(v, h, elemRef, fullkey, allowed, i + 1, st, cx);
      } else {
        var res := Dispatch(h.value, v.items[i], elemRef, fullkey + ".[" + NatToString(i) + "]", st, cx);
        ListPassAdmitsAll(v, h, elemRef, fullkey, allowed, i + 1, res.st, cx);
      }
    }
  }

  /** The `anystr` keys check passes only if every key is a string. */
  lemma {:induction false} AnyStrPassMeansStrKeys(v: Value, h: Handler, ref: NodeId, fullkey: string, j: nat,
                                                 st: Store, cx: Callables)
    requires v.PyMap? && j <= |v.entries|
    requires AnyStrElems(v, h, ref, fullkey, j, st, cx).out.Pass?
    ensures forall k :: j <= k < |v.entries| ==> v.entries[k].0.PyStr?
    decreases |v.entries| - j
  {
    if j < |v.entries| {
      var res := Dispatch(h, v.entries[j].1, ref, fullkey + "." + v.entries[j].0.s, st, cx);
      AnyStrPassMeansStrKeys(v, h, ref, fullkey, j + 1, res.st, cx);
    }
  }

  /** The `bylist` check passes only if every key is in `keys-list`. */
  lemma ByListPassMeansListed(v: Value, ref: NodeId, fullkey: string, st: Store, cx: Callables)
    requires v.PyMap?
    requires VarsByList(v, ref, fullkey, st, cx).out.Pass?
    ensures "keys-list" in At(st, ref) && At(st, ref)["keys-list"].AList?
    ensures forall k :: 0 <= k < |v.entries| ==> v.entries[k].0 in At(st, ref)["keys-list"].values
  {
    var allowedKeys := At(st, ref)["keys-list"].values;
    var unknown := UnknownKeys(Keys(v.entries), allowedKeys);
    assert |unknown| == 0;
    forall k | 0 <= k < |v.entries| ensures v.entries[k].0 in allowedKeys {
      assert Keys(v.entries)[k] == v.entries[k].0;
    }
  }

  /** A `vars-in-dict` check passes only if the keys respect its
      `keys-kind`: all listed for `bylist`, all strings for `anystr`. */
  lemma VarsInDictPassMeans(v: Value, ref: NodeId, fullkey: string, st: Store, cx: Callables)
    requires HandleVarsInDict(v, ref, fullkey, st, cx).out.Pass?
    ensures v.PyMap? && "keys-kind" in At(st, ref)
    ensures At(st, ref)["keys-kind"] == AStr("bylist") ==>
      "keys-list" in At(st, ref) && At(st, ref)["keys-list"].AList?
      && forall k :: 0 <= k < |v.entries| ==> v.entries[k].0 in At(st, ref)["keys-list"].values
    ensures At(st, ref)["keys-kind"] == AStr("anystr") ==> forall k :: 0 <= k < |v.entries| ==> v.entries[k].0.PyStr?
  {
    var attrs := At(st, ref);
    var updated := Retyped(attrs);
    var st1 := Put(st, ref, updated);
    assert ref < |st|;
    assert At(st1, ref) == updated;
    var fixed := {"type", "allow-unknown-keys"};
    assert (updated - fixed)["keys-kind"] == updated["keys-kind"];
    assert updated["keys-kind"] == attrs["keys-kind"];
    if attrs["keys-kind"] == AStr("bylist") {
      ByListPassMeansListed(v, ref, fullkey, st1, cx);
      assert (updated - fixed)["keys-list"] == updated["keys-list"];
    } else if attrs["keys-kind"] == AStr("anystr") {
      var h := GetHandler(updated["type"]).value;
      AnyStrPassMeansStrKeys(v, h, ref, fullkey, 0, st1, cx);
    }
  }

  /** `bylist`: a key outside `keys-list` is refused with a value error
      before any value is checked, so the store is as it was. */
  lemma ByListRefusesUnlisted(v: Value, ref: NodeId, fullkey: string, st: Store, cx: Callables, j: nat)
    requires v.PyMap? && j < |v.entries|
    requires "type" in At(st, ref) && GetHandler(At(st, ref)["type"]).Some?
    requires "keys-list" in At(st, ref) && At(st, ref)["keys-list"].AList?
    requires v.entries[j].0 !in At(st, ref)["keys-list"].values
    ensures var r := VarsByList(v, ref, fullkey, st, cx);
      r.out.Err? && r.out.kind == ConfValueError && !r.out.fromSub && r.st == st
  {
    var allowedKeys := At(st, ref)["keys-list"].values;
    assert Keys(v.entries)[j] == v.entries[j].0;
    assert v.entries[j].0 in UnknownKeys(Keys(v.entries), allowedKeys);
  }

  /** Through `_handleVarsInDict` the value error is not a type error and
      comes out as it is; the only change to the store is the node's own
      rewrite. */
  lemma VarsInDictRefusesUnlisted(v: Value, ref: NodeId, fullkey: string, st: Store, cx: Callables, j: nat)
    requires v.PyMap? && j < |v.entries| && ref < |st|
    requires "vars-type" in st[ref] && GetHandler(st[ref]["vars-type"]).Some?
    requires "keys-kind" in st[ref] && st[ref]["keys-kind"] == AStr("bylist")
    requires "keys-list" in st[ref] && st[ref]["keys-list"].AList?
    requires v.entries[j].0 !in st[ref]["keys-list"].values
    ensures var r := HandleVarsInDict(v, ref, fullkey, st, cx);
      r.out.Err? && r.out.kind == ConfValueError && !r.out.fromSub && r.st == Put(st, ref, Retyped(st[ref]))
  {
    var attrs := st[ref];
    var updated := Retyped(attrs);
    var st1 := Put(st, ref, updated);
    assert At(st1, ref) == updated;
    var fixed := {"type", "allow-unknown-keys"};
    assert (updated - fixed)["keys-kind"] == updated["keys-kind"];
    assert (updated - fixed)["keys-list"] == updated["keys-list"];
    ByListRefusesUnlisted(v, ref, fullkey, st1, cx, j);
  }

  /** The loop over `keys-list` sees the mapping only through the values of
      the listed keys, an absent key reading as `None`: two mappings that
      agree there get the same result, whatever else they hold. */
  lemma {:induction false} ByListReadsOnlyListed(e1: seq<(Value, Value)>, e2: seq<(Value, Value)>, h: Handler,
                                                ref: NodeId, fullkey: string, keys: seq<Value>, i: nat,
                                                st: Store, cx: Callables)
    requires i <= |keys|
    requires forall m :: i <= m < |keys| ==> Get(e1, keys[m]) == Get(e2, keys[m])
    ensures ByListElems(PyMap(e1), h, ref, fullkey, keys, i, st, cx)
         == ByListElems(PyMap(e2), h, ref, fullkey, keys, i, st, cx)
    decreases |keys| - i
  {
    if i < |keys| {
      var k := keys[i];
      var x := Get(e1, k);
      if x == PyNone {
        ByListReadsOnlyListed(e1, e2, h, ref, fullkey, keys, i + 1, st, cx);
      } else if k.PyStr? {
        var res := Dispatch(h, x, ref, fullkey + "." + k.s, st, cx);
        ByListReadsOnlyListed(e1, e2, h, ref, fullkey, keys, i + 1, res.st, cx);
      }
    }
  }

  /** Listed keys that are absent or `None` are skipped: when all are, the
      loop passes and checks nothing. */
  lemma {:induction false} ByListSkipsAbsent(v: Value, h: Handler, ref: NodeId, fullkey: string, keys: seq<Value>,
                                            i: nat, st: Store, cx: Callables)
    requires v.PyMap? && i <= |keys|
    requires forall m :: i <= m < |keys| ==> Get(v.entries, keys[m]) == PyNone
    ensures ByListElems(v, h, ref, fullkey, keys, i, st, cx) == Run(Pass, st)
    decreases |keys| - i
  {
    if i < |keys| {
      assert Get(v.entries, keys[i]) == PyNone;
      ByListSkipsAbsent(v, h, ref, fullkey, keys, i + 1, st, cx);
    }
  }

  /** The store after the items `j` up to `k` (excluded) of the `anystr`
      loop when each has a string key and a value that passes; `None`
      otherwise. */
  function AnyStrReach(v: Value, h: Handler, ref: NodeId, fullkey: string, j: nat, k: nat,
                       st: Store, cx: Callables): Option<Store>
    requires v.PyMap? && j <= k <= |v.entries|
    decreases k - j
  {
    if j == k then Some(st)
    else
      var key := v.entries[j].0;
      if !key.PyStr? then None
      else
        var res := Dispatch(h, v.entries[j].1, ref, fullkey + "." + key.s, st, cx);
        if res.out.Err? then None else AnyStrReach(v, h, ref, fullkey, j + 1, k, res.st, cx)
  }

  /** The first non-string key the `anystr` loop reaches fails it with the
      plain type error of `_checkStrKey`. */
  lemma {:induction false} AnyStrRefusesKey(v: Value, h: Handler, ref: NodeId, fullkey: string, j: nat, k: nat,
                                           st: Store, cx: Callables)
    requires v.PyMap? && j <= k < |v.entries| && !v.entries[k].0.PyStr?
    requires AnyStrReach(v, h, ref, fullkey, j, k, st, cx).Some?
    ensures AnyStrElems(v, h, ref, fullkey, j, st, cx)
         == Run(TypeErr(KeyTypeMessage(v.entries[k].0, fullkey)), AnyStrReach(v, h, ref, fullkey, j, k, st, cx).value)
    decreases k - j
  {
    if j < k {
      var res := Dispatch(h, v.entries[j].1, ref, fullkey + "." + v.entries[j].0.s, st, cx);
      AnyStrRefusesKey(v, h, ref, fullkey, j + 1, k, res.st, cx);
    }
  }

  /** `_handleVarsInDict` turns that type error into a sub-type error, which
      a union around the node raises instead of trying its next member. */
  lemma VarsInDictKeyTypeError(v: Value, ref: NodeId, fullkey: string, st: Store, cx: Callables, k: nat)
    requires v.PyMap? && k < |v.entries| && !v.entries[k].0.PyStr? && ref < |st|
    requires "vars-type" in st[ref] && GetHandler(st[ref]["vars-type"]).Some?
    requires "keys-kind" in st[ref] && st[ref]["keys-kind"] == AStr("anystr")
    requires AnyStrReach(v, GetHandler(st[ref]["vars-type"]).value, ref, fullkey, 0, k,
                         Put(st, ref, Retyped(st[ref])), cx).Some?
    ensures HandleVarsInDict(v, ref, fullkey, st, cx)
         == Run(Err(ConfTypeError, true, KeyTypeMessage(v.entries[k].0, fullkey)),
                AnyStrReach(v, GetHandler(st[ref]["vars-type"]).value, ref, fullkey, 0, k,
                            Put(st, ref, Retyped(st[ref])), cx).value)
  {
    var attrs := st[ref];
    var updated := Retyped(attrs);
    var st1 := Put(st, ref, updated);
    assert At(st1, ref) == updated;
    var fixed := {"type", "allow-unknown-keys"};
    assert (updated - fixed)["keys-kind"] == updated["keys-kind"];
    AnyStrRefusesKey(v, GetHandler(attrs["vars-type"]).value, ref, fullkey, 0, k, st1, cx);
  }

  /** The names a usual-items pass hands back come from the scheme. */
  lemma {:induction false} PresentNamesAreNamed(v: Value, usual: seq<(string, NodeRef)>)
    requires v.PyMap?
    ensures forall n :: n in PresentNames(v, usual) ==> exists j :: 0 <= j < |usual| && usual[j].0 == n
  {
    if |usual| > 0 {
      PresentNamesAreNamed(v, usual[1..]);
      forall n | n in PresentNames(v, usual) ensures exists j :: 0 <= j < |usual| && usual[j].0 == n {
        if n !in PresentNames(v, usual[1..]) {
          assert usual[0].0 == n;
        } else {
          var j :| 0 <= j < |usual[1..]| && usual[1..][j].0 == n;
          assert usual[j + 1].0 == n;
        }
      }
    }
  }

  /** Every key of the mapping is a string that the scheme names. */
  ghost predicate KeysNamedIn(v: Value, scheme: SchemeMap)
    requires v.PyMap?
  {
    forall k :: 0 <= k < |v.entries| ==> v.entries[k].0.PyStr? && exists n :: (Named(v.entries[k].0.s), n) in scheme
  }

  /** `_validate` passes only if no key is in a non-empty `disallowed-keys`;
      when unknown keys are refused and the scheme has no wildcard, every
      key is also a name of the scheme. */
  lemma MapPassMeans(v: Value, scheme: SchemeMap, prefix: string, allowUnknown: bool, disallowed: Option<Attr>,
                     st: Store, cx: Callables)
    requires v.PyMap?
    requires ValidateMap(v, scheme, prefix, allowUnknown, disallowed, st, cx).out.Pass?
    requires disallowed.Some? && Truthy(disallowed.value) ==> !allowUnknown
    ensures disallowed.Some? && disallowed.value.AList? && Truthy(disallowed.value) ==>
      forall k :: 0 <= k < |v.entries| ==> v.entries[k].0 !in disallowed.value.values
    ensures Wildcard(scheme).None? && !allowUnknown ==> KeysNamedIn(v, scheme)
  {
    var usual := UsualItems(scheme);
    var u := ValidateUsual(v, usual, 0, prefix, [], st, cx);
    var wild := Wildcard(scheme);
    if !(wild.None? && allowUnknown) {
      var w := WildcardHandler(wild, u.st).value;
      RestPassMeansKnown(v, 0, prefix, allowUnknown, disallowed, u.handled, w, scheme, u.st, cx);
      if wild.None? && !allowUnknown {
        assert usual[0..] == usual;
        PresentNamesAreNamed(v, usual);
        forall k | 0 <= k < |v.entries|
          ensures v.entries[k].0.PyStr? && exists n :: (Named(v.entries[k].0.s), n) in scheme
        {
          var name := v.entries[k].0.s;
          assert name in u.handled;
          var j :| 0 <= j < |usual| && usual[j].0 == name;
          assert usual[j] in usual;
        }
      }
    }
  }

  /** `key in disallowedKeys` for a list of disallowed keys. */
  predicate Refused(disallowed: Option<Attr>, key: Value) {
    disallowed.Some? && disallowed.value.AList? && key in disallowed.value.values
  }

  /** The key was handled as a usual item. */
  predicate Handled(key: Value, handled: seq<string>) {
    key.PyStr? && key.s in handled
  }

  /** The message the loop without a wildcard fails with at `key`. */
  function RestRefusal(disallowed: Option<Attr>, key: Value, prefix: string, scheme: SchemeMap): Outcome {
    Err(ConfError, false,
        if Refused(disallowed, key) then DisallowedMessage(key, prefix) else UnknownKeyMessage(key, prefix, scheme))
  }

  /** Item `j` of the key loop without a wildcard, with unknown keys
      refused: a handled key outside `disallowed-keys` moves on, any other
      key ends the loop. */
  lemma RestStepWithoutWildcard(v: Value, j: nat, prefix: string, disallowed: Option<Attr>,
                                handled: seq<string>, scheme: SchemeMap, st: Store, cx: Callables)
    requires v.PyMap? && j < |v.entries|
    requires disallowed.Some? ==> disallowed.value.AList?
    ensures var key := v.entries[j].0;
      ValidateRest(v, j, prefix, false, disallowed, handled, None, scheme, st, cx)
        == if !Refused(disallowed, key) && Handled(key, handled)
           then ValidateRest(v, j + 1, prefix, false, disallowed, handled, None, scheme, st, cx)
           else Run(RestRefusal(disallowed, key, prefix, scheme), st)
  {
  }

  /** What the key loop without a wildcard, with unknown keys refused,
      computes from item `j`: the first key that is not a handled one
      outside `disallowed-keys` is refused. */
  function RestNoWildcard(entries: seq<(Value, Value)>, j: nat, prefix: string, disallowed: Option<Attr>,
                          handled: seq<string>, scheme: SchemeMap): Outcome
    requires j <= |entries|
    decreases |entries| - j
  {
    if j == |entries| then Pass
    else if !Refused(disallowed, entries[j].0) && Handled(entries[j].0, handled)
    then RestNoWildcard(entries, j + 1, prefix, disallowed, handled, scheme)
    else RestRefusal(disallowed, entries[j].0, prefix, scheme)
  }

  lemma {:induction false} RestIsNoWildcard(v: Value, j: nat, prefix: string, disallowed: Option<Attr>,
                                           handled: seq<string>, scheme: SchemeMap, st: Store, cx: Callables)
    requires v.PyMap? && j <= |v.entries|
    requires disallowed.Some? ==> disallowed.value.AList?
    ensures ValidateRest(v, j, prefix, false, disallowed, handled, None, scheme, st, cx)
         == Run(RestNoWildcard(v.entries, j, prefix, disallowed, handled, scheme), st)
    decreases |v.entries| - j
  {
    if j < |v.entries| {
      RestStepWithoutWildcard(v, j, prefix, disallowed, handled, scheme, st, cx);
      RestIsNoWildcard(v, j + 1, prefix, disallowed, handled, scheme, st, cx);
    }
  }

  /** The loop without a wildcard passes exactly when every key is a handled
      one outside `disallowed-keys`; otherwise key `k`, the first that is
      not, is refused. */
  lemma {:induction false} RestNoWildcardMeans(entries: seq<(Value, Value)>, j: nat, prefix: string,
                                              disallowed: Option<Attr>, handled: seq<string>, scheme: SchemeMap)
    returns (k: nat)
    requires j <= |entries|
    ensures var o := RestNoWildcard(entries, j, prefix, disallowed, handled, scheme);
      && (o.Pass? <==> forall m :: j <= m < |entries| ==> !Refused(disallowed, entries[m].0) && Handled(entries[m].0, handled))
      && (o.Err? ==>
            && j <= k < |entries|
            && (forall m :: j <= m < k ==> !Refused(disallowed, entries[m].0) && Handled(entries[m].0, handled))
            && o == RestRefusal(disallowed, entries[k].0, prefix, scheme))
    decreases |entries| - j
  {
    k := j;
    if j < |entries| && !Refused(disallowed, entries[j].0) && Handled(entries[j].0, handled) {
      k := RestNoWildcardMeans(entries, j + 1, prefix, disallowed, handled, scheme);
    }
  }

  /** Without a wildcard and with unknown keys refused, the loop over the
      keys of the mapping checks no value and keeps the store: it passes
      exactly when every key is a handled one outside `disallowed-keys`;
      otherwise key `k`, the first that is not, fails it with a `ConfError`:
      the disallowed-key message when the key is in `disallowed-keys` (that
      test comes first, even for a handled key), the unknown-key message
      otherwise. */
  lemma RestWithoutWildcard(v: Value, j: nat, prefix: string, disallowed: Option<Attr>,
                            handled: seq<string>, scheme: SchemeMap, st: Store, cx: Callables)
    returns (k: nat)
    requires v.PyMap? && j <= |v.entries|
    requires disallowed.Some? ==> disallowed.value.AList?
    ensures var r := ValidateRest(v, j, prefix, false, disallowed, handled, None, scheme, st, cx);
      && r.st == st
      && (r.out.Pass? <==>
            forall m :: j <= m < |v.entries| ==> !Refused(disallowed, v.entries[m].0) && Handled(v.entries[m].0, handled))
      && (r.out.Err? ==>
            && j <= k < |v.entries|
            && (forall m :: j <= m < k ==> !Refused(disallowed, v.entries[m].0) && Handled(v.entries[m].0, handled))
            && r.out == RestRefusal(disallowed, v.entries[k].0, prefix, scheme))
  {
    RestIsNoWildcard(v, j, prefix, disallowed, handled, scheme, st, cx);
    k := RestNoWildcardMeans(v.entries, j, prefix, disallowed, handled, scheme);
  }

  /** `_validate` without a wildcard and with unknown keys refused, once the
      usual items pass: it passes exactly when every key of the mapping is
      a scheme name set to something other than `None` and is outside
      `disallowed-keys`; otherwise the first other key fails it with a
      `ConfError`, and the store is the one the usual items left. */
  lemma MapWithoutWildcard(v: Value, scheme: SchemeMap, prefix: string, disallowed: Option<Attr>,
                           st: Store, cx: Callables) returns (k: nat)
    requires v.PyMap? && Wildcard(scheme).None?
    requires disallowed.Some? ==> disallowed.value.AList?
    ensures var u := ValidateUsual(v, UsualItems(scheme), 0, prefix, [], st, cx);
      var r := ValidateMap(v, scheme, prefix, false, disallowed, st, cx);
      var handled := PresentNames(v, UsualItems(scheme));
      u.out.Pass? ==>
        && r.st == u.st
        && (r.out.Pass? <==>
              forall m :: 0 <= m < |v.entries| ==> !Refused(disallowed, v.entries[m].0) && Handled(v.entries[m].0, handled))
        && (r.out.Err? ==>
              && k < |v.entries|
              && (forall m :: 0 <= m < k ==> !Refused(disallowed, v.entries[m].0) && Handled(v.entries[m].0, handled))
              && r.out == RestRefusal(disallowed, v.entries[k].0, prefix, scheme))
  {
    var usual := UsualItems(scheme);
    var u := ValidateUsual(v, usual, 0, prefix, [], st, cx);
    k := 0;
    if u.out.Pass? {
      assert usual[0..] == usual;
      assert u.handled == PresentNames(v, usual);
      k := RestWithoutWildcard(v, 0, prefix, disallowed, u.handled, scheme, u.st, cx);
    }
  }

  /** With a wildcard too, a non-string key outside `disallowed-keys` is an
      unknown key, refused when unknown keys are. */
  lemma RestRefusesNonStrKey(v: Value, j: nat, prefix: string, disallowed: Option<Attr>, handled: seq<string>,
                             wild: Option<(NodeId, Handler)>, scheme: SchemeMap, st: Store, cx: Callables)
    requires v.PyMap? && j < |v.entries| && !v.entries[j].0.PyStr?
    requires disallowed.Some? ==> disallowed.value.AList?
    requires !Refused(disallowed, v.entries[j].0)
    ensures ValidateRest(v, j, prefix, false, disallowed, handled, wild, scheme, st, cx)
         == Run(Err(ConfError, false, UnknownKeyMessage(v.entries[j].0, prefix, scheme)), st)
  {
  }

  /** A string key that no usual item handled and that `disallowed-keys`
      does not refuse is checked against the wildcard node with the
      wildcard's handler under the key path `prefix.key`, whether unknown
      keys are allowed or not; an error there ends the loop. */
  lemma RestChecksAgainstWildcard(v: Value, j: nat, prefix: string, allowUnknown: bool, disallowed: Option<Attr>,
                                  handled: seq<string>, id: NodeId, h: Handler, scheme: SchemeMap,
                                  st: Store, cx: Callables)
    requires v.PyMap? && j < |v.entries| && v.entries[j].0.PyStr? && v.entries[j].0.s !in handled
    requires disallowed.Some? ==> disallowed.value.AList?
    requires !Refused(disallowed, v.entries[j].0)
    ensures var res := Dispatch(h, v.entries[j].1, id, GenFullKey(prefix, v.entries[j].0.s), st, cx);
      ValidateRest(v, j, prefix, allowUnknown, disallowed, handled, Some((id, h)), scheme, st, cx)
        == if res.out.Err? then res
           else ValidateRest(v, j + 1, prefix, allowUnknown, disallowed, handled, Some((id, h)), scheme, res.st, cx)
  {
  }

  /** The sub-scheme a `dict` node checks a mapping against. */
  function DictScheme(attrs: Attrs, v: Value, fullkey: string, cx: Callables): Option<SchemeMap> {
    match GetAttrValue(attrs, "vars", "dict")
    case Some(ACall(f)) => Some(cx.vars(f, v, fullkey))
    case Some(ASub(s)) => Some(s)
    case _ => None
  }

  lemma DictDelegates(v: Value, ref: NodeId, fullkey: string, st: Store, cx: Callables)
    requires v.PyMap? && DictScheme(At(st, ref), v, fullkey, cx).Some?
    ensures HandleDict(v, ref, fullkey, st, cx).out
         == WrapSub(ValidateMap(v, DictScheme(At(st, ref), v, fullkey, cx).value, fullkey, DictAllowsUnknown(At(st, ref)),
                                GetAttrValue(At(st, ref), "disallowed-keys", "dict"), st, cx).out)
  {
  }

  /** A mapping passes the `dict` check only if none of its keys is in a
      non-empty `disallowed-keys`; when the node refuses unknown keys and its
      sub-scheme has no wildcard, every key is also a name of that scheme. */
  lemma DictPassMeans(v: Value, ref: NodeId, fullkey: string, st: Store, cx: Callables)
    requires HandleDict(v, ref, fullkey, st, cx).out.Pass?
    ensures v.PyMap? && DictScheme(At(st, ref), v, fullkey, cx).Some?
    ensures var d := GetAttrValue(At(st, ref), "disallowed-keys", "dict");
      d.Some? && d.value.AList? && Truthy(d.value) ==>
        forall k :: 0 <= k < |v.entries| ==> v.entries[k].0 !in d.value.values
    ensures var scheme := DictScheme(At(st, ref), v, fullkey, cx).value;
      Wildcard(scheme).None? && !DictAllowsUnknown(At(st, ref)) ==> KeysNamedIn(v, scheme)
  {
    var attrs := At(st, ref);
    assert DictScheme(attrs, v, fullkey, cx).Some?;
    var scheme := DictScheme(attrs, v, fullkey, cx).value;
    var disallowed := GetAttrValue(attrs, "disallowed-keys", "dict");
    DictDelegates(v, ref, fullkey, st, cx);
    assert ValidateMap(v, scheme, fullkey, DictAllowsUnknown(attrs), disallowed, st, cx).out.Pass?;
    MapPassMeans(v, scheme, fullkey, DictAllowsUnknown(attrs), disallowed, st, cx);
  }

  // ---------------------------------------------------------------------
  // The in-place rewrite of `vars-in-dict` nodes

  /** A node whose `type` already is its `vars-type` keeps it that way
      through any later evolution. */
  lemma RetypedStaysRetyped(a: Attrs, b: Attrs)
    requires Lookup(a, "type") == Lookup(a, "vars-type")
    requires NodeEvolves(a, b)
    ensures Lookup(b, "type") == Lookup(a, "vars-type")
  {
  }

  /** After `_handleVarsInDict` ran on a node, the node's `type` is its
      `vars-type` for the rest of the validation run, so a later visit of
      the same node dispatches on `vars-type`. */
  lemma VarsInDictRetypes(v: Value, ref: NodeId, fullkey: string, st: Store, st': Store, cx: Callables)
    requires v.PyMap? && ref < |st| && "vars-type" in st[ref]
    requires Evolves(HandleVarsInDict(v, ref, fullkey, st, cx).st, st')
    ensures Lookup(At(st', ref), "type") == Lookup(st[ref], "vars-type")
  {
    var attrs := st[ref];
    var updated := Retyped(attrs);
    var st1 := Put(st, ref, updated);
    var r := HandleVarsInDict(v, ref, fullkey, st, cx);
    assert Evolves(st1, r.st);
    EvolvesTransitive(st1, r.st, st');
    assert At(st1, ref) == updated;
    LookupOutside(attrs, updated, "vars-type");
    RetypedStaysRetyped(updated, st'[ref]);
  }

  // ---------------------------------------------------------------------
  // Unknown keys at a level that allows them

  lemma {:induction false} FindKeyAppend(e1: seq<(Value, Value)>, e2: seq<(Value, Value)>, k: Value)
    requires forall j :: 0 <= j < |e2| ==> e2[j].0 != k
    ensures FindKey(e1 + e2, k) == FindKey(e1, k)
  {
    if |e1| == 0 {
      assert e1 + e2 == e2;
    } else {
      assert (e1 + e2)[1..] == e1[1..] + e2;
      FindKeyAppend(e1[1..], e2, k);
    }
  }

  /** Items whose keys the named items do not mention change nothing in
      `_validateUsualItems`. */
  lemma {:induction false} UsualIgnoresExtraKeys(e1: seq<(Value, Value)>, extra: seq<(Value, Value)>,
                                                usual: seq<(string, NodeRef)>, i: nat, prefix: string,
                                                handled: seq<string>, st: Store, cx: Callables)
    requires i <= |usual|
    requires forall j, m :: 0 <= j < |extra| && 0 <= m < |usual| ==> extra[j].0 != PyStr(usual[m].0)
    ensures ValidateUsual(PyMap(e1 + extra), usual, i, prefix, handled, st, cx)
         == ValidateUsual(PyMap(e1), usual, i, prefix, handled, st, cx)
    decreases |usual| - i
  {
    if i < |usual| {
      var name := usual[i].0;
      FindKeyAppend(e1, extra, PyStr(name));
      var idx := FindKey(e1, PyStr(name));
      if idx.Some? {
        assert (e1 + extra)[idx.value] == e1[idx.value];
      }
      if idx.None? || e1[idx.value].1 == PyNone {
        UsualIgnoresExtraKeys(e1, extra, usual, i + 1, prefix, handled, st, cx);
      } else {
        var node := e1[idx.value].1;
        var full := GenFullKey(prefix, name);
        var id := match usual[i].1 case Node(n) => n case Computed(f) => cx.node(f, node, full);
        if "type" in At(st, id) && GetHandler(At(st, id)["type"]).Some? {
          var res := Dispatch(GetHandler(At(st, id)["type"]).value, node, id, full, st, cx);
          UsualIgnoresExtraKeys(e1, extra, usual, i + 1, prefix, handled + [name], res.st, cx);
        }
      }
    }
  }

  /** With unknown keys allowed and no wildcard (the root of `validate`),
      adding items under keys the scheme does not name, or under non-string
      keys, does not change the outcome. */
  lemma UnknownKeysIgnored(e1: seq<(Value, Value)>, extra: seq<(Value, Value)>, scheme: SchemeMap,
                           prefix: string, disallowed: Option<Attr>, st: Store, cx: Callables)
    requires Wildcard(scheme).None?
    requires forall j :: 0 <= j < |extra| ==> !extra[j].0.PyStr? || Named(extra[j].0.s) !in SchemeKeys(scheme)
    ensures ValidateMap(PyMap(e1 + extra), scheme, prefix, true, disallowed, st, cx).out
         == ValidateMap(PyMap(e1), scheme, prefix, true, disallowed, st, cx).out
  {
    var usual := UsualItems(scheme);
    forall j, m | 0 <= j < |extra| && 0 <= m < |usual| ensures extra[j].0 != PyStr(usual[m].0) {
      assert usual[m] in usual;
      assert (Named(usual[m].0), usual[m].1) in scheme;
      SchemeKeysHas(scheme, Named(usual[m].0), usual[m].1);
    }
    UsualIgnoresExtraKeys(e1, extra, usual, 0, prefix, [], st, cx);
  }

  function SchemeKeys(scheme: SchemeMap): set<SchemeKey> {
    set p | p in scheme :: p.0
  }

  lemma SchemeKeysHas(scheme: SchemeMap, k: SchemeKey, n: NodeRef)
    requires (k, n) in scheme
    ensures k in SchemeKeys(scheme)
  {
  }
}
