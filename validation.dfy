/** `Validator.validate` (buildconf/validator.py): the entry point.  It
    copies the scheme, restricts `buildtypes.default` to the build types the
    configuration declares, validates the whole configuration with unknown
    top-level keys allowed, and re-wraps the message of a configuration
    error.  The loops of `_validate` and `_validateUsualItems` appear here as
    methods proved equal to the functions the recursive check uses. */
module ConfValidation {
  import opened PyValues
  import opened Scheme
  import opened Validator

  // ---------------------------------------------------------------------
  // The loops of `_validate` and `_validateUsualItems`

  /** The partition loop at the top of `_validate`. */
  method PartitionScheme(scheme: SchemeMap) returns (wild: Option<NodeRef>, usual: seq<(string, NodeRef)>)
    ensures wild == Wildcard(scheme)
    ensures usual == UsualItems(scheme)
  {
    wild, usual := None, [];
    var i := 0;
    while i < |scheme|
      invariant 0 <= i <= |scheme|
      invariant wild == Wildcard(scheme[..i])
      invariant usual == UsualItems(scheme[..i])
    {
      assert scheme[..i + 1][..i] == scheme[..i];
      var (key, node) := scheme[i];
      if key.AnyAmountStrs? {
        wild := Some(node);
      } else {
        usual := usual + [(key.name, node)];
      }
      i := i + 1;
    }
    assert scheme[..i] == scheme;
  }

  /** `_validateUsualItems(conf, items, keyprefix)`, collecting the keys it
      handled. */
  method ValidateUsualItems(v: Value, usual: seq<(string, NodeRef)>, prefix: string, st: Store, cx: Callables)
    returns (out: Outcome, handled: seq<string>, st': Store)
    requires v.PyMap?
    ensures UsualRun(out, handled, st') == ValidateUsual(v, usual, 0, prefix, [], st, cx)
  {
    handled, st' := [], st;
    var i := 0;
    while i < |usual|
      invariant 0 <= i <= |usual|
      invariant ValidateUsual(v, usual, i, prefix, handled, st', cx) == ValidateUsual(v, usual, 0, prefix, [], st, cx)
    {
      var name := usual[i].0;
      var idx := FindKey(v.entries, PyStr(name));
      if idx.Some? && v.entries[idx.value].1 != PyNone {
        var node := v.entries[idx.value].1;
        var full := GenFullKey(prefix, name);
        var id := match usual[i].1 case Node(n) => n case Computed(f) => cx.node(f, node, full);
        var attrs := At(st', id);
        if "type" !in attrs {
          out := Fault("KeyError: 'type'");
          return;
        }
        var h := GetHandler(attrs["type"]);
        if h.None? {
          out := Fault("KeyError: type");
          return;
        }
        var res := Dispatch(h.value, node, id, full, st', cx);
        if res.out.Err? {
          out, st' := res.out, res.st;
          return;
        }
        handled, st' := handled + [name], res.st;
      }
      i := i + 1;
    }
    out := Pass;
  }

  /** A mapping passes `_validate` without a wildcard and with unknown keys
      refused only if every key is a string that named a handled item, and
      no key is in a non-empty `disallowed-keys` list. */
  lemma {:induction false} RestPassMeansKnown(v: Value, j: nat, prefix: string, allowUnknown: bool,
                                             disallowed: Option<Attr>, handled: seq<string>,
                                             wild: Option<(NodeId, Handler)>, scheme: SchemeMap,
                                             st: Store, cx: Callables)
    requires v.PyMap? && j <= |v.entries|
    requires ValidateRest(v, j, prefix, allowUnknown, disallowed, handled, wild, scheme, st, cx).out.Pass?
    ensures disallowed.Some? && disallowed.value.AList? && Truthy(disallowed.value) ==>
      forall k :: j <= k < |v.entries| ==> v.entries[k].0 !in disallowed.value.values
    ensures wild.None? && !allowUnknown ==>
      forall k :: j <= k < |v.entries| ==> v.entries[k].0.PyStr? && v.entries[k].0.s in handled
    decreases |v.entries| - j
  {
    if j < |v.entries| {
      var key := v.entries[j].0;
      if key.PyStr? && key.s in handled {
        RestPassMeansKnown(v, j + 1, prefix, allowUnknown, disallowed, handled, wild, scheme, st, cx);
      } else if wild.Some? && key.PyStr? {
        var res := Dispatch(wild.value.1, v.entries[j].1, wild.value.0, GenFullKey(prefix, key.s), st, cx);
        RestPassMeansKnown(v, j + 1, prefix, allowUnknown, disallowed, handled, wild, scheme, res.st, cx);
      } else {
        RestPassMeansKnown(v, j + 1, prefix, allowUnknown, disallowed, handled, wild, scheme, st, cx);
      }
    }
  }

  // ---------------------------------------------------------------------
  // The build types `validate` allows for `buildtypes.default`

  /** `task.get('buildtypes', {}).keys()`; `None` when the value is not a
      mapping (Python raises `AttributeError`). */
  function OwnBuildTypes(task: seq<(Value, Value)>): Option<seq<Value>> {
    match FindKey(task, PyStr("buildtypes"))
    case None => Some([])
    case Some(i) => if task[i].1.PyMap? then Some(Keys(task[i].1.entries)) else None
  }

  /** The build types the map-valued tasks declare, in task order. */
  function TasksBuildTypes(tasks: seq<(Value, Value)>): Option<seq<Value>>
    decreases |tasks|
  {
    if |tasks| == 0 then Some([])
    else
      match TasksBuildTypes(tasks[..|tasks| - 1])
      case None => None
      case Some(prev) =>
        var t := tasks[|tasks| - 1].1;
        if !t.PyMap? then Some(prev)
        else match OwnBuildTypes(t.entries)
          case None => None
          case Some(ks) => Some(prev + ks)
  }

  /** The keys of the top-level `buildtypes` mapping, if it is one. */
  function TopBuildTypes(conf: seq<(Value, Value)>): seq<Value> {
    match FindKey(conf, PyStr("buildtypes"))
    case None => []
    case Some(i) => if conf[i].1.PyMap? then Keys(conf[i].1.entries) else []
  }

  /** The `tasks` mapping, if the configuration has one. */
  function TasksOf(conf: seq<(Value, Value)>): seq<(Value, Value)> {
    match FindKey(conf, PyStr("tasks"))
    case None => []
    case Some(i) => if conf[i].1.PyMap? then conf[i].1.entries else []
  }

  /** The list `validate` collects before removing `default`. */
  function DeclaredBuildTypes(conf: seq<(Value, Value)>): Option<seq<Value>> {
    match TasksBuildTypes(TasksOf(conf))
    case None => None
    case Some(fromTasks) => Some(TopBuildTypes(conf) + fromTasks)
  }

  /** The collection of `validate`: the keys of the top-level `buildtypes`
      mapping, then those of every task's. */
  method CollectBuildTypes(conf: seq<(Value, Value)>) returns (r: Option<seq<Value>>)
    ensures r == DeclaredBuildTypes(conf)
  {
    var allowed: seq<Value> := [];
    var bi := FindKey(conf, PyStr("buildtypes"));
    if bi.Some? && conf[bi.value].1.PyMap? {
      allowed := allowed + Keys(conf[bi.value].1.entries);
    }
    assert allowed == TopBuildTypes(conf);
    r := ExtendWithTasks(allowed, TasksOf(conf));
  }

  /** The loop of `validate` over all tasks, extending `allowed`. */
  method ExtendWithTasks(start: seq<Value>, tasks: seq<(Value, Value)>) returns (r: Option<seq<Value>>)
    ensures r == if TasksBuildTypes(tasks).None? then None else Some(start + TasksBuildTypes(tasks).value)
  {
    var allowed := start;
    var j := 0;
    assert tasks[..j] == [];
    while j < |tasks|
      invariant 0 <= j <= |tasks|
      invariant TasksBuildTypes(tasks[..j]).Some?
      invariant allowed == start + TasksBuildTypes(tasks[..j]).value
    {
      TasksBuildTypesStep(tasks, j);
      ghost var prev := TasksBuildTypes(tasks[..j]).value;
      var task := tasks[j].1;
      if task.PyMap? {
        var own := OwnBuildTypes(task.entries);
        if own.None? {
          // AttributeError: this task's `buildtypes` has no `keys`
          NoneStaysNone(tasks, j + 1);
          return None;
        }
        allowed := allowed + own.value;
        assert allowed == start + (prev + own.value);
      }
      j := j + 1;
    }
    assert tasks[..j] == tasks;
    r := Some(allowed);
  }

  lemma TasksBuildTypesStep(tasks: seq<(Value, Value)>, j: nat)
    requires j < |tasks|
    ensures TasksBuildTypes(tasks[..j + 1]) ==
      match TasksBuildTypes(tasks[..j])
      case None => None
      case Some(prev) =>
        if !tasks[j].1.PyMap? then Some(prev)
        else match OwnBuildTypes(tasks[j].1.entries)
          case None => None
          case Some(ks) => Some(prev + ks)
  {
    assert tasks[..j + 1][..j] == tasks[..j];
  }

  /** Once a task fails, the whole collection fails. */
  lemma {:induction false} NoneStaysNone(tasks: seq<(Value, Value)>, j: nat)
    requires j <= |tasks|
    requires TasksBuildTypes(tasks[..j]).None?
    ensures TasksBuildTypes(tasks).None?
    decreases |tasks| - j
  {
    if j < |tasks| {
      assert tasks[..j + 1][..j] == tasks[..j];
      NoneStaysNone(tasks, j + 1);
    } else {
      assert tasks[..j] == tasks;
    }
  }

  /** A task's declared build types, when it declares them as a mapping. */
  predicate TaskDeclares(task: Value, x: Value) {
    task.PyMap? && Get(task.entries, PyStr("buildtypes")).PyMap?
    && x in Keys(Get(task.entries, PyStr("buildtypes")).entries)
  }

  lemma {:induction false} TasksBuildTypesMembers(tasks: seq<(Value, Value)>)
    requires TasksBuildTypes(tasks).Some?
    ensures forall x :: x in TasksBuildTypes(tasks).value <==> exists j :: 0 <= j < |tasks| && TaskDeclares(tasks[j].1, x)
    decreases |tasks|
  {
    if |tasks| > 0 {
      var init := tasks[..|tasks| - 1];
      TasksBuildTypesMembers(init);
      LastTaskMembers(tasks);
      forall x ensures x in TasksBuildTypes(tasks).value <==> exists j :: 0 <= j < |tasks| && TaskDeclares(tasks[j].1, x) {
        SomeInInitOrLast(tasks, init, (t: (Value, Value)) => TaskDeclares(t.1, x));
      }
    }
  }

  /** The build types collected over all tasks are those collected before the
      last task and those the last task declares. */
  lemma LastTaskMembers(tasks: seq<(Value, Value)>)
    requires |tasks| > 0 && TasksBuildTypes(tasks).Some?
    ensures TasksBuildTypes(tasks[..|tasks| - 1]).Some?
    ensures forall x :: x in TasksBuildTypes(tasks).value <==>
      x in TasksBuildTypes(tasks[..|tasks| - 1]).value || TaskDeclares(tasks[|tasks| - 1].1, x)
  {
  }

  /** Some element of a non-empty sequence satisfies `p` exactly when some
      element before the last one does, or the last one does. */
  lemma SomeInInitOrLast<T>(s: seq<T>, init: seq<T>, p: T -> bool)
    requires |s| > 0 && init == s[..|s| - 1]
    ensures (exists j :: 0 <= j < |s| && p(s[j])) <==>
      (exists j :: 0 <= j < |init| && p(init[j])) || p(s[|s| - 1])
  {
    if exists j :: 0 <= j < |s| && p(s[j]) {
      var j :| 0 <= j < |s| && p(s[j]);
      if j < |init| {
        assert init[j] == s[j];
      }
    }
    if exists j :: 0 <= j < |init| && p(init[j]) {
      var j :| 0 <= j < |init| && p(init[j]);
      assert s[j] == init[j];
    }
  }

  /** `list(set(values))`: the same members, each once. */
  function Dedup(s: seq<Value>): (r: seq<Value>)
    ensures forall x :: x in r <==> x in s
    ensures forall i, j :: 0 <= i < j < |r| ==> r[i] != r[j]
  {
    if |s| == 0 then []
    else if s[0] in s[1..] then Dedup(s[1..])
    else [s[0]] + Dedup(s[1..])
  }

  /** `values.remove(x)`, which drops the first occurrence, guarded by `x in values`. */
  function RemoveFirst(s: seq<Value>, x: Value): (r: seq<Value>)
    ensures (forall i, j :: 0 <= i < j < |s| ==> s[i] != s[j]) ==> forall y :: y in r <==> y in s && y != x
  {
    if |s| == 0 then []
    else if s[0] == x then s[1..]
    else [s[0]] + RemoveFirst(s[1..], x)
  }

  /** The list installed as `allowed` of `buildtypes.default`. */
  function AllowedDefaults(declared: seq<Value>): (r: seq<Value>)
    ensures forall x :: x in r <==> x in declared && x != PyStr("default")
  {
    RemoveFirst(Dedup(declared), PyStr("default"))
  }

  /** The first entry of a scheme under a plain name. */
  function FindNamed(scheme: SchemeMap, name: string): (r: Option<NodeRef>)
    ensures r.Some? ==> (Named(name), r.value) in scheme
  {
    if |scheme| == 0 then None
    else if scheme[0].0 == Named(name) then Some(scheme[0].1)
    else FindNamed(scheme[1..], name)
  }

  /** `_scheme['buildtypes']['vars']`; `None` when Python raises. */
  function BuildTypesVars(scheme: SchemeMap, st: Store): Option<Attr> {
    match FindNamed(scheme, "buildtypes")
    case Some(Node(id)) => if "vars" in At(st, id) then Some(At(st, id)["vars"]) else None
    case _ => None
  }

  /** The node of `btypesVars['default']`; `None` when Python raises. */
  function DefaultNodeOf(vars: Attr): Option<NodeId> {
    match vars
    case ASub(s) => (match FindNamed(s, "default") case Some(Node(id)) => Some(id) case _ => None)
    case _ => None
  }

  /** The copy of the scheme that `validate` checks against, or `None`
      when building it raises. */
  function PreparedStore(conf: seq<(Value, Value)>, scheme: SchemeMap, st: Store): Option<Store> {
    match BuildTypesVars(scheme, st)
    case None => None
    case Some(vars) =>
      match DeclaredBuildTypes(conf)
      case None => None
      case Some(declared) =>
        if |declared| == 0 then Some(st)
        else match DefaultNodeOf(vars)
          case None => None
          case Some(id) => Some(Put(st, id, At(st, id)["allowed" := AList(AllowedDefaults(declared))]))
  }

  /** The copied scheme: `deepcopy(confscheme)`, written to in place. */
  class SchemeCopy {
    var nodes: Store

    constructor (st: Store)
      ensures nodes == st
    {
      nodes := st;
    }

    /** `node[key] = a` on node `id` of the copy. */
    method SetAttr(id: NodeId, key: string, a: Attr)
      modifies this
      ensures nodes == Put(old(nodes), id, At(old(nodes), id)[key := a])
    {
      nodes := Put(nodes, id, At(nodes, id)[key := a]);
    }
  }

  // ---------------------------------------------------------------------
  // Re-wrapping of the message

  /** The line boundaries of Python's `str.splitlines`. */
  predicate IsLineBreak(c: char) {
    c in {'\n', '\r', '\U{000b}', '\U{000c}', '\U{001c}', '\U{001d}', '\U{001e}', '\U{0085}', '\U{2028}', '\U{2029}'}
  }

  predicate NoBreaks(s: string) {
    forall j :: 0 <= j < |s| ==> !IsLineBreak(s[j])
  }

  /** The length of the first line. */
  function LineEnd(s: string): (n: nat)
    ensures n <= |s|
    ensures NoBreaks(s[..n])
    ensures n < |s| ==> IsLineBreak(s[n])
  {
    if |s| == 0 || IsLineBreak(s[0]) then 0
    else
      var n := 1 + LineEnd(s[1..]);
      assert s[..n] == [s[0]] + s[1..][..n - 1];
      n
  }

  /** `s.splitlines()`: `\r\n` is one boundary and a final boundary makes no
      empty line. */
  function SplitLines(s: string): (r: seq<string>)
    ensures forall j :: 0 <= j < |r| ==> NoBreaks(r[j])
    decreases |s|
  {
    if |s| == 0 then []
    else
      var n := LineEnd(s);
      if n == |s| then [s]
      else
        var width := if s[n] == '\r' && n + 1 < |s| && s[n + 1] == '\n' then 2 else 1;
        [s[..n]] + SplitLines(s[n + width..])
  }

  /** `"\n  %s" % line` for every line, concatenated. */
  function IndentedTail(lines: seq<string>): string {
    if |lines| == 0 then "" else "\n" + ("  " + lines[0] + IndentedTail(lines[1..]))
  }

  function Indent(lines: seq<string>): (r: seq<string>)
    ensures |r| == |lines|
    ensures forall j :: 0 <= j < |lines| ==> r[j] == "  " + lines[j]
  {
    if |lines| == 0 then [] else ["  " + lines[0]] + Indent(lines[1..])
  }

  function Header(file: string): string {
    "Error in the file " + Quote(file) + ":"
  }

  /** The message `validate` gives a configuration error. */
  function Rewrap(file: string, msg: string): string {
    Header(file) + IndentedTail(SplitLines(msg))
  }

  lemma {:induction false} LineEndAtNewline(a: string, rest: string)
    requires NoBreaks(a)
    ensures LineEnd(a + ("\n" + rest)) == |a|
    decreases |a|
  {
    var s := a + ("\n" + rest);
    if |a| == 0 {
      assert s == "\n" + rest;
    } else {
      assert s[0] == a[0] && s[1..] == a[1..] + ("\n" + rest);
      assert !IsLineBreak(a[0]);
      LineEndAtNewline(a[1..], rest);
    }
  }

  lemma SplitAtNewline(a: string, rest: string)
    requires NoBreaks(a)
    ensures SplitLines(a + ("\n" + rest)) == [a] + SplitLines(rest)
  {
    var s := a + ("\n" + rest);
    LineEndAtNewline(a, rest);
    assert s[..|a|] == a;
    assert s[|a| + 1..] == rest;
  }

  lemma SplitNoBreaks(a: string)
    requires NoBreaks(a) && |a| > 0
    ensures SplitLines(a) == [a]
  {
  }

  lemma {:induction false} SplitIndentedTail(a: string, lines: seq<string>)
    requires NoBreaks(a) && |a| > 0
    requires forall j :: 0 <= j < |lines| ==> NoBreaks(lines[j])
    ensures SplitLines(a + IndentedTail(lines)) == [a] + Indent(lines)
    decreases |lines|
  {
    if |lines| == 0 {
      assert a + IndentedTail(lines) == a;
      SplitNoBreaks(a);
    } else {
      var next := "  " + lines[0];
      IndentKeepsNoBreaks(lines[0]);
      SplitIndentedTail(next, lines[1..]);
      SplitAtNewline(a, next + IndentedTail(lines[1..]));
      assert Indent(lines) == [next] + Indent(lines[1..]);
    }
  }

  lemma IndentKeepsNoBreaks(line: string)
    requires NoBreaks(line)
    ensures NoBreaks("  " + line)
  {
    var next := "  " + line;
    forall j | 0 <= j < |next| ensures !IsLineBreak(next[j]) {
      if j >= 2 { assert next[j] == line[j - 2]; }
    }
  }

  /** Re-wrapping keeps every line of the original message, indented by two
      spaces, under a one-line header naming the file. */
  lemma RewrapLines(file: string, msg: string)
    requires NoBreaks(file)
    ensures SplitLines(Rewrap(file, msg)) == [Header(file)] + Indent(SplitLines(msg))
  {
    var h := Header(file);
    assert NoBreaks(h) by {
      forall j | 0 <= j < |h| ensures !IsLineBreak(h[j]) {
        if 19 <= j < 19 + |file| { assert h[j] == file[j - 19]; }
      }
    }
    SplitIndentedTail(h, SplitLines(msg));
  }

  // ---------------------------------------------------------------------
  // The entry point

  /** What `validate` raises, if anything: errors of the configuration-error
      family carry the re-wrapped message, any other exception is unchanged. */
  function ValidateSpec(file: string, conf: seq<(Value, Value)>, scheme: SchemeMap, st: Store, cx: Callables): Outcome {
    match PreparedStore(conf, scheme, st)
    case None => Fault("raised while preparing the scheme")
    case Some(prepared) =>
      var o := ValidateMap(PyMap(conf), scheme, "", true, None, prepared, cx).out;
      if IsConfError(o) then Err(o.kind, o.fromSub, Rewrap(file, o.msg)) else o
  }

  /** `validate(conf)` for the module variables `conf` of the file `file`,
      against the scheme `scheme` whose nodes are `st`. */
  method Validate(file: string, conf: seq<(Value, Value)>, scheme: SchemeMap, st: Store, cx: Callables)
    returns (r: Outcome)
    ensures r == ValidateSpec(file, conf, scheme, st, cx)
  {
    var copy := new SchemeCopy(st);
    var vars := BuildTypesVars(scheme, copy.nodes);
    if vars.None? {
      return Fault("raised while preparing the scheme");
    }
    var declared := CollectBuildTypes(conf);
    if declared.None? {
      return Fault("raised while preparing the scheme");
    }
    if |declared.value| > 0 {
      var id := DefaultNodeOf(vars.value);
      if id.None? {
        return Fault("raised while preparing the scheme");
      }
      copy.SetAttr(id.value, "allowed", AList(AllowedDefaults(declared.value)));
    }
    var res := ValidateMap(PyMap(conf), scheme, "", true, None, copy.nodes, cx);
    if IsConfError(res.out) {
      r := Err(res.out.kind, res.out.fromSub, Rewrap(file, res.out.msg));
    } else {
      r := res.out;
    }
  }

  /** The allowed list installed on `buildtypes.default` holds exactly the
      declared build types other than `default`, and nothing is installed
      when none is declared. */
  lemma InstalledAllowed(conf: seq<(Value, Value)>, scheme: SchemeMap, st: Store)
    requires PreparedStore(conf, scheme, st).Some?
    ensures DeclaredBuildTypes(conf).Some?
    ensures |DeclaredBuildTypes(conf).value| == 0 ==> PreparedStore(conf, scheme, st).value == st
    ensures |DeclaredBuildTypes(conf).value| > 0 ==>
      var id := DefaultNodeOf(BuildTypesVars(scheme, st).value).value;
      var node := At(PreparedStore(conf, scheme, st).value, id);
      id < |st| ==>
        "allowed" in node && node["allowed"].AList?
        && forall x :: x in node["allowed"].values <==>
             (x in TopBuildTypes(conf) || exists j :: 0 <= j < |TasksOf(conf)| && TaskDeclares(TasksOf(conf)[j].1, x))
             && x != PyStr("default")
  {
    var tasks := TasksOf(conf);
    TasksBuildTypesMembers(tasks);
  }

  /** `validate` never changes the kind of what was raised, and every
      configuration error it raises has a message made by `Rewrap`. */
  lemma ValidateKeepsKind(file: string, conf: seq<(Value, Value)>, scheme: SchemeMap, st: Store, cx: Callables)
    requires PreparedStore(conf, scheme, st).Some?
    ensures var inner := ValidateMap(PyMap(conf), scheme, "", true, None, PreparedStore(conf, scheme, st).value, cx).out;
            var r := ValidateSpec(file, conf, scheme, st, cx);
            (r.Pass? <==> inner.Pass?)
            && (r.Err? ==> r.kind == inner.kind && r.fromSub == inner.fromSub)
            && (IsConfError(r) ==> SplitLines(r.msg)[0] == Header(file) || !NoBreaks(file))
  {
    var inner := ValidateMap(PyMap(conf), scheme, "", true, None, PreparedStore(conf, scheme, st).value, cx).out;
    if IsConfError(inner) && NoBreaks(file) {
      RewrapLines(file, inner.msg);
    }
  }
}
