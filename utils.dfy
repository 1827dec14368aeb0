/** `toList` and `unfoldPath` from the project's utility module.  The
    operating-system path steps of `unfoldPath` are parameters. */
module Utils {
  import opened PyValues

  /** The characters Python's `str.split()` treats as whitespace. */
  predicate IsSpace(c: char) {
    c in {' ', '\t', '\n', '\U{000b}', '\U{000c}', '\r', '\U{001c}', '\U{001d}', '\U{001e}', '\U{001f}',
          '\U{0085}', '\U{00a0}', '\U{1680}', '\U{2028}', '\U{2029}', '\U{202f}', '\U{205f}', '\U{3000}'}
    || ('\U{2000}' <= c <= '\U{200a}')
  }

  /** A token produced by `split()`: non-empty and free of whitespace. */
  predicate IsToken(t: string) {
    |t| > 0 && forall j :: 0 <= j < |t| ==> !IsSpace(t[j])
  }

  /** The longest prefix of `s` holding no whitespace. */
  function Word(s: string): (w: string)
    ensures w <= s
    ensures forall j :: 0 <= j < |w| ==> !IsSpace(w[j])
    ensures |w| == |s| || IsSpace(s[|w|])
  {
    if |s| == 0 || IsSpace(s[0]) then "" else [s[0]] + Word(s[1..])
  }

  /** `s.split()`: the maximal runs of non-whitespace characters, in order. */
  function Split(s: string): (r: seq<string>)
    ensures forall j :: 0 <= j < |r| ==> IsToken(r[j])
    decreases |s|
  {
    if |s| == 0 then []
    else if IsSpace(s[0]) then Split(s[1..])
    else
      var w := Word(s);
      [w] + Split(s[|w|..])
  }

  /** The characters of `s` that are not whitespace, in order. */
  function NonSpace(s: string): string {
    if |s| == 0 then "" else (if IsSpace(s[0]) then "" else [s[0]]) + NonSpace(s[1..])
  }

  function Concat(ts: seq<string>): string {
    if |ts| == 0 then "" else ts[0] + Concat(ts[1..])
  }

  lemma NonSpaceAppend(a: string, b: string)
    ensures NonSpace(a + b) == NonSpace(a) + NonSpace(b)
  {
    if |a| > 0 {
      assert (a + b)[1..] == a[1..] + b;
      NonSpaceAppend(a[1..], b);
    } else {
      assert a + b == b;
    }
  }

  lemma NonSpaceOfWord(w: string)
    requires forall j :: 0 <= j < |w| ==> !IsSpace(w[j])
    ensures NonSpace(w) == w
  {
    if |w| > 0 {
      NonSpaceOfWord(w[1..]);
    }
  }

  /** No character is lost or reordered: gluing the tokens together gives
      the string with its whitespace removed. */
  lemma {:induction false} SplitKeepsCharacters(s: string)
    ensures Concat(Split(s)) == NonSpace(s)
    decreases |s|
  {
    if |s| == 0 {
    } else if IsSpace(s[0]) {
      SplitKeepsCharacters(s[1..]);
      assert NonSpace(s) == NonSpace(s[1..]);
    } else {
      var w := Word(s);
      SplitKeepsCharacters(s[|w|..]);
      assert s == w + s[|w|..];
      NonSpaceAppend(w, s[|w|..]);
      NonSpaceOfWord(w);
    }
  }

  /** Tokens joined by single spaces. */
  function JoinSpaced(ts: seq<string>): string {
    if |ts| == 0 then "" else if |ts| == 1 then ts[0] else ts[0] + " " + JoinSpaced(ts[1..])
  }

  lemma {:induction false} WordOfToken(t: string, rest: string)
    requires forall j :: 0 <= j < |t| ==> !IsSpace(t[j])
    requires |rest| == 0 || IsSpace(rest[0])
    ensures Word(t + rest) == t
    decreases |t|
  {
    var s := t + rest;
    if |t| > 0 {
      assert s[0] == t[0] && !IsSpace(s[0]);
      assert s[1..] == t[1..] + rest;
      WordOfToken(t[1..], rest);
      assert Word(s) == [t[0]] + t[1..];
      assert [t[0]] + t[1..] == t;
    } else {
      assert s == rest;
    }
  }

  lemma SplitTokenThen(t: string, rest: string)
    requires IsToken(t)
    requires |rest| == 0 || IsSpace(rest[0])
    ensures Split(t + rest) == [t] + Split(rest)
  {
    WordOfToken(t, rest);
    assert (t + rest)[|t|..] == rest;
  }

  /** Splitting tokens that were joined by spaces gives the tokens back. */
  lemma {:induction false} SplitJoinSpaced(ts: seq<string>)
    requires forall j :: 0 <= j < |ts| ==> IsToken(ts[j])
    ensures Split(JoinSpaced(ts)) == ts
  {
    if |ts| == 0 {
    } else if |ts| == 1 {
      SplitTokenThen(ts[0], "");
      assert ts[0] + "" == ts[0];
    } else {
      var rest := JoinSpaced(ts[1..]);
      SplitJoinSpaced(ts[1..]);
      assert ts[0] + " " + rest == ts[0] + (" " + rest);
      SplitTokenThen(ts[0], " " + rest);
      assert (" " + rest)[1..] == rest;
    }
  }

  function Strs(ts: seq<string>): (r: seq<Value>)
    ensures |r| == |ts|
    ensures forall j :: 0 <= j < |ts| ==> r[j] == PyStr(ts[j])
  {
    if |ts| == 0 then [] else [PyStr(ts[0])] + Strs(ts[1..])
  }

  /** `toList(val)`: a string becomes the list of its whitespace-separated
      tokens; every other value is returned as it is. */
  function ToList(v: Value): (r: Value)
    ensures v.PyStr? ==> r.PyList? && |r.items| == |Split(v.s)|
    ensures v.PyStr? ==> forall j :: 0 <= j < |r.items| ==> r.items[j].PyStr? && IsToken(r.items[j].s)
    ensures v.PyStr? ==> forall j :: 0 <= j < |r.items| ==> r.items[j] == PyStr(Split(v.s)[j])
    ensures !v.PyStr? ==> r == v
  {
    if v.PyStr? then PyList(Strs(Split(v.s))) else v
  }

  /** `toList` is idempotent. */
  lemma ToListIdempotent(v: Value)
    ensures ToList(ToList(v)) == ToList(v)
  {
  }

  /** The operating-system steps `unfoldPath` applies; they depend on the
      environment, the home directory and the process's working directory. */
  datatype PathOps = PathOps(
    isAbs: string -> bool,
    join: (string, string) -> string,
    expandVars: string -> string,
    expandUser: string -> string,
    absPath: string -> string,
    normPath: string -> string)

  function Expand(ops: PathOps, p: string): string {
    ops.normPath(ops.absPath(ops.expandUser(ops.expandVars(p))))
  }

  /** `unfoldPath(cwd, path)`; `None` stands for Python's `None`. */
  function UnfoldPath(ops: PathOps, cwd: string, path: Option<string>): (r: Option<string>)
    ensures path == None || path == Some("") ==> r == path
    ensures path.Some? && path.value != "" && ops.isAbs(path.value) ==> r == Some(Expand(ops, path.value))
    ensures path.Some? && path.value != "" && !ops.isAbs(path.value) ==> r == Some(Expand(ops, ops.join(cwd, path.value)))
  {
    match path
    case None => None
    case Some(p) =>
      if p == "" then path
      else
        var joined := if ops.isAbs(p) then p else ops.join(cwd, p);
        Some(Expand(ops, joined))
  }

  /** An absolute path does not depend on the working directory. */
  lemma UnfoldAbsoluteIgnoresCwd(ops: PathOps, cwd1: string, cwd2: string, p: string)
    requires ops.isAbs(p)
    ensures UnfoldPath(ops, cwd1, Some(p)) == UnfoldPath(ops, cwd2, Some(p))
  {
  }
}
