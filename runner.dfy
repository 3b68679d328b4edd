// The template-variation driver of variation/variation/runner.py.
//
// A road-network template is an XML tree whose attribute values may refer to
// variables ("${name}"). Its optional `vars` child declares the variables; each
// gets one value per revision. For every revision the driver takes a fresh
// copy of the template without the `vars` child, replaces every variable
// attribute below the root by that revision's value, writes the copy under a
// revision-numbered name and runs the generator library on it.
//
// The tree is a value here: the source rewrites a deep copy in place, and a
// deep copy shares nothing with the template, so rewriting it and returning
// the rewritten copy cannot be told apart. Random draws, the dependency solver
// and the library calls are parameters or results (see the README).

module Variation {
  import opened Wrappers

  /** An ElementTree element: its tag, its attributes and its children in order. */
  datatype Element = Element(tag: string, attrib: map<string, string>, children: seq<Element>)

  /** Variable values per name, one entry per revision, each already in its `str` form. */
  type VarDict = map<string, seq<string>>

  /** The exception Python raises when an index is out of range. */
  const IndexError: string := "IndexError"

  // ---------------------------------------------------------------------------
  // is_var

  /** "${" at i, "}" at j, and no newline between them. */
  predicate VarAt(s: string, i: int, j: int) {
    0 <= i && i + 2 <= j < |s| && s[i] == '$' && s[i + 1] == '{' && s[j] == '}' && '\n' !in s[i + 2..j]
  }

  /** The regular expression `\$\{.*\}` matches somewhere in s (`.` does not match a newline). */
  ghost predicate MatchesVarPattern(s: string) {
    exists i, j :: VarAt(s, i, j)
  }

  /** "}" at j with no newline before it. */
  predicate ClosesAt(s: string, j: int) {
    0 <= j < |s| && s[j] == '}' && '\n' !in s[..j]
  }

  /** A "}" follows on the first line of s. */
  ghost predicate ClosesOnFirstLine(s: string) {
    exists j :: ClosesAt(s, j)
  }

  /** `is_var`: whether the attribute value refers to a variable. */
  function IsVar(s: string): bool {
    ScanVar(s, false)
  }

  /**
   * A left-to-right scan for the pattern; `open` says an unclosed "${" has been
   * seen on the current line.
   */
  function ScanVar(s: string, open: bool): bool
    decreases |s|
  {
    if s == [] then false
    else if open && s[0] == '}' then true
    else if s[0] == '\n' then ScanVar(s[1..], false)
    else if |s| >= 2 && s[0] == '$' && s[1] == '{' then ScanVar(s[2..], true)
    else ScanVar(s[1..], open)
  }

  /** `is_var` answers exactly whether `re.search('\$\{.*\}', s)` finds a match. */
  lemma IsVarMatchesPattern(s: string)
    ensures IsVar(s) <==> MatchesVarPattern(s)
  {
    ScanVarSpec(s, false);
  }

  /** The scan finds a match in s, or, with a "${" still open, a "}" on its first line. */
  lemma {:induction false} ScanVarSpec(s: string, open: bool)
    ensures ScanVar(s, open) <==> MatchesVarPattern(s) || (open && ClosesOnFirstLine(s))
    decreases |s|
  {
    if s == [] {
    } else if open && s[0] == '}' {
      assert ClosesAt(s, 0);
    } else if s[0] == '\n' {
      ScanVarSpec(s[1..], false);
      DropOne(s);
    } else if |s| >= 2 && s[0] == '$' && s[1] == '{' {
      ScanVarSpec(s[2..], true);
      DropOpen(s);
      if ClosesOnFirstLine(s[2..]) {
        var j :| ClosesAt(s[2..], j);
        assert s[2..][..j] == s[2..j + 2];
        assert VarAt(s, 0, j + 2);
      }
      if exists j :: VarAt(s, 0, j) {
        var j :| VarAt(s, 0, j);
        assert s[2..j] == s[2..][..j - 2];
        assert ClosesAt(s[2..], j - 2);
      }
      if open && ClosesOnFirstLine(s) {
        var j :| ClosesAt(s, j);
        assert s[2..][..j - 2] == s[2..j];
        assert s[..j] == s[..2] + s[2..j];
        assert ClosesAt(s[2..], j - 2);
      }
    } else {
      ScanVarSpec(s[1..], open);
      DropOne(s);
      if open && ClosesOnFirstLine(s) {
        var j :| ClosesAt(s, j);
        assert s[1..][..j - 1] == s[1..j];
        assert ClosesAt(s[1..], j - 1);
      }
      if open && ClosesOnFirstLine(s[1..]) {
        var j :| ClosesAt(s[1..], j);
        assert s[..j + 1] == [s[0]] + s[1..][..j];
        assert ClosesAt(s, j + 1);
      }
    }
  }

  /** A match at or after d in s is a match in s[d..], d places earlier, and back. */
  lemma ShiftVarAt(s: string, d: nat, i: int, j: int)
    requires d <= i && d <= |s|
    ensures VarAt(s, i, j) <==> VarAt(s[d..], i - d, j - d)
  {
    if 0 <= i && i + 2 <= j < |s| {
      assert s[d..][i - d + 2..j - d] == s[i + 2..j];
    }
  }

  /** Without "${" at the front, dropping the first character keeps whether s matches. */
  lemma DropOne(s: string)
    requires |s| >= 1 && !(|s| >= 2 && s[0] == '$' && s[1] == '{')
    ensures MatchesVarPattern(s) <==> MatchesVarPattern(s[1..])
  {
    if MatchesVarPattern(s[1..]) {
      var i, j :| VarAt(s[1..], i, j);
      ShiftVarAt(s, 1, i + 1, j + 1);
    }
    if MatchesVarPattern(s) {
      var i, j :| VarAt(s, i, j);
      ShiftVarAt(s, 1, i, j);
    }
  }

  /** With "${" at the front, s matches when s[2..] does or when that "${" is closed on its line. */
  lemma DropOpen(s: string)
    requires |s| >= 2 && s[0] == '$' && s[1] == '{'
    ensures MatchesVarPattern(s) <==> MatchesVarPattern(s[2..]) || exists j :: VarAt(s, 0, j)
  {
    if MatchesVarPattern(s[2..]) {
      var i, j :| VarAt(s[2..], i, j);
      ShiftVarAt(s, 2, i + 2, j + 2);
    }
    if MatchesVarPattern(s) {
      var i, j :| VarAt(s, i, j);
      if i >= 2 {
        ShiftVarAt(s, 2, i, j);
      }
    }
  }

  // ---------------------------------------------------------------------------
  // get_var_val

  /** Python's `key[2:-1]`: without the first two and the last character, empty when that leaves nothing. */
  function VarName(key: string): (name: string)
    ensures |key| >= 3 ==> key == key[..2] + name + [key[|key| - 1]]
    ensures |key| < 3 ==> name == []
  {
    if |key| >= 3 then key[2..|key| - 1] else []
  }

  /** The name in a plain reference "${name}" is recovered exactly. */
  lemma VarNameOfReference(name: string)
    ensures VarName("${" + name + "}") == name
  {
    assert ("${" + name + "}")[2..|name| + 2] == name;
  }

  /**
   * `get_var_val`: revision ii's value of the variable the key names. An
   * unknown name falls back to the string "0", whose only character is at
   * index 0; an index past the end raises IndexError.
   */
  function GetVarVal(key: string, ii: nat, vars: VarDict): (r: Result<string, string>)
    ensures VarName(key) in vars ==>
      (r.Success? <==> ii < |vars[VarName(key)]|) && (r.Success? ==> r.value == vars[VarName(key)][ii])
    ensures VarName(key) !in vars ==> (r.Success? <==> ii == 0) && (r.Success? ==> r.value == "0")
    ensures r.Failure? ==> r.error == IndexError
  {
    var name := VarName(key);
    var values := if name in vars then vars[name] else ["0"];
    if ii < |values| then Success(values[ii]) else Failure(IndexError)
  }

  /** A reference "${name}" to a declared variable yields revision ii's value while there is one. */
  lemma GetVarValOfReference(name: string, ii: nat, vars: VarDict)
    requires name in vars && ii < |vars[name]|
    ensures GetVarVal("${" + name + "}", ii, vars) == Success(vars[name][ii])
  {
    VarNameOfReference(name);
  }

  // ---------------------------------------------------------------------------
  // find_var

  /** One attribute value after substitution: variables replaced, other values kept. */
  function RewriteValue(v: string, idx: nat, vars: VarDict): Result<string, string> {
    if IsVar(v) then GetVarVal(v, idx, vars) else Success(v)
  }

  /** Every attribute value of one element after substitution; the first failed lookup aborts. */
  function RewriteAttrs(a: map<string, string>, idx: nat, vars: VarDict): (r: Result<map<string, string>, string>)
    ensures r.Success? <==> AttrsResolvable(a, idx, vars)
    ensures r.Success? ==> AttrsSubstituted(a, r.value, idx, vars)
  {
    if AttrsResolvable(a, idx, vars) then Success(map k | k in a :: RewriteValue(a[k], idx, vars).value)
    else Failure(IndexError)
  }

  /**
   * `find_var`: rewrite the attributes of every proper descendant of e; the
   * element's own attributes are left alone. Each child is rewritten below
   * before its own attributes, children in order.
   */
  function FindVar(e: Element, idx: nat, vars: VarDict): Result<Element, string>
    decreases e, 1
  {
    var cs := FindVarChildren(e, 0, idx, vars);
    if cs.Failure? then Failure(cs.error) else Success(e.(children := cs.value))
  }

  /** The children of e from the i-th on, each rewritten below and then in its own attributes. */
  function FindVarChildren(e: Element, i: nat, idx: nat, vars: VarDict): Result<seq<Element>, string>
    decreases e, 0, |e.children| - i
  {
    if i >= |e.children| then Success([])
    else
      var c := FindVar(e.children[i], idx, vars);
      if c.Failure? then Failure(c.error)
      else
        var a := RewriteAttrs(c.value.attrib, idx, vars);
        if a.Failure? then Failure(a.error)
        else
          var rest := FindVarChildren(e, i + 1, idx, vars);
          if rest.Failure? then Failure(rest.error)
          else Success([c.value.(attrib := a.value)] + rest.value)
  }

  /** Every variable among the attribute values resolves. */
  predicate AttrsResolvable(a: map<string, string>, idx: nat, vars: VarDict) {
    forall k :: k in a ==> RewriteValue(a[k], idx, vars).Success?
  }

  /** a2 has the keys of a; variable values are replaced by their value for revision idx, the others kept. */
  predicate AttrsSubstituted(a: map<string, string>, a2: map<string, string>, idx: nat, vars: VarDict) {
    a2.Keys == a.Keys &&
    forall k :: k in a ==>
      (IsVar(a[k]) ==> GetVarVal(a[k], idx, vars) == Success(a2[k])) && (!IsVar(a[k]) ==> a2[k] == a[k])
  }

  /** Every variable in the attributes of e's proper descendants (and of e itself when `own`) resolves. */
  predicate Resolvable(e: Element, own: bool, idx: nat, vars: VarDict)
    decreases e
  {
    (own ==> AttrsResolvable(e.attrib, idx, vars)) &&
    forall i :: 0 <= i < |e.children| ==> Resolvable(e.children[i], true, idx, vars)
  }

  /**
   * e2 is e with the same tags, the same attribute keys and the same children,
   * and every variable attribute value of a proper descendant (and of e itself
   * when `own`) replaced by its value; everything else unchanged.
   */
  predicate Substituted(e: Element, e2: Element, own: bool, idx: nat, vars: VarDict)
    decreases e
  {
    e2.tag == e.tag &&
    (if own then AttrsSubstituted(e.attrib, e2.attrib, idx, vars) else e2.attrib == e.attrib) &&
    |e2.children| == |e.children| &&
    forall i :: 0 <= i < |e.children| ==> Substituted(e.children[i], e2.children[i], true, idx, vars)
  }

  /**
   * `find_var` succeeds exactly when every variable below the root resolves,
   * and then yields the tree with exactly those values substituted: the root's
   * attributes, all tags, all keys and the shape are unchanged.
   */
  lemma {:induction false} FindVarSubstitutes(e: Element, idx: nat, vars: VarDict)
    ensures FindVar(e, idx, vars).Success? <==> Resolvable(e, false, idx, vars)
    ensures FindVar(e, idx, vars).Success? ==> Substituted(e, FindVar(e, idx, vars).value, false, idx, vars)
    decreases e, 1
  {
    FindVarChildrenSubstitute(e, 0, idx, vars);
    var r := FindVarChildren(e, 0, idx, vars);
    if r.Success? {
      var e2 := e.(children := r.value);
      forall k | 0 <= k < |e.children|
        ensures Substituted(e.children[k], e2.children[k], true, idx, vars)
      {
        assert r.value[k - 0] == e2.children[k];
      }
    }
  }

  /** The children from the i-th on: success exactly when all of them resolve, each substituted. */
  lemma {:induction false} FindVarChildrenSubstitute(e: Element, i: nat, idx: nat, vars: VarDict)
    requires i <= |e.children|
    ensures FindVarChildren(e, i, idx, vars).Success? <==>
      forall k :: i <= k < |e.children| ==> Resolvable(e.children[k], true, idx, vars)
    ensures FindVarChildren(e, i, idx, vars).Success? ==>
      |FindVarChildren(e, i, idx, vars).value| == |e.children| - i &&
      forall k :: i <= k < |e.children| ==>
        Substituted(e.children[k], FindVarChildren(e, i, idx, vars).value[k - i], true, idx, vars)
    decreases e, 0, |e.children| - i
  {
    if i < |e.children| {
      var c := e.children[i];
      FindVarSubstitutes(c, idx, vars);
      FindVarChildrenSubstitute(e, i + 1, idx, vars);
      var r := FindVarChildren(e, i, idx, vars);
      if r.Success? {
        var c2 := FindVar(c, idx, vars).value;
        var a := RewriteAttrs(c2.attrib, idx, vars).value;
        var rest := FindVarChildren(e, i + 1, idx, vars).value;
        assert r.value == [c2.(attrib := a)] + rest;
        assert Substituted(c, c2.(attrib := a), true, idx, vars);
        forall k | i < k < |e.children|
          ensures Substituted(e.children[k], r.value[k - i], true, idx, vars)
        {
          assert r.value[k - i] == rest[k - i - 1];
        }
      }
    }
  }

  // ---------------------------------------------------------------------------
  // generateVar and the variable table of run

  /** `element.get(key)`: the attribute value, or None. */
  function Get(e: Element, key: string): Option<string> {
    if key in e.attrib then Some(e.attrib[key]) else None
  }

  /** Python's `str` of an attribute that may be missing: None prints as "None". */
  function Str(v: Option<string>): string {
    if v.Some? then v.value else "None"
  }

  /** The exception for an unknown distribution. */
  const InvalidDistribution: string := "ValueError: A wrong or invalid distribution type was provided"

  /** numpy's error for an array of negative size. */
  const NegativeDimensions: string := "ValueError: negative dimensions are not allowed"

  /**
   * `generateVar`: n values for one `var` node. The "normal" and "uniform"
   * draws are made by `draw` (numpy's generator, including the parsing of
   * their bounds, and their error for a negative n); "lindep" gives n copies
   * of the `dp` attribute, and `np.full` raises ValueError for a negative n;
   * any other type, or none, raises ValueError.
   */
  function GenerateVar(v: Element, n: int, draw: (string, Element, int) -> Result<seq<string>, string>): (r: Result<seq<string>, string>)
    ensures Get(v, "type") == Some("lindep") && n >= 0 ==> r == Success(seq(n, _ => Str(Get(v, "dp"))))
    ensures Get(v, "type") == Some("lindep") && n < 0 ==> r == Failure(NegativeDimensions)
    ensures Get(v, "type") !in {Some("normal"), Some("uniform"), Some("lindep")} ==> r == Failure(InvalidDistribution)
  {
    var dist := Get(v, "type");
    if dist == Some("normal") then draw("normal", v, n)
    else if dist == Some("uniform") then draw("uniform", v, n)
    else if dist == Some("lindep") then
      if n < 0 then Failure(NegativeDimensions) else Success(seq(n, _ => Str(Get(v, "dp"))))
    else Failure(InvalidDistribution)
  }

  /** A "lindep" variable has n values, each its `dp` text; it generates exactly when n is not negative. */
  lemma LindepCopies(v: Element, n: int, draw: (string, Element, int) -> Result<seq<string>, string>)
    requires Get(v, "type") == Some("lindep")
    ensures GenerateVar(v, n, draw).Success? <==> n >= 0
    ensures n >= 0 ==> |GenerateVar(v, n, draw).value| == n
    ensures n >= 0 ==> forall i :: 0 <= i < n ==> GenerateVar(v, n, draw).value[i] == Str(Get(v, "dp"))
  {
  }

  /** The raw variable table before the dependency solver, keyed by the `id` attribute (None when missing). */
  type RawTable = map<Option<string>, seq<string>>

  /**
   * The table the loop of `run` builds: each `var` node in turn is generated
   * and stored under its id, a later node replacing an earlier one with the
   * same id; the first failure aborts.
   */
  function VarTable(nodes: seq<Element>, n: int, draw: (string, Element, int) -> Result<seq<string>, string>): Result<RawTable, string>
    decreases |nodes|
  {
    if nodes == [] then Success(map[])
    else
      var prev := VarTable(nodes[..|nodes| - 1], n, draw);
      var last := nodes[|nodes| - 1];
      if prev.Failure? then prev
      else
        var v := GenerateVar(last, n, draw);
        if v.Failure? then Failure(v.error) else Success(prev.value[Get(last, "id") := v.value])
  }

  /** No node after k has the same id as node k. */
  predicate LastWithId(nodes: seq<Element>, k: int) requires 0 <= k < |nodes| {
    forall m :: k < m < |nodes| ==> Get(nodes[m], "id") != Get(nodes[k], "id")
  }

  /** The table is built exactly when every node generates. */
  lemma {:induction false} VarTableSucceeds(nodes: seq<Element>, n: int, draw: (string, Element, int) -> Result<seq<string>, string>)
    ensures VarTable(nodes, n, draw).Success? <==> forall k :: 0 <= k < |nodes| ==> GenerateVar(nodes[k], n, draw).Success?
    decreases |nodes|
  {
    if nodes != [] {
      var init := nodes[..|nodes| - 1];
      VarTableSucceeds(init, n, draw);
      assert forall k :: 0 <= k < |init| ==> init[k] == nodes[k];
    }
  }

  /** A built table is keyed by exactly the ids of the nodes. */
  lemma {:induction false} VarTableKeys(nodes: seq<Element>, n: int, draw: (string, Element, int) -> Result<seq<string>, string>)
    requires VarTable(nodes, n, draw).Success?
    ensures VarTable(nodes, n, draw).value.Keys == set k | 0 <= k < |nodes| :: Get(nodes[k], "id")
    decreases |nodes|
  {
    if nodes != [] {
      var init := nodes[..|nodes| - 1];
      VarTableKeys(init, n, draw);
      assert forall k :: 0 <= k < |init| ==> init[k] == nodes[k];
      assert (set k | 0 <= k < |nodes| :: Get(nodes[k], "id")) ==
        (set k | 0 <= k < |init| :: Get(init[k], "id")) + {Get(nodes[|nodes| - 1], "id")};
    }
  }

  /** In a built table each id holds the values of the last node that carries it. */
  lemma {:induction false} VarTableLast(nodes: seq<Element>, n: int, draw: (string, Element, int) -> Result<seq<string>, string>)
    requires VarTable(nodes, n, draw).Success?
    ensures forall k :: 0 <= k < |nodes| && LastWithId(nodes, k) ==>
      Get(nodes[k], "id") in VarTable(nodes, n, draw).value && GenerateVar(nodes[k], n, draw).Success? &&
      VarTable(nodes, n, draw).value[Get(nodes[k], "id")] == GenerateVar(nodes[k], n, draw).value
    decreases |nodes|
  {
    VarTableSucceeds(nodes, n, draw);
    if nodes != [] {
      var init := nodes[..|nodes| - 1];
      VarTableLast(init, n, draw);
      forall k | 0 <= k < |nodes| - 1 && LastWithId(nodes, k)
        ensures LastWithId(init, k) && Get(nodes[k], "id") != Get(nodes[|nodes| - 1], "id")
      {
      }
    }
  }

  /**
   * With a negative count only the numpy draws can let a variable through
   * (numpy rejects the size there too, inside `draw`): a table holding a
   * "lindep" variable, or one of any other type, is not built.
   */
  lemma NegativeCountTable(nodes: seq<Element>, n: int, draw: (string, Element, int) -> Result<seq<string>, string>)
    requires n < 0
    ensures VarTable(nodes, n, draw).Success? ==>
      forall k :: 0 <= k < |nodes| ==> Get(nodes[k], "type") in {Some("normal"), Some("uniform")}
  {
    VarTableSucceeds(nodes, n, draw);
  }

  /** The loop of `run` over the children of the `vars` node. */
  method CollectVars(nodes: seq<Element>, n: int, draw: (string, Element, int) -> Result<seq<string>, string>)
    returns (r: Result<RawTable, string>)
    ensures r == VarTable(nodes, n, draw)
  {
    var table: RawTable := map[];
    var i := 0;
    while i < |nodes|
      invariant 0 <= i <= |nodes|
      invariant VarTable(nodes[..i], n, draw) == Success(table)
    {
      assert nodes[..i + 1][..i] == nodes[..i];
      var v := GenerateVar(nodes[i], n, draw);
      if v.Failure? {
        assert nodes[..i + 1][..i] == nodes[..i];
        VarTableFailurePersists(nodes, i + 1, n, draw);
        return Failure(v.error);
      }
      table := table[Get(nodes[i], "id") := v.value];
      i := i + 1;
    }
    assert nodes[..i] == nodes;
    r := Success(table);
  }

  /** Once a prefix fails, so does the whole list. */
  lemma {:induction false} VarTableFailurePersists(nodes: seq<Element>, i: nat, n: int, draw: (string, Element, int) -> Result<seq<string>, string>)
    requires i <= |nodes|
    requires VarTable(nodes[..i], n, draw).Failure?
    ensures VarTable(nodes, n, draw) == VarTable(nodes[..i], n, draw)
    decreases |nodes| - i
  {
    if i < |nodes| {
      assert nodes[..i + 1][..i] == nodes[..i];
      VarTableFailurePersists(nodes, i + 1, n, draw);
    } else {
      assert nodes[..i] == nodes;
    }
  }

  // ---------------------------------------------------------------------------
  // Names

  /** Python's `str` of a natural number: decimal digits, no leading zero. */
  function NatToString(n: nat): (s: string)
    ensures |s| >= 1
    ensures forall k :: 0 <= k < |s| ==> '0' <= s[k] <= '9'
    ensures s[0] == '0' ==> n == 0
    decreases n
  {
    if n < 10 then [Digit(n)] else NatToString(n / 10) + [Digit(n % 10)]
  }

  function Digit(d: nat): (c: char)
    requires d < 10
    ensures '0' <= c <= '9' && c as int - '0' as int == d
  {
    ('0' as int + d) as char
  }

  /** The number a string of decimal digits denotes. */
  function ParseNat(s: string): nat
    requires forall k :: 0 <= k < |s| ==> '0' <= s[k] <= '9'
  {
    if s == [] then 0 else ParseNat(s[..|s| - 1]) * 10 + (s[|s| - 1] as int - '0' as int)
  }

  /** Reading back the decimal text of n gives n. */
  lemma {:induction false} ParseNatToString(n: nat)
    ensures ParseNat(NatToString(n)) == n
    decreases n
  {
    if n >= 10 {
      ParseNatToString(n / 10);
      var s := NatToString(n);
      assert s[..|s| - 1] == NatToString(n / 10);
    }
  }

  /** Different numbers have different decimal texts. */
  lemma NatToStringInjective(i: nat, j: nat)
    requires NatToString(i) == NatToString(j)
    ensures i == j
  {
    ParseNatToString(i);
    ParseNatToString(j);
  }

  /** The file revision i is written to: inpDir + nwName + "_rev" + str(i) + ".xml". */
  function RevisionFileName(inpDir: string, nwName: string, i: nat): (f: string)
    ensures |f| > |inpDir| + |nwName| + 8 && f[..|inpDir| + |nwName|] == inpDir + nwName
    ensures f[|f| - 4..] == ".xml"
  {
    inpDir + nwName + "_rev" + NatToString(i) + ".xml"
  }

  /** The output name passed for revision i: o + "_rev" + str(i) when `-o` was given non-empty. */
  function RevisionOutputName(o: Option<string>, i: nat): (r: Option<string>)
    ensures r.Some? <==> o.Some? && o.value != ""
    ensures r.Some? ==> |r.value| > |o.value| + 4 && r.value[..|o.value| + 4] == o.value + "_rev"
  {
    if o.Some? && o.value != "" then Some(o.value + "_rev" + NatToString(i)) else None
  }

  /** Two revisions never share an input file, nor an output name. */
  lemma RevisionNamesDistinct(inpDir: string, nwName: string, o: Option<string>, i: nat, j: nat)
    requires i != j
    ensures RevisionFileName(inpDir, nwName, i) != RevisionFileName(inpDir, nwName, j)
    ensures RevisionOutputName(o, i).Some? ==> RevisionOutputName(o, i) != RevisionOutputName(o, j)
  {
    DecimalsDiffer(inpDir + nwName + "_rev", i, j, ".xml");
    if o.Some? && o.value != "" {
      var q := o.value + "_rev";
      DecimalsDiffer(q, i, j, []);
      assert q + NatToString(i) + [] == q + NatToString(i) && q + NatToString(j) + [] == q + NatToString(j);
    }
  }

  /** Two different numbers between the same texts give different texts. */
  lemma DecimalsDiffer(p: string, i: nat, j: nat, t: string)
    requires i != j
    ensures p + NatToString(i) + t != p + NatToString(j) + t
  {
    if p + NatToString(i) + t == p + NatToString(j) + t {
      DecimalInside(p, i, j, t);
    }
  }

  /** The same text before and after two decimal numbers leaves them equal. */
  lemma DecimalInside(p: string, i: nat, j: nat, t: string)
    requires p + NatToString(i) + t == p + NatToString(j) + t
    ensures i == j
  {
    var si, sj := NatToString(i), NatToString(j);
    assert |si| == |sj|;
    assert si == (p + si + t)[|p|..|p| + |si|];
    assert sj == (p + sj + t)[|p|..|p| + |sj|];
    NatToStringInjective(i, j);
  }

  /** The index of the last c in s, or -1. */
  function LastIndex(s: string, c: char): (k: int)
    ensures -1 <= k < |s|
    ensures k >= 0 ==> s[k] == c
    ensures forall m :: k < m < |s| ==> s[m] != c
    decreases |s|
  {
    if s == [] then -1
    else if s[|s| - 1] == c then |s| - 1
    else LastIndex(s[..|s| - 1], c)
  }

  /** The index of the first c in s, or |s|. */
  function FirstIndex(s: string, c: char): (k: nat)
    ensures k <= |s|
    ensures k < |s| ==> s[k] == c
    ensures forall m :: 0 <= m < k ==> s[m] != c
    decreases |s|
  {
    if s == [] then 0
    else if s[0] == c then 0
    else 1 + FirstIndex(s[1..], c)
  }

  /** `str.split(s, c)[-1]`: what follows the last c (all of s when there is none). */
  function AfterLast(s: string, c: char): (r: string)
    ensures c !in r
    ensures |r| <= |s| && r == s[|s| - |r|..]
    ensures |r| < |s| ==> s[|s| - |r| - 1] == c
  {
    var k := LastIndex(s, c);
    s[k + 1..]
  }

  /** `str.split(s, c)[0]`: what precedes the first c (all of s when there is none). */
  function BeforeFirst(s: string, c: char): (r: string)
    ensures c !in r
    ensures |r| <= |s| && r == s[..|r|]
    ensures |r| < |s| ==> s[|r|] == c
  {
    s[..FirstIndex(s, c)]
  }

  /** `nwName`: the last path component of the template's file name, up to its first '.'. */
  function BaseName(fname: string): (r: string)
    ensures '/' !in r && '.' !in r
  {
    BeforeFirst(AfterLast(fname, '/'), '.')
  }

  /** The template name "dir/name.ext" gives "name". */
  lemma BaseNameOf(dir: string, name: string, ext: string)
    requires '/' !in name && '.' !in name && '/' !in ext
    ensures BaseName(dir + "/" + name + "." + ext) == name
  {
    var f := dir + "/" + name + "." + ext;
    var last := name + "." + ext;
    assert f[|dir| + 1..] == last;
    AfterLastIs(f, '/', |dir| + 1);
    assert last[..|name|] == name;
    BeforeFirstIs(last, '.', |name|);
  }

  /** When s[m..] has no c and c stands just before m, the last component starts at m. */
  lemma AfterLastIs(s: string, c: char, m: nat)
    requires m <= |s| && c !in s[m..] && (m > 0 ==> s[m - 1] == c)
    ensures AfterLast(s, c) == s[m..]
  {
  }

  /** When s[..m] has no c and c stands at m (or m is the end), the first component ends at m. */
  lemma BeforeFirstIs(s: string, c: char, m: nat)
    requires m <= |s| && c !in s[..m] && (m < |s| ==> s[m] == c)
    ensures BeforeFirst(s, c) == s[..m]
  {
  }

  /** Python's `rstrip('/')`. */
  function StripSlashes(h: string): (r: string)
    ensures |r| <= |h| && r == h[..|r|]
    ensures forall k :: |r| <= k < |h| ==> h[k] == '/'
    ensures r == [] || r[|r| - 1] != '/'
    decreases |h|
  {
    if h == [] || h[|h| - 1] != '/' then h else StripSlashes(h[..|h| - 1])
  }

  /** Only slashes, as in "/" or "//". */
  predicate AllSlashes(h: string) {
    forall k :: 0 <= k < |h| ==> h[k] == '/'
  }

  /** What precedes the last component: up to and including the last '/'. */
  function Head(p: string): (h: string)
    ensures |h| <= |p| && h == p[..|h|]
    ensures h == [] <==> '/' !in p
    ensures h != [] ==> h[|h| - 1] == '/'
  {
    var r := AfterLast(p, '/');
    HeadShape(p);
    p[..|p| - |r|]
  }

  /**
   * `os.path.dirname` on POSIX: everything up to the last '/', with trailing
   * slashes removed unless it consists of slashes only.
   */
  function DirName(p: string): string {
    var head := Head(p);
    if head != [] && !AllSlashes(head) then StripSlashes(head) else head
  }

  /** The sub-directory the revision files go to. */
  const OutputSubdir: string := "variation_output/"

  /** `os.path.join(d, b)` for a b that does not start with '/'. */
  function Join(d: string, b: string): (p: string)
    ensures |p| >= |d| + |b| && p[..|d|] == d && p[|p| - |b|..] == b
    ensures d != [] ==> p[|p| - |b| - 1] == '/'
  {
    if d == [] || d[|d| - 1] == '/' then d + b else d + "/" + b
  }

  /** `os.path.join(os.path.dirname(fname), "variation_output/")`: the revision files' directory. */
  function InputDir(fname: string): (d: string)
    ensures |d| >= |OutputSubdir| && d[|d| - |OutputSubdir|..] == OutputSubdir
  {
    Join(DirName(fname), OutputSubdir)
  }

  /** What precedes the last component is empty exactly when there is no '/', and otherwise ends with one. */
  lemma HeadShape(p: string)
    ensures var h := p[..|p| - |AfterLast(p, '/')|];
      (h == [] <==> '/' !in p) && (h != [] ==> h[|h| - 1] == '/')
  {
    var r := AfterLast(p, '/');
    var i := |p| - |r|;
    if i > 0 {
      assert p[i - 1] in p;
    }
  }

  /**
   * The revision directory is "variation_output/" under a prefix of the
   * template's name that ends with '/', and under nothing exactly when the
   * name has no '/'.
   */
  lemma InputDirShape(fname: string)
    ensures exists m ::
      0 <= m <= |fname| && InputDir(fname) == fname[..m] + OutputSubdir &&
      (m == 0 <==> '/' !in fname) && (m > 0 ==> fname[m - 1] == '/')
  {
    var head := Head(fname);
    if head != [] && !AllSlashes(head) {
      var d := StripSlashes(head);
      var q := |d|;
      var k :| 0 <= k < |head| && head[k] != '/';
      assert k < q < |head|;
      assert fname[q] == head[q] == '/';
      assert fname[..q + 1] == d + "/";
      assert InputDir(fname) == fname[..q + 1] + OutputSubdir;
    } else {
      assert InputDir(fname) == fname[..|head|] + OutputSubdir;
    }
  }

  // ---------------------------------------------------------------------------
  // executePipeline and run

  /**
   * What one revision leaves behind: the file written, the rewritten tree in
   * it, and the output name handed to the library (None when none was given).
   * The library is then run on that file.
   */
  datatype Revision = Revision(file: string, document: Element, outputName: Option<string>)

  /** The index of the first child with the tag: `Element.find(tag)`. */
  function FindChild(cs: seq<Element>, tag: string): (r: Option<nat>)
    ensures r.Some? ==> r.value < |cs| && cs[r.value].tag == tag && forall k :: 0 <= k < r.value ==> cs[k].tag != tag
    ensures r.None? ==> forall k :: 0 <= k < |cs| ==> cs[k].tag != tag
    decreases |cs|
  {
    if cs == [] then None
    else if cs[0].tag == tag then Some(0)
    else
      var r := FindChild(cs[1..], tag);
      if r.None? then None else Some(r.value + 1)
  }

  /** The copy a revision edits: the template without its first `vars` child. */
  function Template(tree: Element): (t: Element)
    ensures t.tag == tree.tag && t.attrib == tree.attrib
    ensures FindChild(tree.children, "vars").None? ==> t == tree
    ensures FindChild(tree.children, "vars").Some? ==>
      var k := FindChild(tree.children, "vars").value;
      t.children == tree.children[..k] + tree.children[k + 1..]
  {
    var k := FindChild(tree.children, "vars");
    if k.None? then tree else tree.(children := tree.children[..k.value] + tree.children[k.value + 1..])
  }

  /** Only the first `vars` child goes: a second one stays in every revision. */
  lemma SecondVarsKept(tree: Element, k: nat)
    requires 0 <= k < |tree.children| && tree.children[k].tag == "vars"
    requires exists m :: 0 <= m < k && tree.children[m].tag == "vars"
    ensures tree.children[k] in Template(tree).children
  {
    var f := FindChild(tree.children, "vars").value;
    assert f < k;
    assert Template(tree).children[k - 1] == tree.children[k];
  }

  /** The length of Python's `range(n)`. */
  function RangeLength(n: int): nat {
    if n < 0 then 0 else n
  }

  /**
   * `executePipeline`: revision i (for i below n) is the template without
   * `vars`, substituted for index i, written to its revision file with its
   * output name. The template itself is never edited, so every revision starts
   * from the same tree. A failed lookup raises and stops the loop: the
   * revisions before it have been written and run. A negative n, like 0,
   * runs no revision.
   */
  method ExecutePipeline(n: int, tree: Element, inpDir: string, nwName: string, vars: VarDict, o: Option<string>)
    returns (runs: seq<Revision>, error: Option<string>)
    ensures |runs| <= RangeLength(n)
    ensures error.None? ==> |runs| == RangeLength(n)
    ensures error.Some? ==> |runs| < n && FindVar(Template(tree), |runs|, vars) == Failure(error.value)
    ensures forall i :: 0 <= i < |runs| ==>
      runs[i].file == RevisionFileName(inpDir, nwName, i) &&
      runs[i].outputName == RevisionOutputName(o, i) &&
      FindVar(Template(tree), i, vars) == Success(runs[i].document)
  {
    runs := [];
    var i := 0;
    while i < n
      invariant 0 <= i <= RangeLength(n) && |runs| == i
      invariant forall k :: 0 <= k < i ==>
        runs[k].file == RevisionFileName(inpDir, nwName, k) &&
        runs[k].outputName == RevisionOutputName(o, k) &&
        FindVar(Template(tree), k, vars) == Success(runs[k].document)
    {
      var copy := Template(tree);
      var doc := FindVar(copy, i, vars);
      if doc.Failure? {
        return runs, Some(doc.error);
      }
      var tmpName := inpDir + nwName + "_rev" + NatToString(i) + ".xml";
      runs := runs + [Revision(tmpName, doc.value, RevisionOutputName(o, i))];
      i := i + 1;
    }
    error := None;
  }

  /**
   * `run` after argument parsing: with a `vars` child, every variable is
   * generated for n revisions and the dependency solver turns the table into
   * the dictionary; without one, a single revision runs with no variables.
   * A generation error aborts before any revision.
   */
  method Run(fname: string, o: Option<string>, n: int, tree: Element,
             draw: (string, Element, int) -> Result<seq<string>, string>,
             solve: (RawTable, int) -> VarDict)
    returns (runs: seq<Revision>, error: Option<string>)
    ensures FindChild(tree.children, "vars").Some? ==>
      var table := VarTable(tree.children[FindChild(tree.children, "vars").value].children, n, draw);
      (table.Failure? ==> runs == [] && error == Some(table.error)) &&
      (table.Success? ==>
        |runs| <= RangeLength(n) && (error.None? ==> |runs| == RangeLength(n)) &&
        (error.Some? ==> FindVar(Template(tree), |runs|, solve(table.value, n)) == Failure(error.value)) &&
        forall i :: 0 <= i < |runs| ==>
          runs[i].file == RevisionFileName(InputDir(fname), BaseName(fname), i) &&
          runs[i].outputName == RevisionOutputName(o, i) &&
          FindVar(Template(tree), i, solve(table.value, n)) == Success(runs[i].document))
    ensures FindChild(tree.children, "vars").None? ==>
      |runs| <= 1 && (error.None? ==> |runs| == 1) &&
      (error.Some? ==> runs == [] && FindVar(tree, 0, map[]) == Failure(error.value)) &&
      forall i :: 0 <= i < |runs| ==>
        runs[i].file == RevisionFileName(InputDir(fname), BaseName(fname), i) &&
        runs[i].outputName == RevisionOutputName(o, i) &&
        FindVar(tree, i, map[]) == Success(runs[i].document)
  {
    var nwName := BaseName(fname);
    var inpDir := InputDir(fname);
    var varsNode := FindChild(tree.children, "vars");
    var varDict: VarDict := map[];
    var count := n;
    if varsNode.Some? {
      var table := CollectVars(tree.children[varsNode.value].children, n, draw);
      if table.Failure? {
        return [], Some(table.error);
      }
      varDict := solve(table.value, n);
    } else {
      count := 1;
    }
    runs, error := ExecutePipeline(count, tree, inpDir, nwName, varDict, o);
  }
}
