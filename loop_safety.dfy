/**
 * The loop-safety analyzer of services/LoopSafetyAnalyzer.ts.
 *
 * acorn's syntax tree is replaced by the datatype `Node`, which keeps the node
 * kinds the analyzer inspects and folds every other kind into `Other`; a parse
 * failure is the `None` case of the parser's result. `Walk` is the order in
 * which `walkAST` hands nodes to its visitor; the visitors' side effects (the
 * `hasExit` flag, the `dangerousLoops` array) are the loops of the methods
 * `ContainsBreakOrReturn` and `AnalyzeLoopSafety`, proved against the
 * specification functions `HasExit` and `Reports`.
 */
module LoopSafety {
  import opened Wrappers
  import opened Js

  /**
   * A syntax-tree node. Children appear in acorn's key order, which is the
   * order `walkAST` visits them. `line` is `loc.start.line` when present.
   * Location metadata (`loc`, `range`) is not a child: the walker skips it.
   */
  datatype Node =
    | WhileStatement(line: Option<nat>, test: Node, body: Node)
    | ForStatement(line: Option<nat>, init: Option<Node>, forTest: Option<Node>, update: Option<Node>, body: Node)
    | DoWhileStatement(line: Option<nat>, body: Node, test: Node)
    | Literal(value: JsValue)
    | Identifier(name: string)
    | UnaryExpression(operator: string, argument: Node)
    | BreakStatement(target: Option<Node>)
    | ReturnStatement(returned: Option<Node>)
    | Other(kind: OtherKind, children: seq<Node>)

  /** The node types that have constructors of their own never appear as `Other`. */
  type OtherKind = k: string |
    && k != "WhileStatement" && k != "ForStatement" && k != "DoWhileStatement"
    && k != "Literal" && k != "Identifier" && k != "UnaryExpression"
    && k != "BreakStatement" && k != "ReturnStatement"
    witness "Program"

  datatype LoopReport = LoopReport(line: nat, loopType: string, reason: string)

  datatype LoopSafetyResult = LoopSafetyResult(safe: bool, error: Option<string>, dangerousLoops: seq<LoopReport>)

  // ---------------------------------------------------------------------------
  // walkAST: the pre-order visit sequence
  // ---------------------------------------------------------------------------

  /** The nodes `walkAST(n, visitor)` passes to `visitor`, in order. */
  function Walk(n: Node): (r: seq<Node>)
    ensures |r| >= 1 && r[0] == n
    decreases n, 1
  {
    match n
    case WhileStatement(_, t, b) => [n] + Walk(t) + Walk(b)
    case ForStatement(_, i, t, u, b) => [n] + WalkOpt(i) + WalkOpt(t) + WalkOpt(u) + Walk(b)
    case DoWhileStatement(_, b, t) => [n] + Walk(b) + Walk(t)
    case Literal(_) => [n]
    case Identifier(_) => [n]
    case UnaryExpression(_, a) => [n] + Walk(a)
    case BreakStatement(l) => [n] + WalkOpt(l)
    case ReturnStatement(a) => [n] + WalkOpt(a)
    case Other(_, cs) => [n] + WalkList(cs)
  }

  /** A missing child (`null`) is not visited. */
  function WalkOpt(o: Option<Node>): seq<Node>
    decreases o
  {
    match o
    case None => []
    case Some(c) => Walk(c)
  }

  /** An array child: its elements are walked in index order. */
  function WalkList(cs: seq<Node>): seq<Node>
    decreases cs
  {
    if cs == [] then [] else Walk(cs[0]) + WalkList(cs[1..])
  }

  /** The direct children of a node, in visit order. */
  function Children(n: Node): seq<Node> {
    match n
    case WhileStatement(_, t, b) => [t, b]
    case ForStatement(_, i, t, u, b) => OptSeq(i) + OptSeq(t) + OptSeq(u) + [b]
    case DoWhileStatement(_, b, t) => [b, t]
    case Literal(_) => []
    case Identifier(_) => []
    case UnaryExpression(_, a) => [a]
    case BreakStatement(l) => OptSeq(l)
    case ReturnStatement(a) => OptSeq(a)
    case Other(_, cs) => cs
  }

  function OptSeq(o: Option<Node>): seq<Node> {
    match o
    case None => []
    case Some(c) => [c]
  }

  // ---------------------------------------------------------------------------
  // containsBreakOrReturn
  // ---------------------------------------------------------------------------

  predicate IsExit(n: Node) {
    n.BreakStatement? || n.ReturnStatement?
  }

  /** Some node the walker visits under `body` is a `break` or a `return`. */
  predicate HasExit(body: Node) {
    exists i :: 0 <= i < |Walk(body)| && IsExit(Walk(body)[i])
  }

  /** The walker with the `hasExit` visitor: the flag is set iff some visited node exits. */
  method ContainsBreakOrReturn(body: Node) returns (hasExit: bool)
    ensures hasExit <==> HasExit(body)
  {
    var nodes := Walk(body);
    hasExit := false;
    var i := 0;
    while i < |nodes|
      invariant 0 <= i <= |nodes|
      invariant hasExit <==> exists j :: 0 <= j < i && IsExit(nodes[j])
    {
      if IsExit(nodes[i]) {
        hasExit := true;
      }
      i := i + 1;
    }
  }

  // ---------------------------------------------------------------------------
  // isAlwaysTruthy
  // ---------------------------------------------------------------------------

  /** A truthy literal, the identifier `true`, or `!` applied to a falsy literal. */
  predicate IsAlwaysTruthy(test: Node) {
    match test
    case Literal(v) => Truthy(v)
    case Identifier(name) => name == "true"
    case UnaryExpression(op, arg) => op == "!" && arg.Literal? && !Truthy(arg.value)
    case _ => false
  }

  /**
   * The value of a loop condition built from literals, identifiers and `!`,
   * with `env` giving the identifiers' values (`true` is the keyword);
   * `None` for any other expression.
   */
  function EvalCondition(e: Node, env: string -> JsValue): Option<JsValue> {
    match e
    case Literal(v) => Some(v)
    case Identifier(name) => if name == "true" then Some(Bool(true)) else Some(env(name))
    case UnaryExpression(op, arg) =>
      if op != "!" then None
      else (match EvalCondition(arg, env)
            case Some(v) => Some(Bool(!Truthy(v)))
            case None => None)
    case _ => None
  }

  // ---------------------------------------------------------------------------
  // The analyzer's visitor
  // ---------------------------------------------------------------------------

  /** The visitor's verdict on one node: a loop that cannot end by its test and has no exit. */
  predicate IsDangerous(n: Node)
    ensures IsDangerous(n) ==> n.WhileStatement? || n.ForStatement? || n.DoWhileStatement?
  {
    match n
    case WhileStatement(_, t, b) => IsAlwaysTruthy(t) && !HasExit(b)
    case ForStatement(_, _, t, _, b) => (t.None? || IsAlwaysTruthy(t.value)) && !HasExit(b)
    case DoWhileStatement(_, b, t) => IsAlwaysTruthy(t) && !HasExit(b)
    case _ => false
  }

  /** `node.loc?.start.line || 0`. */
  function LineOf(line: Option<nat>): nat {
    line.GetOr(0)
  }

  const WHILE_REASON := "Infinite while loop detected (condition always true, no break/return)"
  const FOR_REASON := "Infinite for loop detected (no exit condition or always true, no break/return)"
  const DO_WHILE_REASON := "Infinite do-while loop detected (condition always true, no break/return)"

  /** The entry pushed for a loop node. */
  function ReportOf(n: Node): LoopReport
    requires n.WhileStatement? || n.ForStatement? || n.DoWhileStatement?
  {
    match n
    case WhileStatement(l, _, _) => LoopReport(LineOf(l), "while", WHILE_REASON)
    case ForStatement(l, _, _, _, _) => LoopReport(LineOf(l), "for", FOR_REASON)
    case DoWhileStatement(l, _, _) => LoopReport(LineOf(l), "do-while", DO_WHILE_REASON)
  }

  /** The reports for the dangerous nodes of a visit sequence, in visit order. */
  function Reports(nodes: seq<Node>): seq<LoopReport> {
    if nodes == [] then []
    else (if IsDangerous(nodes[0]) then [ReportOf(nodes[0])] else []) + Reports(nodes[1..])
  }

  // ---------------------------------------------------------------------------
  // The error message
  // ---------------------------------------------------------------------------

  function DigitChar(d: nat): (c: char)
    requires d < 10
    ensures '0' <= c <= '9'
  {
    "0123456789"[d]
  }

  /** The value of a decimal digit character. */
  function DigitValue(c: char): nat
    requires '0' <= c <= '9'
  {
    c as int - '0' as int
  }

  /** The number a string of decimal digits denotes, most significant digit first. */
  function DecimalValue(s: string): nat
    requires forall i :: 0 <= i < |s| ==> '0' <= s[i] <= '9'
  {
    if s == [] then 0 else 10 * DecimalValue(s[..|s| - 1]) + DigitValue(s[|s| - 1])
  }

  /**
   * Decimal rendering of a line number, as in a template literal: digits
   * only, no leading zero, denoting `n`.
   */
  function NatToString(n: nat): (s: string)
    ensures |s| >= 1
    ensures forall i :: 0 <= i < |s| ==> '0' <= s[i] <= '9'
    ensures |s| > 1 ==> s[0] != '0'
    ensures DecimalValue(s) == n
    decreases n
  {
    if n < 10 then [DigitChar(n)]
    else
      var prefix := NatToString(n / 10);
      var s := prefix + [DigitChar(n % 10)];
      assert s[..|s| - 1] == prefix;
      s
  }

  function ReportLine(r: LoopReport): string {
    "Line " + NatToString(r.line) + ": " + r.reason
  }

  /** `reports.map(ReportLine).join('\n')`. */
  function JoinLines(reports: seq<LoopReport>): string {
    if reports == [] then ""
    else if |reports| == 1 then ReportLine(reports[0])
    else ReportLine(reports[0]) + "\n" + JoinLines(reports[1..])
  }

  const ERROR_HEADER := "\U{1F6AB} INFINITE LOOP DETECTED\n\n"
  const ERROR_FOOTER := "\n\nFix: Add a break statement or return inside the loop."

  function ErrorText(reports: seq<LoopReport>): string {
    ERROR_HEADER + JoinLines(reports) + ERROR_FOOTER
  }

  /**
   * The result `analyzeLoopSafety` returns for acorn's parse result `parsed`
   * (`None` when acorn throws).
   */
  function Analysis(parsed: Option<Node>): (r: LoopSafetyResult)
    ensures r.safe <==> r.dangerousLoops == []
    ensures r.safe <==> r.error.None?
    ensures !r.safe ==> r.error == Some(ErrorText(r.dangerousLoops))
    ensures parsed.None? ==> r.safe
  {
    match parsed
    case None => LoopSafetyResult(true, None, [])
    case Some(root) =>
      var loops := Reports(Walk(root));
      if |loops| > 0 then LoopSafetyResult(false, Some(ErrorText(loops)), loops)
      else LoopSafetyResult(true, None, [])
  }

  /** The analyzer's visitor applied to one node: the report it pushes, if any. */
  method VisitLoop(node: Node) returns (report: Option<LoopReport>)
    ensures IsDangerous(node) ==> report == Some(ReportOf(node))
    ensures !IsDangerous(node) ==> report == None
  {
    report := None;
    match node {
      case WhileStatement(_, test, body) =>
        var hasBreak := ContainsBreakOrReturn(body);
        var alwaysTrue := IsAlwaysTruthy(test);
        if alwaysTrue && !hasBreak {
          report := Some(ReportOf(node));
        }
      case ForStatement(_, _, test, _, body) =>
        var hasBreak := ContainsBreakOrReturn(body);
        var noTest := test.None?;
        var alwaysTrue := test.Some? && IsAlwaysTruthy(test.value);
        if (noTest || alwaysTrue) && !hasBreak {
          report := Some(ReportOf(node));
        }
      case DoWhileStatement(_, body, test) =>
        var hasBreak := ContainsBreakOrReturn(body);
        var alwaysTrue := IsAlwaysTruthy(test);
        if alwaysTrue && !hasBreak {
          report := Some(ReportOf(node));
        }
      case _ =>
    }
  }

  /** `analyzeLoopSafety`: walks the tree, pushing a report for every dangerous loop. */
  method AnalyzeLoopSafety(parsed: Option<Node>) returns (r: LoopSafetyResult)
    ensures r == Analysis(parsed)
    ensures parsed.None? ==> r == LoopSafetyResult(true, None, [])
    ensures r.safe <==> r.dangerousLoops == []
    ensures r.safe ==> r.error == None
    ensures !r.safe ==> r.error == Some(ErrorText(r.dangerousLoops))
  {
    if parsed.None? {
      return LoopSafetyResult(true, None, []);
    }
    var nodes := Walk(parsed.value);
    var dangerousLoops: seq<LoopReport> := [];
    var i := 0;
    while i < |nodes|
      invariant 0 <= i <= |nodes|
      invariant dangerousLoops + Reports(nodes[i..]) == Reports(nodes)
    {
      assert nodes[i..] == [nodes[i]] + nodes[i + 1..];
      var report := VisitLoop(nodes[i]);
      if report.Some? {
        dangerousLoops := dangerousLoops + [report.value];
      }
      i := i + 1;
    }
    assert nodes[|nodes|..] == [];
    assert dangerousLoops == Reports(nodes);
    if |dangerousLoops| > 0 {
      r := LoopSafetyResult(false, Some(ErrorText(dangerousLoops)), dangerousLoops);
    } else {
      r := LoopSafetyResult(true, None, []);
    }
  }

  // ---------------------------------------------------------------------------
  // Properties
  // ---------------------------------------------------------------------------

  /** A node visited under an array child is visited under one of its elements. */
  lemma {:induction false} WalkListMembers(cs: seq<Node>, m: Node)
    ensures m in WalkList(cs) <==> exists i :: 0 <= i < |cs| && m in Walk(cs[i])
    decreases cs
  {
    if cs != [] {
      WalkListMembers(cs[1..], m);
      if m in WalkList(cs[1..]) {
        var i :| 0 <= i < |cs[1..]| && m in Walk(cs[1..][i]);
        assert m in Walk(cs[i + 1]);
      }
      forall i | 0 < i < |cs| && m in Walk(cs[i])
        ensures m in WalkList(cs[1..])
      {
        assert cs[i] == cs[1..][i - 1];
      }
    }
  }

  lemma {:induction false} WalkListAppend(xs: seq<Node>, ys: seq<Node>)
    ensures WalkList(xs + ys) == WalkList(xs) + WalkList(ys)
    decreases xs
  {
    if xs == [] {
      assert xs + ys == ys;
    } else {
      assert (xs + ys)[0] == xs[0];
      assert (xs + ys)[1..] == xs[1..] + ys;
      WalkListAppend(xs[1..], ys);
    }
  }

  lemma WalkListSingle(c: Node)
    ensures WalkList([c]) == Walk(c)
  {
    assert [c][1..] == [];
  }

  lemma WalkListOpt(o: Option<Node>)
    ensures WalkList(OptSeq(o)) == WalkOpt(o)
  {
    if o.Some? {
      WalkListSingle(o.value);
    }
  }

  lemma WalkListForChildren(i: Option<Node>, t: Option<Node>, u: Option<Node>, b: Node)
    ensures WalkList(OptSeq(i) + OptSeq(t) + OptSeq(u) + [b]) == WalkOpt(i) + WalkOpt(t) + WalkOpt(u) + Walk(b)
  {
    WalkListAppend(OptSeq(i) + OptSeq(t) + OptSeq(u), [b]);
    WalkListAppend(OptSeq(i) + OptSeq(t), OptSeq(u));
    WalkListAppend(OptSeq(i), OptSeq(t));
    WalkListOpt(i);
    WalkListOpt(t);
    WalkListOpt(u);
    WalkListSingle(b);
  }

  lemma WalkListPair(x: Node, y: Node)
    ensures WalkList([x, y]) == Walk(x) + Walk(y)
  {
    assert [x, y] == [x] + [y];
    WalkListAppend([x], [y]);
    WalkListSingle(x);
    WalkListSingle(y);
  }

  lemma {:induction false} PreorderLoop(n: Node)
    requires n.WhileStatement? || n.ForStatement? || n.DoWhileStatement?
    ensures Walk(n) == [n] + WalkList(Children(n))
  {
    match n
    case WhileStatement(_, t, b) =>
      WalkListPair(t, b);
    case ForStatement(_, i, t, u, b) =>
      WalkListForChildren(i, t, u, b);
    case DoWhileStatement(_, b, t) =>
      WalkListPair(b, t);
  }

  lemma {:induction false} PreorderOther(n: Node)
    requires !(n.WhileStatement? || n.ForStatement? || n.DoWhileStatement?)
    ensures Walk(n) == [n] + WalkList(Children(n))
  {
    match n
    case Literal(_) =>
    case Identifier(_) =>
    case UnaryExpression(_, a) =>
      WalkListSingle(a);
    case BreakStatement(l) =>
      WalkListOpt(l);
    case ReturnStatement(a) =>
      WalkListOpt(a);
    case Other(_, cs) =>
  }

  /** `walkAST` visits a node before its children, and each child's subtree in key order. */
  lemma WalkIsPreorder(n: Node)
    ensures Walk(n) == [n] + WalkList(Children(n))
  {
    if n.WhileStatement? || n.ForStatement? || n.DoWhileStatement? {
      PreorderLoop(n);
    } else {
      PreorderOther(n);
    }
  }

  /** The walker visits a node, then exactly the nodes visited under its children. */
  lemma WalkMembers(n: Node, m: Node)
    ensures m in Walk(n) <==> m == n || exists i :: 0 <= i < |Children(n)| && m in Walk(Children(n)[i])
  {
    WalkIsPreorder(n);
    WalkListMembers(Children(n), m);
  }

  /** A node visited under a visited node is visited: `walkAST` reaches every depth. */
  lemma {:induction false} WalkTransitive(n: Node, c: Node, m: Node)
    requires c in Walk(n) && m in Walk(c)
    ensures m in Walk(n)
    decreases n
  {
    if c != n {
      WalkMembers(n, c);
      var i :| 0 <= i < |Children(n)| && c in Walk(Children(n)[i]);
      ChildSmaller(n, i);
      WalkTransitive(Children(n)[i], c, m);
      WalkMembers(n, m);
    }
  }

  lemma ChildSmaller(n: Node, i: nat)
    requires i < |Children(n)|
    ensures Children(n)[i] < n
  {
    match n
    case ForStatement(_, init, t, u, b) =>
      var cs := Children(n);
      assert cs[i] in OptSeq(init) || cs[i] in OptSeq(t) || cs[i] in OptSeq(u) || cs[i] == b by {
        assert cs[i] in cs;
      }
    case _ =>
  }

  /**
   * The exit search covers the whole body subtree: a `break` that belongs to a
   * nested loop, or a `return` inside a nested function, still counts as an
   * exit of the outer loop.
   */
  lemma NestedExitExempts(body: Node, inner: Node)
    requires inner in Walk(body) && HasExit(inner)
    ensures HasExit(body)
  {
    var i :| 0 <= i < |Walk(inner)| && IsExit(Walk(inner)[i]);
    WalkTransitive(body, inner, Walk(inner)[i]);
    var j :| 0 <= j < |Walk(body)| && Walk(body)[j] == Walk(inner)[i];
  }

  /** A visit sequence has reports exactly when one of its nodes is dangerous. */
  lemma {:induction false} ReportsNonEmpty(nodes: seq<Node>)
    ensures |Reports(nodes)| > 0 <==> exists k :: 0 <= k < |nodes| && IsDangerous(nodes[k])
    decreases nodes
  {
    if nodes != [] {
      ReportsNonEmpty(nodes[1..]);
      if exists k :: 1 <= k < |nodes| && IsDangerous(nodes[k]) {
        var k :| 1 <= k < |nodes| && IsDangerous(nodes[k]);
        assert nodes[k] == nodes[1..][k - 1];
      }
      if exists k :: 0 <= k < |nodes[1..]| && IsDangerous(nodes[1..][k]) {
        var k :| 0 <= k < |nodes[1..]| && IsDangerous(nodes[1..][k]);
        assert nodes[1..][k] == nodes[k + 1];
      }
    }
  }

  /** Every dangerous node of a visit sequence has its report. */
  lemma {:induction false} ReportsCoverDangerous(nodes: seq<Node>)
    ensures forall k :: 0 <= k < |nodes| && IsDangerous(nodes[k]) ==> ReportOf(nodes[k]) in Reports(nodes)
    decreases nodes
  {
    if nodes != [] {
      ReportsCoverDangerous(nodes[1..]);
      forall k | 1 <= k < |nodes| && IsDangerous(nodes[k])
        ensures ReportOf(nodes[k]) in Reports(nodes)
      {
        assert nodes[k] == nodes[1..][k - 1];
      }
    }
  }

  /**
   * The analysis fails iff some loop anywhere in the tree is dangerous, and
   * then every dangerous loop, nested ones included, has its entry.
   */
  lemma AnalysisReportsEveryDangerousLoop(root: Node)
    ensures !Analysis(Some(root)).safe <==> exists m :: m in Walk(root) && IsDangerous(m)
    ensures forall m :: m in Walk(root) && IsDangerous(m) ==> ReportOf(m) in Analysis(Some(root)).dangerousLoops
  {
    var nodes := Walk(root);
    ReportsNonEmpty(nodes);
    ReportsCoverDangerous(nodes);
    if exists m :: m in nodes && IsDangerous(m) {
      var m :| m in nodes && IsDangerous(m);
      var k :| 0 <= k < |nodes| && nodes[k] == m;
    }
    forall m | m in nodes && IsDangerous(m)
      ensures ReportOf(m) in Analysis(Some(root)).dangerousLoops
    {
      var k :| 0 <= k < |nodes| && nodes[k] == m;
    }
  }

  /** Source that acorn cannot parse is passed on as safe, with no error and no loops. */
  lemma ParseFailureIsSafe()
    ensures Analysis(None) == LoopSafetyResult(true, None, [])
  {
  }

  /** Whatever the identifiers hold, a condition `IsAlwaysTruthy` accepts evaluates truthy. */
  lemma IsAlwaysTruthySound(test: Node, env: string -> JsValue)
    requires IsAlwaysTruthy(test)
    ensures EvalCondition(test, env).Some? && Truthy(EvalCondition(test, env).value)
  {
  }

  /** `while (true) { while (x) { break; } }`: the inner break exempts the outer loop. */
  lemma InnerBreakExemptsOuterWhile(x: string)
    ensures !IsDangerous(WhileStatement(Some(1), Literal(Bool(true)),
              Other("BlockStatement", [WhileStatement(Some(2), Identifier(x), BreakStatement(None))])))
  {
    var inner := WhileStatement(Some(2), Identifier(x), BreakStatement(None));
    var body := Other("BlockStatement", [inner]);
    assert Walk(inner)[2] == BreakStatement(None);
    assert inner in Walk(body);
    NestedExitExempts(body, inner);
  }

  /** `for (;;) {}` on line 3 is reported with its line and kind. */
  lemma EmptyForIsReported()
    ensures Analysis(Some(ForStatement(Some(3), None, None, None, Other("BlockStatement", []))))
            == LoopSafetyResult(false, Some(ErrorText([LoopReport(3, "for", FOR_REASON)])), [LoopReport(3, "for", FOR_REASON)])
  {
    var body := Other("BlockStatement", []);
    assert Walk(body) == [body];
    assert !HasExit(body);
    var loop := ForStatement(Some(3), None, None, None, body);
    assert Walk(loop) == [loop, body];
    assert Reports([body]) == [];
  }
}
