/** Properties of the evaluator: last-statement value, first-error-aborts,
    identifier lookup, unary operators, member access and calls. */
module InterpreterProperties {
  import opened Utf16
  import opened Wrappers
  import opened Types
  import opened Ast
  import opened Interpreter
  import Token

  // ---------------------------------------------------------------------------
  // Programs

  lemma {:induction false} RunFromAllDone(a: Abad, nodes: seq<Node>, result: Option<Value>, call: Invoke)
    requires forall i :: 0 <= i < |nodes| ==> a.EvalNode(nodes[i], call).Done?
    ensures a.RunFrom(nodes, result, call) ==
            Done(if nodes == [] then result else a.EvalNode(nodes[|nodes| - 1], call).value)
  {
    if nodes != [] {
      RunFromAllDone(a, nodes[1..], a.EvalNode(nodes[0], call).value, call);
    }
  }

  /** A program whose statements all succeed yields the value of its last statement
      (Go's nil, None, for the empty program). */
  lemma ProgramValueIsLastStatement(a: Abad, nodes: seq<Node>, call: Invoke)
    requires forall i :: 0 <= i < |nodes| ==> a.EvalNode(nodes[i], call).Done?
    ensures a.ProgramOutcome(nodes, call) ==
            Done(if nodes == [] then None else a.EvalNode(nodes[|nodes| - 1], call).value)
  {
    RunFromAllDone(a, nodes, None, call);
  }

  lemma {:induction false} RunFromFirstFailure(a: Abad, nodes: seq<Node>, result: Option<Value>, k: nat, call: Invoke)
    requires k < |nodes|
    requires forall i :: 0 <= i < k ==> a.EvalNode(nodes[i], call).Done?
    requires !a.EvalNode(nodes[k], call).Done?
    ensures a.RunFrom(nodes, result, call) == a.EvalNode(nodes[k], call).PropagateFailure()
  {
    if k > 0 {
      RunFromFirstFailure(a, nodes[1..], a.EvalNode(nodes[0], call).value, k - 1, call);
    }
  }

  /** The first failing statement decides the program's outcome, whatever statements
      follow it: they are never evaluated. */
  lemma FirstStatementFailureAborts(a: Abad, nodes: seq<Node>, k: nat, later: seq<Node>, call: Invoke)
    requires k < |nodes|
    requires forall i :: 0 <= i < k ==> a.EvalNode(nodes[i], call).Done?
    requires !a.EvalNode(nodes[k], call).Done?
    ensures a.ProgramOutcome(nodes, call) == a.EvalNode(nodes[k], call).PropagateFailure()
    ensures a.ProgramOutcome(nodes[..k + 1] + later, call) == a.ProgramOutcome(nodes, call)
  {
    RunFromFirstFailure(a, nodes, None, k, call);
    var cut := nodes[..k + 1] + later;
    assert forall i :: 0 <= i <= k ==> cut[i] == nodes[i];
    RunFromFirstFailure(a, cut, None, k, call);
  }

  lemma {:induction false} RunFromDoneIff(a: Abad, nodes: seq<Node>, result: Option<Value>, call: Invoke)
    ensures a.RunFrom(nodes, result, call).Done? <==>
            forall i :: 0 <= i < |nodes| ==> a.EvalNode(nodes[i], call).Done?
  {
    if nodes != [] {
      var o := a.EvalNode(nodes[0], call);
      if o.Done? {
        RunFromDoneIff(a, nodes[1..], o.value, call);
        assert forall i :: 1 <= i < |nodes| ==> nodes[i] == nodes[1..][i - 1];
      }
    }
  }

  /** A program succeeds exactly when every one of its statements does. */
  lemma ProgramSucceedsIffEveryStatementDoes(a: Abad, nodes: seq<Node>, call: Invoke)
    ensures a.ProgramOutcome(nodes, call).Done? <==>
            forall i :: 0 <= i < |nodes| ==> a.EvalNode(nodes[i], call).Done?
  {
    RunFromDoneIff(a, nodes, None, call);
  }

  // ---------------------------------------------------------------------------
  // Identifiers

  /** A number literal evaluates to that Number, and never fails. */
  lemma NumberLiteralValue(a: Abad, v: Number, call: Invoke)
    ensures a.EvalExpr(NumberLit(v), call) == Done(NumberValue(v))
  {
  }

  /** An identifier is an error exactly when the global lookup gives Undefined
      (absent, or bound to Undefined); otherwise it is the stored value. */
  lemma IdentifierLookup(a: Abad, name: Str, call: Invoke)
    ensures name !in a.global || a.global[name] == Undefined ==>
              a.EvalExpr(Ident(name), call) == Failed(NotDefined(name))
    ensures name in a.global && a.global[name] != Undefined ==>
              a.EvalExpr(Ident(name), call) == Done(a.global[name])
  {
  }

  /** Right after setup the name `console` evaluates to the console builtin. */
  lemma ConsoleIsBound(a: Abad, console: Value, call: Invoke)
    requires a.global == map[ConsoleAttr := console]
    requires console != Undefined
    ensures a.EvalExpr(Ident(ConsoleAttr), call) == Done(console)
  {
  }

  // ---------------------------------------------------------------------------
  // Unary expressions

  /** A failure of the operand is the failure of the unary expression. */
  lemma UnaryOperandFailurePropagates(a: Abad, op: Token.Type, e: Node, call: Invoke)
    requires !a.EvalNode(e, call).Done?
    ensures a.EvalExpr(UnaryExpr(op, e), call) == a.EvalNode(e, call).PropagateFailure()
  {
  }

  /** An operand that is not a Number fails with "not a number", whatever the operator. */
  lemma UnaryNonNumberFails(a: Abad, op: Token.Type, e: Node, call: Invoke)
    requires a.EvalNode(e, call).Done?
    requires var v := a.EvalNode(e, call).value; !(v.Some? && v.value.NumberValue?)
    ensures a.EvalExpr(UnaryExpr(op, e), call) == Failed(NotANumber(a.EvalNode(e, call).value))
  {
  }

  /** On a Number, `+` is the identity, `-` the negation, and every other
      operator an error. */
  lemma UnaryOnNumber(a: Abad, op: Token.Type, e: Node, x: Number, call: Invoke)
    requires a.EvalNode(e, call) == Done(Some(NumberValue(x)))
    ensures op == Token.Plus ==> a.EvalExpr(UnaryExpr(op, e), call) == Done(NumberValue(x))
    ensures op == Token.Minus ==> a.EvalExpr(UnaryExpr(op, e), call) == Done(NumberValue(-x))
    ensures op != Token.Plus && op != Token.Minus ==>
              a.EvalExpr(UnaryExpr(op, e), call) == Failed(UnsupportedUnaryOperator(op))
  {
  }

  /** The nested unary expression `ops[0] ops[1] ... e`, as the parser builds `-+-+0`. */
  function SignChain(ops: seq<Token.Type>, e: Node): (n: Node)
    ensures ops != [] ==> n.UnaryExpr? && n.operator == ops[0]
  {
    if ops == [] then e else UnaryExpr(ops[0], SignChain(ops[1..], e))
  }

  /** The number of `-` operators among `ops`. */
  function Minuses(ops: seq<Token.Type>): nat {
    if ops == [] then 0 else (if ops[0] == Token.Minus then 1 else 0) + Minuses(ops[1..])
  }

  /** A chain of signs over a Number negates it once per `-`: `-+-+0` is 0 and
      `--x` is x. */
  lemma {:induction false} SignChainValue(a: Abad, ops: seq<Token.Type>, e: Node, x: Number, call: Invoke)
    requires forall i :: 0 <= i < |ops| ==> ops[i] == Token.Plus || ops[i] == Token.Minus
    requires a.EvalNode(e, call) == Done(Some(NumberValue(x)))
    ensures a.EvalNode(SignChain(ops, e), call) ==
            Done(Some(NumberValue(if Minuses(ops) % 2 == 0 then x else -x)))
  {
    if ops != [] {
      SignChainValue(a, ops[1..], e, x, call);
      var inner := SignChain(ops[1..], e);
      var y := if Minuses(ops[1..]) % 2 == 0 then x else -x;
      assert a.EvalNode(inner, call) == Done(Some(NumberValue(y)));
      UnaryOnNumber(a, ops[0], inner, y, call);
    }
  }

  // ---------------------------------------------------------------------------
  // Member access

  /** A member of an Object is its stored property, Undefined (not an error) when absent. */
  lemma MemberOfObject(a: Abad, target: Node, property: Str, o: Object, call: Invoke)
    requires a.EvalExpr(target, call) == Done(ObjectValue(o))
    ensures property in o.properties ==>
              a.EvalExpr(MemberExpr(target, property), call) == Done(o.properties[property])
    ensures property !in o.properties ==>
              a.EvalExpr(MemberExpr(target, property), call) == Done(Undefined)
  {
  }

  /** A failure of the object expression is the failure of the member access. */
  lemma MemberTargetFailurePropagates(a: Abad, target: Node, property: Str, call: Invoke)
    requires !a.EvalExpr(target, call).Done?
    ensures a.EvalExpr(MemberExpr(target, property), call) == a.EvalExpr(target, call).PropagateFailure()
  {
  }

  // ---------------------------------------------------------------------------
  // Calls

  /** A callee that is an Object without the Function capability fails with
      "object is not a function", whatever the arguments (they are not evaluated). */
  lemma NonFunctionCalleeFails(a: Abad, callee: Node, args: seq<Node>, o: Object, call: Invoke)
    requires a.EvalExpr(callee, call) == Done(ObjectValue(o))
    requires !o.callable
    ensures a.EvalExpr(CallExpr(callee, args), call) == Failed(NotAFunction(KindObject))
  {
  }

  /** A failure of the callee is the failure of the call. */
  lemma CalleeFailurePropagates(a: Abad, callee: Node, args: seq<Node>, call: Invoke)
    requires !a.EvalExpr(callee, call).Done?
    ensures a.EvalExpr(CallExpr(callee, args), call) == a.EvalExpr(callee, call).PropagateFailure()
  {
  }

  /** A Function callee is called with itself as receiver and with the argument
      values in the order of the argument nodes. */
  lemma CallWithCalleeAsReceiver(a: Abad, callee: Node, args: seq<Node>, f: Object, call: Invoke)
    requires a.EvalExpr(callee, call) == Done(ObjectValue(f))
    requires f.callable
    requires forall i :: 0 <= i < |args| ==> a.EvalExpr(args[i], call).Done?
    ensures exists vals: seq<Value> ::
              |vals| == |args| &&
              (forall i :: 0 <= i < |args| ==> a.EvalExpr(args[i], call) == Done(vals[i])) &&
              a.EvalExpr(CallExpr(callee, args), call) == Done(call(f, f, vals))
  {
    var vals := a.ArgValues(args, call).value;
    assert a.EvalExpr(CallExpr(callee, args), call) == Done(call(f, f, vals));
  }

  /** With a Function callee, the first failing argument ends the call before the
      function is invoked. */
  lemma ArgumentFailureAbortsCall(a: Abad, callee: Node, args: seq<Node>, f: Object, k: nat,
                                  call: Invoke)
    requires a.EvalExpr(callee, call) == Done(ObjectValue(f)) && f.callable
    requires k < |args|
    requires forall i :: 0 <= i < k ==> a.EvalExpr(args[i], call).Done?
    requires !a.EvalExpr(args[k], call).Done?
    ensures a.EvalExpr(CallExpr(callee, args), call) == a.EvalExpr(args[k], call).PropagateFailure()
  {
    var r := a.ArgValues(args, call);
    assert !r.Done?;
    var j :| 0 <= j < |args| && !a.EvalExpr(args[j], call).Done? &&
             r == a.EvalExpr(args[j], call).PropagateFailure() &&
             forall i :: 0 <= i < j ==> a.EvalExpr(args[i], call).Done?;
    assert j == k;
  }
}
