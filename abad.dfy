/** The tree-walking evaluator (abad.go): it dispatches on the AST node kind against
    one global object, a flat property map that also serves as the variable
    environment. */
module Interpreter {
  import opened Utf16
  import opened Wrappers
  import opened Types
  import opened Ast
  import Token

  /** The errors the evaluator reports (the original formats them as messages). */
  datatype Error =
    | NotDefined(name: Str)                    // "<name> is not defined"
    | NotANumber(operand: Option<Value>)       // "not a number: <operand>" (None is Go's nil)
    | NotAFunction(kind: Kind)                 // "<kind> is not a function"
    | UnsupportedUnaryOperator(operator: Token.Type)
    | Foreign(message: string)                 // an error returned by the parser or a builtin

  /** The situations in which the original panics, or calls code this model does not
      contain; evaluation stops there. */
  datatype Unimplemented =
    | NodeNotImplemented(node: Node)           // eval of a node that is no expression and no Program
    | NotAnExpression(node: Node)              // evalExpr of a non-expression node
    | UnreachableNode(node: Node)              // evalExpr of a String, Bool, Null or Undefined literal
    | WrappingPrimitive(kind: Kind)            // member access on a primitive value
    | PrimitiveToObject(kind: Kind)            // ToObject of a primitive callee (package types)

  /** The outcome of one evaluation step: a value, an error, or a stop at an
      unimplemented construct. It is failure-compatible, so `:-` returns early on
      the first error, like the original's `if err != nil { return nil, err }`. */
  datatype Outcome<+T> = Done(value: T) | Failed(error: Error) | Unsupported(what: Unimplemented) {

    predicate IsFailure() {
      !Done?
    }

    function PropagateFailure<U>(): (r: Outcome<U>)
      requires !Done?
      ensures !r.Done?
    {
      if Failed? then Failed(error) else Unsupported(what)
    }

    function Extract(): T
      requires Done?
    {
      value
    }
  }

  /** A result returned by a collaborator: the parser or the console builtin. */
  datatype Result<+T> = Ok(value: T) | Err(error: Error)

  /** Function.Call: invoked with the function object, the receiver and the argument
      values. Builtins are outside this model, so callers supply it. */
  type Invoke = (Object, Object, seq<Value>) -> Value

  /** parser.Parse: filename and source text to a Program, or a diagnostic. */
  type Parser = (string, string) -> Result<ProgramNode>

  /** "console", the name of the builtin in the global object. */
  const ConsoleAttr: Str := S("console")

  /** The value a program left behind, lifted to an Option (None for Go's nil). */
  function Lift(r: Outcome<Value>): Outcome<Option<Value>>
  {
    var v :- r;
    Done(Some(v))
  }

  /** The interpreter: its file name and its global object. */
  class Abad {
    var filename: string
    var global: map<Str, Value>

    /** The struct literal `&Abad{filename: filename}`, before setup. Its nil global
        object is modelled as the empty property map. */
    constructor Init(filename: string)
      ensures this.filename == filename && global == map[]
    {
      this.filename := filename;
      global := map[];
    }

    /** setup: a fresh global object holding the console builtin, or the error
        that creating the console returned (the global object is then left as it was). */
    method Setup(console: Result<Value>) returns (err: Option<Error>)
      modifies this
      ensures filename == old(filename)
      ensures console.Err? ==> err == Some(console.error) && global == old(global)
      ensures console.Ok? ==> err == None && global == map[ConsoleAttr := console.value]
    {
      if console.Err? {
        return Some(console.error);
      }
      var g: map<Str, Value> := map[];
      g := Put(g, ConsoleAttr, console.value);
      global := g;
      return None;
    }

    /** NewAbad: an interpreter whose global object holds the console, or the error of setup. */
    static method NewAbad(filename: string, console: Result<Value>) returns (a: Abad?, err: Option<Error>)
      ensures console.Err? ==> a == null && err == Some(console.error)
      ensures console.Ok? ==> err == None && a != null && fresh(a) && a.filename == filename
      ensures console.Ok? ==> a != null && a.global == map[ConsoleAttr := console.value]
    {
      var interp := new Abad.Init(filename);
      err := interp.Setup(console);
      if err.Some? {
        return null, err;
      }
      return interp, None;
    }

    // -------------------------------------------------------------------------
    // Pure dispatch

    /** eval: an expression is evaluated as such, a Program statement by statement. */
    function EvalNode(n: Node, call: Invoke): (r: Outcome<Option<Value>>)
      reads this
      decreases n, 2
    {
      if n.IsExpr() then Lift(EvalExpr(n, call))
      else if n.Program? then ProgramOutcome(n.nodes, call)
      else Unsupported(NodeNotImplemented(n))
    }

    /** What evalProgram computes: the statements run in order, each result replaces
        the previous one, and the first failure ends the run. */
    function RunFrom(nodes: seq<Node>, result: Option<Value>, call: Invoke): Outcome<Option<Value>>
      reads this
      decreases nodes, 0
    {
      if nodes == [] then Done(result)
      else
        var v :- EvalNode(nodes[0], call);
        RunFrom(nodes[1..], v, call)
    }

    /** The outcome of evalProgram on the statements `nodes` (starting from Go's nil result). */
    function ProgramOutcome(nodes: seq<Node>, call: Invoke): Outcome<Option<Value>>
      reads this
      decreases nodes, 1
    {
      RunFrom(nodes, None, call)
    }

    /** evalExpr: dispatch on the expression kind. */
    function EvalExpr(n: Node, call: Invoke): Outcome<Value>
      reads this
      decreases n, 1
    {
      if !n.IsExpr() then Unsupported(NotAnExpression(n))
      else
        match n
        case NumberLit(v) => Done(NumberValue(v))
        case Ident(_) => EvalIdentExpr(n)
        case MemberExpr(_, _) => EvalMemberExpr(n, call)
        case CallExpr(_, _) => EvalCallExpr(n, call)
        case UnaryExpr(_, _) => EvalUnaryExpr(n, call)
        case _ => Unsupported(UnreachableNode(n))
    }

    /** evalUnaryExpr: the operand must evaluate to a Number; `-` negates it, `+` keeps it. */
    function EvalUnaryExpr(n: Node, call: Invoke): Outcome<Value>
      requires n.UnaryExpr?
      reads this
      decreases n, 0
    {
      var obj :- EvalNode(n.operand, call);
      if obj.Some? && obj.value.NumberValue? then
        if n.operator == Token.Minus then Done(NumberValue(-obj.value.number))
        else if n.operator == Token.Plus then Done(NumberValue(obj.value.number))
        else Failed(UnsupportedUnaryOperator(n.operator))
      else Failed(NotANumber(obj))
    }

    /** evalIdentExpr: look the name up in the global object; Undefined means unbound. */
    function EvalIdentExpr(n: Node): (r: Outcome<Value>)
      requires n.Ident?
      reads this
      ensures r.Failed? <==> Get(global, n.name) == Undefined
      ensures r.Failed? ==> r.error == NotDefined(n.name)
      ensures r.Done? ==> n.name in global && r.value == global[n.name]
      ensures !r.Unsupported?
    {
      var val := Get(global, n.name);
      if val.Undefined? then Failed(NotDefined(n.name)) else Done(val)
    }

    /** evalMemberExpr: the object must evaluate to an Object; its property is looked
        up (Undefined when absent). */
    function EvalMemberExpr(n: Node, call: Invoke): Outcome<Value>
      requires n.MemberExpr?
      reads this
      decreases n, 0
    {
      var objval :- EvalExpr(n.obj, call);
      if objval.Kind() != KindObject then Unsupported(WrappingPrimitive(objval.Kind()))
      else Done(Get(objval.obj.properties, n.property))
    }

    /** evalCallExpr: the callee must be a Function; only then are the arguments
        evaluated, and the function is called with itself as receiver. */
    function EvalCallExpr(n: Node, call: Invoke): Outcome<Value>
      requires n.CallExpr?
      reads this
      decreases n, 0
    {
      var objval :- EvalExpr(n.callee, call);
      if !objval.ObjectValue? then Unsupported(PrimitiveToObject(objval.Kind()))
      else if !objval.obj.callable then Failed(NotAFunction(objval.Kind()))
      else
        var args :- ArgValues(n.args, call);
        Done(call(objval.obj, objval.obj, args))
    }

    /** What evalArgs computes: the argument values left to right, or the first failure. */
    function ArgValues(args: seq<Node>, call: Invoke): (r: Outcome<seq<Value>>)
      reads this
      decreases args
      ensures r.Done? <==> forall i :: 0 <= i < |args| ==> EvalExpr(args[i], call).Done?
      ensures r.Done? ==> |r.value| == |args|
      ensures r.Done? ==> forall i :: 0 <= i < |args| ==> EvalExpr(args[i], call) == Done(r.value[i])
      ensures !r.Done? ==> exists k :: 0 <= k < |args| && !EvalExpr(args[k], call).Done? &&
                                       r == EvalExpr(args[k], call).PropagateFailure() &&
                                       forall i :: 0 <= i < k ==> EvalExpr(args[i], call).Done?
    {
      if args == [] then Done([])
      else
        var v :- EvalExpr(args[0], call);
        var rest :- ArgValues(args[1..], call);
        Done([v] + rest)
    }
  
    // -------------------------------------------------------------------------
    // The loops

    /** Eval: parse the code and evaluate the program; a parse error is returned
        unchanged and nothing is evaluated. */
    method Eval(code: string, parse: Parser, call: Invoke) returns (r: Outcome<Option<Value>>)
      ensures parse(filename, code).Err? ==> r == Failed(parse(filename, code).error)
      ensures parse(filename, code).Ok? ==> r == ProgramOutcome(parse(filename, code).value.nodes, call)
    {
      var parsed := parse(filename, code);
      if parsed.Err? {
        return Failed(parsed.error);
      }
      r := EvalProgram(parsed.value, call);
    }

    /** evalProgram: run the statements in order, keep the last result, and return
        the first failure at once. */
    method EvalProgram(stmts: ProgramNode, call: Invoke) returns (r: Outcome<Option<Value>>)
      ensures r == ProgramOutcome(stmts.nodes, call)
      ensures r == EvalNode(stmts, call)
    {
      var result: Option<Value> := None;
      var i := 0;
      while i < |stmts.nodes|
        invariant i <= |stmts.nodes|
        invariant ProgramOutcome(stmts.nodes, call) == RunFrom(stmts.nodes[i..], result, call)
      {
        assert stmts.nodes[i..][1..] == stmts.nodes[i + 1..];
        var o := EvalNode(stmts.nodes[i], call);
        if !o.Done? {
          return o.PropagateFailure();
        }
        result := o.value;
        i := i + 1;
      }
      return Done(result);
    }

    /** evalArgs: evaluate the arguments left to right, appending each value, and
        return the first failure at once. */
    method EvalArgs(args: seq<Node>, call: Invoke) returns (r: Outcome<seq<Value>>)
      ensures r == ArgValues(args, call)
    {
      var vargs: seq<Value> := [];
      for i := 0 to |args|
        invariant |vargs| == i
        invariant forall j :: 0 <= j < i ==> EvalExpr(args[j], call) == Done(vargs[j])
      {
        var v := EvalExpr(args[i], call);
        if !v.Done? {
          return v.PropagateFailure();
        }
        vargs := vargs + [v.value];
      }
      var spec := ArgValues(args, call);
      assert spec.Done? && |spec.value| == |vargs|;
      assert forall j :: 0 <= j < |vargs| ==> spec.value[j] == vargs[j];
      assert spec.value == vargs;
      return Done(vargs);
    }
  }
}
