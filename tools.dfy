/** Tools and the tool registry. A tool has a name and a description and turns
    keyword arguments into a ToolResult; it may also raise, which the model
    represents as an Execution that carries the exception's message. */
module Tools {
  import opened Common

  /** The keyword arguments of a tool call */
  type Params = map<string, Value>

  datatype ToolResult = ToolResult(
    success: bool,
    output: Option<Value>,
    error: Option<string>,
    metadata: map<string, Value>)

  function Success(output: Value): ToolResult {
    ToolResult(true, Some(output), None, map[])
  }

  function Failure(error: string): ToolResult {
    ToolResult(false, None, Some(error), map[])
  }

  /** The result contract: a success carries no error; a failure carries an error and no output */
  predicate WellFormed(r: ToolResult) {
    if r.success then r.error.None? else r.error.Some? && r.output.None?
  }

  /** What calling a tool does: return a result, or raise an exception with a message */
  datatype Execution = Returned(result: ToolResult) | Raised(message: string)

  /** The built-in tools, and any other tool given by its name, description and behaviour */
  datatype Tool =
    | Echo
    | Calculator
    | Custom(customName: string, customDescription: string, behaviour: Params -> Execution)
  {
    function Name(): string {
      match this
      case Echo => "echo"
      case Calculator => "calculator"
      case Custom(n, _, _) => n
    }

    function Description(): string {
      match this
      case Echo => "Echoes back the provided message"
      case Calculator => "Performs basic arithmetic operations (add, subtract, multiply, divide)"
      case Custom(_, d, _) => d
    }
  }

  /** The echo tool: its `message` argument, "" when absent, comes back as the output */
  function EchoExecute(params: Params): (r: ToolResult)
    ensures WellFormed(r) && r.success
    ensures "message" in params ==> r.output == Some(params["message"])
    ensures "message" !in params ==> r.output == Some(Str(""))
  {
    Success(if "message" in params then params["message"] else Str(""))
  }

  const DivisionByZero := "Division by zero"

  /** The calculator on integer operands */
  function Calculate(operation: string, a: int, b: int): (r: ToolResult)
    ensures WellFormed(r) && r.metadata == map[]
    ensures r.success <==> operation in {"add", "subtract", "multiply"} || (operation == "divide" && b != 0)
    ensures operation == "add" ==> r.output == Some(Int(a + b))
    ensures operation == "subtract" ==> r.output == Some(Int(a - b))
    ensures operation == "multiply" ==> r.output == Some(Int(a * b))
    ensures operation == "divide" && b != 0 ==> r.output == Some(Quotient(a, b))
    ensures operation == "divide" && b == 0 ==> r.error == Some(DivisionByZero)
    ensures operation !in {"add", "subtract", "multiply", "divide"} ==>
              r.error == Some("Unknown operation: " + operation)
  {
    if operation == "add" then Success(Int(a + b))
    else if operation == "subtract" then Success(Int(a - b))
    else if operation == "multiply" then Success(Int(a * b))
    else if operation == "divide" then
      if b == 0 then Failure(DivisionByZero) else Success(Quotient(a, b))
    else Failure("Unknown operation: " + operation)
  }

  const OperandError := "unsupported operand types"

  /** A value Python compares equal to 0 */
  predicate IsZero(v: Value) {
    v == Int(0) || (v.Quotient? && v.num == 0 && v.den != 0)
  }

  /** The calculator called with keyword arguments. A missing argument raises before
      the tool runs; arithmetic on operands that are not both integers is outside the
      model and gives a failed result. */
  function CalculatorExecute(params: Params): (r: Execution)
    ensures r.Raised? <==> !("operation" in params && "a" in params && "b" in params)
    ensures r.Returned? ==> WellFormed(r.result)
    ensures r.Returned? && params["operation"].Str? && params["a"].Int? && params["b"].Int? ==>
              r.result == Calculate(params["operation"].s, params["a"].i, params["b"].i)
    ensures r.Returned? && !params["operation"].Str? ==>
              r.result == Failure("Unknown operation: " + Show(params["operation"]))
  {
    if "operation" !in params then Raised("missing required argument: 'operation'")
    else if "a" !in params then Raised("missing required argument: 'a'")
    else if "b" !in params then Raised("missing required argument: 'b'")
    else
      var op, a, b := params["operation"], params["a"], params["b"];
      if !op.Str? || op.s !in {"add", "subtract", "multiply", "divide"} then
        Returned(Failure("Unknown operation: " + Show(op)))
      else if op.s == "divide" && IsZero(b) then Returned(Failure(DivisionByZero))
      else if a.Int? && b.Int? then Returned(Calculate(op.s, a.i, b.i))
      else Returned(Failure(OperandError))
  }

  /** Calling `tool.execute(**params)`; the built-in tools keep the result contract */
  function Execute(tool: Tool, params: Params): (r: Execution)
    ensures (tool.Echo? || tool.Calculator?) && r.Returned? ==> WellFormed(r.result)
    ensures tool.Echo? ==> r.Returned? && r.result.success
  {
    match tool
    case Echo => Returned(EchoExecute(params))
    case Calculator => CalculatorExecute(params)
    case Custom(_, _, behaviour) => behaviour(params)
  }

  /** The registry: a dictionary from names to tools. `names` is the dictionary's
      key order, the order in which names were first registered. */
  class ToolRegistry {
    var names: seq<string>
    var tools: map<string, Tool>

    ghost predicate Valid()
      reads this
    {
      (forall i, j :: 0 <= i < j < |names| ==> names[i] != names[j]) &&
      (forall n :: n in tools <==> n in names) &&
      (forall n :: n in tools ==> tools[n].Name() == n)
    }

    constructor ()
      ensures Valid() && names == [] && tools == map[]
    {
      names, tools := [], map[];
    }

    /** Adds the tool under its name; a name registered before keeps its place */
    method Register(tool: Tool)
      requires Valid()
      modifies this
      ensures Valid()
      ensures tools == old(tools)[tool.Name() := tool]
      ensures names == if tool.Name() in old(tools) then old(names) else old(names) + [tool.Name()]
      ensures Get(tool.Name()) == Some(tool)
      ensures forall n :: n != tool.Name() ==> Get(n) == old(Get(n))
    {
      if tool.Name() !in tools {
        names := names + [tool.Name()];
      }
      tools := tools[tool.Name() := tool];
    }

    /** The tool registered under `name`, None when there is none */
    function Get(name: string): (r: Option<Tool>)
      reads this
      requires Valid()
      ensures r.Some? <==> name in names
      ensures r.Some? ==> r.value.Name() == name
    {
      if name in tools then Some(tools[name]) else None
    }

    /** The registered names, each once, in first-registration order */
    function ListTools(): (r: seq<string>)
      reads this
      requires Valid()
      ensures r == names
      ensures forall i, j :: 0 <= i < j < |r| ==> r[i] != r[j]
      ensures forall n :: n in r <==> Get(n).Some?
    {
      names
    }

    /** A snapshot of the name-to-tool mapping: a map value, so changing it cannot change the registry */
    function GetAllTools(): (r: map<string, Tool>)
      reads this
      requires Valid()
      ensures forall n :: n in r <==> Get(n).Some?
      ensures forall n :: n in r ==> Get(n) == Some(r[n])
    {
      tools
    }
  }
}
