/** The agent's tools (ai-engine/src/tools.ts): the mock leave-balance lookup,
    the registry of tool implementations with its metadata, and the dispatcher
    that runs a requested tool by name. */
module Tools {
  import opened Common

  datatype LeaveBalance = LeaveBalance(sickLeave: int, vacationLeave: int, personalLeave: int, totalUsed: int)

  const DefaultUser := "default"

  /** The mock HR table, keyed by user id. */
  const MockBalances: map<string, LeaveBalance> := map[
    "default" := LeaveBalance(10, 15, 5, 25),
    "user123" := LeaveBalance(8, 12, 3, 32),
    "user456" := LeaveBalance(15, 20, 7, 13)
  ]

  predicate NonNegative(b: LeaveBalance) {
    b.sickLeave >= 0 && b.vacationLeave >= 0 && b.personalLeave >= 0 && b.totalUsed >= 0
  }

  /** What `mockBalances[userId] || mockBalances['default']` yields. The table
      is a plain object literal, so a key it inherits from `Object.prototype`
      finds that inherited member (a function, or the prototype object itself
      for `__proto__`); the member is truthy and is returned as it is. */
  datatype BalanceData = Record(balance: LeaveBalance) | InheritedMember(key: string)

  /** `checkLeaveBalance(userId)`: the record stored for the id, the inherited
      member for an `Object.prototype` key, or the `default` record for any
      other id. */
  function CheckLeaveBalance(userId: string): (r: BalanceData)
    ensures userId == "user123" ==> r == Record(LeaveBalance(8, 12, 3, 32))
    ensures userId == "user456" ==> r == Record(LeaveBalance(15, 20, 7, 13))
    ensures r.InheritedMember? <==> userId in ObjectPrototypeKeys
    ensures r.InheritedMember? ==> r.key == userId
    ensures userId != "user123" && userId != "user456" && userId !in ObjectPrototypeKeys ==>
      r == Record(LeaveBalance(10, 15, 5, 25))
    ensures r.Record? ==> NonNegative(r.balance)
  {
    if userId in MockBalances then Record(MockBalances[userId])
    else if userId in ObjectPrototypeKeys then InheritedMember(userId)
    else Record(MockBalances[DefaultUser])
  }

  /** Every record of the mock table is non-negative, and the `default` one is
      sick 10, vacation 15, personal 5, used 25. */
  lemma MockBalancesNonNegative()
    ensures forall u | u in MockBalances :: NonNegative(MockBalances[u])
    ensures MockBalances[DefaultUser] == LeaveBalance(10, 15, 5, 25)
  {
  }

  /** `JSON.stringify(balance, null, 2)`. */
  function BalanceJson(b: LeaveBalance): string {
    "{\n  \"sickLeave\": " + ShowInt(b.sickLeave)
    + ",\n  \"vacationLeave\": " + ShowInt(b.vacationLeave)
    + ",\n  \"personalLeave\": " + ShowInt(b.personalLeave)
    + ",\n  \"totalUsed\": " + ShowInt(b.totalUsed) + "\n}"
  }

  /** `JSON.stringify(data, null, 2)` as a template literal prints it: the
      record's JSON; `{}` for `Object.prototype`, which has no own enumerable
      property; `undefined` for an inherited function, which `JSON.stringify`
      does not serialize. */
  function BalanceDataJson(d: BalanceData): string {
    match d
    case Record(b) => BalanceJson(b)
    case InheritedMember(k) => if k == "__proto__" then "{}" else "undefined"
  }

  // ---------------------------------------------------------------- registry

  /** The closed set of tool implementations. */
  datatype ToolId = CheckLeaveBalanceTool

  const CheckLeaveBalanceName := "checkLeaveBalance"

  /** `AVAILABLE_TOOLS`. */
  const AvailableTools: map<string, ToolId> := map[CheckLeaveBalanceName := CheckLeaveBalanceTool]

  datatype ParameterSpec = ParameterSpec(name: string, typeName: string, description: string, required: bool)

  datatype ToolDefinition = ToolDefinition(name: string, description: string, parameters: seq<ParameterSpec>)

  /** `TOOL_DEFINITIONS`. */
  const ToolDefinitions: seq<ToolDefinition> := [
    ToolDefinition(
      CheckLeaveBalanceName,
      "Checks the leave balance (sick, vacation, personal) for a specific user",
      [ParameterSpec("userId", "string", "The user ID to check balance for", true)])
  ]

  /** The registry holds exactly the one tool the metadata describes. */
  lemma RegistryMatchesDefinitions()
    ensures AvailableTools.Keys == (set d | d in ToolDefinitions :: d.name) == {CheckLeaveBalanceName}
    ensures |ToolDefinitions| == 1
  {
    assert ToolDefinitions[0] in ToolDefinitions;
  }

  /** A tool call: the name, the argument values in the order `Object.values`
      enumerates them (each as the property key it converts to) and, once it
      has run, the result. */
  datatype ToolCall = ToolCall(toolName: string, arguments: seq<(string, string)>, result: Option<BalanceData>)

  datatype ToolError =
    | ToolNotFound(message: string)
    | ToolFailed(cause: Thrown)

  /** What `executeTool` ends in: the value the tool resolves to, an error it
      throws, or a call of a member `AVAILABLE_TOOLS` inherits from
      `Object.prototype` with the argument values; what that built-in does
      with them is not modelled. */
  datatype ToolOutcome =
    | Resolved(value: BalanceData)
    | Threw(error: ToolError)
    | InheritedCalled(name: string, values: seq<string>)

  /** The values of the arguments, in order. */
  function ArgumentValues(args: seq<(string, string)>): (vs: seq<string>)
    ensures |vs| == |args|
    ensures forall i | 0 <= i < |args| :: vs[i] == args[i].1
  {
    if |args| == 0 then [] else [args[0].1] + ArgumentValues(args[1..])
  }

  /** Runs a registered tool on positional arguments; `fault` is an exception the
      tool raises while it runs. A missing first argument is `undefined`, whose
      property key is the text "undefined". */
  function Apply(tool: ToolId, values: seq<string>, fault: Option<Thrown>): Result<BalanceData, Thrown> {
    match fault
    case Some(e) => Err(e)
    case None =>
      match tool
      case CheckLeaveBalanceTool => Ok(CheckLeaveBalance(if |values| > 0 then values[0] else "undefined"))
  }

  /** The `TypeError` raised by calling a value that is not a function. */
  function NotAFunction(): Thrown {
    ErrorValue("tool is not a function", None, NoDetails)
  }

  /** `executeTool(toolCall)`. `AVAILABLE_TOOLS` is a plain object literal: an
      `Object.prototype` key is found there, so it is not "not found";
      `__proto__` finds the prototype object, which is not callable. */
  function ExecuteTool(call: ToolCall, fault: Option<Thrown>): (r: ToolOutcome)
    ensures r.Threw? && r.error.ToolNotFound? <==>
      call.toolName != CheckLeaveBalanceName && call.toolName !in ObjectPrototypeKeys
    ensures r.Threw? && r.error.ToolNotFound? ==> r.error.message == "Tool '" + call.toolName + "' not found"
    ensures call.toolName == "__proto__" ==> r == Threw(ToolFailed(NotAFunction()))
    ensures r.InheritedCalled? <==> call.toolName in ObjectPrototypeKeys && call.toolName != "__proto__"
    ensures r.InheritedCalled? ==> r.name == call.toolName && r.values == ArgumentValues(call.arguments)
    ensures call.toolName == CheckLeaveBalanceName ==>
      match fault
      case Some(e) => r == Threw(ToolFailed(e))
      case None =>
        r.Resolved? && r.value == CheckLeaveBalance(if |call.arguments| > 0 then call.arguments[0].1 else "undefined")
  {
    if call.toolName in AvailableTools then
      match Apply(AvailableTools[call.toolName], ArgumentValues(call.arguments), fault)
      case Ok(v) => Resolved(v)
      case Err(e) => Threw(ToolFailed(e))
    else if call.toolName == "__proto__" then
      Threw(ToolFailed(NotAFunction()))
    else if call.toolName in ObjectPrototypeKeys then
      InheritedCalled(call.toolName, ArgumentValues(call.arguments))
    else
      Threw(ToolNotFound("Tool '" + call.toolName + "' not found"))
  }
}
