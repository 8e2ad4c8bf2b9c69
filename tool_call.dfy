/**
 * What `call_llm` (main.py) does with the completion service's answer: find
 * `choices[0].message.tool_calls`, read the first call's `function.name`
 * and JSON-encoded `function.arguments`, and dispatch on the name to one of
 * the four calculator operations.
 *
 * The HTTP exchange is an input: either the request failed (`requests`
 * raised, or the status was an error, or the body was not JSON) or it
 * produced a decoded body. `json.loads` is a parameter.
 */
module ToolCall {
  import opened PyData
  import Calculator
  import opened ResponseShape

  /** The four functions the request offers to the model. */
  datatype Op = Add | Subtract | Multiply | Divide {
    /** The function name the model answers with. */
    function Name(): string {
      match this
      case Add => "add"
      case Subtract => "subtract"
      case Multiply => "multiply"
      case Divide => "divide"
    }
  }

  /** What the HTTP exchange produced. */
  datatype Http = RequestFailed | Received(body: Json)

  /** The first tool call's name and decoded arguments. */
  datatype Call = Call(name: Json, arguments: Json)

  /** Every way `call_llm` can end. */
  datatype Outcome =
    | NoCall                      // "Error: No valid function call in response."
    | BadArgs                     // "Error: Invalid arguments or function name in API response."
    | Unknown(name: Json)         // "Error: Function {name} not implemented."
    | Done(op: Op, a: Json, b: Json, result: Json)  // the sentence for op, a, b and result
    | TransportFailed             // returns None
    | Uncaught(error: PyError)    // an exception escapes call_llm

  const NoCallText := "Error: No valid function call in response."
  // Two literals, joined, so that the verifier can read single characters of it.
  const BadArgsText := "Error: Invalid arguments " + "or function name in API response."

  lemma BadArgsTextSpelledOut()
    ensures BadArgsText == "Error: Invalid arguments or function name in API response."
  {
  }

  /** The operation whose name `name` is, compared as Python compares a value with a string. */
  function OpNamed(name: Json): (r: Option<Op>)
    ensures r.Some? ==> name == Str(r.value.Name())
    ensures r.None? ==> forall op: Op :: name != Str(op.Name())
  {
    if name == Str("add") then Some(Add)
    else if name == Str("subtract") then Some(Subtract)
    else if name == Str("multiply") then Some(Multiply)
    else if name == Str("divide") then Some(Divide)
    else None
  }

  /** The calculator function `op` names. On two numbers it never raises and
      gives their sum, difference, product or quotient; only `divide` by zero
      gives the sentinel string. */
  function Apply(op: Op, a: Json, b: Json): (r: Py<Json>)
    ensures IsNumber(a) && IsNumber(b) ==> r.Ok?
    ensures IsNumber(a) && IsNumber(b) && !(op == Divide && Calculator.IsZero(b)) ==>
              (r.value.Int? || r.value.Float?) &&
              NumberValue(r.value) == match op
                                      case Add => NumberValue(a) + NumberValue(b)
                                      case Subtract => NumberValue(a) - NumberValue(b)
                                      case Multiply => NumberValue(a) * NumberValue(b)
                                      case Divide => NumberValue(a) / NumberValue(b)
    ensures op == Divide && Calculator.IsZero(b) ==> r == Ok(Str(Calculator.DivByZeroText))
    ensures r.Raise? ==> r.error == TypeError
  {
    match op
    case Add => Calculator.Add(a, b)
    case Subtract => Calculator.Subtract(a, b)
    case Multiply => Calculator.Multiply(a, b)
    case Divide => Calculator.Divide(a, b)
  }

  /** `data['choices'][0]['message'].get('tool_calls', None)`: the message's
      tool calls (null when it has none), or the exception the lookup raises. */
  function ToolCalls(data: Json): (r: Py<Json>)
    ensures r.Ok? <==> HasMessage(data)
    ensures r.Ok? ==> r.value == CallsOf(data)
    ensures r.Raise? ==> r.error in {KeyError, IndexError, TypeError, AttributeError}
  {
    var choices :- Item(data, "choices");
    var first :- First(choices);
    var message :- Item(first, "message");
    Get(message, "tool_calls")
  }

  /** The two statements of the inner `try`: `calls[0]['function']['name']`,
      then `json.loads(calls[0]['function']['arguments'])`. It raises one of
      the two exceptions the `try` catches exactly when the call is unreadable. */
  function ReadCall(calls: Json, loads: string -> Option<Json>): (r: Py<Call>)
    ensures r.Ok? <==> CallDecodes(calls, loads)
    ensures r.Ok? ==> r.value == Call(NameOf(calls, loads), ArgumentsOf(calls, loads))
    ensures r.Raise? ==> (r.error in {KeyError, JSONDecodeError} <==> CallUnreadable(calls, loads))
    ensures r.Raise? ==> r.error in {KeyError, IndexError, TypeError, JSONDecodeError}
  {
    var entry :- First(calls);
    var function_ :- Item(entry, "function");
    var name :- Item(function_, "name");
    var raw :- Item(function_, "arguments");
    var arguments :- Loads(loads, raw);
    Ok(Call(name, arguments))
  }

  /** `arguments['a']`, then `arguments['b']`: both keys of a dict, in that
      order; a dict without one raises KeyError, anything else TypeError. */
  function Operands(arguments: Json): (r: Py<(Json, Json)>)
    ensures r.Ok? <==> arguments.Obj? && "a" in arguments.fields && "b" in arguments.fields
    ensures r.Ok? ==> r.value == (arguments.fields["a"], arguments.fields["b"])
    ensures r.Raise? ==> r.error == (if arguments.Obj? then KeyError else TypeError)
  {
    var a :- Item(arguments, "a");
    var b :- Item(arguments, "b");
    Ok((a, b))
  }

  /** The `if`/`elif` chain on the function name. The operands are read only
      once the name is known. */
  function Dispatch(call: Call): (o: Outcome)
    ensures o.Unknown? <==> OpNamed(call.name).None?
    ensures o.Unknown? ==> o.name == call.name
    ensures o.Done? <==> && OpNamed(call.name).Some? && Operands(call.arguments).Ok?
                         && Apply(OpNamed(call.name).value, Operands(call.arguments).value.0,
                                  Operands(call.arguments).value.1).Ok?
    ensures o.Done? ==> && call.name == Str(o.op.Name()) && call.arguments.Obj?
                        && o.a == call.arguments.fields["a"] && o.b == call.arguments.fields["b"]
                        && Apply(o.op, o.a, o.b) == Ok(o.result)
    ensures o.Uncaught? ==> o.error == (if Operands(call.arguments).Raise?
                                        then Operands(call.arguments).error else TypeError)
    ensures o.Done? || o.Unknown? || o.Uncaught?
  {
    match OpNamed(call.name)
    case None => Unknown(call.name)
    case Some(op) =>
      match Operands(call.arguments)
      case Raise(e) => Uncaught(e)
      case Ok((a, b)) =>
        match Apply(op, a, b)
        case Raise(e) => Uncaught(e)
        case Ok(result) => Done(op, a, b, result)
  }

  /** `call_llm` from the point where the HTTP exchange has ended. */
  function Interpret(http: Http, loads: string -> Option<Json>): (o: Outcome)
    ensures o == TransportFailed <==> http == RequestFailed
  {
    match http
    case RequestFailed => TransportFailed
    case Received(data) =>
      match ToolCalls(data)
      case Raise(e) => Uncaught(e)
      case Ok(calls) =>
        if !Truthy(calls) then NoCall
        else
          match ReadCall(calls, loads)
          case Raise(KeyError) => BadArgs
          case Raise(JSONDecodeError) => BadArgs
          case Raise(e) => Uncaught(e)
          case Ok(call) => Dispatch(call)
  }
}
