/**
 * What `call_llm` promises, stated against the shape of the decoded response
 * written out field by field (ResponseShape), rather than against the lookup
 * chain in ToolCall.
 */
module ToolCallFacts {
  import opened PyData
  import Calculator
  import opened ToolCall
  import opened ResponseShape

  /** No tool call in the message (absent, null, empty or otherwise false)
      is reported as such, and nothing else is. */
  lemma NoCallIff(data: Json, loads: string -> Option<Json>)
    ensures Interpret(Received(data), loads) == NoCall <==> HasMessage(data) && !Truthy(CallsOf(data))
  {
  }

  /** A response without `choices[0].message` as a dict raises out of `call_llm`. */
  lemma MissingMessageRaises(data: Json, loads: string -> Option<Json>)
    requires !HasMessage(data)
    ensures Interpret(Received(data), loads).Uncaught?
  {
  }

  /** A call without `function`, `name` or `arguments`, or whose arguments do
      not decode, is reported as invalid arguments, and nothing else is. */
  lemma BadArgsIff(data: Json, loads: string -> Option<Json>)
    ensures Interpret(Received(data), loads) == BadArgs <==>
              HasMessage(data) && Truthy(CallsOf(data)) && CallUnreadable(CallsOf(data), loads)
  {
  }

  /** The arguments are checked before the name: undecodable arguments are
      reported as such even when the name is not one of the four. */
  lemma ArgumentsCheckedBeforeName(data: Json, loads: string -> Option<Json>)
    requires HasMessage(data) && HasFunction(CallsOf(data))
    requires var f := FunctionOf(CallsOf(data));
             "name" in f && OpNamed(f["name"]).None?
             && "arguments" in f && f["arguments"].Str? && loads(f["arguments"].s).None?
    ensures Interpret(Received(data), loads) == BadArgs
  {
  }

  /** Any other name is reported as not implemented, and nothing else is. */
  lemma UnknownIff(data: Json, loads: string -> Option<Json>, name: Json)
    ensures Interpret(Received(data), loads) == Unknown(name) <==>
              && HasMessage(data) && CallDecodes(CallsOf(data), loads)
              && NameOf(CallsOf(data), loads) == name
              && forall op: Op :: name != Str(op.Name())
  {
  }

  /** With an unknown name, neither `arguments['a']` nor `arguments['b']` is read. */
  lemma UnknownReadsNoOperand(name: Json, arguments: Json, other: Json)
    requires forall op: Op :: name != Str(op.Name())
    ensures Dispatch(Call(name, arguments)) == Dispatch(Call(name, other)) == Unknown(name)
  {
  }

  /** Each name selects its own operation, applied to `arguments['a']` and
      `arguments['b']` in that order; the reported operands are those values. */
  lemma DoneIff(data: Json, loads: string -> Option<Json>, op: Op, a: Json, b: Json, result: Json)
    ensures Interpret(Received(data), loads) == Done(op, a, b, result) <==>
              && HasMessage(data) && CallDecodes(CallsOf(data), loads)
              && NameOf(CallsOf(data), loads) == Str(op.Name())
              && var arguments := ArgumentsOf(CallsOf(data), loads);
              && arguments.Obj? && "a" in arguments.fields && "b" in arguments.fields
              && arguments.fields["a"] == a && arguments.fields["b"] == b
              && Apply(op, a, b) == Ok(result)
  {
  }

  /** A `divide` call by zero yields the division-by-zero sentence, not a crash. */
  lemma DivideByZeroIsReported(data: Json, loads: string -> Option<Json>, a: Json, b: Json)
    requires HasMessage(data) && CallDecodes(CallsOf(data), loads)
    requires NameOf(CallsOf(data), loads) == Str("divide")
    requires var arguments := ArgumentsOf(CallsOf(data), loads);
             && arguments.Obj? && "a" in arguments.fields && "b" in arguments.fields
             && arguments.fields["a"] == a && arguments.fields["b"] == b
    requires Calculator.IsZero(b)
    ensures Interpret(Received(data), loads) == Done(Divide, a, b, Str(Calculator.DivByZeroText))
  {
  }

  /** A JSON decoding failure never escapes `call_llm`. */
  lemma DecodingFailureIsCaught(http: Http, loads: string -> Option<Json>)
    ensures Interpret(http, loads) != Uncaught(JSONDecodeError)
  {
  }

  /** A well-formed `multiply` call with `a = 4` and `b = 5` gives the product 20. */
  lemma MultiplyExample(loads: string -> Option<Json>)
    requires loads("{\"a\": 4, \"b\": 5}") == Some(Obj(map["a" := Int(4), "b" := Int(5)]))
    ensures
      var call := Obj(map["function" := Obj(map["name" := Str("multiply"),
                                                 "arguments" := Str("{\"a\": 4, \"b\": 5}")])]);
      var message := Obj(map["role" := Str("assistant"), "tool_calls" := Arr([call])]);
      var data := Obj(map["choices" := Arr([Obj(map["message" := message])])]);
      Interpret(Received(data), loads) == Done(Multiply, Int(4), Int(5), Int(20))
  {
    var arguments := Obj(map["a" := Int(4), "b" := Int(5)]);
    var call := Obj(map["function" := Obj(map["name" := Str("multiply"),
                                               "arguments" := Str("{\"a\": 4, \"b\": 5}")])]);
    var message := Obj(map["role" := Str("assistant"), "tool_calls" := Arr([call])]);
    var data := Obj(map["choices" := Arr([Obj(map["message" := message])])]);
    assert ToolCalls(data) == Ok(Arr([call]));
    assert ReadCall(Arr([call]), loads) == Ok(Call(Str("multiply"), arguments));
    assert Dispatch(Call(Str("multiply"), arguments)) == Done(Multiply, Int(4), Int(5), Int(20));
  }
}
