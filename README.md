# calcidb calculator core, in Dafny

calcidb is a command-line calculator. It asks a chat-completion service
(Groq's OpenAI-compatible endpoint) to turn an instruction such as
"Add 5 and 3" into a tool call, then runs that call locally. This project
models the logic of `main.py`:

- the four calculator functions `add`, `subtract`, `multiply` and `divide`,
  including the rule that `divide` returns the string
  `"Error: Division by zero"` instead of raising;
- the part of `call_llm` that reads the service's decoded answer. It looks up
  `choices[0].message.tool_calls`, reads the first call's `function.name`,
  decodes its `function.arguments` string, and dispatches on the name. An
  unknown name, a missing call or an unreadable call each gives a fixed error
  string. Only a failed HTTP request gives `None`;
- one turn of the interactive loop in `main`: the `exit`/`quit` test and the
  line printed for what `call_llm` returns.

The operands come straight out of the decoded JSON, so they can be any JSON
value, and Python's operators decide the result. The model follows that duck
typing. Numbers add, subtract, multiply and divide. Two strings or two lists
concatenate under `+`. A string or list times an integer is repeated. Every
other pair raises `TypeError`. `bool` counts as an integer, as in Python.
`int` stays `int` except under `/`, which always gives a `float`.

Modules:

- `PyData` (`py_data.dfy`): decoded JSON values (`Json`), Python exceptions as
  values (`Py<T>`, with `Raise(PyError)` for a raised exception), truthiness,
  and the lookups the handler uses: `v[key]`, `v[0]`, `v.get(key, None)` and
  `json.loads`. The decoder itself is a parameter `string -> Option<Json>`.
- `Calculator` (`calculator.dfy`): the four operations.
- `ToolCall` (`tool_call.dfy`): the `Outcome` of `call_llm` and the
  interpreter `Interpret`. The HTTP exchange is the input `Http`: either
  `RequestFailed` or `Received(body)`.
- `ResponseShape` (`response_shape.dfy`): the response's shape written out
  field by field: where the message, the first call, its name and its
  arguments sit.
- `ToolCallFacts` (`tool_call_facts.dfy`): what `call_llm` promises, stated
  against that shape.
- `Repl` (`repl.dfy`): the exit test and one turn of the loop.

`call_llm` ends in one of these outcomes. `NoCall`, `BadArgs` and
`Unknown(name)` stand for its three error strings. `Done(op, a, b, result)`
stands for the result sentence, kept as a tuple rather than formatted text.
`TransportFailed` stands for `None`. `Uncaught(error)` stands for any
exception that escapes `call_llm`, for example:

- a missing `choices` or `message`;
- a truthy `tool_calls` that is a string or a number, or a first call or
  `function` value that is not a dict (a `TypeError` at main.py:66-67);
- an `arguments` value that is not a string, which `json.loads` rejects with
  a `TypeError`;
- missing operands `a` or `b`;
- an operator applied to the wrong types.

## Model

| member | source | states |
|---|---|---|
| PyData.Item | main.py:63 | `v[key]` succeeds exactly on a dict holding `key`; a dict without it raises KeyError, anything else TypeError |
| PyData.Truthy | main.py:64 | `if function_calls:`: null, False, zero and empty strings, lists and dicts are false, everything else true |
| PyData.First | main.py:63 | `v[0]` gives the first element of a non-empty list or the first character of a non-empty string; an empty one raises IndexError, a dict KeyError, and null, a bool or a number TypeError |
| PyData.Get | main.py:63 | `v.get(key, None)` succeeds exactly on a dict and gives null for an absent key; anything else raises AttributeError |
| PyData.Loads | main.py:67 | `json.loads` succeeds exactly on a string that decodes; an undecodable string raises JSONDecodeError and a non-string TypeError |
| Calculator.Add | main.py:35 | `a + b`: the sum of two numbers (int exactly when both are integral), concatenation of two strings or two lists, TypeError otherwise |
| Calculator.Subtract | main.py:36 | `a - b`: succeeds exactly on two numbers and gives their difference; TypeError otherwise |
| Calculator.Multiply | main.py:37 | `a * b`: the product of two numbers; a string or list times an integer, in either order, is repeated; TypeError otherwise |
| Calculator.IsZero | main.py:38 | `b != 0` is false exactly for False, 0 and 0.0 |
| Calculator.Repeat | main.py:37 | a sequence repeated `n` times has `n` times its length, and none when `n <= 0` |
| Calculator.RepeatAt | main.py:37 | copy `i` of a repeated sequence holds the original's elements in order |
| Calculator.Divide | main.py:38 | a zero divisor (0, 0.0 or False) gives the string "Error: Division by zero" whatever the dividend is; otherwise two numbers give their float quotient and anything else raises TypeError |
| Calculator.NumbersNeverRaise | main.py:35-38 | on two numbers no operation raises, and `divide` gives a number exactly when the divisor is non-zero |
| Calculator.DivideInvertsMultiply | main.py:37-38 | in exact arithmetic, multiplying a quotient by the divisor gives back the dividend |
| Calculator.SubtractIsAddNegated | main.py:35-36 | `subtract(a, b)` is `add(a, -b)` and the negation of `subtract(b, a)` |
| Calculator.TestCases | test_main.py:7-28 | all twelve assertions of the unit tests, including `subtract(3, 5) = -2`, `divide(5, 2) = 2.5` and `divide(5, 0)` giving the sentinel |
| ToolCall.OpNamed | main.py:72-81 | a name selects an operation exactly when it is the string of that operation's name |
| ToolCall.Apply | main.py:72-79 | on two numbers the named operation never raises and gives their sum, difference, product or quotient; `divide` by zero gives the sentinel; otherwise only TypeError |
| ToolCall.ToolCalls | main.py:63 | the lookup succeeds exactly when `choices[0].message` is a dict, gives its `tool_calls` or null, and otherwise raises KeyError, IndexError, TypeError or AttributeError |
| ToolCall.ReadCall | main.py:66-67 | the first call's name and decoded arguments are read exactly when they are present and decode; the error is KeyError or JSONDecodeError exactly when the call is unreadable in the sense the inner `try` catches |
| ToolCall.Operands | main.py:73-79 | `arguments['a']` and `arguments['b']` are read exactly from a dict holding both; a dict missing one raises KeyError, anything else TypeError |
| ToolCall.Dispatch | main.py:72-81 | an unknown name gives `Unknown` with that name and reads no operand; a known name gives `Done` exactly when `arguments['a']` and `arguments['b']` exist and its own operation succeeds on them, and `Done` reports those two values and that result; otherwise the KeyError or TypeError escapes |
| ToolCall.Interpret | main.py:57-87 | `call_llm` gives `None` exactly when the HTTP request failed |
| ToolCallFacts.NoCallIff | main.py:63-83 | "no valid function call" is returned exactly when the message exists and its `tool_calls` is absent, null, empty or otherwise false |
| ToolCallFacts.MissingMessageRaises | main.py:63 | a response without `choices[0].message` as a dict makes `call_llm` raise |
| ToolCallFacts.BadArgsIff | main.py:64-69 | "invalid arguments" is returned exactly when the tool calls are present but the first lacks `function`, `name` or `arguments`, its arguments do not decode, or the calls are a dict |
| ToolCallFacts.ArgumentsCheckedBeforeName | main.py:65-81 | undecodable arguments are reported as invalid even when the name is not a known one |
| ToolCallFacts.UnknownIff | main.py:65-81 | "not implemented" with the given name is returned exactly when the call reads and its name is none of the four |
| ToolCallFacts.UnknownReadsNoOperand | main.py:80-81 | with an unknown name the result does not depend on the arguments |
| ToolCallFacts.DoneIff | main.py:65-79 | the result sentence for `op`, `a`, `b` and `result` is returned exactly when the call names `op`, its arguments are a dict whose `a` and `b` are those values, and `op` applied to `a` then `b` gives `result` |
| ToolCallFacts.DivideByZeroIsReported | main.py:78-79 | a `divide` call whose arguments hold a zero `b` reports the division-by-zero sentinel as its result and does not crash, whatever other keys the arguments hold |
| ToolCallFacts.DecodingFailureIsCaught | main.py:65-69 | a JSON decoding failure never escapes `call_llm` |
| ToolCallFacts.MultiplyExample | main.py:57-87 | a well-formed `multiply` call with `a = 4` and `b = 5` reports the product 20 |
| Repl.LowerChar | main.py:94 | an ASCII capital becomes its lower-case letter; any other character is unchanged |
| Repl.Lower | main.py:94 | lower-casing keeps the length and lower-cases each character |
| Repl.IsExitCommand | main.py:94 | an exit word is four characters long |
| Repl.ExitCommandIff | main.py:94 | a prompt ends the loop exactly when it has four characters, each the lower- or upper-case letter of "exit" at that place, or each that of "quit" |
| Repl.LowerIdempotent | main.py:94 | lower-casing twice equals lower-casing once |
| Repl.FixedText | main.py:69-83 | "No valid function call", "Invalid arguments or function name" and "Function {name} not implemented." are the exact strings returned for the two error cases and for an unknown string name |
| Repl.FixedTextDistinguishes | main.py:69-83 | two outcomes with the same fixed text are the same outcome, so the text tells which error occurred and which unknown name was sent |
| Repl.Step | main.py:92-102 | an exit word says goodbye, and only an exit word does; a failed request prints "Error: Could not process your request."; an escaping exception crashes the program; a fixed-text result prints "Result: " followed by that text |
| Repl.CouldNotProcessOnlyOnTransportFailure | main.py:98-102 | "Could not process your request" is printed exactly when the prompt is not an exit word and the HTTP request failed |

## Left out

- The HTTP request, its headers, the API key and `.env` loading (main.py:9-15, 42-60) are not modelled. The exchange's result is the input `Http`. A body that `response.json()` cannot decode counts as `RequestFailed`, because `requests` (2.27 and later) raises a `RequestException` for it.
- The message printed at main.py:86 before `None` is returned is not modelled; it is I/O.
- The internals of `json.loads` are not modelled. The decoder is a parameter. Its deep-nesting `RecursionError` and the `NaN`/`Infinity` literals are not modelled.
- Python's limit on integer digits (from Python 3.11) is not modelled. `json.loads` raises `ValueError` for an integer literal of more than 4300 digits, and `str()` of so large a result raises inside the result f-string. Both would escape `call_llm`.
- ToolCall.Interpret: `Done` carries the operation, operands and result as values, and `Unknown` carries the name as a value. Python's `str()` rendering of them inside the f-strings is not modelled, e.g. `5` against `5.0`.
- Calculator.Add, Calculator.Subtract, Calculator.Multiply and Calculator.Divide: floats are exact reals. IEEE rounding, overflow to infinity, and the `OverflowError` of converting a huge `int` to `float` are not modelled. So Calculator.DivideInvertsMultiply holds only in exact arithmetic: in Python, `multiply(divide(1, 49), 49)` is `0.9999999999999999`.
- Calculator.Multiply: the `MemoryError` or `OverflowError` Python raises for an enormous repetition count is not modelled.
- Repl.Lower and Repl.LowerChar: only ASCII letters are lower-cased. Python's `str.lower` maps other letters too. That cannot change the exit test, because no other character lower-cases to one of the letters of "exit" or "quit".
- The `while True` loop, `input` and `print` of `main` (main.py:90-102) are not modelled as a loop. One turn is modelled by `Repl.Step`.
- Database seeding with Faker and the SQLAlchemy session (main.py:18-32), and `models.py`, are not modelled. They hold ORM declarations and random data with no logic of their own.
- `fallback_calculation`, `random_joke` and `fetch_user_by_email` are not modelled. The tests import them (test_main.py:2), but `main.py` does not define them.
