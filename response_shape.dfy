/**
 * The shape of a decoded completion response, written out field by field:
 * where `call_llm` (main.py) finds the message, the first tool call, its
 * name and its arguments. The lookups in ToolCall are specified against it.
 */
module ResponseShape {
  import opened PyData

  /** `data['choices'][0]['message']` exists and is a dict. */
  ghost predicate HasMessage(data: Json) {
    && data.Obj? && "choices" in data.fields
    && var choices := data.fields["choices"];
    && choices.Arr? && choices.items != []
    && choices.items[0].Obj? && "message" in choices.items[0].fields
    && choices.items[0].fields["message"].Obj?
  }

  /** The message's `tool_calls`, or null when it has none. */
  ghost function CallsOf(data: Json): Json
    requires HasMessage(data)
  {
    var message := data.fields["choices"].items[0].fields["message"].fields;
    if "tool_calls" in message then message["tool_calls"] else Null
  }

  /** `calls[0]['function']` exists and is a dict. */
  ghost predicate HasFunction(calls: Json) {
    && calls.Arr? && calls.items != []
    && calls.items[0].Obj? && "function" in calls.items[0].fields
    && calls.items[0].fields["function"].Obj?
  }

  ghost function FunctionOf(calls: Json): map<string, Json>
    requires HasFunction(calls)
  {
    calls.items[0].fields["function"].fields
  }

  /** The first call has a `name` and an `arguments` string that decodes. */
  ghost predicate CallDecodes(calls: Json, loads: string -> Option<Json>) {
    && HasFunction(calls)
    && var f := FunctionOf(calls);
    && "name" in f
    && "arguments" in f && f["arguments"].Str?
    && loads(f["arguments"].s).Some?
  }

  ghost function NameOf(calls: Json, loads: string -> Option<Json>): Json
    requires CallDecodes(calls, loads)
  {
    FunctionOf(calls)["name"]
  }

  ghost function ArgumentsOf(calls: Json, loads: string -> Option<Json>): Json
    requires CallDecodes(calls, loads)
  {
    loads(FunctionOf(calls)["arguments"].s).value
  }

  /** The tool calls make the inner `try` catch a KeyError or a decoding failure. */
  ghost predicate CallUnreadable(calls: Json, loads: string -> Option<Json>) {
    || calls.Obj?
    || (&& calls.Arr? && calls.items != [] && calls.items[0].Obj?
        && var entry := calls.items[0].fields;
        || "function" !in entry
        || (&& entry["function"].Obj?
            && var f := entry["function"].fields;
            || "name" !in f
            || "arguments" !in f
            || (f["arguments"].Str? && loads(f["arguments"].s).None?)))
  }
}
