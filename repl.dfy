/**
 * One turn of the interactive loop in `main` (main.py): the exit test on the
 * typed prompt, and what is printed for the value `call_llm` returns.
 */
module Repl {
  import opened PyData
  import opened ToolCall

  const ExitWords: seq<string> := ["exit", "quit"]
  const CouldNotProcessText := "Error: Could not process your request."

  /** `c.lower()` for an ASCII letter; every other character is left as it is. */
  function LowerChar(c: char): (r: char)
    ensures 'A' <= c <= 'Z' ==> 'a' <= r <= 'z' && r as int - c as int == 32
    ensures !('A' <= c <= 'Z') ==> r == c
  {
    if 'A' <= c <= 'Z' then (c as int + 32) as char else c
  }

  /** `s.lower()`, character by character. */
  function Lower(s: string): (r: string)
    ensures |r| == |s|
    ensures forall i :: 0 <= i < |s| ==> r[i] == LowerChar(s[i])
  {
    if s == [] then [] else [LowerChar(s[0])] + Lower(s[1..])
  }

  /** `prompt.lower() in ["exit", "quit"]` */
  predicate IsExitCommand(prompt: string)
    ensures IsExitCommand(prompt) ==> |prompt| == 4
  {
    Lower(prompt) in ExitWords
  }

  /** A prompt ends the loop exactly when it spells "exit" or "quit" in any
      mix of upper and lower case. */
  lemma ExitCommandIff(prompt: string)
    ensures IsExitCommand(prompt) <==>
              |prompt| == 4 &&
              ((forall i :: 0 <= i < 4 ==> prompt[i] == "exit"[i] || prompt[i] == "EXIT"[i]) ||
               (forall i :: 0 <= i < 4 ==> prompt[i] == "quit"[i] || prompt[i] == "QUIT"[i]))
  {
    if |prompt| == 4 {
      if forall i :: 0 <= i < 4 ==> prompt[i] == "exit"[i] || prompt[i] == "EXIT"[i] {
        assert Lower(prompt) == "exit";
      }
      if forall i :: 0 <= i < 4 ==> prompt[i] == "quit"[i] || prompt[i] == "QUIT"[i] {
        assert Lower(prompt) == "quit";
      }
    }
  }

  /** Lower-casing twice is lower-casing once, so the exit test does not
      change when the prompt is lower-cased first. */
  lemma LowerIdempotent(s: string)
    ensures Lower(Lower(s)) == Lower(s)
  {
  }

  /** What one turn of the loop does. */
  datatype Turn =
    | Goodbye                      // prints "Goodbye!" and leaves the loop
    | Prints(line: string)         // a line whose text is fixed by the source
    | PrintsResult(outcome: Outcome)  // "Result: " and Python's rendering of the outcome
    | Crashes(error: PyError)      // an exception ends the program

  /** The string `call_llm` returns for an outcome whose text does not depend
      on Python's formatting of a value. */
  function FixedText(o: Outcome): (r: Option<string>)
    ensures r.Some? <==> o.NoCall? || o.BadArgs? || (o.Unknown? && o.name.Str?)
    ensures o.NoCall? ==> r == Some("Error: No valid function call in response.")
    ensures o.BadArgs? ==> r == Some("Error: Invalid arguments or function name in API response.")
    ensures o.Unknown? && o.name.Str? ==> r == Some("Error: Function " + o.name.s + " not implemented.")
  {
    match o
    case NoCall => Some(NoCallText)
    case BadArgs => BadArgsTextSpelledOut(); Some(BadArgsText)
    case Unknown(Str(name)) => Some("Error: Function " + name + " not implemented.")
    case _ => None
  }

  /** The fixed texts tell their outcomes apart: a user reading one knows
      which of the three errors occurred, and which unknown name was sent. */
  lemma FixedTextDistinguishes(o: Outcome, o': Outcome)
    requires FixedText(o).Some? && FixedText(o) == FixedText(o')
    ensures o == o'
  {
    var text := FixedText(o).value;
    if o.Unknown? && o'.Unknown? {
      var suffix := " not implemented.";
      assert text == "Error: Function " + o.name.s + suffix;
      assert text == "Error: Function " + o'.name.s + suffix;
      assert o.name.s == text[16..|text| - |suffix|] == o'.name.s;
    } else if o.Unknown? || o'.Unknown? {
      var (u, e) := if o.Unknown? then (o, o') else (o', o);
      UnknownTextAt7(u.name.s);
      ErrorTextsAt7();
    }
  }

  lemma UnknownTextAt7(name: string)
    ensures ("Error: Function " + name + " not implemented.")[7] == 'F'
  {
    assert ("Error: Function " + name + " not implemented.")[..16] == "Error: Function ";
  }

  lemma ErrorTextsAt7()
    ensures NoCallText[7] == 'N' && BadArgsText[7] == 'I'
  {
  }

  /** One pass through the loop body: the exit test first; otherwise the
      request is made and its result printed. */
  function Step(prompt: string, http: Http, loads: string -> Option<Json>): (t: Turn)
    ensures t == Goodbye <==> IsExitCommand(prompt)
    ensures !IsExitCommand(prompt) && http == RequestFailed ==>
              t == Prints("Error: Could not process your request.")
    ensures !IsExitCommand(prompt) && Interpret(http, loads).Uncaught? ==>
              t == Crashes(Interpret(http, loads).error)
    ensures !IsExitCommand(prompt) && FixedText(Interpret(http, loads)).Some? ==>
              t == Prints("Result: " + FixedText(Interpret(http, loads)).value)
    ensures !IsExitCommand(prompt) && (Interpret(http, loads).Done? ||
                                       (Interpret(http, loads).Unknown? && !Interpret(http, loads).name.Str?)) ==>
              t == PrintsResult(Interpret(http, loads))
    ensures t.Crashes? ==> Interpret(http, loads) == Uncaught(t.error)
  {
    if IsExitCommand(prompt) then Goodbye
    else
      match Interpret(http, loads)
      case TransportFailed => Prints(CouldNotProcessText)
      case Uncaught(e) => Crashes(e)
      case o =>
        match FixedText(o)
        case Some(text) => Prints("Result: " + text)
        case None => PrintsResult(o)
  }

  /** "Could not process your request" is printed exactly when the request
      itself failed: every outcome the handler reaches prints a result. */
  lemma CouldNotProcessOnlyOnTransportFailure(prompt: string, http: Http, loads: string -> Option<Json>)
    ensures Step(prompt, http, loads) == Prints(CouldNotProcessText) <==>
              !IsExitCommand(prompt) && http == RequestFailed
  {
  }
}
