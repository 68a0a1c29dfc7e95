/**
 * ConsoleInputService.GetNumericInput: show the prompt, read a line, and
 * either return its value or complain and start over.
 */
module NumericInput {
  import opened ConsoleIO

  const InvalidInput: string := "Invalid input. Please enter a valid number."

  /** What one call of GetNumericInput does to the console. */
  datatype Reading = Reading(value: real, rest: seq<Attempt>, shown: seq<Line>)

  /** Index of the first attempt that parses, or |input| when none does. */
  function FirstParsed(input: seq<Attempt>): (k: nat)
    ensures k <= |input|
    ensures forall i :: 0 <= i < k ==> input[i].None?
    ensures k < |input| ==> input[k].Some?
  {
    if input == [] || input[0].Some? then 0 else 1 + FirstParsed(input[1..])
  }

  /**
   * The specification of GetNumericInput: the value it returns, the input it
   * leaves unread and the lines it writes.
   */
  function ReadNumber(prompt: string, input: seq<Attempt>): (r: Reading)
    ensures |r.rest| <= |input|
    decreases |input|
  {
    if input == [] then
      Reading(0.0, [], [Say(prompt)])   // ReadLine gave null, which converts to 0
    else if input[0].Some? then
      Reading(input[0].value, input[1..], [Say(prompt)])
    else
      var r := ReadNumber(prompt, input[1..]);
      Reading(r.value, r.rest, [Say(prompt), Say(InvalidInput)] + r.shown)
  }

  /**
   * GetNumericInput consumes the malformed attempts up to the first one that
   * parses, and that one, and returns the first parsed value; when the script
   * runs out first it consumes everything and returns 0.
   */
  lemma {:induction false} ReadNumberResult(prompt: string, input: seq<Attempt>)
    ensures var r := ReadNumber(prompt, input); var k := FirstParsed(input);
      && r.value == (if k < |input| then input[k].value else 0.0)
      && r.rest == (if k < |input| then input[k + 1..] else [])
    decreases |input|
  {
    if input != [] && input[0].None? {
      ReadNumberResult(prompt, input[1..]);
      var k := FirstParsed(input[1..]);
      assert FirstParsed(input) == k + 1;
      if k < |input[1..]| {
        assert input[1..][k + 1..] == input[k + 2..];
      }
    }
  }

  /**
   * GetNumericInput shows the prompt once per attempt, and each malformed
   * attempt is followed by exactly one retry message.
   */
  lemma {:induction false} ReadNumberTrace(prompt: string, input: seq<Attempt>)
    ensures var shown := ReadNumber(prompt, input).shown; var k := FirstParsed(input);
      && |shown| == 2 * k + 1
      && (forall j :: 0 <= j < 2 * k ==> shown[j] == if j % 2 == 0 then Say(prompt) else Say(InvalidInput))
      && shown[2 * k] == Say(prompt)
    decreases |input|
  {
    if input != [] && input[0].None? {
      ReadNumberTrace(prompt, input[1..]);
      var tail := ReadNumber(prompt, input[1..]).shown;
      var shown := ReadNumber(prompt, input).shown;
      assert shown == [Say(prompt), Say(InvalidInput)] + tail;
      forall j | 2 <= j < 2 * FirstParsed(input)
        ensures shown[j] == if j % 2 == 0 then Say(prompt) else Say(InvalidInput)
      {
        assert shown[j] == tail[j - 2];
        assert (j - 2) % 2 == j % 2;
      }
    }
  }

  /** Counted: one retry message per malformed attempt, one prompt per attempt read. */
  lemma {:induction false} ReadNumberCounts(prompt: string, input: seq<Attempt>)
    requires prompt != InvalidInput
    ensures var r := ReadNumber(prompt, input); var k := FirstParsed(input);
      && multiset(r.shown)[Say(InvalidInput)] == k
      && multiset(r.shown)[Say(prompt)] == k + 1
    decreases |input|
  {
    if input != [] && input[0].None? {
      ReadNumberCounts(prompt, input[1..]);
      assert ReadNumber(prompt, input).shown == [Say(prompt), Say(InvalidInput)] + ReadNumber(prompt, input[1..]).shown;
    }
  }

  /** GetNumericInput writes nothing but its prompt and the retry message. */
  lemma {:induction false} ReadNumberLines(prompt: string, input: seq<Attempt>, line: Line)
    requires line in ReadNumber(prompt, input).shown
    ensures line == Say(prompt) || line == Say(InvalidInput)
    decreases |input|
  {
    if input != [] && input[0].None? {
      var shown := ReadNumber(prompt, input).shown;
      assert shown == [Say(prompt), Say(InvalidInput)] + ReadNumber(prompt, input[1..]).shown;
      if line != Say(prompt) && line != Say(InvalidInput) {
        ReadNumberLines(prompt, input[1..], line);
      }
    }
  }

  class ConsoleInputService {
    /** The console the service reads from and writes to. */
    const console: Console

    constructor (console: Console)
      ensures this.console == console
    {
      this.console := console;
    }

    method GetNumericInput(prompt: string) returns (value: real)
      modifies console
      ensures var r := ReadNumber(prompt, old(console.input));
        && value == r.value
        && console.input == r.rest
        && console.output == old(console.output) + r.shown
    {
      ghost var goal := ReadNumber(prompt, console.input);
      while true
        invariant ReadNumber(prompt, console.input).value == goal.value
        invariant ReadNumber(prompt, console.input).rest == goal.rest
        invariant old(console.output) + goal.shown == console.output + ReadNumber(prompt, console.input).shown
        decreases |console.input|
      {
        ghost var before := console.input;
        console.WriteLine(Say(prompt));
        var line := console.ReadLine();
        var parsed := ToDouble(line);
        if parsed.Some? {
          value := parsed.value;
          return;
        }
        console.WriteLine(Say(InvalidInput));
        assert ReadNumber(prompt, before).shown == [Say(prompt), Say(InvalidInput)] + ReadNumber(prompt, console.input).shown;
      }
    }
  }
}
