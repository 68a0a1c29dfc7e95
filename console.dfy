/**
 * The process console as the program sees it: a script of input lines still
 * to be read and the trace of lines written so far.
 *
 * An input line is abstracted to the outcome of `Convert.ToDouble` on it
 * (an `Attempt`): `Some(v)` for a line that parses to v, `None` for a line
 * whose conversion throws. When the script is exhausted `ReadLine` yields
 * null, which `Convert.ToDouble` turns into 0.
 */
module ConsoleIO {
  import opened Wrappers

  /** The outcome of converting one typed line to a number. */
  type Attempt = Option<real>

  /** One line written to the console. The quote line carries the amount it shows. */
  datatype Line =
    | Say(text: string)
    | QuoteLine(amount: real)   // "Your estimated total for shipping this package is: $" + amount formatted F2

  /** `Convert.ToDouble` applied to what `ReadLine` returned (None stands for null). */
  function ToDouble(line: Option<Attempt>): (r: Attempt)
    ensures line.None? ==> r == Some(0.0)
    ensures line.Some? ==> r == line.value
  {
    match line
    case None => Some(0.0)
    case Some(attempt) => attempt
  }

  class Console {
    /** Lines the user has yet to type. */
    var input: seq<Attempt>
    /** Lines written so far, oldest first. */
    var output: seq<Line>

    constructor (script: seq<Attempt>)
      ensures input == script && output == []
    {
      input := script;
      output := [];
    }

    method WriteLine(line: Line)
      modifies this
      ensures output == old(output) + [line]
      ensures input == old(input)
    {
      output := output + [line];
    }

    /** Consumes the next line; None (null) once the script is exhausted. */
    method ReadLine() returns (line: Option<Attempt>)
      modifies this
      ensures old(input) == [] ==> line.None? && input == []
      ensures old(input) != [] ==> line == Some(old(input)[0]) && input == old(input)[1..]
      ensures output == old(output)
    {
      if input == [] {
        line := None;
      } else {
        line := Some(input[0]);
        input := input[1..];
      }
    }
  }
}
