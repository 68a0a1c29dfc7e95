# Package Express shipping quote — a Dafny model

This project models the console tool in `Program.cs` that quotes a price for
shipping one package with Package Express. The tool welcomes the user and asks
for the weight, re-asking while the typed line is not a number. It refuses a
package heavier than 50. It then asks for width, height and length, refuses a
package whose three measurements add up to more than 50, and otherwise prints
the quote `width * height * length * weight / 100` and a thank-you.

Modules, one per component of the program:

- `PackageValidation` (`validation.dfy`): the two rules of `PackageValidationService`. Each returns a `Verdict`, the bool together with the `out string error`.
- `ShippingQuote` (`quote.dfy`): the price formula of `ShippingQuoteService`.
- `ConsoleIO` (`console.dfy`): the console as a `Console` object. It holds the script of lines still to be typed and the trace of lines written so far.
- `NumericInput` (`input.dfy`): `ConsoleInputService.GetNumericInput` as a method with its `while` loop. It is proved against the function `ReadNumber`, which says what the method returns, what it leaves unread and what it writes.
- `ShippingApp` (`app.dfy`): `ShippingQuoteApplication.Start` as a method. It is proved against the function `Session`, which gives a script's whole output, and the workflow's properties are lemmas about `Session`.
- `Wrappers` (`wrappers.dfy`): the `Option` datatype.

Modelling decisions:

- C# `double` is modelled as `real`.
- A typed line is modelled as the outcome of `Convert.ToDouble` on it. `Some(v)` is a line that converts to `v`; `None` is a line whose conversion throws, so it is retried.
- When the script is exhausted, `Console.ReadLine` returns null. `Convert.ToDouble(null)` is 0, so `GetNumericInput` then returns 0 without complaining. The model keeps this behaviour (`ConsoleIO.ToDouble`). As a result the retry loop ends on every finite script.
- The quote line is `Line.QuoteLine(amount)` and carries the computed amount. It stands for `Your estimated total for shipping this package is: $` followed by the amount in `F2` format.
- The validation and quote services hold no state. `Start` calls the module functions directly. The input service is the injected object `inputService`, and its `console` is the process console that `Start` also writes to.

Sign of the measurements and the quote:

- Neither rule has a lower bound. A zero or negative weight always passes (`PackageValidation.WeightBoundary`), and three non-positive measurements always pass (`PackageValidation.DimensionsBoundary`).
- A negative quote is printed as is (`ShippingQuote.QuoteCanBeNegative`).

## Model

| member | source | states |
|---|---|---|
| `PackageValidation.ValidateWeight` | Program.cs:64-73 | passes exactly when weight <= 50; the error is empty on a pass and the "too heavy" text on a failure |
| `PackageValidation.ValidateDimensions` | Program.cs:75-84 | passes exactly when width + height + length <= 50; the error is empty on a pass and the "too big" text on a failure |
| `PackageValidation.WeightBoundary` | Program.cs:61-73 | a weight of exactly 50 passes, anything above 50 fails with the "too heavy" text, and zero or negative weights pass (no lower bound) |
| `PackageValidation.WeightMonotone` | Program.cs:64-73 | if a weight passes, every smaller weight passes too |
| `PackageValidation.DimensionsBoundary` | Program.cs:75-84 | a sum of exactly 50 (e.g. 0, 0, 50) passes, a sum above 50 fails with the "too big" text, and non-positive measurements pass |
| `PackageValidation.DimensionsSymmetric` | Program.cs:75-84 | swapping any two of width, height and length leaves the verdict unchanged |
| `PackageValidation.DimensionsDependOnSum` | Program.cs:75-84 | two packages whose measurements have the same sum get the same verdict |
| `ShippingQuote.CalculateQuote` | Program.cs:90-93 | 100 times the quote is exactly the product of width, height, length and weight: no rounding or clamping |
| `ShippingQuote.QuoteZero` | Program.cs:90-93 | the quote is zero exactly when one of the four factors is zero |
| `ShippingQuote.QuoteNonNegative` | Program.cs:90-93 | non-negative measurements give a non-negative quote |
| `ShippingQuote.QuoteCanBeNegative` | Program.cs:90-93 | no sign check: weight -1 with sides 10 gives a quote of -10 |
| `ShippingQuote.QuoteLinearInWeight` | Program.cs:90-93 | scaling the weight by k scales the quote by k |
| `ConsoleIO.Console.WriteLine` | Program.cs:45 | appends one line to the output and reads nothing |
| `ConsoleIO.ToDouble` | Program.cs:48 | a null line (end of input) converts to 0; any other line gives its own outcome, a number or a conversion failure |
| `ConsoleIO.Console.ReadLine` | Program.cs:48 | consumes the next typed line, or yields null once the script is exhausted; writes nothing |
| `NumericInput.ReadNumber` | Program.cs:41-55 | a call never gives back input: what it leaves unread is no longer than what it was given |
| `NumericInput.ReadNumberResult` | Program.cs:41-55 | consumes the malformed attempts and the first parsed one, and returns that first parsed value; at end of input it consumes everything and returns 0 |
| `NumericInput.ReadNumberTrace` | Program.cs:43-54 | with k malformed attempts first, the output is k pairs of (prompt, retry message) followed by one final prompt |
| `NumericInput.ReadNumberCounts` | Program.cs:43-54 | exactly one retry message per malformed attempt and one prompt per attempt read |
| `NumericInput.ReadNumberLines` | Program.cs:43-54 | the reader writes nothing but its own prompt and the retry message |
| `NumericInput.ConsoleInputService.GetNumericInput` | Program.cs:41-55 | the loop returns the value given by `ReadNumber`, leaves the unread input given by it, and appends exactly its lines to the console |
| `ShippingApp.Session` | Program.cs:113-142 | every session starts with the welcome and ends with the "too heavy", the "too big" or the thank-you line; it never gives back input |
| `ShippingApp.WeightRejected` | Program.cs:118-124 | a refused weight gives exactly: welcome, the weight prompt(s), the weight error; no dimension prompt, no quote, no thank-you |
| `ShippingApp.DimensionsRejected` | Program.cs:126-136 | a refused size gives all four readings followed by the "too big" line; no quote and no thank-you |
| `ShippingApp.QuoteIffAccepted` | Program.cs:131-141 | a quote line and the thank-you appear exactly when both rules pass; they are then the last two lines, and the quote is the one for the four values read |
| `ShippingApp.LineOfCollected` | Program.cs:113-129 | before its verdict the session writes only the welcome, the four prompts and the retry message |
| `ShippingApp.AcceptedWeightTrace` | Program.cs:126-141 | once the weight passes, the collected lines are followed only by verdict lines |
| `ShippingApp.CollectedSegment` | Program.cs:126-129 | among the lines before the verdict, width prompts lie in the width segment, height prompts in the height segment, and length prompts after both |
| `ShippingApp.SegmentOf` | Program.cs:126-129 | width prompts lie in the width segment of the trace, height prompts in the height segment, length prompts in the length segment |
| `ShippingApp.DimensionOrderAccepted` | Program.cs:126-129 | once the weight passes, no width prompt comes after a height or length prompt, and no height prompt after a length prompt |
| `ShippingApp.DimensionOrder` | Program.cs:118-129 | for every script, dimensions are asked in the fixed order width, height, length: no width prompt after a height or length prompt, no height prompt after a length prompt |
| `ShippingApp.ScenarioAllTens` | Program.cs:113-142 | weight 10 and sides 10, 10, 10 give the quote 100 and the thank-you |
| `ShippingApp.ScenarioTooHeavy` | Program.cs:118-124 | weight 60 gives welcome, one prompt, the "too heavy" line |
| `ShippingApp.ScenarioTooBig` | Program.cs:126-136 | weight 5 and sides 20, 20, 20 give the four prompts and the "too big" line |
| `ShippingApp.ScenarioBoundaries` | Program.cs:113-142 | weight 50 and sides 0, 0, 50 are both accepted at the limit; the quote is 0 |
| `ShippingApp.ScenarioRetry` | Program.cs:41-55 | a malformed weight line is answered by the retry message and the prompt again |
| `ShippingApp.ShippingQuoteApplication.constructor` | Program.cs:103-111 | stores the injected input service, whose console the application then uses |
| `ShippingApp.ShippingQuoteApplication.Start` | Program.cs:113-142 | the method writes exactly the trace `Session` gives for the script it finds and leaves the unread rest given by it |

## Left out

- IEEE-754 `double`: NaN, infinities and rounding in the sum and the product are not modelled; all arithmetic is on `real`. For example, a NaN weight would pass the C# check, because NaN > 50 is false.
- `Convert.ToDouble` parsing (culture-dependent text-to-number conversion) is not modelled. Each typed line is given by its outcome: a number, a malformed line, or end of input (null, which converts to 0).
- `F2` currency formatting of the quote line: the line carries the real amount, not its text.
- Exceptions from `Console.ReadLine` itself (I/O errors), which the `catch` would also turn into a retry, are not modelled.
- The dependency-injection wiring in `Main` (Program.cs:6-16) and the interfaces (Program.cs:20-36) are not modelled. They only choose the concrete services.
- Only the input service is injected into `ShippingQuoteApplication`. The validation and quote services hold no state, so `Start` calls the module functions directly instead of storing them (Program.cs:100-101, 109-110).
- Infinite input streams: the `while (true)` retry over a stream of malformed lines that never ends is outside the model; only finite scripts are modelled.
