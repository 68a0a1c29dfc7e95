/**
 * ShippingQuoteApplication.Start: welcome the user, read and check the
 * weight, read the three dimensions, check them, and print the quote.
 * Each rejection ends the session with its error text.
 */
module ShippingApp {
  import opened Wrappers
  import opened ConsoleIO
  import opened NumericInput
  import opened PackageValidation
  import opened ShippingQuote

  const Welcome: string := "Welcome to Package Express. Please follow the instructions below."
  const WeightPrompt: string := "Please enter the package weight:"
  const WidthPrompt: string := "Please enter the package width:"
  const HeightPrompt: string := "Please enter the package height:"
  const LengthPrompt: string := "Please enter the package length:"
  const ThankYou: string := "Thank you!"

  /** The lines one session writes, and the input it leaves unread. */
  datatype Run = Run(trace: seq<Line>, rest: seq<Attempt>)

  /** The readings of a session, in the order Start makes them. */
  function WeightReading(input: seq<Attempt>): Reading {
    ReadNumber(WeightPrompt, input)
  }

  function WidthReading(input: seq<Attempt>): Reading {
    ReadNumber(WidthPrompt, WeightReading(input).rest)
  }

  function HeightReading(input: seq<Attempt>): Reading {
    ReadNumber(HeightPrompt, WidthReading(input).rest)
  }

  function LengthReading(input: seq<Attempt>): Reading {
    ReadNumber(LengthPrompt, HeightReading(input).rest)
  }

  /** The lines written up to and including the last dimension prompt. */
  function Collected(input: seq<Attempt>): seq<Line> {
    [Say(Welcome)] + WeightReading(input).shown + WidthReading(input).shown + HeightReading(input).shown + LengthReading(input).shown
  }

  /** The specification of Start: everything it writes, given the user's attempts. */
  function Session(input: seq<Attempt>): (r: Run)
    ensures |r.trace| >= 3 && r.trace[0] == Say(Welcome)
    ensures r.trace[|r.trace| - 1] in {Say(TooHeavy), Say(TooBig), Say(ThankYou)}
    ensures |r.rest| <= |input|
  {
    var weight := WeightReading(input);
    var weightCheck := ValidateWeight(weight.value);
    if !weightCheck.ok then
      Run([Say(Welcome)] + weight.shown + [Say(weightCheck.error)], weight.rest)
    else
      var width, height, length := WidthReading(input), HeightReading(input), LengthReading(input);
      var dimensionsCheck := ValidateDimensions(width.value, height.value, length.value);
      if !dimensionsCheck.ok then
        Run(Collected(input) + [Say(dimensionsCheck.error)], length.rest)
      else
        var quote := CalculateQuote(weight.value, width.value, height.value, length.value);
        Run(Collected(input) + [QuoteLine(quote), Say(ThankYou)], length.rest)
  }

  /** True when both business rules pass on the values the session reads. */
  predicate Accepted(input: seq<Attempt>) {
    && ValidateWeight(WeightReading(input).value).ok
    && ValidateDimensions(WidthReading(input).value, HeightReading(input).value, LengthReading(input).value).ok
  }

  /** The quote computed from exactly the four values the session reads. */
  function QuoteOf(input: seq<Attempt>): real {
    CalculateQuote(WeightReading(input).value, WidthReading(input).value, HeightReading(input).value, LengthReading(input).value)
  }

  /**
   * A rejected weight ends the session at once: the trace is the welcome, the
   * weight prompts, and the weight error; nothing is asked about dimensions
   * and no quote is printed.
   */
  lemma WeightRejected(input: seq<Attempt>)
    requires !ValidateWeight(WeightReading(input).value).ok
    ensures Session(input).trace == [Say(Welcome)] + WeightReading(input).shown + [Say(TooHeavy)]
    ensures Session(input).rest == WeightReading(input).rest
    ensures forall line :: line in Session(input).trace ==>
      line !in {Say(WidthPrompt), Say(HeightPrompt), Say(LengthPrompt), Say(ThankYou)} && !line.QuoteLine?
  {
    var trace := Session(input).trace;
    forall line | line in trace
      ensures line !in {Say(WidthPrompt), Say(HeightPrompt), Say(LengthPrompt), Say(ThankYou)} && !line.QuoteLine?
    {
      if line in WeightReading(input).shown {
        ReadNumberLines(WeightPrompt, input, line);
      }
    }
  }

  /** A rejected size ends the session with the size error after all four readings, and no quote. */
  lemma DimensionsRejected(input: seq<Attempt>)
    requires ValidateWeight(WeightReading(input).value).ok
    requires !ValidateDimensions(WidthReading(input).value, HeightReading(input).value, LengthReading(input).value).ok
    ensures Session(input).trace == Collected(input) + [Say(TooBig)]
    ensures Session(input).rest == LengthReading(input).rest
    ensures forall line :: line in Session(input).trace ==> line != Say(ThankYou) && !line.QuoteLine?
  {
    var trace := Session(input).trace;
    assert trace == Collected(input) + [Say(TooBig)];
    forall line | line in trace
      ensures line != Say(ThankYou) && !line.QuoteLine?
    {
      if line in Collected(input) {
        LineOfCollected(input, line);
      }
    }
  }

  /**
   * The quote line and the thank-you are printed exactly when both rules
   * pass, as the last two lines, and the quote is the one for the four
   * values read.
   */
  lemma QuoteIffAccepted(input: seq<Attempt>)
    ensures Accepted(input) ==>
      var trace := Session(input).trace;
      && trace == Collected(input) + [QuoteLine(QuoteOf(input)), Say(ThankYou)]
      && Session(input).rest == LengthReading(input).rest
    ensures (exists line :: line in Session(input).trace && line.QuoteLine?) <==> Accepted(input)
    ensures Say(ThankYou) in Session(input).trace <==> Accepted(input)
  {
    var trace := Session(input).trace;
    if Accepted(input) {
      assert trace[|trace| - 2] == QuoteLine(QuoteOf(input));
    } else if !ValidateWeight(WeightReading(input).value).ok {
      WeightRejected(input);
    } else {
      DimensionsRejected(input);
    }
  }

  /** Any line the session writes before its verdict is a welcome, a prompt or a retry message. */
  lemma LineOfCollected(input: seq<Attempt>, line: Line)
    requires line in Collected(input)
    ensures line in {Say(Welcome), Say(WeightPrompt), Say(WidthPrompt), Say(HeightPrompt), Say(LengthPrompt), Say(InvalidInput)}
  {
    if line in WeightReading(input).shown {
      ReadNumberLines(WeightPrompt, input, line);
    } else if line in WidthReading(input).shown {
      ReadNumberLines(WidthPrompt, WeightReading(input).rest, line);
    } else if line in HeightReading(input).shown {
      ReadNumberLines(HeightPrompt, WidthReading(input).rest, line);
    } else if line in LengthReading(input).shown {
      ReadNumberLines(LengthPrompt, HeightReading(input).rest, line);
    }
  }

  /**
   * Once the weight is accepted, the dimensions are asked in the fixed order
   * width, height, length: no width prompt comes after a height or length
   * prompt, and no height prompt after a length prompt.
   */
  lemma DimensionOrderAccepted(input: seq<Attempt>, i: nat, j: nat)
    requires ValidateWeight(WeightReading(input).value).ok
    requires i < j < |Session(input).trace|
    ensures Session(input).trace[j] == Say(WidthPrompt) ==>
      Session(input).trace[i] != Say(HeightPrompt) && Session(input).trace[i] != Say(LengthPrompt)
    ensures Session(input).trace[j] == Say(HeightPrompt) ==> Session(input).trace[i] != Say(LengthPrompt)
  {
    var trace := Session(input).trace;
    var w, wd, h, l := WeightReading(input).shown, WidthReading(input).shown, HeightReading(input).shown, LengthReading(input).shown;
    var a := 1 + |w|;
    var b := a + |wd|;
    var c := b + |h|;
    var d := c + |l|;
    assert trace[..d] == Collected(input);
    // Segment of an index: [0, a) welcome and weight, [a, b) width, [b, c) height, [c, d) length, then the verdict.
    if trace[i] == Say(HeightPrompt) || trace[i] == Say(LengthPrompt) {
      SegmentOf(input, i);
    }
    if trace[j] == Say(WidthPrompt) || trace[j] == Say(HeightPrompt) {
      SegmentOf(input, j);
    }
  }

  /**
   * For every script: no width prompt comes after a height or length prompt,
   * and no height prompt after a length prompt. A refused weight asks for no
   * dimension at all.
   */
  lemma DimensionOrder(input: seq<Attempt>, i: nat, j: nat)
    requires i < j < |Session(input).trace|
    ensures Session(input).trace[j] == Say(WidthPrompt) ==>
      Session(input).trace[i] != Say(HeightPrompt) && Session(input).trace[i] != Say(LengthPrompt)
    ensures Session(input).trace[j] == Say(HeightPrompt) ==> Session(input).trace[i] != Say(LengthPrompt)
  {
    if ValidateWeight(WeightReading(input).value).ok {
      DimensionOrderAccepted(input, i, j);
    } else {
      WeightRejected(input);
      assert Session(input).trace[j] in Session(input).trace;
    }
  }

  /**
   * Once the weight passes, the trace is the collected lines followed by the
   * verdict: the size error, or the quote and the thank-you.
   */
  lemma AcceptedWeightTrace(input: seq<Attempt>)
    requires ValidateWeight(WeightReading(input).value).ok
    ensures var trace, n := Session(input).trace, |Collected(input)|;
      && n < |trace|
      && trace[..n] == Collected(input)
      && forall k :: n <= k < |trace| ==> trace[k] in {Say(TooBig), QuoteLine(QuoteOf(input)), Say(ThankYou)}
  {
  }

  /** Where each dimension prompt can stand among the lines collected before the verdict. */
  lemma CollectedSegment(input: seq<Attempt>, i: nat)
    requires i < |Collected(input)|
    ensures var a := 1 + |WeightReading(input).shown|;
      var b := a + |WidthReading(input).shown|;
      var c := b + |HeightReading(input).shown|;
      && (Collected(input)[i] == Say(WidthPrompt) ==> a <= i < b)
      && (Collected(input)[i] == Say(HeightPrompt) ==> b <= i < c)
      && (Collected(input)[i] == Say(LengthPrompt) ==> c <= i)
      && |Collected(input)| == c + |LengthReading(input).shown|
  {
    var w, wd, h, l := WeightReading(input).shown, WidthReading(input).shown, HeightReading(input).shown, LengthReading(input).shown;
    var collected := Collected(input);
    assert collected == [Say(Welcome)] + w + wd + h + l;
    var a := 1 + |w|;
    var b := a + |wd|;
    var c := b + |h|;
    var line := collected[i];
    if i == 0 {
    } else if i < a {
      assert line == w[i - 1];
      ReadNumberLines(WeightPrompt, input, line);
    } else if i < b {
      assert line == wd[i - a];
      ReadNumberLines(WidthPrompt, WeightReading(input).rest, line);
    } else if i < c {
      assert line == h[i - b];
      ReadNumberLines(HeightPrompt, WidthReading(input).rest, line);
    } else {
      assert line == l[i - c];
      ReadNumberLines(LengthPrompt, HeightReading(input).rest, line);
    }
  }

  /** Where each dimension prompt can stand in the trace of an accepted weight. */
  lemma SegmentOf(input: seq<Attempt>, i: nat)
    requires ValidateWeight(WeightReading(input).value).ok
    requires i < |Session(input).trace|
    ensures var a := 1 + |WeightReading(input).shown|;
      var b := a + |WidthReading(input).shown|;
      var c := b + |HeightReading(input).shown|;
      var d := c + |LengthReading(input).shown|;
      && (Session(input).trace[i] == Say(WidthPrompt) ==> a <= i < b)
      && (Session(input).trace[i] == Say(HeightPrompt) ==> b <= i < c)
      && (Session(input).trace[i] == Say(LengthPrompt) ==> c <= i < d)
  {
    AcceptedWeightTrace(input);
    var trace, n := Session(input).trace, |Collected(input)|;
    if i < n {
      assert trace[i] == Collected(input)[i] by { assert trace[..n][i] == trace[i]; }
      CollectedSegment(input, i);
    } else {
      assert trace[i] in {Say(TooBig), QuoteLine(QuoteOf(input)), Say(ThankYou)};
    }
  }

  /** weight 10 and all sides 10: both rules pass and the quote is 100. */
  lemma ScenarioAllTens()
    ensures Session([Some(10.0), Some(10.0), Some(10.0), Some(10.0)]).trace ==
      [Say(Welcome), Say(WeightPrompt), Say(WidthPrompt), Say(HeightPrompt), Say(LengthPrompt),
       QuoteLine(100.0), Say(ThankYou)]
  {
  }

  /** weight 60: refused before any dimension is asked. */
  lemma ScenarioTooHeavy()
    ensures Session([Some(60.0)]).trace == [Say(Welcome), Say(WeightPrompt), Say(TooHeavy)]
  {
  }

  /** weight 5 and sides 20, 20, 20 (sum 60): refused for size. */
  lemma ScenarioTooBig()
    ensures Session([Some(5.0), Some(20.0), Some(20.0), Some(20.0)]).trace ==
      [Say(Welcome), Say(WeightPrompt), Say(WidthPrompt), Say(HeightPrompt), Say(LengthPrompt), Say(TooBig)]
  {
  }

  /** weight 50 and sides 0, 0, 50: both limits are met exactly, and the quote is 0. */
  lemma ScenarioBoundaries()
    ensures Session([Some(50.0), Some(0.0), Some(0.0), Some(50.0)]).trace ==
      [Say(Welcome), Say(WeightPrompt), Say(WidthPrompt), Say(HeightPrompt), Say(LengthPrompt),
       QuoteLine(0.0), Say(ThankYou)]
  {
  }

  /** A malformed weight line is retried before the weight is taken. */
  lemma ScenarioRetry()
    ensures Session([None, Some(60.0)]).trace ==
      [Say(Welcome), Say(WeightPrompt), Say(InvalidInput), Say(WeightPrompt), Say(TooHeavy)]
  {
  }

  /** Proof helper for Start, not a property of the program: regrouping the lines written so far. */
  lemma AppendAssoc(a: seq<Line>, b: seq<Line>, c: seq<Line>)
    ensures a + b + c == a + (b + c)
  {
  }

  class ShippingQuoteApplication {
    /** The injected input service; its console is also where Start writes. */
    const inputService: ConsoleInputService

    constructor (inputService: ConsoleInputService)
      ensures this.inputService == inputService
    {
      this.inputService := inputService;
    }

    method Start()
      modifies inputService.console
      ensures var run := Session(old(inputService.console.input));
        && inputService.console.output == old(inputService.console.output) + run.trace
        && inputService.console.input == run.rest
    {
      var console := inputService.console;
      ghost var script, before := console.input, console.output;
      console.WriteLine(Say(Welcome));

      var weight := inputService.GetNumericInput(WeightPrompt);
      AppendAssoc(before, [Say(Welcome)], WeightReading(script).shown);
      ghost var said := [Say(Welcome)] + WeightReading(script).shown;
      var weightCheck := ValidateWeight(weight);
      if !weightCheck.ok {
        console.WriteLine(Say(weightCheck.error));
        AppendAssoc(before, said, [Say(TooHeavy)]);
        WeightRejected(script);
        return;
      }

      var width := inputService.GetNumericInput(WidthPrompt);
      AppendAssoc(before, said, WidthReading(script).shown);
      said := said + WidthReading(script).shown;
      var height := inputService.GetNumericInput(HeightPrompt);
      AppendAssoc(before, said, HeightReading(script).shown);
      said := said + HeightReading(script).shown;
      var length := inputService.GetNumericInput(LengthPrompt);
      AppendAssoc(before, said, LengthReading(script).shown);
      said := said + LengthReading(script).shown;
      assert said == Collected(script);

      var dimensionsCheck := ValidateDimensions(width, height, length);
      if !dimensionsCheck.ok {
        console.WriteLine(Say(dimensionsCheck.error));
        AppendAssoc(before, said, [Say(TooBig)]);
        DimensionsRejected(script);
        return;
      }

      var quote := CalculateQuote(weight, width, height, length);
      console.WriteLine(QuoteLine(quote));
      AppendAssoc(before, said, [QuoteLine(quote)]);
      console.WriteLine(Say(ThankYou));
      AppendAssoc(before, said + [QuoteLine(quote)], [Say(ThankYou)]);
      assert said + [QuoteLine(quote)] + [Say(ThankYou)] == said + [QuoteLine(quote), Say(ThankYou)];
      QuoteIffAccepted(script);
    }
  }
}
