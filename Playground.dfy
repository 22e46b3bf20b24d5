/** The demonstration script: two toy steps that return a constrained result,
    four pipelines built from them (two with nested chains, two with a mutable
    context object), and the dispatch of each outcome to an error or success
    report. */
module Playground {
  import opened Either
  import NumberText

  /** The failure payload: an ordered list of messages. */
  datatype ValidationErrors = ValidationErrors(errors: seq<string>)

  type ConstrainedEither<A> = Either<ValidationErrors, A>

  const DivideByZeroMessage: string := "You can't divide by 0!"

  const DivideByZero: ValidationErrors := ValidationErrors([DivideByZeroMessage])

  /** The two preset seeds every pipeline starts from. */
  const NumericEither: ConstrainedEither<real> := Right(42.0)

  const StringEither: ConstrainedEither<string> := Right(" is the result!")

  /** Divides `x` by `y`, refusing every divisor that is not positive. */
  function DivideBy(x: real, y: real): (r: ConstrainedEither<real>)
    ensures r.Left? <==> y <= 0.0
    ensures r.Left? ==> r.left == DivideByZero
    ensures r.Right? ==> r.right * y == x
  {
    if y <= 0.0 then Left(DivideByZero) else Right(x / y)
  }

  /** The number's text followed by `text`; never fails. */
  function Prettify(num: real, text: string): (r: ConstrainedEither<string>)
    ensures r.Right?
    ensures |r.right| >= |text|
    ensures r.right[|r.right| - |text|..] == text
    ensures r.right[..|r.right| - |text|] == NumberText.Render(num)
  {
    Right(NumberText.Render(num) + text)
  }

  /** A whole non-negative number is rendered as its digits, and those digits
      read back as the number. */
  lemma PrettifyNat(n: nat, text: string)
    ensures Prettify(n as real, text) == Right(NumberText.NatToDecimal(n) + text)
    ensures var s := Prettify(n as real, text).right;
            NumberText.AllDigits(s[..|s| - |text|]) &&
            NumberText.DecimalValue(s[..|s| - |text|]) == n
  {
    NumberText.RenderWhole(n);
    NumberText.RenderNatRoundTrip(n);
  }

  lemma DivideByExample()
    ensures DivideBy(42.0, 2.0) == Right(21.0)
    ensures DivideBy(10.0, 2.0) == Right(5.0)
    ensures DivideBy(10.0, 0.0) == Left(DivideByZero)
    ensures DivideBy(10.0, -1.0) == Left(DivideByZero)
  {
  }

  lemma PrettifyExample()
    ensures Prettify(21.0, " is the result!") == Right("21 is the result!")
  {
    PrettifyNat(21, " is the result!");
    assert NumberText.DigitChar(2) == '2' && NumberText.DigitChar(1) == '1';
    assert NumberText.NatToDecimal(21) == "21";
    assert "21" + " is the result!" == "21 is the result!";
  }

  //////////////////// Nested chains

  /** The nested-chain pipeline: bind `text`, then inside that step bind the
      number, divide it, and hand quotient and `text` to the final step. The
      program's final step is `Prettify`. */
  function NestedPipeline(texts: ConstrainedEither<string>, numbers: ConstrainedEither<real>,
                          divisor: real, finish: (real, string) -> ConstrainedEither<string>)
    : ConstrainedEither<string>
  {
    Chain((text: string) =>
            Chain((q: real) => finish(q, text),
                  Chain((n: real) => DivideBy(n, divisor), numbers)),
          texts)
  }

  /** What the pipeline computes, written as the sequence of bindings it
      stands for: the first failure wins, otherwise the final step decides. */
  lemma NestedPipelineOutcome(texts: ConstrainedEither<string>, numbers: ConstrainedEither<real>,
                              divisor: real, finish: (real, string) -> ConstrainedEither<string>)
    ensures NestedPipeline(texts, numbers, divisor, finish) ==
            if texts.Left? then Left(texts.left)
            else if numbers.Left? then Left(numbers.left)
            else if divisor <= 0.0 then Left(DivideByZero)
            else finish(numbers.right / divisor, texts.right)
  {
  }

  /** With a divisor that is not positive, the final step is never reached:
      the outcome is the division error whatever that step would do. */
  lemma NestedPipelineSkipsFinish(text: string, n: real, divisor: real,
                                  finish: (real, string) -> ConstrainedEither<string>)
    requires divisor <= 0.0
    ensures NestedPipeline(Right(text), Right(n), divisor, finish) == Left(DivideByZero)
  {
  }

  function NestedEithers1(): ConstrainedEither<string>
  {
    NestedPipeline(StringEither, NumericEither, 2.0, Prettify)
  }

  function WillDefinitelyFail1(): ConstrainedEither<string>
  {
    NestedPipeline(StringEither, NumericEither, 0.0, Prettify)
  }

  lemma NestedEithers1Result()
    ensures NestedEithers1() == Right("21 is the result!")
  {
    NestedPipelineOutcome(StringEither, NumericEither, 2.0, Prettify);
    assert 42.0 / 2.0 == 21.0;
    PrettifyExample();
  }

  lemma WillDefinitelyFail1Result(finish: (real, string) -> ConstrainedEither<string>)
    ensures WillDefinitelyFail1() == Left(DivideByZero)
    ensures NestedPipeline(StringEither, NumericEither, 0.0, finish) == Left(DivideByZero)
  {
    NestedPipelineSkipsFinish(" is the result!", 42.0, 0.0, finish);
    NestedPipelineSkipsFinish(" is the result!", 42.0, 0.0, Prettify);
  }

  //////////////////// Context object

  /** The mutable context object a flat pipeline stashes earlier values in. */
  class Context {
    var data: map<string, string>

    constructor ()
      ensures data == map[]
    {
      data := map[];
    }

    /** `doSet(data)(key, val)`: writes one key in place and succeeds with the
        very same context object. */
    method DoSet(key: string, val: string) returns (r: ConstrainedEither<Context>)
      modifies this
      ensures data == old(data)[key := val]
      ensures r == Right(this)
    {
      data := data[key := val];
      r := Right(this);
    }
  }

  /** The flat pipeline over a fresh context: stash `text`, switch to the
      number, divide, then hand the quotient and the stashed `text` to the
      final step. It agrees with the nested pipeline on all inputs, and the
      read of the stashed key always finds it. */
  method ContextPipeline(texts: ConstrainedEither<string>, numbers: ConstrainedEither<real>,
                         divisor: real, finish: (real, string) -> ConstrainedEither<string>)
    returns (r: ConstrainedEither<string>)
    ensures r == NestedPipeline(texts, numbers, divisor, finish)
  {
    var data := new Context();
    var stashed: ConstrainedEither<Context>;
    match texts {
      case Left(e) =>
        stashed := Left(e);
      case Right(text) =>
        stashed := data.DoSet("text", text);
    }
    var number := Chain((_: Context) => numbers, stashed);
    var quotient := Chain((n: real) => DivideBy(n, divisor), number);
    match quotient {
      case Left(e) =>
        r := Left(e);
      case Right(q) =>
        r := finish(q, data.data["text"]);
    }
    NestedPipelineOutcome(texts, numbers, divisor, finish);
  }

  /** In the context-object style too, with a divisor that is not positive
      the final step is never reached: the outcome is the division error
      whatever that step would do. */
  method ContextPipelineSkipsFinish(text: string, n: real, divisor: real,
                                    finish: (real, string) -> ConstrainedEither<string>)
    returns (r: ConstrainedEither<string>)
    requires divisor <= 0.0
    ensures r == Left(DivideByZero)
  {
    r := ContextPipeline(Right(text), Right(n), divisor, finish);
    NestedPipelineSkipsFinish(text, n, divisor, finish);
  }

  method NestedEithers2() returns (r: ConstrainedEither<string>)
    ensures r == NestedEithers1()
    ensures r == Right("21 is the result!")
  {
    r := ContextPipeline(StringEither, NumericEither, 2.0, Prettify);
    NestedEithers1Result();
  }

  method WillDefinitelyFail2() returns (r: ConstrainedEither<string>)
    ensures r == WillDefinitelyFail1()
    ensures r == Left(DivideByZero)
  {
    r := ContextPipeline(StringEither, NumericEither, 0.0, Prettify);
    WillDefinitelyFail1Result(Prettify);
  }

  //////////////////// Consuming the result

  /** Which console stream `handleResult` writes to, with the payload it hands
      over after the label. */
  datatype Report = ErrorReport(errors: ValidationErrors) | SuccessReport(text: string)

  function HandleResult(result: ConstrainedEither<string>): (rep: Report)
    ensures rep.ErrorReport? <==> result.Left?
    ensures result.Left? ==> rep.errors == result.left
    ensures result.Right? ==> rep.text == result.right
  {
    Fold((e: ValidationErrors) => ErrorReport(e), (t: string) => SuccessReport(t), result)
  }

  /** The program: the four pipelines in order, each consumed by `HandleResult`. */
  method RunProgram() returns (reports: seq<Report>)
    ensures reports == [SuccessReport("21 is the result!"), ErrorReport(DivideByZero),
                        SuccessReport("21 is the result!"), ErrorReport(DivideByZero)]
  {
    NestedEithers1Result();
    WillDefinitelyFail1Result(Prettify);
    var third := NestedEithers2();
    var fourth := WillDefinitelyFail2();
    reports := [HandleResult(NestedEithers1()), HandleResult(WillDefinitelyFail1()),
                HandleResult(third), HandleResult(fourth)];
  }
}
