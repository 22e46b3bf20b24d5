# fp-ts Either playground, modelled in Dafny

The program is a short demonstration of error handling with a two-variant
result type. A `ConstrainedEither<A>` is either `Left` of a `ValidationErrors`
record (an ordered list of messages) or `Right` of a success value. Two toy
steps are built on it: `divideBy` refuses every divisor that is not positive,
and `prettify` joins a number's text to a string and always succeeds. Four
pipelines chain these steps. Two pass earlier values forward through nested
`chain` closures. The other two stash the text in a fresh mutable context
object through `doSet` and read it back in a later step. `handleResult` folds
each outcome into an error report or a success report.

The project has three modules:

- `Either` (`Either.dfy`): the result type, plus the meaning of the library's
  `chain` and `fold` that the program relies on. It proves the identity,
  associativity and short-circuit laws, and that `fold` uses exactly one
  handler.
- `NumberText` (`NumberText.dfy`): how a number becomes text inside a template
  literal. Natural numbers are rendered as canonical decimal digits, and this
  is proved to be a bijection onto canonical digit strings.
- `Playground` (`Playground.dfy`): the script itself.
  - `divideBy` and `prettify` are functions.
  - The nested pipelines are one function, `NestedPipeline`. It is
    parameterised by the divisor and by the final step, which the program
    fills with `Prettify`.
  - The context object is a class, `Context`, whose `map<string, string>`
    field is updated in place by `DoSet`.
  - The context-object pipelines are methods, proved equal to the nested
    pipeline on all inputs.
  - Consuming the four results is a method that returns the four reports in
    order.

The types `ValidationErrors` and `ConstrainedEither` (index.ts:4-6) are
`Playground.ValidationErrors` and `Playground.ConstrainedEither`, over the
datatype `Either.Either`. The seeds `numericEither` and `stringEither`
(index.ts:8-9) are the constants `Playground.NumericEither` and
`Playground.StringEither`. The error payload of index.ts:16 is
`Playground.DivideByZero`.

JavaScript numbers are modelled as `real`, so `x / y` is exact division.

## Model

| member | source | states |
|---|---|---|
| `Either.Chain` | index.ts:33-50 | no contract of its own; its meaning is stated by `ChainShortCircuit`, `ChainLeftIdentity`, `ChainRightIdentity`, `ChainAssociative` and `ChainRightIff` |
| `Either.Fold` | index.ts:96-99 | no contract of its own; its meaning is stated by `FoldUsesOneHandler` |
| `Either.ChainShortCircuit` | index.ts:44-53 | chaining a `Left` gives that same `Left`, and the result is the same for every step function, so the step is never applied |
| `Either.ChainLeftIdentity` | index.ts:33-37 | chaining a step onto `Right(a)` is the step applied to `a` |
| `Either.ChainRightIdentity` | index.ts:31-40 | chaining with the `Right` constructor returns the input unchanged |
| `Either.ChainAssociative` | index.ts:69-75 | a flat pipe of two chains, as in the context-object pipelines, can be regrouped into nested chains, and the result stays the same |
| `Either.ChainRightIff` | index.ts:31-40 | a chain's result is `Right` exactly when its input is `Right` and the step succeeds on its value |
| `Either.FoldUsesOneHandler` | index.ts:94-100 | `fold` returns the `Left` handler's result on a `Left` and the `Right` handler's on a `Right`; the unused handler can be anything |
| `NumberText.NatToDecimal` | index.ts:23 | a natural renders as a non-empty digit string with no leading zero, and it starts with '0' exactly when the number is 0 |
| `NumberText.DecimalValueOfNatToDecimal` | index.ts:23 | reading a rendered natural's digits back gives the number |
| `NumberText.NatToDecimalOfDecimalValue` | index.ts:23 | every canonical digit string is the rendering of the number it denotes |
| `NumberText.NatToDecimalInjective` | index.ts:23 | distinct naturals render differently |
| `NumberText.FractionDigits` | index.ts:23 | the fractional part of a number that is not whole renders as at least one digit, and only digits |
| `NumberText.Render` | index.ts:23 | no contract of its own; its text for whole numbers is stated by `RenderWhole` and `RenderNatRoundTrip` |
| `NumberText.RenderWhole` | index.ts:23 | a whole number renders as its canonical digits, preceded by '-' when it is negative |
| `NumberText.RenderNatRoundTrip` | index.ts:23 | the text of a natural has no sign and no point, and it reads back as the number |
| `Playground.DivideBy` | index.ts:14-20 | the result is `Left` exactly when `y <= 0`, so negative divisors are refused too; the error is the single divide-by-zero message; a `Right` holds the quotient `q` with `q * y == x` |
| `Playground.DivideByExample` | index.ts:14-20 | `divideBy(42, 2)` is `Right(21)` and `divideBy(10, 2)` is `Right(5)`, while divisors 0 and -1 give the divide-by-zero `Left` |
| `Playground.Prettify` | index.ts:22-24 | never fails; the string ends with `text` verbatim, and all that comes before `text` is the number's text |
| `Playground.PrettifyNat` | index.ts:22-24 | for a natural, the part before `text` is all digits and reads back as the number |
| `Playground.PrettifyExample` | index.ts:22-24 | `prettify(21, " is the result!")` is `Right("21 is the result!")` |
| `Playground.NestedPipeline` | index.ts:30-54 | no contract of its own; its outcome is stated by `NestedPipelineOutcome` and `NestedPipelineSkipsFinish` |
| `Playground.NestedEithers1` | index.ts:30-41 | no contract of its own; its value is stated by `NestedEithers1Result` |
| `Playground.WillDefinitelyFail1` | index.ts:43-54 | no contract of its own; its value is stated by `WillDefinitelyFail1Result` |
| `Playground.NestedPipelineOutcome` | index.ts:30-54 | the nested pipeline returns the first `Left` among the text seed, the number seed and the division; otherwise it returns the final step applied to the quotient and the text |
| `Playground.NestedPipelineSkipsFinish` | index.ts:43-54 | with a divisor that is not positive, the pipeline returns the divide-by-zero error whatever the final step (`wontGetHere`) is |
| `Playground.NestedEithers1Result` | index.ts:30-41 | `nestedEithers1()` is `Right("21 is the result!")` |
| `Playground.WillDefinitelyFail1Result` | index.ts:43-54 | `willDefinitelyFail1()` is the divide-by-zero `Left`, and so is the same pipeline with any other final step |
| `Playground.Context.constructor` | index.ts:66 | a fresh context object holds no keys |
| `Playground.Context.DoSet` | index.ts:60-63 | the object's map gets `key := val` in place, no other key changes, and the result is `Right` of that same object, never `Left` |
| `Playground.ContextPipeline` | index.ts:65-89 | the context-object pipeline equals the nested pipeline for every pair of seeds, every divisor and every final step; it reads `data["text"]` only after that key has been written |
| `Playground.ContextPipelineSkipsFinish` | index.ts:78-89 | in the context-object style, a divisor that is not positive gives the divide-by-zero error whatever the final step (`wontGetHere`) is |
| `Playground.NestedEithers2` | index.ts:65-76 | `nestedEithers2()` equals `nestedEithers1()`, which is `Right("21 is the result!")` |
| `Playground.WillDefinitelyFail2` | index.ts:78-89 | `willDefinitelyFail2()` equals `willDefinitelyFail1()`, which is the divide-by-zero `Left` |
| `Playground.HandleResult` | index.ts:93-101 | a `Left` becomes an error report carrying its `ValidationErrors`, and a `Right` becomes a success report carrying its string |
| `Playground.RunProgram` | index.ts:103-106 | the four results are reported in order: success with "21 is the result!", then the divide-by-zero error, then the same success, then the same error |

## Left out

- Console output: the strings written by `console.error` and `console.log`, and how the console formats the error object. `HandleResult` returns which stream is chosen and the payload, but not the label text.
- The internals of the library's `pipe`, `chain`, `fold`, `left` and `right`. The model gives only their standard meaning: `pipe(x, f, g)` is `g(f(x))`.
- `failedEither` (index.ts:10-12): it is defined but no pipeline uses it.
- IEEE-754 floating point. Numbers are exact reals, so binary rounding of quotients is not captured.
- NumberText.Render: JavaScript's shortest round-trip digits also change whole numbers above 2^53, which it prints with trailing zeros (`${2**64}` is "18446744073709552000"). The model prints their exact digits instead.
- NumberText.Render: exponent notation is not modelled. JavaScript uses it for magnitudes of at least 10^21 or below 10^-6.
- NumberText.FractionDigits: JavaScript's shortest round-trip digit choice for binary fractions is not modelled. Through this helper, `NumberText.Render` renders a number that is not whole as its exact decimal expansion, cut off after 20 fractional digits. Whole numbers of magnitude at most 2^53 render exactly as in the source.
- Dynamic typing of the context object. Its keys and values are strings (`map<string, string>`). The source stores arbitrary values under arbitrary keys.
- The curried form `doSet(data)` is modelled as a method on the context object. Binding `data` once is the same as calling `DoSet` on that object.
