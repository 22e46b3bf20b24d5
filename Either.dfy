/** The two-variant result type the program builds on, with the meaning of the
    `chain` and `fold` combinators it takes from its functional library:
    `chain` passes a `Left` through untouched and feeds the value of a `Right`
    to the next step; `fold` hands the payload to exactly one of two handlers. */
module Either {

  /** Exactly one of a failure payload (`Left`) or a success value (`Right`). */
  datatype Either<+E, +A> = Left(left: E) | Right(right: A)

  /** Sequencing: `chain(f)(ma)`. A `Left` short-circuits; a `Right` is given to `f`. */
  function Chain<E, A, B>(f: A -> Either<E, B>, ma: Either<E, A>): Either<E, B>
  {
    match ma
    case Left(e) => Left(e)
    case Right(a) => f(a)
  }

  /** Elimination: `fold(onLeft, onRight)(ma)`. */
  function Fold<E, A, R>(onLeft: E -> R, onRight: A -> R, ma: Either<E, A>): R
  {
    match ma
    case Left(e) => onLeft(e)
    case Right(a) => onRight(a)
  }

  /** A `Left` goes through any step unchanged, and the outcome does not depend
      on the step at all: the step function is never applied. */
  lemma ChainShortCircuit<E, A, B>(e: E, f: A -> Either<E, B>, g: A -> Either<E, B>)
    ensures Chain(f, Left(e)) == Left(e)
    ensures Chain(f, Left(e)) == Chain(g, Left(e))
  {
  }

  /** Left identity: wrapping a value and chaining is just applying the step. */
  lemma ChainLeftIdentity<E, A, B>(a: A, f: A -> Either<E, B>)
    ensures Chain(f, Right(a)) == f(a)
  {
  }

  /** Right identity: chaining with the wrapping constructor changes nothing. */
  lemma ChainRightIdentity<E, A>(ma: Either<E, A>)
    ensures Chain((a: A) => Right(a), ma) == ma
  {
  }

  /** Chains may be regrouped: a flat pipe equals the nested form. */
  lemma ChainAssociative<E, A, B, C>(ma: Either<E, A>, f: A -> Either<E, B>, g: B -> Either<E, C>)
    ensures Chain(g, Chain(f, ma)) == Chain((a: A) => Chain(g, f(a)), ma)
  {
  }

  /** The result of a chain is a `Right` exactly when the input was a `Right`
      and the step succeeded on its value. */
  lemma ChainRightIff<E, A, B>(f: A -> Either<E, B>, ma: Either<E, A>)
    ensures Chain(f, ma).Right? <==> (ma.Right? && f(ma.right).Right?)
  {
  }

  /** `fold` consults exactly one handler, chosen by the variant; the other
      handler can be replaced by anything without changing the outcome. */
  lemma FoldUsesOneHandler<E, A, R>(onLeft: E -> R, onRight: A -> R,
                                    otherLeft: E -> R, otherRight: A -> R,
                                    ma: Either<E, A>)
    ensures ma.Left? ==> Fold(onLeft, onRight, ma) == onLeft(ma.left)
    ensures ma.Left? ==> Fold(onLeft, onRight, ma) == Fold(onLeft, otherRight, ma)
    ensures ma.Right? ==> Fold(onLeft, onRight, ma) == onRight(ma.right)
    ensures ma.Right? ==> Fold(onLeft, onRight, ma) == Fold(otherLeft, onRight, ma)
  {
  }
}
