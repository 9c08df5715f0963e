/** The slice of fp-ts that the saved-object census uses: `Option` for a value
    that may be undefined, and `Either` with the pipeable combinators `map`,
    `chain`, `getOrElse` and `fold`. Task and TaskEither keep only their
    sequential meaning and appear as plain Either values. */
module Fp {

  /** A value that may be absent (JavaScript `undefined`). */
  datatype Option<+T> = None | Some(value: T)

  /** fp-ts `Either<E, A>`: a failure on the left, a success on the right. */
  datatype Either<+E, +A> = Left(left: E) | Right(right: A) {

    /** fp-ts `map(f)`: transforms a success, passes a failure through. */
    function Map<B>(f: A -> B): Either<E, B>
    {
      match this
      case Left(e) => Left(e)
      case Right(a) => Right(f(a))
    }

    /** fp-ts `chain(f)`: runs the next failure-aware step only on a success. */
    function Chain<B>(f: A -> Either<E, B>): Either<E, B>
    {
      match this
      case Left(e) => Left(e)
      case Right(a) => f(a)
    }

    /** fp-ts `getOrElse(onLeft)`: collapses a failure into a success value. */
    function GetOrElse(onLeft: E -> A): A
    {
      match this
      case Left(e) => onLeft(e)
      case Right(a) => a
    }

    /** fp-ts `fold(onLeft, onRight)`: eliminates both sides into one type. */
    function Fold<B>(onLeft: E -> B, onRight: A -> B): B
    {
      match this
      case Left(e) => onLeft(e)
      case Right(a) => onRight(a)
    }
  }

  /** Associativity of `chain`: two steps chained one after the other are
      the same as one step that runs both. This is what lets a `flow` of
      `chain` steps be read as a single walk along a path of keys. */
  lemma ChainAssociative<E, A, B, C>(m: Either<E, A>, f: A -> Either<E, B>, g: B -> Either<E, C>)
    ensures m.Chain(f).Chain(g) == m.Chain((a: A) => f(a).Chain(g))
  {
  }
}
