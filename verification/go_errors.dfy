/**
 * Go error values as the services build them.
 *
 * A sentinel is a package-level `errors.New` value compared by identity; it is
 * named by a kind K. `fmt.Errorf("ctx: %w", e)` wraps e so that errors.Is still
 * sees it; `fmt.Errorf("ctx: %s", e)` keeps only the text and cuts the chain; an
 * inline `errors.New("...")` or a driver error is opaque.
 */
module GoErrors {
  import opened Common

  datatype Error<K> =
    | Sentinel(kind: K)
    | Wrap(context: string, cause: Error<K>)
    | Flatten(context: string, cause: Error<K>)
    | Opaque(text: string)

  /** errors.Is(e, target) for a sentinel target: follows %w wrapping only. */
  predicate Is<K(==)>(e: Error<K>, target: K)
  {
    match e
    case Sentinel(k) => k == target
    case Wrap(_, cause) => Is(cause, target)
    case Flatten(_, _) => false
    case Opaque(_) => false
  }

  /** The sentinel reached by unwrapping e as far as Unwrap goes, if any. */
  function Root<K>(e: Error<K>): (r: Option<K>)
    ensures e.Sentinel? ==> r == Some(e.kind)
    ensures e.Flatten? || e.Opaque? ==> r == None
  {
    match e
    case Sentinel(k) => Some(k)
    case Wrap(_, cause) => Root(cause)
    case Flatten(_, _) => None
    case Opaque(_) => None
  }

  /** errors.Is agrees with looking at the root of the %w chain. */
  lemma {:induction false} IsIffRoot<K>(e: Error<K>, target: K)
    ensures Is(e, target) <==> Root(e) == Some(target)
  {
    match e
    case Sentinel(_) =>
    case Wrap(_, cause) => IsIffRoot(cause, target);
    case Flatten(_, _) =>
    case Opaque(_) =>
  }

  /** A linear chain matches at most one sentinel. */
  lemma IsUnique<K>(e: Error<K>, a: K, b: K)
    requires Is(e, a) && Is(e, b)
    ensures a == b
  {
    IsIffRoot(e, a);
    IsIffRoot(e, b);
  }

  /** err.Error(), given the texts of the sentinels. */
  function Text<K>(e: Error<K>, message: K -> string): string
  {
    match e
    case Sentinel(k) => message(k)
    case Wrap(context, cause) => context + ": " + Text(cause, message)
    case Flatten(context, cause) => context + ": " + Text(cause, message)
    case Opaque(text) => text
  }

  /** Wrapping with %w keeps what errors.Is sees; %s loses it. */
  lemma WrapKeepsIs<K>(e: Error<K>, context: string, target: K)
    ensures Is(Wrap(context, e), target) == Is(e, target)
    ensures !Is(Flatten(context, e), target)
  {
  }
}
