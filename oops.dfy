/**
 * The error values of lib/oops and how the HTTP adapter classifies them.
 *
 * Each oops type is a struct with a client message `Msg` and an underlying
 * error `Err`. None of them defines `Unwrap`, so `errors.As` never looks
 * inside `Err`; it only walks the `%w` wrapping built by `fmt.Errorf`.
 */
module Oops {
  import opened Wrappers

  datatype Kind = Internal | Uncategorized | BadRequest | BadValues | Unauthorized | Forbidden | NotFound

  /** An error value as the services build it. */
  datatype Fault =
    | Typed(kind: Kind, msg: string, err: Option<Fault>)  // a value of one of the oops types
    | Plain(text: string)                                 // any other error (driver, parser, ...)
    | Wrap(context: string, inner: Fault)                 // fmt.Errorf("<context>%w", inner)
    | Join(first: Fault, trigger: Fault)                  // fmt.Errorf("%w [triggered by: %w]", first, trigger)

  /** A Go `(T, error)` pair where exactly one side is meaningful. */
  datatype Result<T> = Ok(value: T) | Err(fault: Fault)

  /** The text each oops type falls back to when `Msg` is empty. */
  function DefaultMessage(k: Kind): (r: string)
    ensures r != []
  {
    match k
    case Internal => "Mohon maaf, telah terjadi kesalahan pada sistem kami"
    case Uncategorized => "Terjadi kesalahan yang belum dikategorikan"
    case BadRequest => "Data yang diberikan tidak cukup untuk diproses"
    case BadValues => "Terdapat data yang tidak sesuai dengan ketentuan"
    case Unauthorized => "Anda perlu log-in untuk melakukan aksi ini"
    case Forbidden => "Anda tidak memiliki izin melakukan aksi ini"
    case NotFound => "Data yang dicari tidak ditemukan"
  }

  /** `Error()` of an oops value: the client message, or the type's default. */
  function Message(k: Kind, msg: string): (r: string)
    ensures r != []
    ensures msg != [] ==> r == msg
    ensures msg == [] ==> r == DefaultMessage(k)
  {
    if msg == [] then DefaultMessage(k) else msg
  }

  /** `Error()` of any fault; the `Err` field of an oops value plays no part. */
  function Text(f: Fault): string
  {
    match f
    case Typed(k, msg, _) => Message(k, msg)
    case Plain(t) => t
    case Wrap(c, inner) => c + Text(inner)
    case Join(a, b) => Text(a) + " [triggered by: " + Text(b) + "]"
  }

  /** `errors.As(f, &K{})`: some oops value of kind `k` is on the wrap tree of `f`. */
  predicate Has(f: Fault, k: Kind)
  {
    match f
    case Typed(k2, _, _) => k2 == k
    case Plain(_) => false
    case Wrap(_, inner) => Has(inner, k)
    case Join(a, b) => Has(a, k) || Has(b, k)
  }

  /** The status a lone oops value of kind `k` is reported with. */
  function StatusOf(k: Kind): int
  {
    match k
    case BadRequest => 400
    case BadValues => 400
    case Unauthorized => 401
    case Forbidden => 403
    case NotFound => 404
    case Internal => 500
    case Uncategorized => 500
  }

  /** The client-facing kinds, in the order the adapter's switch tests them. */
  predicate ClientFacing(f: Fault)
  {
    Has(f, BadRequest) || Has(f, BadValues) || Has(f, Unauthorized) || Has(f, Forbidden) || Has(f, NotFound)
  }

  /** `adapter.HttpStatusCode`: the first matching case of the switch decides. */
  function HttpStatusCode(err: Option<Fault>): (code: int)
    ensures code in {400, 401, 403, 404, 500}
    ensures code == 500 <==> err.None? || !ClientFacing(err.value)
    ensures err.Some? && (Has(err.value, BadRequest) || Has(err.value, BadValues)) ==> code == 400
  {
    match err
    case None => 500
    case Some(f) =>
      if Has(f, BadRequest) || Has(f, BadValues) then 400
      else if Has(f, Unauthorized) then 401
      else if Has(f, Forbidden) then 403
      else if Has(f, NotFound) then 404
      else 500
  }

  /** A lone oops value is reported with its own kind's status. */
  lemma StatusOfOopsValue(k: Kind, msg: string, inner: Option<Fault>)
    ensures HttpStatusCode(Some(Typed(k, msg, inner))) == StatusOf(k)
  {
  }

  /** Wrapping with `%w` never changes the status. */
  lemma WrapKeepsStatus(c: string, f: Fault)
    ensures HttpStatusCode(Some(Wrap(c, f))) == HttpStatusCode(Some(f))
  {
  }

  /** The `Err` field is invisible to the adapter: only the outer kind counts. */
  lemma ErrFieldHidden(k: Kind, msg: string, inner: Fault)
    ensures HttpStatusCode(Some(Typed(k, msg, Some(inner)))) == HttpStatusCode(Some(Typed(k, msg, None)))
    ensures Text(Typed(k, msg, Some(inner))) == Text(Typed(k, msg, None))
  {
  }

  /**
   * When a tree holds several kinds, the status is the one of the kind that
   * comes first in switch order (400 before 401 before 403 before 404).
   */
  lemma {:induction false} JoinTakesEarliestCase(a: Fault, b: Fault)
    ensures HttpStatusCode(Some(Join(a, b))) == Earliest(HttpStatusCode(Some(a)), HttpStatusCode(Some(b)))
  {
  }

  /** The smaller of two statuses, except that 500 only wins when both are 500. */
  function Earliest(x: int, y: int): int
  {
    if x == 500 then y else if y == 500 then x else if x <= y then x else y
  }
}
