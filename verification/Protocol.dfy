/** The backend messages a driver sees, the errors it can raise, and the
    outcome of an asynchronous operation. */
module Protocol {

  type Bytes = seq<nat>

  type Octet = b: nat | b < 256

  datatype Option<+T> = None | Some(value: T)

  /** The non-localized severity of an error. */
  datatype Severity = Fatal | Panic | Other(text: string)

  datatype ServerError = ServerError(severity: Severity, code: string) {
    predicate IsFatal(): (fatal: bool)
      ensures fatal <==> !severity.Other?
    {
      severity.Fatal? || severity.Panic?
    }
  }

  datatype BackMsg =
    | ParseComplete
    | BindComplete
    | CloseComplete
    | ParameterDescription(oids: seq<nat>)
    | RowDescription(cols: Bytes)
    | NoData
    | DataRow(row: Bytes)
    | CommandComplete(tag: string)
    | EmptyQueryResponse
    | PortalSuspended
    | ReadyForQuery(status: char)
    | ErrorResponse(error: ServerError)
    | Async(notice: string)  // NoticeResponse, NotificationResponse or ParameterStatus

  datatype TransactionStatus = Idle | InTransaction | Failed

  /** An unknown status byte falls back to Idle, the default. */
  function StatusOf(b: char): (status: TransactionStatus)
    ensures status.InTransaction? <==> b == 'T'
    ensures status.Failed? <==> b == 'E'
  {
    if b == 'T' then InTransaction else if b == 'E' then Failed else Idle
  }

  datatype Error =
    | ServerFailure(err: ServerError)
    | LibraryBug(what: string)
    | Io
    | ConnectionBroken
    | InvalidUsage
    | Decode
    | Encode
    | Auth(why: string)
    | Unsupported
  {
    /** Every error counts as breaking the connection, but for the kinds that
        leave the stream where it was. */
    predicate IsConnectionBroken(): (broken: bool)
      ensures ServerFailure? ==> (broken <==> !err.severity.Other?)
      ensures !ServerFailure? ==> (!broken <==> Decode? || Encode? || InvalidUsage?)
    {
      match this
      case ServerFailure(e) => e.IsFatal()
      case Decode | Encode | InvalidUsage => false
      case _ => true
    }
  }

  /** How an awaited operation ends. `Dropped` means that the future never
      completed: it was cancelled, forgotten or unwound by a panic, so nothing
      after the await point was executed. */
  datatype Outcome<+T> = Done(value: T) | Fail(error: Error) | Dropped {
    predicate IsFailure() {
      !Done?
    }

    function PropagateFailure<U>(): Outcome<U>
      requires !Done?
    {
      match this
      case Fail(e) => Fail(e)
      case Dropped => Dropped
    }

    function Extract(): T
      requires Done?
    {
      value
    }
  }

  /** The data rows of a message sequence, in order. */
  function RowsOf(t: seq<BackMsg>): seq<Bytes> {
    if t == [] then []
    else (if t[0].DataRow? then [t[0].row] else []) + RowsOf(t[1..])
  }

  lemma {:induction false} RowsOfConcat(a: seq<BackMsg>, b: seq<BackMsg>)
    ensures RowsOf(a + b) == RowsOf(a) + RowsOf(b)
  {
    if a == [] {
      assert a + b == b;
    } else {
      assert (a + b)[1..] == a[1..] + b;
      RowsOfConcat(a[1..], b);
    }
  }
}
