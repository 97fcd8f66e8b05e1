/** Codes that both wire formats carry, and their bytes. */
module ErrorCodes {
  import opened Common

  /** Stable wire error codes, in the order of their numbers from 1. */
  datatype ErrorCode =
    | InvalidArgument | Unauthenticated | PermissionDenied | NotFound
    | FailedPrecondition | Unavailable | DeadlineExceeded | ResourceExhausted
    | Cancelled | ProtocolError | Internal | AlreadyExists

  /** Whether a peer may have observed a failed control operation. */
  datatype PeerObservation = NotObserved | MaybeObserved | Observed

  function CodeToWire(c: ErrorCode): byte {
    match c
    case InvalidArgument => 1
    case Unauthenticated => 2
    case PermissionDenied => 3
    case NotFound => 4
    case FailedPrecondition => 5
    case Unavailable => 6
    case DeadlineExceeded => 7
    case ResourceExhausted => 8
    case Cancelled => 9
    case ProtocolError => 10
    case Internal => 11
    case AlreadyExists => 12
  }

  function CodeFromWire(b: byte): Option<ErrorCode> {
    match b
    case 1 => Some(InvalidArgument)
    case 2 => Some(Unauthenticated)
    case 3 => Some(PermissionDenied)
    case 4 => Some(NotFound)
    case 5 => Some(FailedPrecondition)
    case 6 => Some(Unavailable)
    case 7 => Some(DeadlineExceeded)
    case 8 => Some(ResourceExhausted)
    case 9 => Some(Cancelled)
    case 10 => Some(ProtocolError)
    case 11 => Some(Internal)
    case 12 => Some(AlreadyExists)
    case _ => None
  }

  function ObservationToWire(o: PeerObservation): byte {
    match o
    case NotObserved => 1
    case MaybeObserved => 2
    case Observed => 3
  }

  function ObservationFromWire(b: byte): Option<PeerObservation> {
    match b
    case 1 => Some(NotObserved)
    case 2 => Some(MaybeObserved)
    case 3 => Some(Observed)
    case _ => None
  }

  /** The two byte tables are inverse to each other, both ways. */
  lemma CodesExact(c: ErrorCode, b: byte)
    ensures CodeFromWire(CodeToWire(c)) == Some(c)
    ensures CodeFromWire(b) == Some(c) ==> CodeToWire(c) == b
  {
  }

  lemma ObservationsExact(o: PeerObservation, b: byte)
    ensures ObservationFromWire(ObservationToWire(o)) == Some(o)
    ensures ObservationFromWire(b) == Some(o) ==> ObservationToWire(o) == b
  {
  }
}
