/** Identifiers, marks and error codes shared by every module. */
module Base {

  datatype Option<+T> = None | Some(value: T)

  datatype Result<+T> = Ok(value: T) | Err(error: Error)

  datatype Mark = Empty | X | O

  type PlayerID = string
  type MatchID = string

  /** Go's int on the 64-bit targets the server is built for. */
  type Int64 = i: int | -0x8000_0000_0000_0000 <= i < 0x8000_0000_0000_0000

  datatype Error =
    // domain
    | CellOutOfBounds | CellOccupied | NotYourTurn | MatchFinished
    | NotAParticipant | EmptyName | NameTooLong | SamePlayer
    // use cases
    | PlayerNotFound | NameTaken | PasswordTooShort | PasswordTooLong
    | AlreadyQueued | AlreadyInMatch | NoActiveMatch
    // stored text
    | MoveTooShort | UnknownMark | BadNumber | UnknownStatus

  function Opponent(m: Mark): Mark {
    match m
    case X => O
    case O => X
    case Empty => Empty
  }

  /** Every element of s but the one at i. */
  function Without<T>(s: seq<T>, i: nat): seq<T>
    requires i < |s|
  {
    s[..i] + s[i + 1..]
  }
}
