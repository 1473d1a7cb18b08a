/**
 * The program's custom errors. The program declares them in order and the
 * runtime numbers a program's custom errors from 6000 in declaration order;
 * the client spells out the same numbers in its error-kind enumeration and
 * maps each number back to a kind and a message.
 */
module Errors {
  import opened Wrappers

  datatype ErrorKind = NotEnoughEnergy | NotEnoughGold | NotReadyYet | NothingWasPlanted | WrongAuthority

  /** Custom program errors are numbered from this offset. */
  const ERROR_CODE_OFFSET := 6000

  /** Position of each error in the program's declaration. */
  function Ordinal(e: ErrorKind): nat
  {
    match e
    case NotEnoughEnergy => 0
    case NotEnoughGold => 1
    case NotReadyYet => 2
    case NothingWasPlanted => 3
    case WrongAuthority => 4
  }

  /** The message the program attaches to each error. */
  function Message(e: ErrorKind): string
  {
    match e
    case NotEnoughEnergy => "Not enough energy"
    case NotEnoughGold => "Not enough gold"
    case NotReadyYet => "Not ready for harvest yet"
    case NothingWasPlanted => "Nothing was planted"
    case WrongAuthority => "Wrong Authority"
  }

  /** The numeric value the client's enumeration gives each kind. */
  function ErrorCode(e: ErrorKind): nat
  {
    match e
    case NotEnoughEnergy => 6000
    case NotEnoughGold => 6001
    case NotReadyYet => 6002
    case NothingWasPlanted => 6003
    case WrongAuthority => 6004
  }

  datatype ProgramError = ProgramError(kind: ErrorKind, message: string)

  /** The client's table from error number to kind and message. */
  const ERRORS_DICTIONARY: map<nat, ProgramError> := map[
    6000 := ProgramError(NotEnoughEnergy, "Not enough energy"),
    6001 := ProgramError(NotEnoughGold, "Not enough gold"),
    6002 := ProgramError(NotReadyYet, "Not ready for harvest yet"),
    6003 := ProgramError(NothingWasPlanted, "Nothing was planted"),
    6004 := ProgramError(WrongAuthority, "Wrong Authority")]

  /** What the client reports for a failed transaction's error number. */
  function LookupError(code: nat): (r: Option<ProgramError>)
    ensures r.Some? <==> 6000 <= code <= 6004
    ensures r.Some? ==> ErrorCode(r.value.kind) == code
  {
    if code in ERRORS_DICTIONARY then Some(ERRORS_DICTIONARY[code]) else None
  }

  /**
   * The client's numbers are the program's: 6000 plus the declaration position,
   * and the table gives back the kind and the program's message for each one.
   */
  lemma ClientCodesMatchProgram(e: ErrorKind)
    ensures ErrorCode(e) == ERROR_CODE_OFFSET + Ordinal(e)
    ensures LookupError(ErrorCode(e)) == Some(ProgramError(e, Message(e)))
  {
  }

  /** The table is one-to-one: distinct kinds have distinct numbers. */
  lemma ErrorCodeInjective(e1: ErrorKind, e2: ErrorKind)
    ensures ErrorCode(e1) == ErrorCode(e2) <==> e1 == e2
  {
  }
}
