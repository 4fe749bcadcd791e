/**
 Mapping of a rejected auth call to the message shown in the form's live
 region, together with the error taxonomy it implements: an authorization
 failure, a failure the server explained, and everything else.
 */
module ErrorMapping {
  import opened AuthTypes

  /**
   True when `data.message` is present and truthy. Only string messages are
   modelled, and the empty string is the one falsy string.
   */
  predicate HasServerMessage(f: Failure)
    ensures f.message.None? ==> !HasServerMessage(f)
    ensures f.message == Some("") ==> !HasServerMessage(f)
    ensures HasServerMessage(f) <==> f.message.Some? && |f.message.value| > 0
  {
    f.message.Some? && f.message.value != ""
  }

  /**
   The catch branch of the submit handler: pick the server message or the
   generic fallback, then let a 401 status override both.
   */
  function ErrorMessage(f: Failure): (msg: string)
    ensures f.status == Some(UnauthorizedStatus) ==> msg == InvalidCredentials
    ensures f.status != Some(UnauthorizedStatus) && HasServerMessage(f) ==> msg == f.message.value
    ensures f.status != Some(UnauthorizedStatus) && !HasServerMessage(f) ==> msg == UnexpectedError
    ensures msg != ""
  {
    var message := if HasServerMessage(f) then f.message.value else UnexpectedError;
    if f.status == Some(UnauthorizedStatus) then InvalidCredentials else message
  }

  /** The three kinds of remote failure the form distinguishes. */
  datatype ErrorKind = Unauthorized | ServerReported(text: string) | Unclassified

  /** Classification by kind: authorization first, then a server explanation, else unknown. */
  function Classify(f: Failure): (k: ErrorKind)
    ensures k.Unauthorized? <==> f.status == Some(UnauthorizedStatus)
    ensures k.ServerReported? <==> f.status != Some(UnauthorizedStatus) && HasServerMessage(f)
    ensures k.ServerReported? ==> f.message == Some(k.text) && k.text != ""
    ensures k.Unclassified? <==> f.status != Some(UnauthorizedStatus) && !HasServerMessage(f)
  {
    if f.status == Some(UnauthorizedStatus) then Unauthorized
    else if HasServerMessage(f) then ServerReported(f.message.value)
    else Unclassified
  }

  /** The user-facing text of each kind. */
  function Describe(k: ErrorKind): string {
    match k
    case Unauthorized => InvalidCredentials
    case ServerReported(text) => text
    case Unclassified => UnexpectedError
  }

  /** The message the handler computes is the text of the failure's kind. */
  lemma ErrorMessageMatchesKind(f: Failure)
    ensures ErrorMessage(f) == Describe(Classify(f))
  {
  }

  /** Under a 401 the server's message is never shown, whatever it says. */
  lemma UnauthorizedIgnoresServerMessage(f: Failure, other: Option<string>)
    requires f.status == Some(UnauthorizedStatus)
    ensures ErrorMessage(f) == ErrorMessage(f.(message := other)) == InvalidCredentials
  {
  }

  /** A failure always produces a visible message drawn from the fixed texts or the server's. */
  lemma ErrorMessageOrigin(f: Failure)
    ensures var msg := ErrorMessage(f);
      msg != "" && (msg == InvalidCredentials || msg == UnexpectedError || f.message == Some(msg))
  {
  }
}
