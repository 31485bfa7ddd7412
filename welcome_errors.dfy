/** The welcome pages' error-description resolver: turns whatever error value
    reached the login or signup form into the text shown to the user, using a
    fixed table of messages keyed by the server's error code. */
module WelcomeErrors {
  import opened Wrappers

  /** The two fields the resolver reads from an error object; a field that is
      missing is `None` (undefined). */
  datatype CodedError = CodedError(code: Option<string>, desc: Option<string>)

  /** The shapes of input the resolver tells apart. */
  datatype ErrorInput =
    | Text(text: string)         // a string
    | Coded(coded: CodedError)   // an instance of the coded-error response class
    | Wrapped(error: CodedError) // any other value whose `.error` field is truthy
    | Other                      // any other value that is neither null nor undefined
    | Nullish                    // null or undefined: reading `.error` throws

  const UserNotFound := "USER_NOT_FOUND"
  const EmailNotFound := "EMAIL_NOT_FOUND"
  const WrongPassword := "WRONG_PASSWORD"

  /** The message shared by the three failed-credentials codes. */
  const BadCredentials := "Incorrect email address and / or password."

  const UnknownError := "Unknown error"

  const ErrorMessages: map<string, string> := map[
    UserNotFound := BadCredentials,
    "EMAIL_EXISTS" := "E-Mail already exists",
    "USER_BLOCKED" := "USER_BLOCKED",
    "NOT_ACTIVATED" := "NOT_ACTIVATED",
    "USER_NOT_VERIFIED" := "USER_NOT_VERIFIED",
    "INITIAL_PARAMS" := "INITIAL_PARAMS",
    "INITIAL_EMAIL" := "INITIAL_EMAIL",
    "INITIAL_PASSWORD" := "INITIAL_PASSWORD",
    EmailNotFound := BadCredentials,
    WrongPassword := BadCredentials
  ]

  /** The table read with a possibly undefined key (an undefined key reads
      the property "undefined", which the table does not have). */
  function Lookup(code: Option<string>): (r: Option<string>)
    ensures r.Some? <==> KnownCode(code)
    ensures r.Some? ==> r.value == ErrorMessages[code.value] && Truthy(r)
  {
    if code.Some? && code.value in ErrorMessages then Some(ErrorMessages[code.value]) else None
  }

  predicate KnownCode(code: Option<string>) {
    code.Some? && code.value in ErrorMessages
  }

  /** The table: ten codes, the three failed-credentials codes sharing one
      message, "EMAIL_EXISTS" with its own, and the other six codes mapped to
      themselves. */
  lemma ErrorMessagesTable()
    ensures ErrorMessages.Keys == {UserNotFound, EmailNotFound, WrongPassword, "EMAIL_EXISTS",
                                   "USER_BLOCKED", "NOT_ACTIVATED", "USER_NOT_VERIFIED",
                                   "INITIAL_PARAMS", "INITIAL_EMAIL", "INITIAL_PASSWORD"}
    ensures forall c :: c in ErrorMessages && ErrorMessages[c] == BadCredentials ==>
              c == UserNotFound || c == EmailNotFound || c == WrongPassword
    ensures ErrorMessages["EMAIL_EXISTS"] == "E-Mail already exists"
    ensures forall c :: c in ErrorMessages && c != "EMAIL_EXISTS" && ErrorMessages[c] != BadCredentials ==>
              ErrorMessages[c] == c
  {
  }

  /** `table[code] || desc || code`: the table message when the code has one,
      otherwise a non-empty description, otherwise the code itself (which may
      be empty or undefined). */
  function DescribeCoded(e: CodedError): (r: Option<string>)
    ensures KnownCode(e.code) ==> r == Some(ErrorMessages[e.code.value])
    ensures !KnownCode(e.code) && Truthy(e.desc) ==> r == e.desc
    ensures !KnownCode(e.code) && !Truthy(e.desc) ==> r == e.code
  {
    Or(Or(Lookup(e.code), e.desc), e.code)
  }

  /** The resolver. Its result is `None` when it returns undefined, which the
      declared string result type does not admit but the code allows. */
  function GetErrorDesc(input: ErrorInput): (r: Option<string>)
    requires !input.Nullish?
    ensures input.Other? ==> r == Some(UnknownError)
    ensures r.None? <==> (input.Coded? || input.Wrapped?)
                         && (if input.Coded? then input.coded else input.error).code.None?
                         && !Truthy((if input.Coded? then input.coded else input.error).desc)
  {
    match input
    case Text(s) => Some(s)
    case Coded(e) => DescribeCoded(e)
    case Wrapped(e) => DescribeCoded(e)
    case Other => Some(UnknownError)
  }

  /** A string input is returned as it is, even the empty string. */
  lemma TextReturnedUnchanged(s: string)
    ensures GetErrorDesc(Text(s)) == Some(s)
  {
  }

  /** A wrapper is described exactly as the coded error it carries. */
  lemma WrappedAgreesWithCoded(e: CodedError)
    ensures GetErrorDesc(Wrapped(e)) == GetErrorDesc(Coded(e))
  {
  }

  /** A code the table knows always yields its table message, whatever the
      description says, and that message is never empty. */
  lemma KnownCodeYieldsTableMessage(code: string, desc: Option<string>)
    requires code in ErrorMessages
    ensures GetErrorDesc(Coded(CodedError(Some(code), desc))) == Some(ErrorMessages[code])
    ensures GetErrorDesc(Wrapped(CodedError(Some(code), desc))) == Some(ErrorMessages[code])
    ensures ErrorMessages[code] != ""
  {
  }

  /** An unknown code with a non-empty description yields the description;
      with no usable description it yields the code. */
  lemma UnknownCodeFallsBack(code: Option<string>, desc: Option<string>)
    requires code.Some? ==> code.value !in ErrorMessages
    ensures Truthy(desc) ==> GetErrorDesc(Coded(CodedError(code, desc))) == desc
    ensures !Truthy(desc) ==> GetErrorDesc(Coded(CodedError(code, desc))) == code
  {
  }

  /** The three failed-credentials codes are indistinguishable in the output:
      the message does not reveal whether the account, the e-mail address or
      the password was wrong. */
  lemma CredentialErrorsIndistinguishable(c1: string, c2: string, d1: Option<string>, d2: Option<string>)
    requires c1 == UserNotFound || c1 == EmailNotFound || c1 == WrongPassword
    requires c2 == UserNotFound || c2 == EmailNotFound || c2 == WrongPassword
    ensures GetErrorDesc(Coded(CodedError(Some(c1), d1))) == GetErrorDesc(Coded(CodedError(Some(c2), d2)))
    ensures GetErrorDesc(Coded(CodedError(Some(c1), d1))) == Some(BadCredentials)
  {
  }
}
