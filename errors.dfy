/** The error codes the backend sends to the browser (back/src/consts/apiErrors.ts). */
module ApiErrors {
  const INTERNAL_ERROR := "internal_error"
  const UNAUTHORIZED := "unauthorized"
  const LOGIN_AND_PASSWORD_REQUIRED := "login_and_password_required"
  const FORBIDDEN := "forbidden"
  const FREE_PLACE := "free_place"
  const ALREADY_TAKEN := "already_taken"
  const CANT_RELEASE := "cant_release"

  /** Every code above, in declaration order. */
  const ALL_CODES: seq<string> :=
    [INTERNAL_ERROR, UNAUTHORIZED, LOGIN_AND_PASSWORD_REQUIRED, FORBIDDEN,
     FREE_PLACE, ALREADY_TAKEN, CANT_RELEASE]
}

/** The server's exception type (back/src/services/ServerError.ts). The random
    `nanoid()` key is an argument of the constructor: an arbitrary string fixed
    when the error is created. */
module ServerErrors {
  import opened Wrappers
  import opened Js

  datatype ServerError = ServerError(message: string, status: int, key: string, data: Value)

  /** `new ServerError(errorMessage?, status?, data?)`, with `key` the generated key. */
  function NewServerError(errorMessage: Option<string>, status: Option<int>, data: Value, key: string): (e: ServerError)
    ensures e.status != 0
    ensures status.Some? && status.value != 0 ==> e.status == status.value
    ensures status.None? || status.value == 0 ==> e.status == 500
    ensures e.message == errorMessage.GetOr("")
    ensures e.data == data && e.key == key
  {
    ServerError(errorMessage.GetOr(""), NumOr(status, 500), key, data)
  }

  /** `toString()`: the key, a dash, the message. */
  function ToString(e: ServerError): (s: string)
    ensures |s| == |e.key| + 3 + |e.message|
    ensures s[..|e.key|] == e.key && s[|e.key|..|e.key| + 3] == " - "
    ensures s[|e.key| + 3..] == e.message
  {
    e.key + " - " + e.message
  }
}

/** The error body sent to clients (back/src/models/ErrorMessage.ts). The
    datatype constructor is the class constructor: it stores the three fields
    as given. */
module ErrorMessages {
  import opened Js
  import opened Text

  datatype ErrorMessage = ErrorMessage(key: string, messages: seq<string>, data: Value)

  /** `toString()`: the key, a dash, then the messages joined by `'; '`. */
  function ToString(m: ErrorMessage): (s: string)
    ensures |s| >= |m.key| + 3
    ensures s[..|m.key| + 3] == m.key + " - "
    ensures s[|m.key| + 3..] == Join(m.messages, "; ")
  {
    m.key + " - " + Join(m.messages, "; ")
  }

  /** With no messages the text ends right after the dash. */
  lemma ToStringEmpty(key: string, data: Value)
    ensures ToString(ErrorMessage(key, [], data)) == key + " - "
  {
  }

  /** A single message is printed with no separator. */
  lemma ToStringSingle(key: string, msg: string, data: Value)
    ensures ToString(ErrorMessage(key, [msg], data)) == key + " - " + msg
  {
  }

  /** Each further message adds `'; '` and the message at the end. */
  lemma ToStringSnoc(m: ErrorMessage, msg: string)
    requires m.messages != []
    ensures ToString(m.(messages := m.messages + [msg])) == ToString(m) + "; " + msg
  {
    JoinSnoc(m.messages, msg, "; ");
  }
}
