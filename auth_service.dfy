/** The authentication service: the session token kept in browser storage,
    and the request bodies of the login and signup calls. */
module AuthServices {
  import opened Wrappers
  import opened BrowserStorage
  import opened Http

  /** The key the token is written under and removed from. */
  const LocalTokenKey := "HC_USER_TOKEN"

  /** The key the token is read from: a different one. */
  const TokenReadKey := "token"

  const LogInUrl := "/login"
  const SignUpUrl := "/signup/email"

  /** What the user typed into the login or signup form. */
  datatype AuthRequest = AuthRequest(
    username: Option<string>,
    email: string,
    password: string,
    captcha: Option<string>
  )

  /** The value the crypto helper computes from an e-mail address and a
      password. The hash function itself is not part of this model, so the
      value is kept symbolically, as the arguments it was computed from. */
  datatype PasswordHash = CalculatePasswordHash(email: string, password: string)

  datatype LogInBody = LogInBody(email: string, password: PasswordHash)

  datatype SignUpBody = SignUpBody(
    username: Option<string>,
    email: string,
    password: PasswordHash,
    captcha: Option<string>
  )

  /** The login request: the e-mail address and the password hashed with it. */
  function LogIn(payload: AuthRequest): (r: Request<LogInBody>)
    ensures r.url == LogInUrl
    ensures r.body.email == payload.email
    ensures r.body.password == CalculatePasswordHash(r.body.email, payload.password)
  {
    Post(LogInUrl, LogInBody(payload.email, CalculatePasswordHash(payload.email, payload.password)))
  }

  /** The signup request: the form's fields, with the password replaced by its
      hash under the same e-mail address. */
  function SignUp(payload: AuthRequest): (r: Request<SignUpBody>)
    ensures r.url == SignUpUrl
    ensures r.body.username == payload.username && r.body.email == payload.email
    ensures r.body.captcha == payload.captcha
    ensures r.body.password == CalculatePasswordHash(r.body.email, payload.password)
  {
    Post(SignUpUrl, SignUpBody(payload.username, payload.email,
                               CalculatePasswordHash(payload.email, payload.password), payload.captcha))
  }

  /** Both requests send the same hash for the same form: a user who signed up
      with a password logs in with the value that was registered. */
  lemma SignUpAndLogInSendSameHash(payload: AuthRequest)
    ensures SignUp(payload).body.password == LogIn(payload).body.password
  {
  }

  class AuthService {
    const storage: Storage

    constructor (storage: Storage)
      ensures this.storage == storage
    {
      this.storage := storage;
    }

    /** Reads the token, from the key "token". */
    method GetToken() returns (t: Option<string>)
      ensures t == Get(storage.items, TokenReadKey)
    {
      t := storage.GetItem(TokenReadKey);
    }

    /** Stores the token under its own key; no other key changes, and so
        what `GetToken` reads does not change either. */
    method SetToken(token: string)
      modifies storage
      ensures storage.items == old(storage.items)[LocalTokenKey := token]
      ensures Get(storage.items, TokenReadKey) == old(Get(storage.items, TokenReadKey))
    {
      storage.SetItem(LocalTokenKey, token);
    }

    /** Removes the token's key and nothing else; what `GetToken` reads does
        not change. */
    method UnsetToken()
      modifies storage
      ensures storage.items == old(storage.items) - {LocalTokenKey}
      ensures Get(storage.items, TokenReadKey) == old(Get(storage.items, TokenReadKey))
    {
      storage.RemoveItem(LocalTokenKey);
    }
  }

  /** Storing and then clearing the token leaves the storage as it was,
      except that an earlier token under the same key is gone too. */
  method SetThenUnsetToken(auth: AuthService, token: string)
    modifies auth.storage
    ensures auth.storage.items == old(auth.storage.items) - {LocalTokenKey}
  {
    auth.SetToken(token);
    auth.UnsetToken();
    RemoveAfterSet(old(auth.storage.items), LocalTokenKey, token);
  }

  /** Neither writing nor clearing the token is ever seen by `GetToken`. */
  lemma TokenKeysDiffer(items: map<string, string>, token: string)
    ensures Get(items[LocalTokenKey := token], TokenReadKey) == Get(items, TokenReadKey)
    ensures Get(items - {LocalTokenKey}, TokenReadKey) == Get(items, TokenReadKey)
  {
    SetLeavesOtherKeys(items, LocalTokenKey, token, TokenReadKey);
    RemoveLeavesOtherKeys(items, LocalTokenKey, TokenReadKey);
  }
}
