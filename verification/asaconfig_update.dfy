/**
 Updates of an ASA device's configuration record: the request bodies built by
 client/internal/device/asaconfig/update.go and the PUT each operation issues.

 The PUT is not executed: its outcome is an input (`send`), and each
 operation returns, next to its result, the PUTs it issued. RSA encryption
 (`Rsa`) and JSON marshalling (`marshal`) are foreign code and are parameters.
 */
module AsaConfigUpdate {
  import opened Results
  import opened JsonValues
  import opened Text

  datatype PublicKey = PublicKey(encodedKey: string, keyId: string)

  /** `publicKey` is a pointer in Go and may be nil. */
  datatype UpdateInput = UpdateInput(
    specificUid: string,
    username: string,
    password: string,
    publicKey: Option<PublicKey>,
    state: string)

  datatype UpdateOutput = UpdateOutput(uid: string)

  datatype UpdateLocationOptions = UpdateLocationOptions(specificUid: string, location: string)

  /** An RSA cipher built from an encoded public key; opaque to this model. */
  datatype Cipher = Cipher(handle: string)

  /**
   The RSA utility's outcomes in one run: building a cipher and encrypting with
   it can each fail. RSA encryption pads with random bytes, so `encrypt(c, n, p)`
   is the outcome of the `n`-th encryption of the run (counting from 0): equal
   plaintexts encrypted by different calls may get different ciphertexts, and
   one may fail while the other succeeds.
   */
  datatype Rsa = Rsa(
    newCipher: string -> Result<Cipher, Error>,
    encrypt: (Cipher, nat, string) -> Result<string, Error>)

  /** `encrypt` encrypts the username first and the password second. */
  const UsernameCall: nat := 0
  const PasswordCall: nat := 1

  /** The credentials object; `keyId` is tagged `omitempty`, so an empty key id is not sent. */
  datatype Credentials = Credentials(username: string, password: string, keyId: string)
  {
    function ToJson(): Json
    {
      JObject([Member("username", JString(username)), Member("password", JString(password))]
              + (if keyId == "" then [] else [Member("keyId", JString(keyId))]))
    }
  }

  /** The state machine context of a credentials update: the marshalled credentials. */
  datatype SmContext = SmContext(credentials: string)
  {
    function ToJson(): Json
    {
      JObject([Member("credentials", JString(credentials))])
    }
  }

  /** The body of `Update`. */
  datatype UpdateBody = UpdateBody(state: string, credentials: string)
  {
    function ToJson(): Json
    {
      JObject([Member("state", JString(state)), Member("credentials", JString(credentials))])
    }
  }

  /** The two shapes of the `UpdateCredentials` body: without and with a top-level state. */
  datatype UpdateCredentialsBody =
    | CredentialsOnly(smContext: SmContext)
    | CredentialsWithState(state: string, smContext: SmContext)
  {
    function ToJson(): Json
    {
      match this
      case CredentialsOnly(sm) =>
        JObject([Member("stateMachineContext", sm.ToJson())])
      case CredentialsWithState(st, sm) =>
        JObject([Member("state", JString(st)), Member("stateMachineContext", sm.ToJson())])
    }
  }

  /** The body of `UpdateLocation`. */
  datatype UpdateLocationBody = UpdateLocationBody(queueTriggerState: string, ipv4: string)
  {
    function ToJson(): Json
    {
      JObject([Member("queueTriggerState", JString(queueTriggerState)),
               Member("stateMachineContext", JObject([Member("ipv4", JString(ipv4))]))])
    }
  }

  /** A PUT to the configuration record of the specific device `specificUid`. */
  datatype Put = Put(specificUid: string, body: Json)

  /** The result of an update and the PUTs it issued. */
  datatype UpdateRun = UpdateRun(result: Result<UpdateOutput, Error>, puts: seq<Put>)

  const CertValidated := "CERT_VALIDATED"
  const WaitForUserToUpdateCreds := "WAIT_FOR_USER_TO_UPDATE_CREDS"
  const PreWaitForUserToUpdateCreds := "$PRE_WAIT_FOR_USER_TO_UPDATE_CREDS"
  const PendingLocationUpdate := "PENDING_LOCATION_UPDATE"

  function NewUpdateInput(specificUid: string, username: string, password: string,
                          publicKey: Option<PublicKey>, state: string): UpdateInput
  {
    UpdateInput(specificUid, username, password, publicKey, state)
  }

  /**
   Encrypts the username and then the password of `req` with a cipher built
   from its public key, stopping at the first failure. Only the two
   credentials change.
   */
  function Encrypt(req: UpdateInput, rsa: Rsa): (r: Result<UpdateInput, Error>)
    requires req.publicKey.Some?
    ensures var cipher := rsa.newCipher(req.publicKey.value.encodedKey);
      && (cipher.Failure? ==> r == Failure(cipher.error))
      && (cipher.Success? && rsa.encrypt(cipher.value, UsernameCall, req.username).Failure? ==>
            r == Failure(rsa.encrypt(cipher.value, UsernameCall, req.username).error))
      && (cipher.Success? && rsa.encrypt(cipher.value, UsernameCall, req.username).Success?
          && rsa.encrypt(cipher.value, PasswordCall, req.password).Failure? ==>
            r == Failure(rsa.encrypt(cipher.value, PasswordCall, req.password).error))
      && (r.Success? <==>
            cipher.Success? && rsa.encrypt(cipher.value, UsernameCall, req.username).Success?
            && rsa.encrypt(cipher.value, PasswordCall, req.password).Success?)
    ensures r.Success? ==>
      var cipher := rsa.newCipher(req.publicKey.value.encodedKey).value;
      && r.value.username == rsa.encrypt(cipher, UsernameCall, req.username).value
      && r.value.password == rsa.encrypt(cipher, PasswordCall, req.password).value
      && r.value.specificUid == req.specificUid
      && r.value.publicKey == req.publicKey
      && r.value.state == req.state
  {
    match rsa.newCipher(req.publicKey.value.encodedKey)
    case Failure(e) => Failure(e)
    case Success(cipher) =>
      match rsa.encrypt(cipher, UsernameCall, req.username)
      case Failure(e) => Failure(e)
      case Success(username) =>
        match rsa.encrypt(cipher, PasswordCall, req.password)
        case Failure(e) => Failure(e)
        case Success(password) => Success(req.(username := username, password := password))
  }

  /**
   The credentials object `makeCredentials` marshals: the plaintext username
   and password with no key id when there is no public key; otherwise their
   ciphertexts and the key's id. Works on its own copy of the input.
   */
  function CredentialsFor(inp: UpdateInput, rsa: Rsa): (r: Result<Credentials, Error>)
    ensures inp.publicKey.None? ==> r == Success(Credentials(inp.username, inp.password, ""))
    ensures inp.publicKey.Some? ==>
      (r.Success? <==> Encrypt(inp, rsa).Success?)
      && (r.Failure? ==> r.error == Encrypt(inp, rsa).error)
      && (r.Success? ==>
            && r.value.username == Encrypt(inp, rsa).value.username
            && r.value.password == Encrypt(inp, rsa).value.password
            && r.value.keyId == inp.publicKey.value.keyId)
  {
    match inp.publicKey
    case None => Success(Credentials(inp.username, inp.password, ""))
    case Some(key) =>
      match Encrypt(inp, rsa)
      case Failure(e) => Failure(e)
      case Success(encrypted) => Success(Credentials(encrypted.username, encrypted.password, key.keyId))
  }

  /** `makeCredentials`: the marshalled credentials object, or the encryption error. */
  function MakeCredentials(inp: UpdateInput, rsa: Rsa, marshal: Json -> string): Result<string, Error>
  {
    match CredentialsFor(inp, rsa)
    case Failure(e) => Failure(e)
    case Success(c) => Success(marshal(c.ToJson()))
  }

  /** `makeReqBody`: state "CERT_VALIDATED" and the credentials, nothing else. */
  function MakeReqBody(creds: string): (b: UpdateBody)
    ensures Keys(b.ToJson()) == ["state", "credentials"]
    ensures At(b.ToJson(), ["state"]) == Some(JString("CERT_VALIDATED"))
    ensures At(b.ToJson(), ["credentials"]) == Some(JString(creds))
  {
    var b := UpdateBody(CertValidated, creds);
    LookupFirst(b.ToJson().members, "credentials", 1);
    b
  }

  /**
   `makeUpdateCredentialsReqBody`: in a wait state only the state machine
   context is sent; otherwise a top-level state "WAIT_FOR_USER_TO_UPDATE_CREDS"
   is sent as well. The credentials are the same in both shapes.
   */
  function MakeUpdateCredentialsReqBody(isWaitForUserToUpdateCreds: bool, creds: string): (b: UpdateCredentialsBody)
    ensures At(b.ToJson(), ["stateMachineContext", "credentials"]) == Some(JString(creds))
    ensures Keys(b.ToJson()) ==
      (if isWaitForUserToUpdateCreds then ["stateMachineContext"] else ["state", "stateMachineContext"])
    ensures Keys(At(b.ToJson(), ["stateMachineContext"]).value) == ["credentials"]
    ensures HasKey(b.ToJson(), "state") <==> !isWaitForUserToUpdateCreds
    ensures !isWaitForUserToUpdateCreds ==>
      At(b.ToJson(), ["state"]) == Some(JString("WAIT_FOR_USER_TO_UPDATE_CREDS"))
  {
    if isWaitForUserToUpdateCreds then CredentialsOnly(SmContext(creds))
    else CredentialsWithState(WaitForUserToUpdateCreds, SmContext(creds))
  }

  /** The state test of `UpdateCredentials`: either wait state, ignoring case. */
  predicate IsWaitForUserToUpdateCreds(state: string)
  {
    EqualFold(state, WaitForUserToUpdateCreds) || EqualFold(state, PreWaitForUserToUpdateCreds)
  }

  /** Marshals the credentials and PUTs the `Update` body; nothing is sent when encryption fails. */
  function Update(inp: UpdateInput, rsa: Rsa, marshal: Json -> string,
                  send: Result<UpdateOutput, Error>): (run: UpdateRun)
    ensures MakeCredentials(inp, rsa, marshal).Failure? ==>
      run == UpdateRun(Failure(MakeCredentials(inp, rsa, marshal).error), [])
    ensures MakeCredentials(inp, rsa, marshal).Success? ==>
      && run.result == send
      && |run.puts| == 1
      && run.puts[0].specificUid == inp.specificUid
      && Keys(run.puts[0].body) == ["state", "credentials"]
      && At(run.puts[0].body, ["state"]) == Some(JString("CERT_VALIDATED"))
      && At(run.puts[0].body, ["credentials"]) == Some(JString(MakeCredentials(inp, rsa, marshal).value))
  {
    match MakeCredentials(inp, rsa, marshal)
    case Failure(e) => UpdateRun(Failure(e), [])
    case Success(creds) => UpdateRun(send, [Put(inp.specificUid, MakeReqBody(creds).ToJson())])
  }

  /**
   Marshals the credentials and PUTs one of the two credentials bodies, chosen
   by the case-insensitive wait-state test; nothing is sent when encryption fails.
   */
  function UpdateCredentials(inp: UpdateInput, rsa: Rsa, marshal: Json -> string,
                             send: Result<UpdateOutput, Error>): (run: UpdateRun)
    ensures MakeCredentials(inp, rsa, marshal).Failure? ==>
      run == UpdateRun(Failure(MakeCredentials(inp, rsa, marshal).error), [])
    ensures MakeCredentials(inp, rsa, marshal).Success? ==>
      && run.result == send
      && |run.puts| == 1
      && run.puts[0].specificUid == inp.specificUid
      && At(run.puts[0].body, ["stateMachineContext", "credentials"])
         == Some(JString(MakeCredentials(inp, rsa, marshal).value))
      && Keys(run.puts[0].body) ==
         (if IsWaitForUserToUpdateCreds(inp.state) then ["stateMachineContext"]
          else ["state", "stateMachineContext"])
      && Keys(At(run.puts[0].body, ["stateMachineContext"]).value) == ["credentials"]
      && (HasKey(run.puts[0].body, "state") <==> !IsWaitForUserToUpdateCreds(inp.state))
      && (!IsWaitForUserToUpdateCreds(inp.state) ==>
            At(run.puts[0].body, ["state"]) == Some(JString("WAIT_FOR_USER_TO_UPDATE_CREDS")))
  {
    match MakeCredentials(inp, rsa, marshal)
    case Failure(e) => UpdateRun(Failure(e), [])
    case Success(creds) =>
      var isWait := IsWaitForUserToUpdateCreds(inp.state);
      UpdateRun(send, [Put(inp.specificUid, MakeUpdateCredentialsReqBody(isWait, creds).ToJson())])
  }

  /** PUTs the pending-location-update body with the given location as its IPv4 address. */
  function UpdateLocation(options: UpdateLocationOptions, send: Result<UpdateOutput, Error>): (run: UpdateRun)
    ensures run.result == send
    ensures |run.puts| == 1 && run.puts[0].specificUid == options.specificUid
    ensures Keys(run.puts[0].body) == ["queueTriggerState", "stateMachineContext"]
    ensures At(run.puts[0].body, ["queueTriggerState"]) == Some(JString("PENDING_LOCATION_UPDATE"))
    ensures At(run.puts[0].body, ["stateMachineContext", "ipv4"]) == Some(JString(options.location))
    ensures Keys(At(run.puts[0].body, ["stateMachineContext"]).value) == ["ipv4"]
  {
    UpdateRun(send, [Put(options.specificUid, UpdateLocationBody(PendingLocationUpdate, options.location).ToJson())])
  }
}
