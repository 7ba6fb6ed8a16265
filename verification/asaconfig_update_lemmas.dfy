/**
 Properties of the ASA configuration updates, stated on the JSON that goes out:
 which credential fields are sent in clear or encrypted, when the key id is
 present, when nothing is sent at all, and how the device's state selects the
 credentials body.
 */
module AsaConfigUpdateLemmas {
  import opened Results
  import opened JsonValues
  import opened Text
  import opened AsaConfigUpdate

  /** Without a public key the credentials go out in clear and carry no key id. */
  lemma PlainCredentialsWithoutKeyId(inp: UpdateInput, rsa: Rsa)
    requires inp.publicKey.None?
    ensures CredentialsFor(inp, rsa).Success?
    ensures var j := CredentialsFor(inp, rsa).value.ToJson();
      && At(j, ["username"]) == Some(JString(inp.username))
      && At(j, ["password"]) == Some(JString(inp.password))
      && !HasKey(j, "keyId")
      && Keys(j) == ["username", "password"]
  {
    var j := CredentialsFor(inp, rsa).value.ToJson();
    LookupFirst(j.members, "password", 1);
  }

  /**
   With a public key and successful encryption, the username and password go
   out as their ciphertexts, and the key id goes with them unless it is empty
   (the field is `omitempty`).
   */
  lemma EncryptedCredentialsCarryKeyId(inp: UpdateInput, rsa: Rsa)
    requires inp.publicKey.Some?
    requires Encrypt(inp, rsa).Success?
    ensures CredentialsFor(inp, rsa).Success?
    ensures var cipher := rsa.newCipher(inp.publicKey.value.encodedKey).value;
      var j := CredentialsFor(inp, rsa).value.ToJson();
      && At(j, ["username"]) == Some(JString(rsa.encrypt(cipher, UsernameCall, inp.username).value))
      && At(j, ["password"]) == Some(JString(rsa.encrypt(cipher, PasswordCall, inp.password).value))
      && (HasKey(j, "keyId") <==> inp.publicKey.value.keyId != "")
      && (inp.publicKey.value.keyId != "" ==> At(j, ["keyId"]) == Some(JString(inp.publicKey.value.keyId)))
  {
    var key := inp.publicKey.value;
    var encrypted := Encrypt(inp, rsa).value;
    var c := CredentialsFor(inp, rsa).value;
    assert c == Credentials(encrypted.username, encrypted.password, key.keyId);
    var j := c.ToJson();
    AtMember(j, "username", 0);
    AtMember(j, "password", 1);
    if key.keyId != "" {
      AtMember(j, "keyId", 2);
    }
  }

  /**
   The two encryptions of a run are independent outcomes: a username equal to
   the password may still be sent as a different ciphertext, and the password's
   encryption may fail after the username's succeeded.
   */
  lemma EqualPlaintextsEncryptIndependently()
    ensures var inp := UpdateInput("uid", "admin", "admin", Some(PublicKey("key", "k1")), "NEW");
      var padded := Rsa(k => Success(Cipher(k)), (c, n, p) => Success(p + (if n == 0 then "#0" else "#1")));
      var secondFails := Rsa(k => Success(Cipher(k)),
                             (c, n, p) => if n == 0 then Success(p) else Failure(Collaborator("encryption failed")));
      && Encrypt(inp, padded).Success?
      && Encrypt(inp, padded).value.username != Encrypt(inp, padded).value.password
      && Encrypt(inp, secondFails) == Failure(Collaborator("encryption failed"))
  {
    var inp := UpdateInput("uid", "admin", "admin", Some(PublicKey("key", "k1")), "NEW");
    var padded := Rsa(k => Success(Cipher(k)), (c, n, p) => Success(p + (if n == 0 then "#0" else "#1")));
    var r := Encrypt(inp, padded);
    assert r.value.username == "admin#0" && r.value.password == "admin#1";
    assert r.value.username[6] != r.value.password[6];
  }

  /** A failed cipher construction or encryption is returned unchanged and no PUT is issued. */
  lemma EncryptionFailureSendsNothing(inp: UpdateInput, rsa: Rsa, marshal: Json -> string,
                                      send: Result<UpdateOutput, Error>)
    requires inp.publicKey.Some?
    requires Encrypt(inp, rsa).Failure?
    ensures Update(inp, rsa, marshal, send) == UpdateRun(Failure(Encrypt(inp, rsa).error), [])
    ensures UpdateCredentials(inp, rsa, marshal, send) == UpdateRun(Failure(Encrypt(inp, rsa).error), [])
  {
  }

  /**
   The credentials sent by `UpdateCredentials` do not depend on the device's
   state: only the presence of the top-level state field does.
   */
  lemma CredentialsIndependentOfState(inp: UpdateInput, otherState: string, rsa: Rsa,
                                      marshal: Json -> string, send: Result<UpdateOutput, Error>)
    requires MakeCredentials(inp, rsa, marshal).Success?
    ensures var a := UpdateCredentials(inp, rsa, marshal, send);
      var b := UpdateCredentials(inp.(state := otherState), rsa, marshal, send);
      && |a.puts| == 1 && |b.puts| == 1
      && a.puts[0].specificUid == b.puts[0].specificUid
      && At(a.puts[0].body, ["stateMachineContext", "credentials"])
         == At(b.puts[0].body, ["stateMachineContext", "credentials"])
  {
    var other := inp.(state := otherState);
    assert CredentialsFor(other, rsa) == CredentialsFor(inp, rsa) by {
      if inp.publicKey.Some? {
        assert Encrypt(other, rsa).Success? == Encrypt(inp, rsa).Success?;
      }
    }
  }

  lemma WaitStatesAreUpperAscii()
    ensures IsUpperAscii(WaitForUserToUpdateCreds)
    ensures IsUpperAscii(PreWaitForUserToUpdateCreds)
  {
  }

  /**
   For an ASCII state, the wait-state test holds exactly when the upper-cased
   state is one of the two wait states.
   */
  lemma WaitStateIffUpperCaseMatches(state: string)
    requires IsAsciiString(state)
    ensures IsWaitForUserToUpdateCreds(state) <==>
      AsciiUpperString(state) == "WAIT_FOR_USER_TO_UPDATE_CREDS"
      || AsciiUpperString(state) == "$PRE_WAIT_FOR_USER_TO_UPDATE_CREDS"
  {
    WaitStatesAreUpperAscii();
    EqualFoldAsciiIffUpper(state, WaitForUserToUpdateCreds);
    EqualFoldAsciiIffUpper(state, PreWaitForUserToUpdateCreds);
  }

  /** The test ignores case, including the long s that simple folding equates with 's'. */
  lemma WaitStateExamples()
    ensures IsWaitForUserToUpdateCreds("WAIT_FOR_USER_TO_UPDATE_CREDſ")
    ensures !IsWaitForUserToUpdateCreds("NEW")
    ensures !IsWaitForUserToUpdateCreds("WAIT_FOR_USER_TO_UPDATE_CRED")
  {
  }
}
