/**
  The authentication engine: `Authentication` composes a cryptor, a verifier,
  a coder and a session handler into the bootstrap read flow
  (`get_first_context`), the authenticated read flow (`get_context`) and the
  write flow (`build_data`).

  Every strategy is a record of total functions. A strategy call that raises
  in Python returns `Failure(e)` here; the engine propagates it unchanged,
  except a `KeyError` from the session lookup, which it turns into
  `AuthenticationError`.
*/
module Authenticate {
  import opened Wrappers
  import opened Exceptions

  /** Symmetric encryption at two granularities: global (shared secret only)
      and data (shared secret plus a per-session key). `encryptData` may
      return Python's `None`. */
  datatype Cryptor<V> = Cryptor(
    encryptGlobal: (string, string) -> Result<string, Exception>,
    decryptGlobal: (string, string) -> Result<string, Exception>,
    encryptData: (string, string, string) -> Result<Option<string>, Exception>,
    decryptData: (string, string, string) -> Result<string, Exception>,
    derivedContext: map<string, V>)

  /** The commitment scheme: splits and merges the verifier segment, extracts
      a public key without the private key, and confirms with it. */
  datatype Verifier<V> = Verifier(
    divideVerifierData: (string, string) -> Result<(string, string), Exception>,
    mergeVerifierData: (string, string, string) -> Result<string, Exception>,
    publicKeyFromVerifier: (string, string) -> Result<Option<string>, Exception>,
    encodeVerifier: (string, string, string) -> Result<string, Exception>,
    verify: (string, string, string) -> Result<bool, Exception>,
    derivedContext: map<string, V>)

  /** Application data <-> payload. `encode` may return Python's `None`. */
  datatype Coder<!D, V> = Coder(
    encode: D -> Result<Option<string>, Exception>,
    decode: string -> Result<D, Exception>,
    derivedContext: map<string, V>)

  /** `env`: the three strategies the engine reaches through it. */
  datatype Environment<!D, V> = Environment(
    cryptor: Cryptor<V>,
    verifier: Verifier<V>,
    coder: Coder<D, V>)

  /** Session storage. `sessionFromPublicKey` returning `None` stands for any
      falsy session (`None`, an empty record); an unknown key raises `KeyError`. */
  datatype SessionHandler<!S> = SessionHandler(
    sessionFromPublicKey: string -> Result<Option<S>, Exception>,
    getPublicKey: S -> Result<string, Exception>,
    getPrivateKey: S -> Result<string, Exception>)

  /** Python's `not public_key` for what `publicKeyFromVerifier` returns. */
  predicate Falsy(publicKey: Option<string>) {
    publicKey == None || publicKey == Some("")
  }

  /** The `auth_key` attribute of a context: never set, or set to the
      (possibly `None`) public key. */
  datatype AuthKeyAttr = Absent | Present(key: Option<string>)

  /** What a read flow hands to the context it builds. */
  datatype Opened<S, D> = Opened(session: Option<S>, data: D, authKey: AuthKeyAttr)

  /** Steps shared by both read flows: the verifier segment, the encrypted
      data segment and the public key extracted without confirmation. */
  datatype Unwrapped = Unwrapped(verifier: string, encryptedData: string, publicKey: Option<string>)

  class Context<S, D, V> {
    var session: Option<S>
    var data: D
    var authKey: AuthKeyAttr
    var derived: map<string, V>   // attributes set from the strategies' derived_context

    constructor (session: Option<S>, data: D)
      ensures this.session == session && this.data == data
      ensures authKey == Absent && derived == map[]
    {
      this.session := session;
      this.data := data;
      authKey := Absent;
      derived := map[];
    }
  }

  class Authentication<S, D, V> {
    const env: Environment<D, V>
    const sessionHandler: SessionHandler<S>
    const secretKey: string

    constructor (env: Environment<D, V>, sessionHandler: SessionHandler<S>, secretKey: string)
      ensures this.env == env && this.sessionHandler == sessionHandler && this.secretKey == secretKey
    {
      this.env := env;
      this.sessionHandler := sessionHandler;
      this.secretKey := secretKey;
    }

    /** The attributes `_merge_context` leaves on a fresh context: cryptor's,
        then verifier's, then coder's, a later one winning a name clash. */
    function DerivedAttributes(): (attrs: map<string, V>)
      ensures attrs.Keys == env.cryptor.derivedContext.Keys + env.verifier.derivedContext.Keys + env.coder.derivedContext.Keys
      ensures forall k :: k in env.coder.derivedContext ==> attrs[k] == env.coder.derivedContext[k]
      ensures forall k :: k in env.verifier.derivedContext && k !in env.coder.derivedContext ==>
                attrs[k] == env.verifier.derivedContext[k]
      ensures forall k :: k in env.cryptor.derivedContext && k !in env.verifier.derivedContext && k !in env.coder.derivedContext ==>
                attrs[k] == env.cryptor.derivedContext[k]
    {
      env.cryptor.derivedContext + env.verifier.derivedContext + env.coder.derivedContext
    }

    /** `setattr(context, k, v)` for every item of one `derived_context`. */
    static method SetAttributes(context: Context<S, D, V>, attributes: map<string, V>)
      modifies context
      ensures context.derived == old(context.derived) + attributes
      ensures context.session == old(context.session) && context.data == old(context.data)
      ensures context.authKey == old(context.authKey)
    {
      var pending := attributes.Keys;
      while pending != {}
        invariant pending <= attributes.Keys
        invariant context.derived == old(context.derived) + map k | k in attributes.Keys - pending :: attributes[k]
        invariant context.session == old(context.session) && context.data == old(context.data)
        invariant context.authKey == old(context.authKey)
        decreases pending
      {
        var k :| k in pending;
        context.derived := context.derived[k := attributes[k]];
        pending := pending - {k};
      }
    }

    method MergeContext(context: Context<S, D, V>)
      modifies context
      ensures context.derived == old(context.derived) + DerivedAttributes()
      ensures context.session == old(context.session) && context.data == old(context.data)
      ensures context.authKey == old(context.authKey)
    {
      MergeAssociates(context.derived, env.cryptor.derivedContext, env.verifier.derivedContext, env.coder.derivedContext);
      SetAttributes(context, env.cryptor.derivedContext);
      SetAttributes(context, env.verifier.derivedContext);
      SetAttributes(context, env.coder.derivedContext);
    }

    /** Remove global encryption, split off the verifier segment and read the
        public key out of it, trusting nothing yet. */
    function Unwrap(blob: string): Result<Unwrapped, Exception> {
      var decrypted :- env.cryptor.decryptGlobal(blob, secretKey);
      var parts :- env.verifier.divideVerifierData(decrypted, secretKey);
      var publicKey :- env.verifier.publicKeyFromVerifier(parts.0, secretKey);
      Success(Unwrapped(parts.0, parts.1, publicKey))
    }

    /** The bootstrap flow up to building the context. */
    function OpenFirst(blob: string): (r: Result<Opened<S, D>, Exception>)
      ensures r.Success? ==> r.value.session == None && r.value.authKey.Present?
      ensures r.Success? ==> Unwrap(blob).Success? && r.value.authKey.key == Unwrap(blob).value.publicKey
    {
      var unwrapped :- Unwrap(blob);
      var rawData :- env.cryptor.decryptData(unwrapped.encryptedData, secretKey, secretKey);
      var semanticData :- env.coder.decode(rawData);
      Success(Opened(None, semanticData, Present(unwrapped.publicKey)))
    }

    /** The authenticated flow up to building the context. */
    function Open(blob: string): (r: Result<Opened<S, D>, Exception>)
      ensures r.Success? ==> r.value.session.Some? && r.value.authKey == Absent
    {
      var unwrapped :- Unwrap(blob);
      if Falsy(unwrapped.publicKey) then Failure(AuthenticationError)
      else
        match sessionHandler.sessionFromPublicKey(unwrapped.publicKey.value)
        case Failure(e) =>
          if e == KeyError then Failure(AuthenticationError) else Failure(e)
        case Success(found) =>
          if found.None? then Failure(AuthenticationError)
          else
            var privateKey :- sessionHandler.getPrivateKey(found.value);
            var confirmed :- env.verifier.verify(unwrapped.verifier, privateKey, secretKey);
            if !confirmed then Failure(AuthenticationError)
            else
              var rawData :- env.cryptor.decryptData(unwrapped.encryptedData, secretKey, privateKey);
              var semanticData :- env.coder.decode(rawData);
              Success(Opened(Some(found.value), semanticData, Absent))
    }

    /** The write flow. A `None` from `encode` or `encryptData` is a failed
        assertion, not an authentication failure. */
    function BuildData(session: S, data: D): (r: Result<string, Exception>)
      ensures r.Success? ==> sessionHandler.getPrivateKey(session).Success? && sessionHandler.getPublicKey(session).Success?
      ensures r.Success? ==> env.coder.encode(data).Success? && env.coder.encode(data).value.Some?
    {
      var privateKey :- sessionHandler.getPrivateKey(session);
      var publicKey :- sessionHandler.getPublicKey(session);
      var coded :- env.coder.encode(data);
      if coded.None? then Failure(AssertionError)
      else
        var encrypted :- env.cryptor.encryptData(coded.value, secretKey, privateKey);
        if encrypted.None? then Failure(AssertionError)
        else
          var verifier :- env.verifier.encodeVerifier(privateKey, publicKey, secretKey);
          var merged :- env.verifier.mergeVerifierData(verifier, encrypted.value, secretKey);
          env.cryptor.encryptGlobal(merged, secretKey)
    }

    method GetFirstContext(blob: string) returns (r: Result<Context<S, D, V>, Exception>)
      ensures r.Success? <==> OpenFirst(blob).Success?
      ensures r.Failure? ==> r.error == OpenFirst(blob).error
      ensures r.Success? ==> fresh(r.value)
      ensures r.Success? ==> r.value.session == None && r.value.data == OpenFirst(blob).value.data
      ensures r.Success? ==> r.value.authKey == OpenFirst(blob).value.authKey
      ensures r.Success? ==> r.value.derived == DerivedAttributes()
    {
      var outcome := OpenFirst(blob);
      if outcome.Failure? {
        return Failure(outcome.error);
      }
      var context := new Context(None, outcome.value.data);
      context.authKey := outcome.value.authKey;
      MergeContext(context);
      return Success(context);
    }

    method GetContext(blob: string) returns (r: Result<Context<S, D, V>, Exception>)
      ensures r.Success? <==> Open(blob).Success?
      ensures r.Failure? ==> r.error == Open(blob).error
      ensures r.Success? ==> fresh(r.value)
      ensures r.Success? ==> r.value.session == Open(blob).value.session && r.value.data == Open(blob).value.data
      ensures r.Success? ==> r.value.authKey == Absent
      ensures r.Success? ==> r.value.derived == DerivedAttributes()
    {
      var outcome := Open(blob);
      if outcome.Failure? {
        return Failure(outcome.error);
      }
      var context := new Context(outcome.value.session, outcome.value.data);
      MergeContext(context);
      return Success(context);
    }
  }

  /** Merging three maps one after another is merging their union. */
  lemma MergeAssociates<K, W>(m: map<K, W>, first: map<K, W>, second: map<K, W>, third: map<K, W>)
    ensures m + first + second + third == m + (first + second + third)
  {
  }

  // ---------------------------------------------------------------------
  // get_context: which failures reject, and what is consulted before them

  /** A falsy public key rejects, whatever the session handler is: the
      lookup is never reached. */
  lemma RejectsFalsyPublicKey<S, D, V>(a: Authentication<S, D, V>, b: Authentication<S, D, V>, blob: string)
    requires a.Unwrap(blob).Success? && Falsy(a.Unwrap(blob).value.publicKey)
    requires b.env == a.env && b.secretKey == a.secretKey
    ensures a.Open(blob) == Failure(AuthenticationError)
    ensures b.Open(blob) == Failure(AuthenticationError)
  {
  }

  /** An unknown public key (the lookup raises `KeyError`) and a falsy
      session reject with the same error as a falsy public key. */
  lemma RejectsUnknownSession<S, D, V>(a: Authentication<S, D, V>, blob: string)
    requires a.Unwrap(blob).Success? && !Falsy(a.Unwrap(blob).value.publicKey)
    requires var found := a.sessionHandler.sessionFromPublicKey(a.Unwrap(blob).value.publicKey.value);
             found == Failure(KeyError) || found == Success(None)
    ensures a.Open(blob) == Failure(AuthenticationError)
  {
  }

  /** Only `KeyError` is caught: any other exception of the lookup reaches
      the caller unchanged. */
  lemma LookupErrorsPropagate<S, D, V>(a: Authentication<S, D, V>, blob: string, e: Exception)
    requires a.Unwrap(blob).Success? && !Falsy(a.Unwrap(blob).value.publicKey)
    requires a.sessionHandler.sessionFromPublicKey(a.Unwrap(blob).value.publicKey.value) == Failure(e)
    requires e != KeyError
    ensures a.Open(blob) == Failure(e)
  {
  }

  /** A failed confirmation rejects before data-level decryption: the
      outcome is the same whatever `decryptData` and the coder do. */
  lemma RejectsUnconfirmed<S, D, V>(a: Authentication<S, D, V>, b: Authentication<S, D, V>, blob: string,
                                    u: Unwrapped, session: S, privateKey: string)
    requires a.Unwrap(blob) == Success(u) && !Falsy(u.publicKey)
    requires a.sessionHandler.sessionFromPublicKey(u.publicKey.value) == Success(Some(session))
    requires a.sessionHandler.getPrivateKey(session) == Success(privateKey)
    requires a.env.verifier.verify(u.verifier, privateKey, a.secretKey) == Success(false)
    requires b.secretKey == a.secretKey && b.sessionHandler == a.sessionHandler && b.env.verifier == a.env.verifier
    requires b.env.cryptor.decryptGlobal == a.env.cryptor.decryptGlobal
    ensures a.Open(blob) == Failure(AuthenticationError)
    ensures b.Open(blob) == Failure(AuthenticationError)
  {
  }

  /** A context returned by get_context is authenticated: the public key was
      truthy, the lookup found the returned session, `verify` accepted the
      verifier segment under that session's private key, and the data is the
      decoding of the data segment decrypted with that key. */
  lemma AcceptedMeansConfirmed<S, D, V>(a: Authentication<S, D, V>, blob: string)
    requires a.Open(blob).Success?
    ensures a.Unwrap(blob).Success? && !Falsy(a.Unwrap(blob).value.publicKey)
    ensures var u := a.Unwrap(blob).value;
            var session := a.Open(blob).value.session.value;
            && a.sessionHandler.sessionFromPublicKey(u.publicKey.value) == Success(Some(session))
            && a.sessionHandler.getPrivateKey(session).Success?
            && var privateKey := a.sessionHandler.getPrivateKey(session).value;
               && a.env.verifier.verify(u.verifier, privateKey, a.secretKey) == Success(true)
               && a.env.cryptor.decryptData(u.encryptedData, a.secretKey, privateKey).Success?
               && a.env.coder.decode(a.env.cryptor.decryptData(u.encryptedData, a.secretKey, privateKey).value)
                  == Success(a.Open(blob).value.data)
  {
  }

  /** Conversely, a blob that passes the three checks is accepted, with the
      looked-up session and the decoded data, once its data segment decrypts
      and decodes: get_context rejects on exactly those conditions. */
  lemma AcceptsConfirmed<S, D, V>(a: Authentication<S, D, V>, blob: string, u: Unwrapped, session: S,
                                  privateKey: string, raw: string, data: D)
    requires a.Unwrap(blob) == Success(u) && !Falsy(u.publicKey)
    requires a.sessionHandler.sessionFromPublicKey(u.publicKey.value) == Success(Some(session))
    requires a.sessionHandler.getPrivateKey(session) == Success(privateKey)
    requires a.env.verifier.verify(u.verifier, privateKey, a.secretKey) == Success(true)
    requires a.env.cryptor.decryptData(u.encryptedData, a.secretKey, privateKey) == Success(raw)
    requires a.env.coder.decode(raw) == Success(data)
    ensures a.Open(blob) == Success(Opened(Some(session), data, Absent))
  {
  }

  /** The engine recovers from no strategy failure: an exception while
      unwrapping the blob (global decryption, splitting off the verifier,
      extracting the public key) reaches the caller of both read flows
      unchanged. */
  lemma UnwrapErrorsPropagate<S, D, V>(a: Authentication<S, D, V>, blob: string, e: Exception,
                                       decrypted: string, parts: (string, string))
    requires var global := a.env.cryptor.decryptGlobal(blob, a.secretKey);
             || global == Failure(e)
             || (&& global == Success(decrypted)
                 && var divided := a.env.verifier.divideVerifierData(decrypted, a.secretKey);
                    || divided == Failure(e)
                    || (divided == Success(parts) &&
                        a.env.verifier.publicKeyFromVerifier(parts.0, a.secretKey) == Failure(e)))
    ensures a.Open(blob) == Failure(e) && a.OpenFirst(blob) == Failure(e)
  {
  }

  /** After the session is found, an exception from reading its private key,
      from `verify`, or (once confirmed) from decrypting or decoding the data
      reaches the caller unchanged: only the lookup's `KeyError` is
      translated. */
  lemma ConfirmErrorsPropagate<S, D, V>(a: Authentication<S, D, V>, blob: string, u: Unwrapped, session: S,
                                        e: Exception, privateKey: string, raw: string)
    requires a.Unwrap(blob) == Success(u) && !Falsy(u.publicKey)
    requires a.sessionHandler.sessionFromPublicKey(u.publicKey.value) == Success(Some(session))
    requires var pk := a.sessionHandler.getPrivateKey(session);
             || pk == Failure(e)
             || (&& pk == Success(privateKey)
                 && var confirmed := a.env.verifier.verify(u.verifier, privateKey, a.secretKey);
                    || confirmed == Failure(e)
                    || (&& confirmed == Success(true)
                        && var decrypted := a.env.cryptor.decryptData(u.encryptedData, a.secretKey, privateKey);
                           || decrypted == Failure(e)
                           || (decrypted == Success(raw) && a.env.coder.decode(raw) == Failure(e))))
    ensures a.Open(blob) == Failure(e)
  {
  }

  // ---------------------------------------------------------------------
  // get_first_context: the bootstrap flow

  /** The bootstrap flow consults neither the session handler nor `verify`
      (nor the write-side operations): two engines that agree on the read
      operations it uses give the same outcome. */
  lemma FirstIgnoresSessionsAndVerify<S, D, V>(a: Authentication<S, D, V>, b: Authentication<S, D, V>, blob: string)
    requires b.secretKey == a.secretKey
    requires b.env.cryptor.decryptGlobal == a.env.cryptor.decryptGlobal
    requires b.env.cryptor.decryptData == a.env.cryptor.decryptData
    requires b.env.verifier.divideVerifierData == a.env.verifier.divideVerifierData
    requires b.env.verifier.publicKeyFromVerifier == a.env.verifier.publicKeyFromVerifier
    requires b.env.coder.decode == a.env.coder.decode
    ensures a.OpenFirst(blob) == b.OpenFirst(blob)
  {
  }

  /** The bootstrap flow decrypts with the shared secret as both keys and
      keeps the unverified public key, even a falsy one, as `auth_key`. */
  lemma FirstDecryptsWithSecret<S, D, V>(a: Authentication<S, D, V>, blob: string, u: Unwrapped, raw: string, data: D)
    requires a.Unwrap(blob) == Success(u)
    requires a.env.cryptor.decryptData(u.encryptedData, a.secretKey, a.secretKey) == Success(raw)
    requires a.env.coder.decode(raw) == Success(data)
    ensures a.OpenFirst(blob) == Success(Opened(None, data, Present(u.publicKey)))
  {
  }

  /** Conversely, every bootstrap success came from decrypting the data
      segment with the secret as both keys and decoding the result. */
  lemma FirstAcceptedMeansDecrypted<S, D, V>(a: Authentication<S, D, V>, blob: string)
    requires a.OpenFirst(blob).Success?
    ensures a.Unwrap(blob).Success?
    ensures var u := a.Unwrap(blob).value;
            && a.env.cryptor.decryptData(u.encryptedData, a.secretKey, a.secretKey).Success?
            && a.env.coder.decode(a.env.cryptor.decryptData(u.encryptedData, a.secretKey, a.secretKey).value)
               == Success(a.OpenFirst(blob).value.data)
  {
  }

  /** An exception from the bootstrap's secret-keyed decryption or from
      decoding reaches the caller unchanged. */
  lemma FirstErrorsPropagate<S, D, V>(a: Authentication<S, D, V>, blob: string, u: Unwrapped, e: Exception, raw: string)
    requires a.Unwrap(blob) == Success(u)
    requires var decrypted := a.env.cryptor.decryptData(u.encryptedData, a.secretKey, a.secretKey);
             || decrypted == Failure(e)
             || (decrypted == Success(raw) && a.env.coder.decode(raw) == Failure(e))
    ensures a.OpenFirst(blob) == Failure(e)
  {
  }

  // ---------------------------------------------------------------------
  // build_data

  /** The layers, innermost first: the coded payload is encrypted under the
      secret and the session's private key, the verifier commits to the
      private key, the public key and the secret, the two segments are
      merged, and the whole is encrypted under the secret alone. */
  lemma BuildDataLayers<S, D, V>(a: Authentication<S, D, V>, session: S, data: D, privateKey: string,
                                 publicKey: string, coded: string, encrypted: string, verifier: string, merged: string)
    requires a.sessionHandler.getPrivateKey(session) == Success(privateKey)
    requires a.sessionHandler.getPublicKey(session) == Success(publicKey)
    requires a.env.coder.encode(data) == Success(Some(coded))
    requires a.env.cryptor.encryptData(coded, a.secretKey, privateKey) == Success(Some(encrypted))
    requires a.env.verifier.encodeVerifier(privateKey, publicKey, a.secretKey) == Success(verifier)
    requires a.env.verifier.mergeVerifierData(verifier, encrypted, a.secretKey) == Success(merged)
    ensures a.BuildData(session, data) == a.env.cryptor.encryptGlobal(merged, a.secretKey)
  {
  }

  /** An exception from any step of the write flow reaches the caller
      unchanged; it is never turned into a failed assertion. */
  lemma BuildErrorsPropagate<S, D, V>(a: Authentication<S, D, V>, session: S, data: D, e: Exception,
                                      privateKey: string, publicKey: string, coded: string,
                                      encrypted: string, verifier: string)
    requires var pk := a.sessionHandler.getPrivateKey(session);
             || pk == Failure(e)
             || (&& pk == Success(privateKey)
                 && var pub := a.sessionHandler.getPublicKey(session);
                    || pub == Failure(e)
                    || (&& pub == Success(publicKey)
                        && var c := a.env.coder.encode(data);
                           || c == Failure(e)
                           || (&& c == Success(Some(coded))
                               && var enc := a.env.cryptor.encryptData(coded, a.secretKey, privateKey);
                                  || enc == Failure(e)
                                  || (&& enc == Success(Some(encrypted))
                                      && var v := a.env.verifier.encodeVerifier(privateKey, publicKey, a.secretKey);
                                         || v == Failure(e)
                                         || (v == Success(verifier) &&
                                             a.env.verifier.mergeVerifierData(verifier, encrypted, a.secretKey) == Failure(e))))))
    ensures a.BuildData(session, data) == Failure(e)
  {
  }

  /** A `None` payload from the coder or the cryptor is a failed assertion,
      never an authentication failure. */
  lemma BuildDataAssertsPayload<S, D, V>(a: Authentication<S, D, V>, session: S, data: D, privateKey: string)
    requires a.sessionHandler.getPrivateKey(session) == Success(privateKey)
    requires a.sessionHandler.getPublicKey(session).Success?
    requires var coded := a.env.coder.encode(data);
             coded == Success(None) ||
             (coded.Success? && coded.value.Some? &&
              a.env.cryptor.encryptData(coded.value.value, a.secretKey, privateKey) == Success(None))
    ensures a.BuildData(session, data) == Failure(AssertionError)
  {
  }

  // ---------------------------------------------------------------------
  // The strategy contracts under which build_data and get_context are inverse

  /** decrypt undoes encrypt, at both granularities. */
  ghost predicate CryptorInverse<V>(c: Cryptor<V>) {
    && (forall blob, secret :: c.encryptGlobal(blob, secret).Success? ==>
          c.decryptGlobal(c.encryptGlobal(blob, secret).value, secret) == Success(blob))
    && (forall payload, secret, key ::
          c.encryptData(payload, secret, key).Success? && c.encryptData(payload, secret, key).value.Some? ==>
          c.decryptData(c.encryptData(payload, secret, key).value.value, secret, key) == Success(payload))
  }

  /** divide undoes merge; the public key is recovered from an encoded
      verifier segment, and `verify` accepts it under the private key it was
      made with. */
  ghost predicate VerifierInverse<V>(v: Verifier<V>) {
    && (forall segment, rest, secret :: v.mergeVerifierData(segment, rest, secret).Success? ==>
          v.divideVerifierData(v.mergeVerifierData(segment, rest, secret).value, secret) == Success((segment, rest)))
    && (forall privateKey, publicKey, secret :: v.encodeVerifier(privateKey, publicKey, secret).Success? ==>
          && v.publicKeyFromVerifier(v.encodeVerifier(privateKey, publicKey, secret).value, secret) == Success(Some(publicKey))
          && v.verify(v.encodeVerifier(privateKey, publicKey, secret).value, privateKey, secret) == Success(true))
  }

  /** decode undoes encode on this value. */
  ghost predicate CoderInverseAt<D, V>(c: Coder<D, V>, data: D) {
    c.encode(data).Success? && c.encode(data).value.Some? ==>
      c.decode(c.encode(data).value.value) == Success(data)
  }

  /** The session's public key is truthy and looks up a session with the
      same private key. */
  ghost predicate FindsSession<S>(h: SessionHandler<S>, session: S) {
    h.getPublicKey(session).Success? && h.getPrivateKey(session).Success? ==>
      && h.getPublicKey(session).value != ""
      && var found := h.sessionFromPublicKey(h.getPublicKey(session).value);
         && found.Success? && found.value.Some?
         && h.getPrivateKey(found.value.value) == h.getPrivateKey(session)
  }

  /** What build_data writes, get_context reads back. */
  lemma RoundTrip<S, D, V>(a: Authentication<S, D, V>, session: S, data: D)
    requires CryptorInverse(a.env.cryptor) && VerifierInverse(a.env.verifier)
    requires CoderInverseAt(a.env.coder, data) && FindsSession(a.sessionHandler, session)
    requires a.BuildData(session, data).Success?
    ensures a.Open(a.BuildData(session, data).value).Success?
    ensures a.Open(a.BuildData(session, data).value).value.data == data
    ensures var found := a.Open(a.BuildData(session, data).value).value.session.value;
            a.sessionHandler.getPrivateKey(found) == a.sessionHandler.getPrivateKey(session)
  {
  }
}
