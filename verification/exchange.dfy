/**
  The engine with `SimpleURLQueryCoder` plugged in as its coder: a
  dictionary written by `build_data` is read back by `get_context`.
*/
module QueryExchange {
  import opened Wrappers
  import opened Authenticate
  import opened UrlQuery

  /** `SimpleURLQueryCoder` as a coder strategy; neither of its operations
      raises or returns `None` on the subset modelled. */
  ghost function SimpleCoder<V>(derived: map<string, V>): Coder<map<string, string>, V> {
    Coder(data => Success(Some(SimpleEncode(data))), query => Success(SimpleDecoded(query)), derived)
  }

  /** The coder contract the engine's round trip needs holds on every safe
      dictionary. */
  lemma SimpleCoderInverse<V>(derived: map<string, V>, data: map<string, string>)
    requires SafeForQuery(data)
    ensures CoderInverseAt(SimpleCoder(derived), data)
  {
    SimpleRoundTrip(data);
  }

  /** A safe dictionary survives build_data followed by get_context. */
  lemma QueryRoundTrip<S, V>(a: Authentication<S, map<string, string>, V>, session: S, data: map<string, string>)
    requires a.env.coder == SimpleCoder(a.env.coder.derivedContext)
    requires CryptorInverse(a.env.cryptor) && VerifierInverse(a.env.verifier)
    requires FindsSession(a.sessionHandler, session) && SafeForQuery(data)
    requires a.BuildData(session, data).Success?
    ensures a.Open(a.BuildData(session, data).value).Success?
    ensures a.Open(a.BuildData(session, data).value).value.data == data
  {
    SimpleCoderInverse(a.env.coder.derivedContext, data);
    RoundTrip(a, session, data);
  }
}
