# instantauth: the authentication engine and the URL-query coders

This project models the core of instantauth, a session-based message
authentication library. Every request or response carries one layered blob:

- an outer global encryption keyed by a shared secret;
- a verifier segment that commits to a (private key, public key, secret) triple;
- a data segment, encrypted under the secret and a per-session key;
- inside it, the coded application payload.

`Authentication` composes four pluggable strategies into three flows:

- `get_first_context`, the bootstrap read flow. It trusts the public key it finds.
- `get_context`, the authenticated read flow. It rejects a blob before any
  data-level decryption unless the key, the session and the confirmation all check out.
- `build_data`, the write flow.

The strategies are a cryptor, a verifier, a coder and a session handler.

`SimpleURLQueryCoder` encodes a dictionary as unescaped `k=v` pairs joined
by `&`. `URLQueryCoder.encode` is meant to do the same, but as written it
raises `TypeError` on every non-empty dictionary (see "## Findings"). Both
coders decode with Python 2's `urlparse.parse_qs`.

Files and modules:

- `wrappers.dfy`: `Option`, `Result` and the Python exceptions that matter
  (`AuthenticationError`, `KeyError`, `TypeError`, `AssertionError`, any other).
- `authenticate.dfy` (module `Authenticate`):
  - The strategies are records of total functions. A call that raises in Python returns `Failure(e)`.
  - `Context` is a class whose fields `_merge_context` sets.
  - `Authentication` is a class with `const` fields, so neither flow can change
    `env`, `session_handler` or `secret_key`.
  - The read and write pipelines are the pure functions `Unwrap`, `OpenFirst`, `Open` and `BuildData`.
  - The methods `GetFirstContext` and `GetContext` allocate the `Context` and merge the derived attributes.
  - The module also holds lemmas about rejection, ordering and the round trip.
- `urlquery.dfy` (module `UrlQuery`): the unescaped subset of `parse_qs`, both
  coders, their round trips and the regression examples.
- `exchange.dfy` (module `QueryExchange`): the engine with
  `SimpleURLQueryCoder` as its coder.

How the model reads Python's conditions:

- "Not public key" is `None` or `""`.
- A falsy session is the lookup returning `None`. This stands for `None` and for an empty record.
- Only a `KeyError` from `session_from_public_key` is caught. Every other
  exception of every strategy reaches the caller unchanged (`UnwrapErrorsPropagate`,
  `LookupErrorsPropagate`, `ConfirmErrorsPropagate`, `FirstErrorsPropagate`,
  `BuildErrorsPropagate`). A `None` payload in `build_data` is a failed
  assertion instead (`BuildDataAssertsPayload`).
- The properties "the session handler is never called" and "decryption is never
  reached" are stated as independence. Two engines that differ only in the
  component in question give the same outcome.

## Model

| member | source | states |
|---|---|---|
| `Authenticate.Authentication.constructor` | python/instantauth/authenticate.py:9-12 | the engine keeps the given environment, session handler and secret; they are `const` afterwards |
| `Authenticate.Context.constructor` | python/instantauth/authenticate.py:66-69 | a new context holds the session and data, with no `auth_key` and no derived attributes |
| `Authenticate.Authentication.DerivedAttributes` | python/instantauth/authenticate.py:14-20 | the merged attributes are the union of the three `derived_context`s: a coder value wins any clash, then a verifier value, then a cryptor value |
| `Authenticate.Authentication.SetAttributes` | python/instantauth/authenticate.py:15-16 | the `setattr` loop adds every item of one `derived_context` and leaves session, data and `auth_key` alone |
| `Authenticate.Authentication.MergeContext` | python/instantauth/authenticate.py:14-20 | the context's attributes become the old ones overridden by `DerivedAttributes()`; session, data and `auth_key` are unchanged |
| `Authenticate.Authentication.OpenFirst` | python/instantauth/authenticate.py:22-29 | a bootstrap result has no session and carries as `auth_key` the public key extracted from the blob |
| `Authenticate.UnwrapErrorsPropagate` | python/instantauth/authenticate.py:23-25 | an exception from `decrypt_global`, `divide_verifier_data` or `public_key_from_verifier` reaches the caller of both read flows unchanged |
| `Authenticate.FirstIgnoresSessionsAndVerify` | python/instantauth/authenticate.py:22-31 | the bootstrap outcome is the same for any session handler, any `verify` and any write-side operation: it calls none of them |
| `Authenticate.FirstDecryptsWithSecret` | python/instantauth/authenticate.py:23-29 | the bootstrap flow decrypts the data with the secret as both keys, and keeps even a falsy or unconfirmed public key as `auth_key` |
| `Authenticate.FirstAcceptedMeansDecrypted` | python/instantauth/authenticate.py:23-29 | conversely, every bootstrap success came from decrypting the data segment with the secret as both keys and decoding it, so a failure there fails the flow |
| `Authenticate.FirstErrorsPropagate` | python/instantauth/authenticate.py:26-27 | an exception from the bootstrap's secret-keyed `decrypt_data` or from `decode` reaches the caller unchanged |
| `Authenticate.Authentication.GetFirstContext` | python/instantauth/authenticate.py:22-31 | fails exactly when the bootstrap pipeline fails, with its error; otherwise returns a fresh context with no session, the decoded data, the extracted `auth_key` and the merged attributes |
| `Authenticate.Authentication.Open` | python/instantauth/authenticate.py:33-50 | an accepted blob yields a session and no `auth_key` |
| `Authenticate.RejectsFalsyPublicKey` | python/instantauth/authenticate.py:36-38 | a `None` or empty public key fails with `AuthenticationError` whatever the session handler is, so the lookup is never reached |
| `Authenticate.RejectsUnknownSession` | python/instantauth/authenticate.py:39-44 | a lookup that raises `KeyError` or returns a falsy session fails with the very same `AuthenticationError` |
| `Authenticate.LookupErrorsPropagate` | python/instantauth/authenticate.py:39-42 | any other exception of the lookup reaches the caller unchanged |
| `Authenticate.RejectsUnconfirmed` | python/instantauth/authenticate.py:45-49 | a false `verify` fails with `AuthenticationError` whatever `decrypt_data` and the coder do: confirmation precedes decryption |
| `Authenticate.AcceptedMeansConfirmed` | python/instantauth/authenticate.py:40-50 | an accepted blob had a truthy public key whose lookup found the returned session, `verify` accepted it under that session's private key, and the data is the decoding of the data segment decrypted with that key |
| `Authenticate.AcceptsConfirmed` | python/instantauth/authenticate.py:33-52 | conversely, a blob with a truthy public key, a found session, a passed `verify` under its private key, and a data segment that decrypts and decodes is accepted with that session and data: `get_context` rejects on exactly the failed checks |
| `Authenticate.ConfirmErrorsPropagate` | python/instantauth/authenticate.py:45-49 | after the session is found, an exception from `get_private_key`, from `verify`, or, once confirmed, from `decrypt_data` or `decode` reaches the caller unchanged; only the lookup's `KeyError` is translated |
| `Authenticate.Authentication.GetContext` | python/instantauth/authenticate.py:33-52 | fails exactly when the authenticated pipeline fails, with its error; otherwise returns a fresh context with the looked-up session, the decoded data, no `auth_key` and the merged attributes |
| `Authenticate.Authentication.BuildData` | python/instantauth/authenticate.py:54-64 | a blob is returned only if both session keys were read and the coder produced a payload |
| `Authenticate.BuildDataLayers` | python/instantauth/authenticate.py:54-64 | the blob is the global encryption under the secret of the merged verifier and data segments; the data segment encrypts the coded payload under the secret and the private key, and the verifier commits to the private key, the public key and the secret |
| `Authenticate.BuildErrorsPropagate` | python/instantauth/authenticate.py:55-62 | an exception from any step of `build_data` reaches the caller unchanged and is never turned into a failed assertion |
| `Authenticate.BuildDataAssertsPayload` | python/instantauth/authenticate.py:57-60 | a `None` from `encode` or from `encrypt_data` ends `build_data` with `AssertionError`, not `AuthenticationError` |
| `Authenticate.RoundTrip` | python/instantauth/authenticate.py:54-64 | if each strategy pair is mutually inverse, `verify` accepts `encode_verifier`'s output, `public_key_from_verifier` recovers the public key and the lookup finds a session with the same private key, then `get_context` of `build_data(session, data)` succeeds with that data |
| `UrlQuery.SplitWhole` | python/instantauth/coders/urlquery.py:19 | a query with no `&` or `;` is one piece, the whole query |
| `UrlQuery.SplitAfter` | python/instantauth/coders/urlquery.py:19 | everything before the first `&` or `;` is one piece and the rest is split on its own; with `SplitWhole` this fixes the split of every query |
| `UrlQuery.SplitJoin` | python/instantauth/coders/urlquery.py:16 | splitting undoes the encoder's `'&'.join` on a non-empty list of separator-free pieces |
| `UrlQuery.Partition` | python/instantauth/coders/urlquery.py:19 | a piece is cut at its first `=`: the name holds no `=` and name + `=` + value is the piece; `None` exactly when the piece has no `=` |
| `UrlQuery.PartitionPair` | python/instantauth/coders/urlquery.py:16-19 | an encoded `k=v` with no `=` in `k` parses back to `(k, v)` |
| `UrlQuery.NameValuesKeeps` | python/instantauth/coders/urlquery.py:11 | a name/value pair is read from the query exactly when some piece cuts into it at its first `=` and its value is not empty: pieces with no `=` or an empty value are dropped, every other piece is kept |
| `UrlQuery.NameValuesAppend` | python/instantauth/coders/urlquery.py:11 | pieces are read left to right: the pairs of a concatenation are the pairs of each part, in order |
| `UrlQuery.ParsesTwoPairs` | python/instantauth/coders/urlquery.py:11 | two safe pairs joined by `&` or by `;` read back as those two pairs, in order |
| `UrlQuery.DropsPieceWithoutEquals` | python/instantauth/coders/urlquery.py:11 | a piece without `=` decodes to nothing |
| `UrlQuery.DropsEmptyValue` | python/instantauth/coders/urlquery.py:11 | a piece `name=` with an empty value decodes to nothing |
| `UrlQuery.SemicolonSeparates` | python/instantauth/coders/urlquery.py:11 | `;` separates pieces as `&` does: two distinct safe names decode each to its own one-value list |
| `UrlQuery.ParseQsDropsExamples` | python/instantauth/coders/urlquery.py:11 | `field` and `field=` decode to `{}` |
| `UrlQuery.ParseQsSemicolonExample` | python/instantauth/coders/urlquery.py:11 | `a=1;b=2` decodes to `{'a': ['1'], 'b': ['2']}` |
| `UrlQuery.Collect` | python/instantauth/coders/urlquery.py:11 | a name is a key exactly when some pair carries it, and maps to all its values in order of occurrence, never to an empty list |
| `UrlQuery.UrlQueryDecodeCollects` | python/instantauth/coders/urlquery.py:10-11 | `URLQueryCoder.decode` keeps exactly the names with values, each with all of its values in order |
| `UrlQuery.UrlQueryDecodesEmpty` | python/instantauthtests/test_regression.py:29-31 | decoding `''` gives the empty dictionary |
| `UrlQuery.UrlQueryDecodesOne` | python/instantauth/coders/urlquery.py:10-11 | a safe `name=value` decodes to `{name: [value]}` |
| `UrlQuery.UrlQueryDecodesRepeated` | python/instantauth/coders/urlquery.py:10-11 | a name given twice keeps both values in order |
| `UrlQuery.UrlQueryDecodeExamples` | python/instantauthtests/test_regression.py:26-39 | `''`, `field=value` and `field=value&field=value` decode to `{}`, `{'field': ['value']}` and `{'field': ['value', 'value']}` |
| `UrlQuery.GenerateAsWrittenFails` | python/instantauth/coders/urlquery.py:8 | the generator of two-argument `'='.join(str(k), str(v))` calls raises `TypeError` at its first item, which ends the enclosing `'&'.join` |
| `UrlQuery.UrlQueryEncode` | python/instantauth/coders/urlquery.py:6-8 | `'&'.join` over that generator, as written: it succeeds, with `''`, exactly on the empty dictionary and raises `TypeError` on every other |
| `UrlQuery.UrlQueryRoundTrip` | python/instantauth/coders/urlquery.py:6-11 | where `URLQueryCoder.encode` as written succeeds, decoding gives every key back as a one-value list |
| `UrlQuery.UrlQueryEncodeRejectsItem` | python/instantauth/coders/urlquery.py:8 | `{'field': 'value'}` raises `TypeError` |
| `UrlQuery.GenerateAsTuple` | python/instantauth/coders/urlquery.py:16 | the generator of one-tuple `'='.join((str(k), str(v)))` calls never raises and yields `k=v` for every item, in order |
| `UrlQuery.UrlQueryEncodeIntended` | python/instantauth/coders/urlquery.py:8 | line 8 with the pair passed as one tuple never raises, and its output is `SimpleURLQueryCoder.encode`'s |
| `UrlQuery.UrlQueryIntendedRoundTrip` | python/instantauth/coders/urlquery.py:6-11 | the corrected encoder followed by `URLQueryCoder.decode` gives every key of a safe dictionary back as a one-value list |
| `UrlQuery.Render` | python/instantauth/coders/urlquery.py:16 | one `k=v` string per item |
| `UrlQuery.KeyOrder` | python/instantauth/coders/urlquery.py:16 | `data.items()` yields every key exactly once |
| `UrlQuery.SimpleEncodeEmpty` | python/instantauth/coders/urlquery.py:14-16 | `SimpleURLQueryCoder.encode` gives `''` exactly for the empty dictionary |
| `UrlQuery.ParsesItems` | python/instantauth/coders/urlquery.py:14-19 | on a safe dictionary, the empty one included, `parse_qsl` of the encoding is exactly the items in encoding order |
| `UrlQuery.CollectItems` | python/instantauth/coders/urlquery.py:16-19 | `parse_qs`'s collecting loop over the encoder's distinct items (`Collect(Items(d))`) gives each key its one-value list and no other keys; with `ParsesItems`, this is `parse_qs` of the encoding on a safe dictionary |
| `UrlQuery.SimpleDecoded` | python/instantauth/coders/urlquery.py:18-22 | the decoded dictionary has exactly `parse_qs`'s keys, each with its first value |
| `UrlQuery.FirstValues` | python/instantauth/coders/urlquery.py:20-21 | the loop leaves exactly the parsed keys, each mapped to the first value of its list |
| `UrlQuery.SimpleDecode` | python/instantauth/coders/urlquery.py:18-22 | `parse_qs` followed by that loop yields exactly `parse_qs`'s keys, each with its first value, which is `SimpleDecoded` |
| `UrlQuery.SimpleRoundTrip` | python/instantauth/coders/urlquery.py:13-22 | if no key or value holds `&`, `;`, `%` or `+`, no key holds `=` and no value is empty, then `decode(encode(d)) == d` |
| `UrlQuery.SimpleDecodeExample` | python/instantauthtests/test_regression.py:41-46 | `field=value` decodes to `{'field': 'value'}` |
| `QueryExchange.SimpleCoderInverse` | python/instantauth/coders/urlquery.py:13-22 | `SimpleURLQueryCoder` meets the coder contract of the engine's round trip on every safe dictionary |
| `QueryExchange.QueryRoundTrip` | python/instantauthtests/test_regression.py:56-76 | with `SimpleURLQueryCoder`, a safe dictionary written by `build_data` is read back by `get_context` under the strategy contracts |

## Findings

| source | as written | input that shows it | evidently intended | confidence | as-written member | corrected member |
|---|---|---|---|---|---|---|
| python/instantauth/coders/urlquery.py:8 | `'='.join(str(k), str(v))` passes two arguments to `str.join`, so `URLQueryCoder.encode` raises `TypeError` on every non-empty dictionary | `{'field': 'value'}` | `'='.join((str(k), str(v)))`, as in `SimpleURLQueryCoder.encode` (line 16), whose output `URLQueryCoder.decode` inverts | not executed; high | `UrlQuery.UrlQueryEncode`, `UrlQuery.GenerateAsWrittenFails`, `UrlQuery.UrlQueryEncodeRejectsItem` | `UrlQuery.UrlQueryEncodeIntended`, `UrlQuery.UrlQueryIntendedRoundTrip` |

## Left out

- The concrete strategies are left out: the AES and plain cryptors; the TimeHash, DataKey and bypass verifiers; the Base64, JSON and plain coders; and `nothing_environment`. They are cryptography and foreign code, so each is a record of arbitrary functions. The round trip states the inverse contracts it needs as predicates (`CryptorInverse`, `VerifierInverse`, `CoderInverseAt`, `FindsSession`).
- The engine-level regression scenarios need `PlainCryptor` and `BypassVerifier`. Those classes are not part of this model, so only their coder-level content is proved (`UrlQueryDecodeExamples`, `SimpleDecodeExample`, `QueryRoundTrip`).
- `python/instantauth/sessionhandler.py` is an abstract base whose methods only raise `NotImplementedError`. It becomes the `SessionHandler` record of three functions.
- `python/instantauth/flask.py` is left out. It is a web-framework adapter that reads and writes the global request object.
- Strategies are pure functions here. A session handler or strategy with side effects, and concurrent use of one engine, are not modelled.
- Python truthiness in general is left out. Only the checks the engine makes are modelled: an absent or empty public key, an absent or empty session, and a false `verify`.
- `Context.derived` keeps derived attributes in a map beside `session`, `data` and `auth_key`. In Python, a derived attribute named `session`, `data` or `auth_key` would overwrite that attribute; the model does not capture this.
- `UrlQuery.FirstValues` writes the first values into a second map. The Python loop overwrites the parsed dictionary in place, changing each value from a list to a string, and a Dafny map cannot change its value type.
- `UrlQuery.ParseQs` treats `%` and `+` literally. Python's `parse_qs` percent-decodes and turns `+` into a space. The round trips therefore require keys and values free of `%` and `+`, where the two agree.
- `str(k)` and `str(v)` are not modelled. Dictionary keys and values are strings already.
- The order in which a dictionary yields its items is left open (`KeyOrder`), as Python 2 leaves it.
- The regression test calls `Authentication` with six arguments and `build_data(data, session)` with its arguments swapped. The model follows the signatures in `python/instantauth/authenticate.py:9` and `:54`.
