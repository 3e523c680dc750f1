# YiiDirectApi, modelled in Dafny

`YiiDirectApi` is a Yii application component that acts as a client for the
Yandex.Direct JSON API (version 4), reached over OAuth2. It does four things.
It builds the authorization link from the application id and response type.
It exchanges an authorization code for an access token. It sends every remote
method as a JSON envelope `{method, param, locale, login, application_id,
token}` to one endpoint, production or sandbox. It keeps the last error in
fields that callers read after the fact.

This project models that component:

- `php_value.dfy` (module `Php`): decoded replies and parameters as PHP
  values (`Null | Bool | Int | Str | Arr`). PHP strings are byte strings.
  Arrays are ordered lists of key/value entries. The module also defines
  `empty()` (`Empty`), truthiness (`Truthy`), `$v['k']` (`Index`) and
  `isset($v['k'])` (`IsSet`).
- `encoding.dfy` (module `Encoding`): PHP `utf8_encode`, the ISO-8859-1 to
  UTF-8 conversion of section 3 of RFC 3629. Also `urlencode`, `urldecode`
  and `ucfirst`.
- `query.dfy` (module `QueryString`): `http_build_query` for string pairs,
  and a query-string reader used to check what the authorization link carries.
- `recode.dfy` (module `Recode`): the component's recursive `utf8` walk over
  nested arrays.
- `client.dfy` (module `YiiDirect`): the class `YiiDirectApi` with its
  configuration and session fields, its setters and getters, `clearErrors`,
  `init`, `getAuthorizeUrl`, `getDirectToken`, `apiQuery` and `__call`. Each
  state-changing method is tied to a pure function of the old state:
  `Exchange` for the token exchange, `Query` and `Classify` for an API call.
  The lemmas beside those functions state the properties.
- `scenarios.dfy` (module `Scenarios`): callers' uses of the class, proved
  from the method contracts alone. They cover an application error, a reply
  that only carries `error_detail`, and a failed token exchange.

Transport is a parameter. `apiQuery` receives `Transport`, which is either a
cURL failure (the source throws `CException`) or the decoded reply body. A
body that does not decode is `Null`, as `CJSON::decode` returns it.
`getDirectToken` receives the decoded reply of the token endpoint and returns
the form it posts.

Four behaviours of the code are easy to misread. The model follows the code
in each:

- On an application error (`error_code` and `error_str` both set),
  `$result` is replaced by `false` before `error_detail` is read
  (YiiDirectApi.php:374-376). So the detail of an error reply is never
  stored. `Classify` derives this from the order of the steps.
- A failed token exchange returns the token held before, not null and not a
  failure value (YiiDirectApi.php:219-225). The method's doc comment
  (YiiDirectApi.php:201) says it returns null when no token is obtained. A reply without an error and
  without `access_token` overwrites the token with null.
- The `state` of the authorization URL is appended without URL encoding
  (YiiDirectApi.php:195). `""` and `"0"` both suppress it.
- Decode failures are not told apart from a `null` reply. cURL failures
  surface as an exception.

## Model

| member | source | states |
|---|---|---|
| `Php.FindKey` | YiiDirectApi.php:372 | the position returned holds the key and no earlier one does; none exactly when the key is absent |
| `Php.Index` | YiiDirectApi.php:219-222 | `$v['k']` is null on a non-array or a missing key; for a key the array holds, it is a value stored under `k` in `v` |
| `Php.EmptyValues` | YiiDirectApi.php:219 | `empty()` holds of exactly null, false, 0, `""`, `"0"` and the empty array |
| `Php.IsSetFirst` | YiiDirectApi.php:372 | `isset($v['k'])` holds exactly when `v` is an array whose first entry with key `k` holds a non-null value |
| `Php.IndexFirst` | YiiDirectApi.php:372-376 | in an array with distinct keys, looking up an entry's key yields that entry's value |
| `Encoding.Utf8Encode` | YiiDirectApi.php:394 | `utf8_encode` grows a string by exactly one byte per byte at or above 0x80 |
| `Encoding.Utf8RoundTrip` | YiiDirectApi.php:394 | the output is accepted by a strict decoder (ASCII bytes, or a lead byte 0xC2 or 0xC3 followed by a continuation byte 0x80-0xBF) and decodes back to the original bytes |
| `Encoding.Utf8EncodeFixesExactlyAscii` | YiiDirectApi.php:394 | `utf8_encode` leaves a string unchanged if and only if every byte is below 0x80 |
| `Encoding.UrlEncode` | YiiDirectApi.php:176-179 | the encoded value never contains `&` or `=`, so it cannot split a query string |
| `Encoding.UrlRoundTrip` | YiiDirectApi.php:176-179 | `urldecode(urlencode(s)) == s` for every byte string |
| `Encoding.UrlDecodePlain` | YiiDirectApi.php:195 | a value without `+` or `%` reads back unchanged without being encoded |
| `Encoding.Ucfirst` | YiiDirectApi.php:409 | length kept, every byte after the first kept, a lower-case ASCII first letter raised by 32, anything else unchanged |
| `QueryString.BuildQuery` | YiiDirectApi.php:176-179 | `http_build_query` of string pairs; what it produces is stated by `BuildQueryReadsBack` |
| `QueryString.BuildQueryReadsBack` | YiiDirectApi.php:176-179 | a query built by `http_build_query` splits into as many pieces as pairs, and each piece parses back to its (name, value) |
| `Recode.Utf8` | YiiDirectApi.php:388-398 | the result is an array exactly when the input is; an array keeps its keys in order; a non-array passes through untouched |
| `Recode.Utf8AlongPath` | YiiDirectApi.php:388-398 | along every key path, the same paths exist; below the top, each string `s` becomes `utf8_encode(s)`; null, booleans and integers are unchanged; sub-arrays keep their keys |
| `Recode.Utf8Index` | YiiDirectApi.php:388-398 | looking a key up in the re-encoded array gives the re-encoded value found under that key before (null when absent) |
| `YiiDirect.AuthorizeLinkParams` | YiiDirectApi.php:176-179 | the link `init` stores reads back, through a query-string parser, as exactly `response_type` then `client_id` with their configured values |
| `YiiDirect.AuthorizeUrl` | YiiDirectApi.php:193-196 | the link is a prefix; a state of `""` or `"0"` returns the link unchanged; any other state appends `&state=` and the raw state |
| `YiiDirect.AuthorizeUrlParams` | YiiDirectApi.php:176-196 | parsed back, the authorization URL carries `response_type`, `client_id`, then `state` exactly when the state is truthy (for states without `&`, `+`, `%`) |
| `YiiDirect.TokenRequestFields` | YiiDirectApi.php:209-214 | the token form has the keys `grant_type`, `code`, `client_id`, `client_secret` in that order, holding the grant type `authorization_code`, the given code, the application id and the secret |
| `YiiDirect.Exchange` | YiiDirectApi.php:204-226 | code recorded and errors cleared; with an empty `error`, the token becomes `access_token` (null if missing) and `error` stays null; otherwise the token is kept and `error` is stored; nothing else changes |
| `YiiDirect.ExchangeFailureKeepsToken` | YiiDirectApi.php:219-225 | a reply with a truthy `error` keeps the earlier token and records a non-null error |
| `YiiDirect.ExchangeWithoutTokenClearsIt` | YiiDirectApi.php:219-220 | a reply with neither `error` nor `access_token` leaves the token null and no error |
| `YiiDirect.EnvelopeFields` | YiiDirectApi.php:356-363 | the envelope has exactly the keys method, param, locale, login, application_id, token in that order, filled from the arguments, the locale, the login, the application id and the token |
| `YiiDirect.SentRequest` | YiiDirectApi.php:356-365 | the request passed on after `utf8` has the same six keys, each holding its field re-encoded |
| `YiiDirect.Classify` | YiiDirectApi.php:370-380 | an empty reply is returned as-is with all errors null; a code+str reply returns false, stores code and str, and leaves the detail null; any other reply is returned unchanged with code and str null and the detail stored exactly when `error_detail` is non-empty; an error is recorded exactly for code+str replies |
| `YiiDirect.Query` | YiiDirectApi.php:353-381 | a cURL failure raises its message and leaves all errors null; an application error returns false and stores code and string but no detail; any other reply is returned unchanged with no error, and `error_detail` is stored as the detail exactly when the reply and it are non-empty; no field but the three error fields changes |
| `YiiDirect.QueryTouchesOnlyErrors` | YiiDirectApi.php:353-381 | a call changes only the three error fields, and what it leaves there does not depend on what they held before |
| `YiiDirect.CallRequest` | YiiDirectApi.php:406-410 | the request `__call` sends has `method` equal to the re-encoded `ucfirst` of the name, and `param` equal to the re-encoded first argument, or an empty array when there is none |
| `YiiDirect.YiiDirectApi.constructor` | YiiDirectApi.php:81-185 | response type, locale and sandbox flag default to `code`, `ru` and false; the API URL is the sandbox URL exactly when `useSandbox` is set; the authorization link is built from response type and id; a falsy locale is replaced by the application language; session and error fields start null |
| `YiiDirect.YiiDirectApi.GetAuthorizeUrl` | YiiDirectApi.php:193-196 | returns `AuthorizeUrl` of the stored link and the state; the state defaults to `""` |
| `YiiDirect.YiiDirectApi.GetDirectToken` | YiiDirectApi.php:204-226 | the new state is `Exchange` of the old; the token now held is returned; the form posted is `TokenRequest`, and it is posted to `TOKEN_URL` |
| `YiiDirect.YiiDirectApi.SetToken` | YiiDirectApi.php:233-237 | only the token changes; the component itself is returned |
| `YiiDirect.YiiDirectApi.GetError` | YiiDirectApi.php:243-246 | returns the stored error code |
| `YiiDirect.YiiDirectApi.SetError` | YiiDirectApi.php:253-257 | only the error changes; the component itself is returned |
| `YiiDirect.YiiDirectApi.GetLogin` | YiiDirectApi.php:263-266 | returns the stored login |
| `YiiDirect.YiiDirectApi.SetLogin` | YiiDirectApi.php:273-277 | only the login changes; the component itself is returned |
| `YiiDirect.YiiDirectApi.SetErrorDetail` | YiiDirectApi.php:284-288 | only the error detail changes; the component itself is returned |
| `YiiDirect.YiiDirectApi.GetErrorDetail` | YiiDirectApi.php:294-297 | returns the stored error detail |
| `YiiDirect.YiiDirectApi.SetErrorStr` | YiiDirectApi.php:304-308 | only the error string changes; the component itself is returned |
| `YiiDirect.YiiDirectApi.GetErrorStr` | YiiDirectApi.php:314-317 | returns the stored error string |
| `YiiDirect.YiiDirectApi.ClearErrors` | YiiDirectApi.php:323-329 | error, error string and error detail become null; token, login, code and configuration are untouched |
| `YiiDirect.YiiDirectApi.ApiQuery` | YiiDirectApi.php:353-381 | state, request and outcome are those of `Query`: errors cleared, the re-encoded envelope sent to the API URL chosen by `init`, a cURL failure raised, otherwise the reply classified by `Classify`; the parameters default to an empty array |
| `YiiDirect.YiiDirectApi.Call` | YiiDirectApi.php:406-410 | the same as `ApiQuery`, sent to the same URL, with the method name passed through `ucfirst` and the first argument (or an empty array) as parameters |

## Left out

- The cURL handle, its options (including the repeated `CURLOPT_TIMEOUT` and the disabled certificate check) and `_execCurl` are not modelled. The transport is the `Transport` parameter; a cURL error becomes `Raised` with its message.
- `CJSON::encode` and `CJSON::decode` are not modelled. The request is the value before JSON encoding, and the reply is already decoded. A body that fails to decode is `Null`.
- `Yii::app()->curl->post` to the token endpoint is not modelled. Its decoded reply is a parameter, and the posted form is returned.
- `Yii::app()->language` is framework state. It is the constructor's `appLanguage` parameter.
- The constructor runs `init` as the framework does after configuring the component. Use of the component before `init` is not modelled.
- The configuration properties `id`, `password`, `responseType` and `locale` are byte strings. A null or non-string value there is not modelled; for example, `http_build_query` would drop a null `client_id`.
- `http_build_query` is modelled for a list of string pairs only, which is how `init` uses it.
- PHP floats and objects in decoded values are not modelled.
- Reading `$result['key']` when `$result` is a string yields null in the model. PHP would read a string offset there.
- `ucfirst` is modelled for ASCII letters, as in the C locale.
- The `@method` list of remote method names has no behaviour and is left out. PHP's magic method lookup is left out too; only the forwarding done by `__call` is modelled.
- Decoded arrays are lists of entries whose keys the model does not force to be distinct. A PHP array holds each key once; lookups in the model read the first entry carrying a key, so arrays with repeated keys are a superset the source never produces.
