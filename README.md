# Shopify app install flow, modelled in Dafny

This project models the install side of the Shopify OAuth 2.0
authorization-code flow (section 4.1 of RFC 6749). The original is a one-file
Fastify application, `index.js`. It has two route handlers:

- `GET /install` takes the `shop` query parameter. If `shop` is missing or
  empty it answers 400 with a fixed text. Otherwise it redirects with status
  302 to `https://<shop>/admin/oauth/authorize`. The URL's query carries
  `client_id`, `scope`, `state` (the nonce) and `redirect_uri`. All of it is
  built by plain string concatenation, with nothing escaped. `scope` is the
  SHOPIFY_SCOPES setting split on spaces and then comma-joined when the
  array is concatenated to a string.
- `GET /callback` runs these steps in order:
  1. It requires `shop` and `code`.
  2. It copies the query with `Object.assign({}, query)` and deletes
     `signature` and `hmac` from the copy. The copy also loses a
     `__proto__` parameter: assigning that name on a plain object runs the
     inherited setter, which ignores a string, instead of creating a key.
  3. It stringifies the copy and computes HMAC-SHA256 of that message under
     the API secret.
  4. It compares the UTF-8 bytes of the digest's hexadecimal form with the
     UTF-8 bytes of the `hmac` parameter, using `crypto.timingSafeEqual`.
     That function throws on a length mismatch; an inner try/catch turns the
     throw into "not equal".
  5. Only if the bytes are equal does it POST `{client_id, client_secret,
     code}` to `https://<shop>/admin/oauth/access_token` and render the
     body it gets back.

  An outer catch-all answers any exception with a 302 redirect to BASE_URL.

The model has three modules:

- `JsRuntime` (`js_runtime.dfy`): the JavaScript behaviour the handlers
  depend on. This covers falsiness of query values, `split`, the comma join
  of an array in string concatenation, the decimal rendering of the nonce,
  and normal versus thrown completion of a step.
- `NodeBuffer` (`node_buffer.dfy`): the byte-level pieces.
  - `Buffer.from(s, 'utf-8')` as a UTF-8 encoder.
  - `digest('hex')` as lower-case hexadecimal, with its decoder.
  - `crypto.timingSafeEqual` as an XOR/OR accumulation over every position
    that throws a RangeError when the lengths differ.
- `ShopifyOAuth` (`shopify_oauth.dfy`): the configuration and the two
  handlers.
  - `/install` is a pure function of the query, the configuration and the
    nonce.
  - `/callback` is a pair of methods that return the reply and the list of
    token requests sent. `CallbackTry` is the try block; `Callback` adds the
    catch-all.

HMAC-SHA256, `querystring.stringify` and the HTTP client's POST are
parameters of the callback (`mac`, `stringify`, `post`). Each theorem
therefore holds for every such function.

Main results:

- A token request is sent if and only if all of these hold:
  - `shop` and `code` are non-empty;
  - `hmac` is present;
  - `hmac` is exactly the lower-case hex digest of the stringified signing
    map.

  The byte comparison is proved equivalent to that string equality. No
  request is sent otherwise.
- The reply and the requests are a function (`CallbackDecision`) of only
  four things: `shop`, `code`, `hmac` and the signed message. No other
  parameter, the `state` value included, has any influence except through
  the signed message. This is because the state check in the source is
  commented out (index.js:62-66) and `shopState` is never used.
- The scope parameter equals SHOPIFY_SCOPES with every space replaced by a
  comma. Splitting is proved to be the unique inverse of joining.

The model follows the code where it departs from a hardened OAuth design:

- The code has no state (nonce) check and no 403 reply.
- The code does not validate the shop domain.
- The code sends the scope comma-joined.
- A `__proto__` parameter is not covered by the signature, so it can be
  added to a validly signed callback without changing the outcome.
- A failed token exchange, like every other exception, becomes a redirect to
  BASE_URL.

## Model

| member | source | states |
|---|---|---|
| `JsRuntime.Split` | index.js:28 | `split(' ')` yields at least one piece and no piece contains the separator |
| `JsRuntime.JoinSplit` | index.js:28 | joining the pieces of a split on the separator gives back the original string |
| `JsRuntime.SplitJoin` | index.js:28 | split is the only decomposition into separator-free pieces: splitting the join of such pieces returns them |
| `JsRuntime.JoinSplitReplaces` | index.js:42 | splitting on one character and joining on another replaces every occurrence of the first by the second |
| `JsRuntime.SplitOnSpaceCommaJoined` | index.js:42 | the comma-joined scope array is the configured scope string with every space made a comma |
| `JsRuntime.NumberToString` | index.js:43 | the nonce concatenated into `state` renders as at least one decimal digit, with no leading zero; 0 renders as exactly `"0"` |
| `JsRuntime.NumberToStringRoundTrip` | index.js:43 | reading the rendered digits back yields the nonce |
| `NodeBuffer.BufferFrom` | index.js:75 | `Buffer.from` throws a TypeError exactly when `hmac` is undefined, and otherwise yields its UTF-8 bytes |
| `NodeBuffer.Utf8MatchesAscii` | index.js:75-82 | two strings with identical UTF-8 bytes are equal when one of them is ASCII, as the hex digest is |
| `NodeBuffer.Hex` | index.js:80 | `digest('hex')` has two characters per byte, all lower-case hexadecimal digits |
| `NodeBuffer.UnhexHex` | index.js:80 | the hexadecimal form of a digest decodes back to the digest |
| `NodeBuffer.HexUnhex` | index.js:80 | any string that decodes to some bytes is exactly the canonical lower-case form of those bytes |
| `NodeBuffer.DiffBitsZero` | index.js:86 | the OR of byte-wise XORs over every position is zero iff the two prefixes are equal |
| `NodeBuffer.TimingSafeEqual` | index.js:86 | `timingSafeEqual` throws a RangeError iff the lengths differ, and otherwise returns true iff the byte strings are equal |
| `ShopifyOAuth.InstallUriIsAuthorizeUrl` | index.js:39-44 | the concatenated install URI is the https URL to the shop's `/admin/oauth/authorize` with `client_id`, `scope`, `state`, `redirect_uri` in that order, unescaped |
| `ShopifyOAuth.Install` | index.js:35-50 | redirects (status 302, to that authorization URL) iff `shop` is present and non-empty; otherwise answers 400 with the fixed missing-shop text and no redirect |
| `ShopifyOAuth.InstallFromEnvironment` | index.js:24-46 | with CONFIG loaded from the environment, the install redirect carries the API key, the scope string with spaces made commas, the nonce in decimal and BASE_URL + `/callback` |
| `ShopifyOAuth.BuildSigningMap` | index.js:71-73 | the signing map has exactly the query's keys minus `signature`, `hmac` and the `__proto__` key `Object.assign` cannot copy onto `{}`, each with the query's value; the query itself is a value and is not changed |
| `ShopifyOAuth.CompareHashes` | index.js:84-89 | the comparison always ends normally and is true iff the generated and provided byte strings have equal length and identical bytes; a length mismatch gives false |
| `ShopifyOAuth.CallbackTry` | index.js:53-109 | the try block sends the requests of the decision. It ends normally with the decision's reply, or throws only where the decision redirects to BASE_URL. It throws exactly when `shop` and `code` are present and either `hmac` is absent (TypeError) or the signature is valid and the POST fails (RequestError) |
| `ShopifyOAuth.Callback` | index.js:52-115 | reply and requests are determined by `shop`, `code`, `hmac` and the signed message alone. A token request is sent iff `shop` and `code` are non-empty and `hmac` equals the hex HMAC of the stringified signing map. When sent, it is the single POST to `https://<shop>/admin/oauth/access_token` with the key, the secret and the code, and the `hmac` decodes to the digest |
| `ShopifyOAuth.ProtoParamUnsigned` | index.js:71-74 | adding a `__proto__` parameter with any value to a callback leaves its reply and its token requests unchanged |

## Left out

- Fastify setup, the logger, `listen`/`process.exit` and the `/` route (index.js:1-3, 31-33, 118-124): server plumbing.
- Template rendering (index.js:5-16, 105): the success page is the reply `View(template, body)`, with no rendering.
- HMAC-SHA256 (index.js:76-82): a parameter `mac` returning 32 bytes. SHA-256 is a foreign library call. The hexadecimal encoding of its result is modelled.
- `querystring.stringify` (index.js:74): a parameter `stringify` over the signing map. Its percent-encoding is not modelled. The insertion order of the JavaScript object's keys is not modelled either, because the query is an unordered map.
- `nonce()` (index.js:20, 43): randomness is a natural-number parameter. Only its decimal rendering is modelled; JavaScript's exponent notation for numbers of 10^21 and above is not.
- `got.post` (index.js:95-102): a parameter `post` that yields a parsed body or a failure. Timeouts, non-2xx statuses and JSON parse errors are all the same failure.
- `dotenv`/`process.env` (index.js:22-29): the settings are strings. An undefined variable is not modelled: an unset SHOPIFY_SCOPES makes `split` throw at start-up, and an unset BASE_URL would render as `undefined`.
- Repeated query parameters, which the query parser turns into arrays: every query value is a single string.
- JavaScript strings are UTF-16 and may hold lone surrogates. The model's characters are Unicode scalar values, so `Buffer.from`'s replacement of lone surrogates is not modelled.
- The constant-time property of `timingSafeEqual`: timing cannot be stated. The model only visits every position without stopping early.
- State (nonce) verification and shop-domain validation: the source does not perform them (the check is commented out at index.js:62-66), so the model does not either.
- `console.log`/`console.error` (index.js:68, 104, 111): logging.
- Exceptions from `crypto.createHmac` or from template rendering: the secret is always a string, and rendering is not modelled.
