# IP reputation checker: authorisation and input-validation core

This project is a Dafny model of the request-authorisation and
input-validation logic of three small HTTP services, with proofs about that
logic:

- the **auth service** (FastAPI, `auth-service/main.py`) registers users,
  logs them in, issues and verifies JWT bearer tokens, and answers
  `/check-reputation/{ip}`;
- the **API service** (FastAPI, `api-service/main.py`) answers
  `/check-ip/{ip}` and its alias `/api/check-ip/{ip}`;
- the **analysis service** (Express, `analysis-service/server.js`) answers
  `/check-ip?ip=…`.

Every lookup endpoint guards an outbound request to a geolocation service
against SSRF. The two Python services use `ipaddress` and five CIDR blocks.
The Node service uses a dotted-quad regular expression and textual prefix
patterns.

## Modules

| file | module | what it holds |
|---|---|---|
| `wrappers.dfy` | `Wrappers` | `Option` and `Result` |
| `http.dfy` | `Http` | JSON values, responses, the outcome of the outbound request, and `Handled` (a response plus the address that was looked up, if any) |
| `text.dfy` | `Text` | ASCII digits, `str.split` on one character and its inverse `Join`, and short decimal spellings |
| `ipv4.dfy` | `IPv4` | addresses as octets, their 32-bit value, CIDR membership, and the five private networks |
| `py_ip_guard.dfy` | `PyIpGuard` | `ipaddress` IPv4 parsing and `validate_ip_address` |
| `js_ip_guard.dfy` | `JsIpGuard` | `isValidIP` and `isPrivateIP`, and how they compare with the Python guard |
| `user_input.dfy` | `UserInput` | the pydantic `UserIn` rules |
| `tokens.dfy` | `Tokens` | `create_access_token`, `verify_token` and `/verify-token` |
| `accounts.dfy` | `Accounts` | `/register` and `/login` over the users collection, as step functions and as the class `UserStore` |
| `auth_service.dfy` | `AuthService` | `check_ip_reputation` |
| `api_service.dfy` | `ApiService` | `_fetch`, `check_ip` and `api_check_ip` |
| `analysis_service.dfy` | `AnalysisService` | the `/check-ip` handler |

### Modelling choices

- **Oracles as parameters.** Everything the services get from a library or
  from the outside world is passed in:
  - the IPv6 grammar is a recogniser `isV6`;
  - `bcrypt.checkpw` is a predicate `checkpw`, and the bcrypt digest of a
    new password is an input;
  - JWT signing is an encoder `encode`;
  - a JWT decode is its outcome: the claims, or `None` when jose raises
    `JWTError`;
  - the clock is an integer `now` in whole seconds;
  - the outbound request is an `Upstream` value: `Unreachable`, or a reply
    with a status and a JSON object (`None` when the body is not JSON).
- **Which endpoint requests are made.** `Handled.lookedUp` records whether
  and about what the outbound request was made. "No fetch before the guard"
  is therefore a statement about an endpoint's result.
- **State.** The users collection is the field `users` of the class
  `Accounts.UserStore`. Its methods `RegisterUser` (`find_one`, then
  `insert_one`) and `LoginUser` (`find_one`, `checkpw`, then `update_one`)
  update it in place. Each is proved equal to the step function `Register`
  or `Login`. The properties are proved about those functions.
- **The guard loop.** `PyIpGuard.ValidateIpAddress` keeps the loop of
  `validate_ip_address` over the private ranges, including its early return.
- **Outcomes that follow from the framework:**
  - A private address with an invalid token gets the 401, not the 400.
    FastAPI resolves the `verify_token` dependency before the handler body
    runs its guard (auth-service/main.py:186, 192), so the token decides
    first (`AuthService.PrivateExample`).
  - A body that fails pydantic validation is FastAPI's 422, with the
    failing fields' messages under `detail` (`Accounts.ValidationFailed`).
  - The length messages use pydantic v1's wording. The source's `validator`
    decorator exists in both v1 and v2 (deprecated there), so the version
    is a choice of this model; v2 words the same checks differently.

## Model

| member | source | states |
|---|---|---|
| PyIpGuard.ParseIPv4 | auth-service/main.py:83 | `ipaddress.ip_address` on an IPv4 string: exactly four dot-separated octets; `ParseFormat`, `FormatParse` and `IPv4HasNoColon` state what it accepts and yields |
| PyIpGuard.ParseOctet | auth-service/main.py:83 | an octet `ipaddress` accepts is spelled exactly as `str` prints its value: no leading zero, at most three ASCII digits, at most 255 |
| PyIpGuard.ParseFormat | auth-service/main.py:83 | every IPv4 address is accepted in its dotted-quad spelling and read back as itself |
| PyIpGuard.FormatParse | auth-service/main.py:83 | only the dotted-quad spelling is accepted: any accepted string is the spelling of the address it yields |
| PyIpGuard.IsPublicRoutable | auth-service/main.py:79-101 | the decision of `validate_ip_address`: the string parses and no private network contains it; `GuardMeaning` states it in octets, and `ValidateIpAddress` is proved to compute it |
| PyIpGuard.ValidateIpAddress | auth-service/main.py:79-101 | the loop with early return yields exactly `IsPublicRoutable`: the string parses, and no private range contains the address (api-service/main.py:54-76 is the same body, modelled by the same member) |
| PyIpGuard.GuardMeaning | auth-service/main.py:81-101 | the guard refuses every string that does not parse, passes every IPv6 literal, and refuses an IPv4 address exactly when it is in 10/8, 172.16/12, 192.168/16, 127/8 or 169.254/16 |
| IPv4.BlockedIffOctets | auth-service/main.py:86-92 | membership in the five networks, computed as the netmask test, is exactly the octet test, so nothing else is blocked |
| PyIpGuard.GuardOnAddress | auth-service/main.py:94-99 | on the spelling of any IPv4 address, the guard passes exactly the addresses outside the five blocks |
| PyIpGuard.GuardExamples | auth-service/main.py:86-99 | 192.168.1.1, 127.0.0.1 and 10.0.0.5 are refused; 8.8.8.8 and 0.0.0.0 pass |
| PyIpGuard.GuardRefusesGarbage | auth-service/main.py:100-101 | a string that is no address, such as "not-an-ip", is refused and raises nothing |
| PyIpGuard.GuardRefusesLeadingZero | auth-service/main.py:83 | "010.0.0.1" is refused, because a leading zero makes the octet unreadable |
| PyIpGuard.IPv4HasNoColon | auth-service/main.py:83 | an accepted IPv4 string holds no ':' |
| JsIpGuard.IsValidIP | analysis-service/server.js:39-42 | the anchored dotted-quad regular expression, read on the four dot-separated groups; `IsValidIPMatchesPattern` proves that reading equals the regex, and `GuardsAgreeWithoutLeadingZeros` relates it to Python |
| JsIpGuard.IsPrivateIP | analysis-service/server.js:45-55 | some of the five prefix patterns matches; `EachPattern` and `PrivateMeansBlocked` state what each pattern means |
| JsIpGuard.OctetPatternMeaning | analysis-service/server.js:40 | a group of the pattern is one to three ASCII digits with value at most 255, leading zeros allowed |
| JsIpGuard.IsValidIPMatchesPattern | analysis-service/server.js:39-42 | the split-based `IsValidIP` holds exactly when some four pattern groups joined by '.' make up the whole string |
| JsIpGuard.PythonOctetIsPattern | analysis-service/server.js:40 | Python accepts an octet exactly when the JS pattern does and it has no leading zero |
| JsIpGuard.EachPattern | analysis-service/server.js:45-55 | on a valid string without leading zeros, each prefix pattern is a condition on the first two octets ("172.N." meaning 16 ≤ N ≤ 31) |
| JsIpGuard.PrivateMeansBlocked | analysis-service/server.js:45-55 | on a valid string without leading zeros, `isPrivateIP` is membership in the five CIDR networks |
| JsIpGuard.GuardsAgreeWithoutLeadingZeros | analysis-service/server.js:39-55 | without leading zeros, `isValidIP` accepts exactly the strings Python parses as IPv4, reads the same address, and `isPrivateIP` is CIDR membership |
| JsIpGuard.Ipv6Divergence | analysis-service/server.js:39-42 | an IPv6 literal passes the Python guard and fails `isValidIP` |
| JsIpGuard.LeadingZeroBypass | analysis-service/server.js:40-51 | "010.0.0.1" passes `isValidIP`, read in decimal denotes 10.0.0.1 in 10/8, matches no private prefix, and is refused by Python |
| UserInput.UsernameError | auth-service/main.py:105-112 | the username field's first failing check (length bounds, then the pattern); `UsernameRule` states which strings pass |
| UserInput.PasswordError | auth-service/main.py:106-122 | the password field's first failing check (length bounds, then the three searches in order); `PasswordRule` states which strings pass |
| UserInput.ValidateUserIn | auth-service/main.py:104-122 | the body is accepted, or fails with every failing field's error; `ValidationRule` states the outcome |
| UserInput.UsernameRule | auth-service/main.py:105-112 | a username is accepted exactly when it has 3 to 50 characters from letters, digits, '_' and '-', with one final newline tolerated by `$` |
| UserInput.TrailingNewlineUsername | auth-service/main.py:110 | "ab\n" is accepted, while "ab" is too short |
| UserInput.PasswordRule | auth-service/main.py:106-122 | a password is accepted exactly when it has 8 to 128 characters and an uppercase letter, a lowercase letter and a digit |
| UserInput.ValidationRule | auth-service/main.py:104-122 | a body is accepted exactly when both fields are; otherwise each failing field is reported once, username first |
| Tokens.CreateAccessToken | auth-service/main.py:51-59 | the payload is the input claims with `exp` added or overwritten, other claims unchanged; `exp` is now + delta for a non-zero delta, else now + 30 minutes |
| Tokens.VerifyToken | auth-service/main.py:61-77 | it yields `sub` exactly when the decode succeeds and `sub` is present and not null; every other case is the one 401 with `WWW-Authenticate: Bearer` (api-service/main.py:36-52 is the same body, modelled by the same member) |
| Tokens.VerifyUserToken | auth-service/main.py:173-175 | 200 with the username and "Token is valid" exactly when the token verifies, else the 401 |
| Tokens.IssueThenVerify | auth-service/main.py:51-77 | a login token for a user verifies to that user until, and only until, 30 minutes after issue |
| Accounts.Register | auth-service/main.py:141-153 | `/register` as a step on the users map; `RegisterOutcome` and `RegisterTwice` state its outcomes, and `UserStore.RegisterUser` is proved to perform it |
| Accounts.Login | auth-service/main.py:155-171 | `/login` as a step on the users map; `LoginFailuresIdentical` and `LoginSuccess` state its outcomes, and `UserStore.LoginUser` is proved to perform it |
| Accounts.RegisterOutcome | auth-service/main.py:141-153 | registration succeeds exactly for a valid body with a free username; it then adds exactly one record with no last login, and otherwise changes nothing; an invalid body is the 422 listing the failing fields; well-formedness is kept |
| Accounts.RegisterTwice | auth-service/main.py:143-144 | registering a taken username is the 400 and leaves the collection unchanged |
| Accounts.LoginFailuresIdentical | auth-service/main.py:157-159 | an unknown user and a wrong password give the identical 401 and change nothing |
| Accounts.LoginSuccess | auth-service/main.py:161-171 | a successful login changes only that user's `last_login`, to now, and returns a bearer token whose `sub` is the username and whose `exp` is 30 minutes on |
| Accounts.RegisterThenLogin | auth-service/main.py:141-171 | after registering, logging in with a matching password succeeds, and its token verifies to the username until it expires |
| Accounts.UserStore.RegisterUser | auth-service/main.py:141-153 | the in-place update and response are those of `Register`, and the store stays well formed |
| Accounts.UserStore.LoginUser | auth-service/main.py:155-171 | the in-place update and response are those of `Login`, and the store stays well formed |
| Accounts.UserStore.constructor | auth-service/main.py:29-32 | an empty, well-formed users collection |
| AuthService.Label | auth-service/main.py:200-209 | the label chosen from the reply, or None when the key is unhashable; `LabelLadder` states which label each reply gets |
| AuthService.Lookup | auth-service/main.py:195-216 | the `try` block after the guard; `ReputationOrder` states for every reply which of the 502, the labelled 200 and the 500 it gets, and `ReputationOnlyAddsLabel` what a 200 holds |
| AuthService.ReputationCheck | auth-service/main.py:185-216 | the endpoint's decision; `ReputationOrder` states its order of checks, and `CheckIpReputation` is proved to compute it |
| AuthService.LabelLadder | auth-service/main.py:200-209 | first match wins: a listed threat is "Known Threat" even when reported successful; "Clean" is a listed clean address or any other successful lookup; the rest is "Unknown"; a list- or dict-valued key raises TypeError (the 500) |
| AuthService.CheckIpReputation | auth-service/main.py:185-216 | the handler's steps give exactly the decision `ReputationCheck` |
| AuthService.ReputationOrder | auth-service/main.py:186-198 | token first (401, no fetch), then the guard (400, no fetch), then a lookup of the requested address; a failed request, an error status or a body that is not JSON is the fixed 502; any other reply is the labelled 200, or the 500 when its key is a list or a dict |
| AuthService.ReputationOnlyAddsLabel | auth-service/main.py:199-212 | a 200 returns the upstream object with only `reputation` added or changed, holding one of the three labels |
| AuthService.CleanExample | auth-service/main.py:182-207 | 1.1.1.1, reported successful, comes back labelled "Clean" |
| AuthService.ThreatExample | auth-service/main.py:183-203 | 185.220.101.5 comes back "Known Threat" although the lookup succeeded |
| AuthService.PrivateExample | auth-service/main.py:186-193 | 10.0.0.5 is the 400 with a valid token and the 401 without one |
| ApiService.FetchLabel | api-service/main.py:87 | "Clean" exactly when `query` is "8.8.8.8" or "1.1.1.1"; otherwise, including an absent `query`, "Unknown" |
| ApiService.Fetch | api-service/main.py:82-88 | a reply with a non-error status and a JSON body comes back with only `reputation` added or changed; any failure is None |
| ApiService.CheckIpBody | api-service/main.py:93-101 | the body of `check_ip`: the guard, then `_fetch`, every exception the fixed 502; `CheckIpOrder` states its outcomes |
| ApiService.CheckIpRoute | api-service/main.py:90-101 | the token dependency, then `CheckIpBody`; `CheckIpOrder` states the order |
| ApiService.CheckIpHandler | api-service/main.py:90-101 | the guard, then `_fetch`, every exception being the fixed 502, as `CheckIpBody` states |
| ApiService.CheckIp | api-service/main.py:90-101 | token dependency, then the handler, as `CheckIpRoute` states |
| ApiService.ApiCheckIp | api-service/main.py:103-106 | `api_check_ip` gives exactly the /check-ip route's outcome |
| ApiService.CheckIpOrder | api-service/main.py:92-101 | token, then guard (400 with no fetch), then the lookup; after it, only the labelled 200 or the fixed 502 |
| ApiService.LabelsCompared | api-service/main.py:87 | the API label never says "Known Threat"; its "Clean" is the auth service's "Clean"; an auth "Known Threat" is "Unknown" here |
| AnalysisService.Trim | analysis-service/server.js:64 | `String.prototype.trim` over the ECMAScript white space and line terminators; `TrimMeaning` and `TrimIdempotent` state what it does |
| AnalysisService.TrimMeaning | analysis-service/server.js:64 | the trimmed input is the input minus whitespace at both ends, and neither starts nor ends with whitespace |
| AnalysisService.TrimIdempotent | analysis-service/server.js:64 | trimming twice is trimming once |
| AnalysisService.Summary | analysis-service/server.js:99-105 | the success body is exactly query, reputation "Good", country, provider from `isp`, and an empty threats list, with absent fields dropped |
| AnalysisService.Lookup | analysis-service/server.js:79-109 | 200 with the summary exactly for an ok reply whose `status` is "success"; a non-ok status, a failed request or a non-JSON body is the fixed 502; any other reply is "IP lookup failed" naming the requested address |
| AnalysisService.CheckIp | analysis-service/server.js:63-110 | the `/check-ip` handler; `CheckIpOrder`, `LookedUpIsPublic` and `AcceptedAsGiven` state its outcomes |
| AnalysisService.CheckIpOrder | analysis-service/server.js:63-77 | empty, then format, then private, each its own 400 with a distinct message; the lookup is made about the trimmed address exactly when all three pass |
| AnalysisService.LookedUpIsPublic | analysis-service/server.js:64-77 | a looked-up address is a valid dotted quad without surrounding whitespace, and outside the five blocks when it has no leading zeros |
| AnalysisService.AcceptedAsGiven | analysis-service/server.js:64-77 | a valid, non-private string without surrounding whitespace, such as "010.0.0.1", is looked up as given |

## Left out

- The HTTP layer is not modelled: routing, CORS, helmet, body parsing and
  `app.listen`.
- `HTTPBearer` answers a missing or non-Bearer `Authorization` header with a
  403 before `verify_token` runs. That case is outside the model, which
  starts from a decode outcome.
- The health endpoints and the MongoDB connection and ping are I/O.
- The race between `find_one` and `insert_one` is not modelled. Each request
  is one atomic step on the map.
- Rate limiting (slowapi, 10 per minute; express-rate-limit, 100 per 15
  minutes) is time-windowed middleware and is not modelled.
- ApiService.CheckIp and ApiService.ApiCheckIp assume a limiter that lets
  the decorated functions run unchanged. `@limiter.limit("10/minute")`
  (api-service/main.py:91, 104) wraps functions that take no `request`
  parameter, which slowapi's `limit` requires; the outcomes modelled for
  /check-ip and /api/check-ip, and for the direct inner call `check_ip(ip)`
  at line 106, are those of the undecorated functions.
- bcrypt, JWT signing and decoding, and the IPv6 grammar are parameters
  (`checkpw`, `encode`, the decode outcome, `isV6`). Their internals are not
  modelled.
- `Tokens.DecodeVerified` is a reference for jose's claim checks on a token
  whose signature verifies. It covers `exp`, and a `sub` that is not a
  string. It is used only for the issue-then-verify round trip.
- The clock is read once per request. A login sets `last_login`
  (auth-service/main.py:164) and the token's `exp` (auth-service/main.py:54)
  from two separate clock readings; the model uses one `now` for both, so
  `Accounts.LoginSuccess` states them with the same instant.
- Times are whole seconds. Sub-second `datetime` precision is not modelled.
- Accounts.ValidationFailed: the 422 body lists only the message of each
  failing field. Pydantic's `loc` and `type` entries are not modelled.
- JSON numbers are integers. A reply whose body is JSON but not an object
  (a list, a number, a string, `null`) is not modelled. For such a reply the
  auth service's `data.get` raises AttributeError, which escapes its
  `except requests.RequestException` (a 500); the API service's `_fetch`
  raises inside `except Exception` (the fixed 502); and the Node service
  reads `json.status` of a list, number or string as `undefined` and sends
  the 400 "IP lookup failed", while for `null` it throws and sends the 502.
- The Node handler reads `req.query.ip` as a string or absent. A repeated
  parameter makes Express deliver an array, and that case is not modelled.
- Strings are sequences of Unicode code points. Python's `\d` also matches
  non-ASCII digits; the model reads it as ASCII `0-9`. JavaScript's UTF-16
  code units are not modelled.
- The URL built for the outbound request (`encodeURIComponent`, the fields
  list, the timeout, the User-Agent header) is not modelled.
