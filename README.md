# rest-api request handlers, in Dafny

A model of the request-decision layer of a small user-account REST service
written in Go with gin and gorm: the path-id check, the six handlers that
serve `/v1/users`, `/v1/users/:id`, `/v1/signup` and `/v1/signin`, and the
landing page. Each handler is a fixed chain of checks with early returns;
here each is a pure function from the request's inputs and the results of
the calls it makes to a `Response` value: status, JSON body, cookies set,
errors recorded in the gin context, and whether the chain was aborted.

The collaborators the handlers call (the gorm user store, the bcrypt
password check, the JWT signer) are parameters of the handler functions:
functions such as `nat -> Outcome<User>` that the handler applies to the
exact arguments the Go code passes, including the method's receiver where it
carries request data: the bound request for Create, Update and FindByEmail,
the found user for CheckPassword and GetJwtToken. FindAll, FindById and
Delete are called on a zero-valued user, so their receiver is omitted. That makes two kinds of fact statable:
which call a handler makes (the store is asked for the parsed id, the
password check gets the stored hash and the request's password), and which
calls it does not make (an invalid id gives the same response whatever the
store would say). JSON binding of the request body is an input holding the
decoded user or the bind error's text.

The id check calls Go's `strconv.ParseUint(s, 10, 32)`. That function
belongs to Go's standard library; it is modelled here, for base 10, after
Go's algorithm (a left-to-right digit loop over a uint64 accumulator with a
cutoff test before multiplying by ten and a wrap-around or bound test after
adding the digit) and proved equal to a whole-string definition: success
exactly on one or more ASCII digits whose value fits the bit size.

Files: `types.dfy` (Option, the user record, call outcomes), `strconv.dfy`
(ParseUint), `http.dfy` (responses and gin's response writers),
`user_handlers.dfy`, `login_handlers.dfy`, `home.dfy`.

The model follows the code where it differs from what such a service is
usually meant to do:
- the user object in GetUser, UpdateUser and SignUp responses is the stored
  row as the store returns it, and that row has a `password` JSON field (the
  hash); nothing in the handlers strips it (`GetUserReturnsStoredRow`);
- sign-in with an unknown e-mail answers 404 with the store's error text,
  not 401 "invalid credentials";
- no handler checks a token; the token is only issued.

## Model

| member | source | states |
|---|---|---|
| Strconv.ParseUint | pkg/handlers/user.go:111 | ParseUint(s, 10, bitSize) for bitSize 0..64 (0 meaning 64) returns exactly what the whole-string definition `ParseSpec` gives; a bit size outside 0..64 on a non-empty string is the bit-size error |
| Strconv.ScanMeetsSpec | pkg/handlers/user.go:111 | Go's digit loop, started after any all-digit prefix that fits, returns the whole-string result: the cutoff and wrap-around tests report a range error exactly when the value read so far exceeds the maximum |
| Strconv.ParseSpecAccepts | pkg/handlers/user.go:111 | parsing succeeds if and only if the string is one or more ASCII digits whose value is at most the maximum, and then yields that value; a syntax error yields 0 and a range error yields the maximum |
| UserHandlers.ValidateId | pkg/handlers/user.go:110-116 | the id check succeeds if and only if the string is one or more ASCII digits with value at most 4294967295, returning that value; every failure, whatever its cause, yields id 0 and the message "invalid ID" |
| UserHandlers.ValidateIdRoundTrip | pkg/handlers/user.go:110-116 | every number up to 2^32-1 written in decimal is accepted and read back as itself; every larger one is refused with "invalid ID" |
| UserHandlers.ValidateIdExamples | pkg/handlers/user.go:110-116 | "1", "99", "007" and "4294967295" are accepted with their values; "4294967296", "invalid", "", "+1" and "1_0" are refused |
| UserHandlers.GetUsers | pkg/handlers/user.go:14-27 | a store failure is 500 with no body and exactly the store's error recorded; otherwise 200 with the store's list (empty for an empty store) under "users"; each status occurs if and only if its case holds |
| UserHandlers.GetUser | pkg/handlers/user.go:29-53 | an invalid id is 400 "invalid ID"; a failed lookup of the parsed id is 404 "user not found" whatever the store's text; a found user is 200 with that user under "user" |
| UserHandlers.UpdateUser | pkg/handlers/user.go:55-85 | invalid id is 400 "invalid ID"; then a bind failure is 400 with the bind error's text; then a failed update of the bound user under the parsed id is 404 with the store's text; 201 with the updated user occurs if and only if all three steps pass |
| UserHandlers.DeleteUser | pkg/handlers/user.go:87-108 | invalid id is 400 "invalid ID"; a failed delete of the parsed id is 404 with the store's text; 204 with no body and no abort occurs if and only if the id is valid and the delete succeeds |
| UserHandlers.InvalidIdShortCircuits | pkg/handlers/user.go:31-96 | with an invalid id, GetUser, UpdateUser and DeleteUser answer the same whatever the binding and the store would do: neither is reached |
| UserHandlers.BindFailureSkipsUpdate | pkg/handlers/user.go:66-74 | after a bind failure the update call is not consulted |
| UserHandlers.LookupErrorTextHidden | pkg/handlers/user.go:41-47 | any two lookup failures in GetUser give the same response: the store's text does not reach the client |
| UserHandlers.GetUserReturnsStoredRow | pkg/handlers/user.go:41-51 | the user in a 200 response is the stored row unchanged, password field included |
| LoginHandlers.SignUp | pkg/handlers/login.go:13-42 | bind failure is 400 "invalid request"; any of username, e-mail, password empty is 400 "please provide required details"; a failed create is 409 with the store's text verbatim; 201 with a single key "user" holding the created user; each status if and only if its case holds |
| LoginHandlers.MissingDetailsSkipsCreate | pkg/handlers/login.go:24-31 | a request missing a detail never reaches create |
| LoginHandlers.SignIn | pkg/handlers/login.go:44-98 | the first failing step of bind, credentials, lookup, password check, token decides the status (400, 400, 404, 401, 500) with its message, aborts and sets no cookie; 200 if and only if no step fails, with exactly "access_token" = token and "type" = "bearer" and one cookie Authorization = token, max-age 86400, path = request path, empty domain, not Secure, HttpOnly |
| LoginHandlers.SignInIgnoresUsername | pkg/handlers/login.go:55-63 | once the body has bound, the handler never reads the username: with a lookup that does not depend on its receiver's username, changing the username changes no response |
| LoginHandlers.LaterStepsNotConsulted | pkg/handlers/login.go:65-90 | after a failed bind, credentials check or lookup, neither the password check nor the signer is consulted; after a failed password check the signer is not consulted |
| LoginHandlers.SignInChecksStoredHash | pkg/handlers/login.go:74-81 | the password check, called on the found user, is given that user's password field and the request's password: a checker accepting exactly that pair lets sign-in through, one comparing the request's password with itself would not |
| HomeHandler.Home | pkg/handlers/home.go:9-19 | status 308 if and only if the URL string is exactly "/", 200 otherwise; the body is {"message": "Namaste World! 🙏"} in both cases; no cookie, error or abort |
| HomeHandler.HomeExamples | pkg/handlers/home.go:10-18 | "/" gives 308, "/v1" and "/?lang=en" give 200, with the same body |

## Left out

- The gorm store calls (FindAll, FindById, FindByEmail, Create, Update, Delete), bcrypt's password check and the JWT signer are not part of this model: they are parameters whose results are arbitrary, so no store semantics (e-mail uniqueness, auto-increment ids, password hashing) is assumed.
- gin's JSON binding and its validation rules (the `binding` tags of the user record) are an input: bound user or bind error text. gin's BindJSON also aborts with 400 and records its error in ctx.Errors before the handler writes its JSON; the `errors` of a response hold only the errors the handlers record themselves (GetUsers' AbortWithError). The UpdateUser test's expected "invalid request" for a missing body is the text of gin's own bind error, which the handler passes through.
- The `binding` tags of the user record (pkg/types/user.go:7-9) make gin's bind step itself refuse some bodies, for example a sign-in body whose username is shorter than 3 characters; those refusals are part of the bind input, not derived in the model.
- gin's SetCookie replaces an empty path with "/" and query-escapes the value; the cookie recorded is the arguments the handler passes to SetCookie.
- Logging (log.Warn, log.Error) has no effect on the response and is not modelled.
- "Exactly one response per request" holds by construction: each handler is a function returning one Response. gin's behaviour on a second write is not modelled.
- Strconv.ParseUint: bit size 0 is taken to mean 64 (Go's int size on 64-bit platforms); Go reads bytes while the model reads characters, which gives the same result because a non-ASCII character fails as a syntax error at its first byte, before any later digit is read. Only base 10 is modelled.
- The tests and the route table call `HomeHandler()`, while home.go defines `Home(ctx)`; the model covers the branch logic of `Home`.
- Database connection and migration, process start-up and environment configuration, and route registration are I/O plumbing and are not part of this model; concurrency between requests is left to gin.
