# jwtcli `sign`: option resolution

A Dafny model of the logic of the `sign` command of jwtcli, a command-line
front end to the `jsonwebtoken` library. The command's handler receives the
flat argument record the argument parser has produced and:

1. destructures `claims` and `secret` out of it;
2. parses the claims with `parse`, whose default parameter turns a missing
   claims argument into the text `"{}"`;
3. builds the options object by a `reduce` over eight whitelisted names
   (`algorithm`, `audience`, `expiresIn`, `issuer`, `jwtid`, `keyid`,
   `notBefore`, `subject`), copying each one that is an own property of the
   remaining arguments, whatever its value;
4. sets `noTimestamp` to `timestamp !== true`;
5. when `header` is a string, parses it with the same `parse` and attaches the
   parsed value as `header`;
6. calls `jwt.sign(claims, secret, options)`, prints the token between two
   blank lines and returns it.

Either parse failing prints "Unable to parse claims, invalid JSON." to
standard error and exits with code 1, before anything is signed.

The model lives in two modules:

- `JsValues` (`js_values.dfy`): JavaScript values, an argument record as a
  map from own-property name to value, and property reads that give
  `undefined` for a missing key.
- `Sign` (`sign.dfy`): `Parse` (a function returning a result), the `reduce`
  loop as the method `PickOptions` proved against the fold `Pick`, the
  options record `ResolveOptions`, the whole run `Execute` as a reference
  function, and the method `Handler` proved equal to it.

JSON.parse and `jwt.sign` are parameters: `jsonParse` maps a value to
`Some(parsed)` or to `None` where JSON.parse throws, and `jwtSign` maps a
`SignRequest(claims, secret, options)` to a token or to a thrown value. Each
run is described by an `Execution`: the values handed to JSON.parse in order,
the requests handed to `jwt.sign`, the lines written to standard output and to
standard error, and whether the handler returned a token, exited, or let an
error from `jwt.sign` escape.

Where the code's own doc comment and the code disagree, the model follows the
code: the comment gives `expiresIn` a default of `"30m"`, which the handler
never supplies, and describes the flag as `noTimestamp` defaulting to false,
while the handler computes `noTimestamp` as `timestamp !== true`, so a missing
`timestamp` argument yields `noTimestamp: true` (the `true` default of
`timestamp` is the argument parser's, outside this model). The handler does
not check that a secret is present or non-empty; whatever `secret` reads as,
`undefined` included, is passed to `jwt.sign`.

## Model

| member | source | states |
|---|---|---|
| `Sign.Parse` | lib/commands/sign.js:120-126 | an undefined argument is parsed as the text `{}` (so it yields the empty object whenever JSON.parse maps `{}` to it); any other value, the empty string included, goes to JSON.parse unchanged; success carries exactly what JSON.parse returned; failure is always exit code 1 with "Unable to parse claims, invalid JSON." |
| `Sign.PickKeeps` | lib/commands/sign.js:98-103 | the `reduce` over a key list keeps exactly the listed keys that are own properties of the arguments, each with its value unchanged |
| `Sign.PickOptions` | lib/commands/sign.js:88-103 | the loop that fills the options map key by key yields the fold over the eight whitelisted names: a key is in the result iff it is whitelisted and present, with the argument's value |
| `Sign.WhitelistedOptions` | lib/commands/sign.js:98-103 | for each whitelisted name, presence in the options is decided by presence in the arguments (not by value), and a present value is copied identically, empty or falsy values included |
| `Sign.AbsentDiffersFromEmpty` | lib/commands/sign.js:99-100 | a whitelisted option given as the empty string reaches the options as the empty string, while an absent one does not appear at all |
| `Sign.NoOtherOptions` | lib/commands/sign.js:86-107 | the options hold only whitelisted names, `noTimestamp` and `header`; `claims`, `secret` and `timestamp` never appear |
| `Sign.TimestampAndHeader` | lib/commands/sign.js:104-107 | `noTimestamp` is always set, false exactly when `timestamp` is the boolean true and true otherwise (missing or non-boolean); `header` is set iff a parsed header is supplied, to that value |
| `Sign.OtherArgumentsIgnored` | lib/commands/sign.js:88-104 | for a given parsed header, adding or changing any argument outside the whitelist other than `timestamp` (aliases such as `expires-in` or `e`) leaves the resolved options unchanged |
| `Sign.OtherArgumentsIgnoredByRun` | lib/commands/sign.js:86-113 | adding or changing any argument that is not whitelisted and is none of `claims`, `secret`, `timestamp` and `header` leaves the whole run unchanged: the same parses, the same signing call, the same output and outcome |
| `Sign.Execute` | lib/commands/sign.js:86-127 | claims are parsed first and the header (only when it is a string and the claims parsed) second; the run exits iff one of these parses fails, and then with code 1, the fixed message on standard error, nothing on standard output and no signing call; otherwise exactly one signing call is made, on the parsed claims, the secret and the resolved options, and its token is returned and printed between blank lines, or its thrown error escapes |
| `Sign.Handler` | lib/commands/sign.js:86-113 | the step-by-step handler (destructure, parse, fill the options, set `noTimestamp`, parse the header, sign, print) produces exactly the run `Execute` describes |
| `Sign.SignedHeader` | lib/commands/sign.js:105-108 | in a run that reaches signing, the options carry `header` iff the `header` argument is a string, and then the value JSON.parse produced from it rather than the text |

## Left out

- The argument parser configuration (`builder`, lib/commands/sign.js:10-69) and lib/index.js: algorithm choices, the `HS256` and `timestamp: true` defaults, the required `secret`, kebab-case to camelCase aliasing and help output. The handler's input is taken as an already resolved record.
- `jwt.sign` itself (token encoding, signatures, registered claims computed from timestrings and the clock): it is a parameter of the model, so no property of the token beyond "it is what the signing call returned" is stated.
- The internals of JSON.parse, including its conversion of a non-string argument to text: it is a parameter of the model.
- JavaScript numbers are modelled as reals; floating-point behaviour is not captured.
- The key order of the options object and of the argument record is not modelled; both are maps. Objects produced by JSON.parse (the claims and the header) keep their property order: they are sequences of name and value pairs.
- Console output is recorded as lines in the `Execution` rather than written; real process termination is the `Exited` outcome.
- A `process.exit` that returns instead of terminating is not modelled: then `parse` would yield `undefined` and signing would go on, whereas `Exited` ends the run. A `process.exit` replaced by one that throws ends the run as `Exited` does.
