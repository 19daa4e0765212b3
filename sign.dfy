/**
  The `sign` command's handler: it parses the claims argument, resolves the
  options object for the signing library from the flat argument record, and
  hands claims, secret and options to the signing call.

  JSON.parse and the signing call are parameters of the model: `jsonParse`
  answers None where JSON.parse throws, and `jwtSign` answers either a token or
  the value it throws. Printing and process exit are recorded in the
  `Execution` the handler returns.
 */
module Sign {
  import opened JsValues

  /** The option names copied from the arguments when present, in the order they are visited. */
  const OptionKeys: seq<string> :=
    ["algorithm", "audience", "expiresIn", "issuer", "jwtid", "keyid", "notBefore", "subject"]

  /** The claims text parsed when no claims argument is given. */
  const DefaultClaims: string := "{}"

  /** The one diagnostic printed when either JSON argument does not parse. */
  const InvalidJsonMessage: string := "Unable to parse claims, invalid JSON."

  /** A fatal error: the message printed to standard error and the process exit code. */
  datatype Fatal = Fatal(code: int, message: string)

  const InvalidJson: Fatal := Fatal(1, InvalidJsonMessage)

  datatype Result<+T> = Success(value: T) | Failure(error: Fatal)

  /** JSON.parse applied to a value: None where it throws. */
  type JsonParse = Value -> Option<Value>

  /** The arguments of one call of the signing library: `jwt.sign(claims, secret, options)`. */
  datatype SignRequest = SignRequest(claims: Value, secret: Value, options: Record)

  /** What the signing library does with a request: return a token or throw. */
  datatype Signed = Token(token: string) | Thrown(error: Value)

  type JwtSign = SignRequest -> Signed

  /** How the handler ends: it returns a token, exits the process, or lets an error escape. */
  datatype Outcome = Returned(token: string) | Exited(code: int) | Raised(error: Value)

  /**
    Everything one run of the handler does that is visible from outside:
    the values given to JSON.parse in order, the requests given to the
    signing library, the lines printed to standard output and to standard
    error, and how it ended.
   */
  datatype Execution = Execution(
    parsed: seq<Value>,
    signed: seq<SignRequest>,
    stdout: seq<string>,
    stderr: seq<string>,
    outcome: Outcome)

  // ---------------------------------------------------------------------------
  // parse
  // ---------------------------------------------------------------------------

  /** The value JSON.parse receives: the default parameter replaces undefined. */
  function ParseInput(claims: Value): Value
  {
    if claims.Undefined? then Str(DefaultClaims) else claims
  }

  /** `parse(claims = '{}')`: JSON.parse of the argument, with its single fatal failure. */
  function Parse(claims: Value, jsonParse: JsonParse): (r: Result<Value>)
    ensures claims.Undefined? ==> (r.Success? <==> jsonParse(Str("{}")).Some?)
    ensures claims.Undefined? && jsonParse(Str("{}")) == Some(Object([])) ==> r == Success(Object([]))
    ensures !claims.Undefined? ==> (r.Success? <==> jsonParse(claims).Some?)
    ensures r.Success? ==> jsonParse(ParseInput(claims)) == Some(r.value)
    ensures r.Failure? ==> r.error == Fatal(1, "Unable to parse claims, invalid JSON.")
  {
    match jsonParse(ParseInput(claims))
    case Some(v) => Success(v)
    case None => Failure(InvalidJson)
  }

  // ---------------------------------------------------------------------------
  // handler: the option whitelist
  // ---------------------------------------------------------------------------

  /**
    The object that `keys.reduce` builds from `{}`: each key in turn is copied
    from `rest` when it is an own property there. Defined on the last key, as
    the fold visits it last.
   */
  function Pick(keys: seq<string>, rest: Record): Record
  {
    if keys == [] then map[]
    else
      var memo := Pick(keys[..|keys| - 1], rest);
      var key := keys[|keys| - 1];
      if key in rest then memo[key := rest[key]] else memo
  }

  /** The fold keeps exactly the listed keys that are present, with their values. */
  lemma {:induction false} PickKeeps(keys: seq<string>, rest: Record)
    ensures forall k :: k in Pick(keys, rest) <==> k in keys && k in rest
    ensures forall k :: k in Pick(keys, rest) ==> Pick(keys, rest)[k] == rest[k]
  {
    if keys != [] {
      var init := keys[..|keys| - 1];
      PickKeeps(init, rest);
      assert keys == init + [keys[|keys| - 1]];
    }
  }

  /** The `reduce` loop over the whitelist, updating the options map in place. */
  method PickOptions(rest: Record) returns (options: Record)
    ensures options == Pick(OptionKeys, rest)
    ensures forall k :: k in options <==> k in OptionKeys && k in rest
    ensures forall k :: k in options ==> options[k] == rest[k]
  {
    options := map[];
    for i := 0 to |OptionKeys|
      invariant options == Pick(OptionKeys[..i], rest)
    {
      var key := OptionKeys[i];
      if key in rest {
        options := options[key := rest[key]];
      }
      assert OptionKeys[..i + 1][..i] == OptionKeys[..i];
    }
    assert OptionKeys[..|OptionKeys|] == OptionKeys;
    PickKeeps(OptionKeys, rest);
  }

  // ---------------------------------------------------------------------------
  // handler: the resolved options
  // ---------------------------------------------------------------------------

  /** `rest.timestamp !== true`: strict comparison with the boolean true. */
  function NoTimestamp(rest: Record): Value
  {
    Bool(Get(rest, "timestamp") != Bool(true))
  }

  /**
    The options object handed to the signing call: the whitelisted keys that
    are present, `noTimestamp`, and `header` when a parsed header is given.
   */
  function ResolveOptions(rest: Record, header: Option<Value>): Record
  {
    var options := Pick(OptionKeys, rest)["noTimestamp" := NoTimestamp(rest)];
    if header.Some? then options["header" := header.value] else options
  }

  /**
    A whitelisted key is in the options exactly when it is an own property of
    the arguments, and then with the identical value, whatever that value is
    (the empty string, false, undefined).
   */
  lemma WhitelistedOptions(rest: Record, header: Option<Value>, key: string)
    requires key in OptionKeys
    ensures key in ResolveOptions(rest, header) <==> key in rest
    ensures key in rest ==> ResolveOptions(rest, header)[key] == rest[key]
  {
    PickKeeps(OptionKeys, rest);
  }

  /** Nothing but the whitelist, `noTimestamp` and `header` reaches the options. */
  lemma NoOtherOptions(rest: Record, header: Option<Value>, key: string)
    requires key in ResolveOptions(rest, header)
    ensures key in OptionKeys || key == "noTimestamp" || key == "header"
    ensures key != "claims" && key != "secret" && key != "timestamp"
  {
    PickKeeps(OptionKeys, rest);
  }

  /**
    `noTimestamp` is always set, to false exactly when `timestamp` is the
    boolean true; `header` is set exactly when a parsed header is given, to
    that parsed value.
   */
  lemma TimestampAndHeader(rest: Record, header: Option<Value>)
    ensures "noTimestamp" in ResolveOptions(rest, header)
    ensures ResolveOptions(rest, header)["noTimestamp"] == Bool(false) <==> Get(rest, "timestamp") == Bool(true)
    ensures ResolveOptions(rest, header)["noTimestamp"] == Bool(true) <==> Get(rest, "timestamp") != Bool(true)
    ensures "header" in ResolveOptions(rest, header) <==> header.Some?
    ensures header.Some? ==> ResolveOptions(rest, header)["header"] == header.value
  {
    PickKeeps(OptionKeys, rest);
  }

  /**
    An option given as the empty string is passed on as the empty string; an
    option not given is not passed on at all.
   */
  lemma AbsentDiffersFromEmpty(rest: Record, header: Option<Value>, key: string)
    requires key in OptionKeys
    ensures key !in ResolveOptions(rest - {key}, header)
    ensures key in ResolveOptions(rest[key := Str("")], header)
    ensures ResolveOptions(rest[key := Str("")], header)[key] == Str("")
  {
    WhitelistedOptions(rest - {key}, header, key);
    WhitelistedOptions(rest[key := Str("")], header, key);
  }

  /**
    Argument keys outside the whitelist, other than `timestamp` (aliases such
    as `expires-in` or `e`, for one), do not change the options resolved with
    a given parsed header.
   */
  lemma {:induction false} OtherArgumentsIgnored(rest: Record, header: Option<Value>, key: string, v: Value)
    requires key !in OptionKeys && key != "timestamp"
    ensures ResolveOptions(rest[key := v], header) == ResolveOptions(rest, header)
  {
    PickKeeps(OptionKeys, rest);
    PickKeeps(OptionKeys, rest[key := v]);
    assert Pick(OptionKeys, rest[key := v]) == Pick(OptionKeys, rest);
  }

  // ---------------------------------------------------------------------------
  // handler: the whole run
  // ---------------------------------------------------------------------------

  /** The run that ends at a fatal error, after the given JSON.parse calls. */
  function Abort(parsed: seq<Value>, fatal: Fatal): Execution
  {
    Execution(parsed, [], [], [fatal.message], Exited(fatal.code))
  }

  /** The run that hands `request` to the signing library and prints what it returns. */
  function Finish(parsed: seq<Value>, request: SignRequest, jwtSign: JwtSign): Execution
  {
    match jwtSign(request)
    case Token(t) => Execution(parsed, [request], ["", t, ""], [], Returned(t))
    case Thrown(e) => Execution(parsed, [request], [], [], Raised(e))
  }

  /** The arguments left once `claims` and `secret` are destructured out. */
  function Rest(args: Record): Record
  {
    args - {"claims", "secret"}
  }

  /** What one run of `handler(args)` does. */
  function Execute(args: Record, jsonParse: JsonParse, jwtSign: JwtSign): (r: Execution)
    // the claims are parsed first, the header (when it is a string) second
    ensures 1 <= |r.parsed| <= 2 && r.parsed[0] == ParseInput(Get(args, "claims"))
    ensures |r.parsed| == 2 <==> jsonParse(ParseInput(Get(args, "claims"))).Some? && Get(args, "header").Str?
    ensures |r.parsed| == 2 ==> r.parsed[1] == Get(args, "header")
    // the single fatal path
    ensures r.outcome.Exited? <==>
              || jsonParse(ParseInput(Get(args, "claims"))).None?
              || (Get(args, "header").Str? && jsonParse(Get(args, "header")).None?)
    ensures r.outcome.Exited? ==>
              && r.outcome.code == 1
              && r.stderr == ["Unable to parse claims, invalid JSON."]
              && r.stdout == []
              && r.signed == []
    // otherwise exactly one signing call, on the parsed claims, the secret and the resolved options
    ensures !r.outcome.Exited? ==>
              var header := Get(args, "header");
              && r.stderr == []
              && r.signed == [SignRequest(
                   jsonParse(ParseInput(Get(args, "claims"))).value,
                   Get(args, "secret"),
                   ResolveOptions(Rest(args), if header.Str? then jsonParse(header) else None))]
    ensures r.outcome.Returned? ==>
              jwtSign(r.signed[0]) == Token(r.outcome.token) && r.stdout == ["", r.outcome.token, ""]
    ensures r.outcome.Raised? ==> jwtSign(r.signed[0]) == Thrown(r.outcome.error) && r.stdout == []
  {
    var claims := Get(args, "claims");
    var rest := Rest(args);
    match Parse(claims, jsonParse)
    case Failure(fatal) => Abort([ParseInput(claims)], fatal)
    case Success(parsed) =>
      var header := Get(rest, "header");
      if !header.Str? then
        Finish([ParseInput(claims)], SignRequest(parsed, Get(args, "secret"), ResolveOptions(rest, None)), jwtSign)
      else
        match Parse(header, jsonParse)
        case Failure(fatal) => Abort([ParseInput(claims), header], fatal)
        case Success(h) =>
          Finish([ParseInput(claims), header], SignRequest(parsed, Get(args, "secret"), ResolveOptions(rest, Some(h))), jwtSign)
  }

  /**
    `handler(args)`: parse the claims, build the options object step by step,
    parse a string header, sign, print the token between blank lines and
    return it.
   */
  method Handler(args: Record, jsonParse: JsonParse, jwtSign: JwtSign) returns (e: Execution)
    ensures e == Execute(args, jsonParse, jwtSign)
  {
    var claims := Get(args, "claims");
    var secret := Get(args, "secret");
    var rest := Rest(args);
    var parseCalls := [ParseInput(claims)];
    var parsed := Parse(claims, jsonParse);
    if parsed.Failure? {
      return Abort(parseCalls, parsed.error);
    }
    var options := PickOptions(rest);
    options := options["noTimestamp" := NoTimestamp(rest)];
    var header := Get(rest, "header");
    if header.Str? {
      parseCalls := parseCalls + [header];
      var h := Parse(header, jsonParse);
      if h.Failure? {
        return Abort(parseCalls, h.error);
      }
      options := options["header" := h.value];
    }
    var request := SignRequest(parsed.value, secret, options);
    e := Finish(parseCalls, request, jwtSign);
  }

  /**
    In a run that reaches the signing call, the options carry `header` exactly
    when the `header` argument is a string, and then its parsed value, never
    the text itself (unless the text parses to itself).
   */
  lemma SignedHeader(args: Record, jsonParse: JsonParse, jwtSign: JwtSign)
    requires !Execute(args, jsonParse, jwtSign).outcome.Exited?
    ensures var options := Execute(args, jsonParse, jwtSign).signed[0].options;
            && ("header" in options <==> Get(args, "header").Str?)
            && (Get(args, "header").Str? ==> jsonParse(Get(args, "header")) == Some(options["header"]))
  {
    var header := Get(args, "header");
    TimestampAndHeader(Rest(args), if header.Str? then jsonParse(header) else None);
  }

  /**
    Adding or changing an argument that is not whitelisted and is none of
    `claims`, `secret`, `timestamp` and `header` leaves the whole run as it
    was: the same parses, the same signing call, the same output.
   */
  lemma OtherArgumentsIgnoredByRun(args: Record, jsonParse: JsonParse, jwtSign: JwtSign, key: string, v: Value)
    requires key !in OptionKeys
    requires key != "claims" && key != "secret" && key != "timestamp" && key != "header"
    ensures Execute(args[key := v], jsonParse, jwtSign) == Execute(args, jsonParse, jwtSign)
  {
    assert Rest(args[key := v]) == Rest(args)[key := v];
    OtherArgumentsIgnored(Rest(args), None, key, v);
    var header := Get(args, "header");
    if header.Str? && jsonParse(header).Some? {
      OtherArgumentsIgnored(Rest(args), Some(jsonParse(header).value), key, v);
    }
  }
}
