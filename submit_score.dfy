/** The `POST /api/submit-score` handler of backend/routes/submit-score.js:
    a chain of early-return guards (shared secret, server configuration,
    player address, score and transaction bounds), an optional username
    check, then the `updatePlayerData` contract call.

    The outside world enters as parameters: the checksumming of
    `getAddress`, the answer of the username-check endpoint and what the
    contract call returned. */
module SubmitScore {
  import opened Common

  const MAX_SCORE_PER_SUBMIT: int := 5_000_000
  const MAX_TXS_PER_SUBMIT: int := 1000

  /** A JSON body field as `express.json()` delivers it. `JNull` stands for
      both `null` and a field that is absent, which every guard treats
      alike; `JNumber` is an integral number, `JFraction` any other. */
  datatype Json = JNull | JBool(b: bool) | JNumber(n: int) | JFraction | JString(s: string) | JObject

  /** The process environment the module reads at load time. */
  datatype Env = Env(privateKey: string, rpc: string, contractAddress: string,
                     submitSecret: string, requireUsername: bool)

  /** The request: the `x-submit-secret` header and the three body fields
      the handler reads (a missing body leaves all three `JNull`). */
  datatype Request = Request(secretHeader: Option<string>, playerAddress: Json,
                             scoreAmount: Json, transactionAmount: Json)

  /** What the check-wallet endpoint did: answered with an error status,
      answered without `hasUsername`, confirmed a username, or threw. */
  datatype UsernameCheck = CheckNotOk | NoUsername | HasUsername | CheckThrew

  /** What `updatePlayerData(...)` and `tx.wait(1)` gave: a receipt, or an
      exception with its message. */
  datatype ChainResult = Mined(txHash: string, blockNumber: nat) | ChainThrew(message: string)

  /** The contract call the handler made. */
  datatype Call = Call(player: string, score: int, transactions: int)

  /** Why a thrown exception ended in the generic `catch`. */
  datatype Cause = NotABigInt | BadAddress | ChainFailure(message: string)

  /** The JSON the handler sends: the receipt, a named error, or the
      message of a thrown exception. */
  datatype Body = Submitted(txHash: string, blockNumber: nat) | Rejected(error: string) | Failed(cause: Cause)

  datatype Outcome = Outcome(status: nat, body: Body, call: Option<Call>)

  /** `contract` exists: the key, the RPC URL and the contract address are
      all set (lines 38-40). */
  predicate Configured(env: Env)
  {
    env.privateKey != "" && env.rpc != "" && env.contractAddress != ""
  }

  /** The values `||` replaces by its right-hand side. */
  predicate Falsy(v: Json)
  {
    v == JNull || v == JBool(false) || v == JNumber(0) || v == JString("")
  }

  // -----------------------------------------------------------------------
  // BigInt(...)

  function DigitValue(c: char): nat
  {
    if '0' <= c <= '9' then c as nat - '0' as nat
    else if 'a' <= c <= 'z' then c as nat - 'a' as nat + 10
    else if 'A' <= c <= 'Z' then c as nat - 'A' as nat + 10
    else 36
  }

  /** The value of the digits `s` in base `base`, or `None` when one of
      them is not a digit of that base; the empty string is 0. */
  function DigitsValue(s: string, base: nat): (r: Option<nat>)
    requires 2 <= base <= 36
    ensures r.Some? <==> forall i :: 0 <= i < |s| ==> DigitValue(s[i]) < base
  {
    if s == [] then Some(0)
    else
      var d := DigitValue(s[|s| - 1]);
      var rest := DigitsValue(s[..|s| - 1], base);
      if d < base && rest.Some? then Some(rest.value * base + d) else None
  }

  /** Digits after a sign or prefix: there must be at least one. */
  function RadixValue(s: string, base: nat): (r: Option<nat>)
    requires 2 <= base <= 36
    ensures r.Some? ==> s != []
  {
    if s == [] then None else DigitsValue(s, base)
  }

  /** `BigInt(s)` for a string: surrounding white space is ignored, the
      empty string is 0, and what is left is decimal with an optional sign
      or carries a `0x`, `0o` or `0b` prefix; anything else throws
      (`None`). */
  function StringToBigInt(s: string): Option<int>
  {
    TrimmedToBigInt(Trim(s))
  }

  function Widened(v: Option<nat>): Option<int>
  {
    if v.Some? then Some(v.value) else None
  }

  function Negated(v: Option<nat>): Option<int>
  {
    if v.Some? then Some(0 - v.value) else None
  }

  /** `BigInt` of a string with no surrounding white space. */
  function TrimmedToBigInt(t: string): Option<int>
  {
    if t == [] then Some(0)
    else if |t| >= 2 && t[0] == '0' && (t[1] == 'x' || t[1] == 'X') then RadixValue(t[2..], 16)
    else if |t| >= 2 && t[0] == '0' && (t[1] == 'o' || t[1] == 'O') then RadixValue(t[2..], 8)
    else if |t| >= 2 && t[0] == '0' && (t[1] == 'b' || t[1] == 'B') then RadixValue(t[2..], 2)
    else if t[0] == '-' then Negated(RadixValue(t[1..], 10))
    else if t[0] == '+' then Widened(RadixValue(t[1..], 10))
    else RadixValue(t, 10)
  }

  /** `BigInt(v || 0)` (lines 67-68), `None` when it throws: a fraction, a
      malformed string or an object. */
  function ToBigInt(v: Json): Option<int>
  {
    if Falsy(v) then Some(0)
    else match v
      case JBool(_) => Some(1)
      case JNumber(n) => Some(n)
      case JString(s) => StringToBigInt(s)
      case _ => None
  }

  /** Decimal digits of `n`, most significant first. */
  function NatDecimal(n: nat): (r: string)
    ensures r != [] && forall i :: 0 <= i < |r| ==> '0' <= r[i] <= '9'
  {
    var d := ['0' + ((n % 10) as char)];
    if n < 10 then d else NatDecimal(n / 10) + d
  }

  /** `n.toString()`. */
  function IntDecimal(n: int): string
  {
    if n < 0 then "-" + NatDecimal(-n) else NatDecimal(n)
  }

  lemma {:induction false} NatDecimalValue(n: nat)
    ensures DigitsValue(NatDecimal(n), 10) == Some(n)
  {
    var r := NatDecimal(n);
    if n >= 10 {
      NatDecimalValue(n / 10);
      assert r[..|r| - 1] == NatDecimal(n / 10);
    }
  }

  /** A string made of decimal digits trims to itself. */
  lemma TrimDigits(s: string)
    requires s != [] && (s[0] == '-' || '0' <= s[0] <= '9') && '0' <= s[|s| - 1] <= '9'
    ensures Trim(s) == s
  {
    assert !IsJsWhitespace(s[0]);
    assert TrimStart(s) == s;
    assert !IsJsWhitespace(s[|s| - 1]);
    assert TrimEnd(s) == s;
  }

  lemma PlainDigits(d: string)
    requires d != [] && forall i :: 0 <= i < |d| ==> '0' <= d[i] <= '9'
    ensures TrimmedToBigInt(d) == DigitsValue(d, 10)
  {
    assert d[0] != '-' && d[0] != '+';
    assert |d| >= 2 ==> '0' <= d[1] <= '9';
  }

  lemma SignedDigits(d: string)
    requires d != []
    ensures TrimmedToBigInt("-" + d) == Negated(RadixValue(d, 10))
  {
    var t := "-" + d;
    assert t[0] == '-' && t[1..] == d;
  }

  /** A string of decimal digits, signed or not, is read in base 10. */
  lemma DigitStringValue(d: string)
    requires d != [] && forall i :: 0 <= i < |d| ==> '0' <= d[i] <= '9'
    ensures StringToBigInt(d) == DigitsValue(d, 10)
    ensures StringToBigInt("-" + d) == Negated(DigitsValue(d, 10))
  {
    TrimDigits(d);
    PlainDigits(d);
    TrimDigits("-" + d);
    SignedDigits(d);
  }

  lemma NonNegativeRoundTrip(n: int)
    requires n >= 0
    ensures StringToBigInt(IntDecimal(n)) == Some(n)
  {
    var d := NatDecimal(n);
    assert IntDecimal(n) == d;
    NatDecimalValue(n);
    DigitStringValue(d);
  }

  lemma NegativeRoundTrip(n: int)
    requires n < 0
    ensures StringToBigInt(IntDecimal(n)) == Some(n)
  {
    var m: nat := -n;
    var d := NatDecimal(m);
    calc {
      StringToBigInt(IntDecimal(n));
      { assert IntDecimal(n) == "-" + d; }
      StringToBigInt("-" + d);
      { DigitStringValue(d); }
      Negated(DigitsValue(d, 10));
      { NatDecimalValue(m); }
      Negated(Some(m));
      Some(n);
    }
  }

  /** `BigInt(String(n))` gives `n` back for every integer. */
  lemma DecimalRoundTrip(n: int)
    ensures StringToBigInt(IntDecimal(n)) == Some(n)
  {
    if n < 0 {
      NegativeRoundTrip(n);
    } else {
      NonNegativeRoundTrip(n);
    }
  }

  // -----------------------------------------------------------------------
  // The handler

  /** The secret guard passes: no secret is configured, or the header
      carries it (lines 50-55). A configured secret is never empty, so an
      empty header cannot carry it. */
  predicate SecretOk(env: Env, req: Request)
  {
    env.submitSecret == "" || req.secretHeader == Some(env.submitSecret)
  }

  predicate AddressPresent(req: Request)
  {
    req.playerAddress.JString? && req.playerAddress.s != ""
  }

  predicate InRange(x: int, max: int)
  {
    0 <= x <= max
  }

  function Reject(status: nat, error: string): Outcome
  {
    Outcome(status, Rejected(error), None)
  }

  /** The handler (lines 44-113). */
  function Handle(env: Env, req: Request, getAddress: string -> Option<string>,
                  check: UsernameCheck, chain: ChainResult): Outcome
  {
    if !SecretOk(env, req) then Reject(401, "invalid_submit_secret")
    else if !Configured(env) then Reject(500, "server_not_configured")
    else if !AddressPresent(req) then Reject(400, "missing_playerAddress")
    else
      var score := ToBigInt(req.scoreAmount);
      var txCount := ToBigInt(req.transactionAmount);
      if score.None? || txCount.None? then Outcome(500, Failed(NotABigInt), None)
      else if !InRange(score.value, MAX_SCORE_PER_SUBMIT) then Reject(400, "invalid_score")
      else if !InRange(txCount.value, MAX_TXS_PER_SUBMIT) then Reject(400, "invalid_tx_count")
      else
        var player := getAddress(req.playerAddress.s);
        if player.None? then Outcome(500, Failed(BadAddress), None)
        else if env.requireUsername && check == CheckNotOk then Reject(400, "failed_username_check")
        else if env.requireUsername && check == NoUsername then Reject(400, "player_has_no_monad_username")
        else if env.requireUsername && check == CheckThrew then Reject(500, "username_check_failed")
        else
          var call := Some(Call(player.value, score.value, txCount.value));
          match chain
          case Mined(h, b) => Outcome(200, Submitted(h, b), call)
          case ChainThrew(msg) => Outcome(500, Failed(ChainFailure(msg)), call)
  }

  /** Every guard up to the contract call passes. */
  predicate Accepts(env: Env, req: Request, getAddress: string -> Option<string>, check: UsernameCheck)
  {
    && SecretOk(env, req) && Configured(env) && AddressPresent(req)
    && ToBigInt(req.scoreAmount).Some? && ToBigInt(req.transactionAmount).Some?
    && InRange(ToBigInt(req.scoreAmount).value, MAX_SCORE_PER_SUBMIT)
    && InRange(ToBigInt(req.transactionAmount).value, MAX_TXS_PER_SUBMIT)
    && getAddress(req.playerAddress.s).Some?
    && (env.requireUsername ==> check == HasUsername)
  }

  // -----------------------------------------------------------------------
  // Properties

  /** With a secret configured, a missing or wrong header is answered 401
      whatever else the request holds. */
  lemma SecretComesFirst(env: Env, req: Request, getAddress: string -> Option<string>,
                         check: UsernameCheck, chain: ChainResult)
    requires env.submitSecret != "" && req.secretHeader != Some(env.submitSecret)
    ensures Handle(env, req, getAddress, check, chain) == Reject(401, "invalid_submit_secret")
  {
  }

  /** The guards up to and including the amount bounds pass. */
  predicate AmountsOk(env: Env, req: Request)
  {
    && SecretOk(env, req) && Configured(env) && AddressPresent(req)
    && ToBigInt(req.scoreAmount).Some? && ToBigInt(req.transactionAmount).Some?
    && InRange(ToBigInt(req.scoreAmount).value, MAX_SCORE_PER_SUBMIT)
    && InRange(ToBigInt(req.transactionAmount).value, MAX_TXS_PER_SUBMIT)
  }

  /** Each refusal names the first guard that failed: every guard before it
      passed, and each failing guard, with the earlier ones passing, gives
      exactly that answer. The 401 is the secret guard's alone. */
  lemma GuardOrder(env: Env, req: Request, getAddress: string -> Option<string>,
                   check: UsernameCheck, chain: ChainResult)
    ensures var o := Handle(env, req, getAddress, check, chain);
      && (o.status == 401 <==> !SecretOk(env, req))
      && (o.body == Rejected("invalid_submit_secret") <==> !SecretOk(env, req))
      && (o.body == Rejected("server_not_configured") <==> SecretOk(env, req) && !Configured(env))
      && (o.body == Rejected("missing_playerAddress") <==>
            SecretOk(env, req) && Configured(env) && !AddressPresent(req))
      && (o.body == Rejected("invalid_score") <==>
            SecretOk(env, req) && Configured(env) && AddressPresent(req)
            && ToBigInt(req.scoreAmount).Some? && ToBigInt(req.transactionAmount).Some?
            && !InRange(ToBigInt(req.scoreAmount).value, MAX_SCORE_PER_SUBMIT))
      && (o.body == Rejected("invalid_tx_count") <==>
            SecretOk(env, req) && Configured(env) && AddressPresent(req)
            && ToBigInt(req.scoreAmount).Some? && ToBigInt(req.transactionAmount).Some?
            && InRange(ToBigInt(req.scoreAmount).value, MAX_SCORE_PER_SUBMIT)
            && !InRange(ToBigInt(req.transactionAmount).value, MAX_TXS_PER_SUBMIT))
      && (o.body == Failed(NotABigInt) <==>
            SecretOk(env, req) && Configured(env) && AddressPresent(req)
            && (ToBigInt(req.scoreAmount).None? || ToBigInt(req.transactionAmount).None?))
  {
  }

  /** After the bounds, an address `getAddress` rejects ends in the generic
      500, and then, when a username is required, each failed check has its
      own answer: a 400 for an error status or no username, a 500 for a
      check that threw. */
  lemma LateGuardOrder(env: Env, req: Request, getAddress: string -> Option<string>,
                       check: UsernameCheck, chain: ChainResult)
    ensures var o := Handle(env, req, getAddress, check, chain);
      var checksummed := AmountsOk(env, req) && getAddress(req.playerAddress.s).Some?;
      && (o == Outcome(500, Failed(BadAddress), None) <==>
            AmountsOk(env, req) && getAddress(req.playerAddress.s).None?)
      && (o == Reject(400, "failed_username_check") <==>
            checksummed && env.requireUsername && check == CheckNotOk)
      && (o == Reject(400, "player_has_no_monad_username") <==>
            checksummed && env.requireUsername && check == NoUsername)
      && (o == Reject(500, "username_check_failed") <==>
            checksummed && env.requireUsername && check == CheckThrew)
      && (checksummed && !env.requireUsername ==> o.call.Some?)
  {
  }

  /** The contract is called exactly when every guard passes, and then
      with the checksummed address and the validated, in-range amounts. */
  lemma CallOnlyWhenValid(env: Env, req: Request, getAddress: string -> Option<string>,
                          check: UsernameCheck, chain: ChainResult)
    ensures var o := Handle(env, req, getAddress, check, chain);
      && (o.call.Some? <==> Accepts(env, req, getAddress, check))
      && (o.call.Some? ==>
            && o.call.value == Call(getAddress(req.playerAddress.s).value,
                                    ToBigInt(req.scoreAmount).value, ToBigInt(req.transactionAmount).value)
            && InRange(o.call.value.score, MAX_SCORE_PER_SUBMIT)
            && InRange(o.call.value.transactions, MAX_TXS_PER_SUBMIT))
  {
  }

  /** Only a mined transaction is answered 200; every thrown exception is
      answered 500 without success. */
  lemma SuccessOnlyWhenMined(env: Env, req: Request, getAddress: string -> Option<string>,
                             check: UsernameCheck, chain: ChainResult)
    ensures var o := Handle(env, req, getAddress, check, chain);
      && (o.status == 200 <==> o.body.Submitted?)
      && (o.status == 200 <==> Accepts(env, req, getAddress, check) && chain.Mined?)
      && (o.body.Failed? ==> o.status == 500)
      && (o.body.Submitted? ==> o.body == Submitted(chain.txHash, chain.blockNumber))
  {
  }

  /** An amount sent as a decimal string is read as the number it
      spells. */
  lemma StringAmountsAreNumbers(n: int)
    ensures ToBigInt(JString(IntDecimal(n))) == Some(n)
  {
    DecimalRoundTrip(n);
  }
}
