/** The `useMonadGames` hook without its wallet and login SDKs: the
    username rule, address shortening, the estimated rank, the display-name
    fallback chain, the connection test, and the guard chains of
    `submitGameScore` and `updateUsername`. An empty string stands for a
    missing (falsy) address or name; the outcome of a contract write is a
    parameter. */
module MonadGames {
  import opened Common
  import opened Constants

  const MIN_USERNAME: nat := 3
  const MAX_USERNAME: nat := 20

  // ---------------------------------------------------------------------
  // Pure utilities
  // ---------------------------------------------------------------------

  /** `isValidUsername(name)`, read as a boolean; the length is the
      trimmed name's `.length`, in UTF-16 code units. */
  predicate IsValidUsername(name: string)
  {
    name != "" && MIN_USERNAME <= Utf16Length(Trim(name)) <= MAX_USERNAME
  }

  /** A name is valid exactly when its trimmed form is; surrounding
      whitespace never turns a valid name invalid or back. */
  lemma ValidUsernameIgnoresPadding(name: string)
    ensures IsValidUsername(name) <==> IsValidUsername(Trim(name))
    ensures IsValidUsername(name) <==> MIN_USERNAME <= Utf16Length(Trim(name)) <= MAX_USERNAME
  {
    TrimIdempotent(name);
  }

  /** A name of plain characters is valid with 3 to 20 of them once
      trimmed; a name of characters beyond U+FFFF (emoji, say) with only 2
      to 10, since each counts twice. */
  lemma UsernameCountsCodeUnits(name: string)
    ensures (forall i :: 0 <= i < |Trim(name)| ==> Trim(name)[i] < '\U{10000}') ==>
      (IsValidUsername(name) <==> 3 <= |Trim(name)| <= 20)
    ensures (forall i :: 0 <= i < |Trim(name)| ==> Trim(name)[i] >= '\U{10000}') ==>
      (IsValidUsername(name) <==> 2 <= |Trim(name)| <= 10)
  {
    Utf16LengthPlanes(Trim(name));
  }

  /** `formatAddress(addr)`. */
  function FormatAddress(addr: string): (r: string)
    ensures addr == "" <==> r == ""
    ensures |addr| >= 10 ==>
      |r| == 13 && r[..6] == addr[..6] && r[6..9] == "..." && r[9..] == addr[|addr| - 4..]
  {
    if addr == "" then "" else ShortAddress(addr)
  }

  /** `isConnected`. */
  predicate IsConnected(authenticated: bool, address: string)
  {
    authenticated && address != ""
  }

  /** `canSubmitScore()`. */
  predicate CanSubmitScore(authenticated: bool, address: string, contract: string)
  {
    authenticated && address != "" && contract != ""
  }

  // ---------------------------------------------------------------------
  // Estimated rank
  // ---------------------------------------------------------------------

  /** `estimatedRank` for the player's high score; `None` is `null`. */
  function EstimatedRank(highScore: int): (r: Option<string>)
    ensures r.None? <==> highScore == 0
    ensures r == Some("Top 10") <==> highScore > 10000
    ensures r == Some("Top 50") <==> 5000 < highScore <= 10000
    ensures r == Some("Top 100") <==> 2000 < highScore <= 5000
    ensures r == Some("Top 500") <==> 500 < highScore <= 2000
    ensures r == Some("Unranked") <==> highScore <= 500 && highScore != 0
  {
    if highScore == 0 then None
    else if highScore > 10000 then Some("Top 10")
    else if highScore > 5000 then Some("Top 50")
    else if highScore > 2000 then Some("Top 100")
    else if highScore > 500 then Some("Top 500")
    else Some("Unranked")
  }

  /** The position of a rank label from best (0) to worst (4). */
  function Tier(r: Option<string>): nat
  {
    match r
    case None => 4
    case Some(s) =>
      if s == "Top 10" then 0 else if s == "Top 50" then 1 else if s == "Top 100" then 2
      else if s == "Top 500" then 3 else 4
  }

  /** A higher non-zero high score never gets a worse estimated rank. */
  lemma RankIsMonotone(a: int, b: int)
    requires a != 0 && a <= b
    ensures Tier(EstimatedRank(b)) <= Tier(EstimatedRank(a))
  {
  }

  // ---------------------------------------------------------------------
  // The display user
  // ---------------------------------------------------------------------

  /** The first truthy string of `names`, else `fallback`: a chain of `||`. */
  function FirstTruthy(names: seq<string>, fallback: string): (r: string)
    ensures r == fallback || (r != "" && r in names)
    ensures (forall i :: 0 <= i < |names| ==> names[i] == "") ==> r == fallback
  {
    if names == [] then fallback
    else if names[0] != "" then names[0]
    else FirstTruthy(names[1..], fallback)
  }

  /** The chain stops at the first truthy string. */
  lemma {:induction false} FirstTruthyIsFirst(names: seq<string>, fallback: string, i: nat)
    requires i < |names| && names[i] != ""
    requires forall k :: 0 <= k < i ==> names[k] == ""
    ensures FirstTruthy(names, fallback) == names[i]
  {
    if i > 0 {
      assert names[0] == "";
      FirstTruthyIsFirst(names[1..], fallback, i - 1);
    }
  }

  /** The identities the hook can know about a user; "" is absent. */
  datatype Identity = Identity(
    monadGamesUsername: string, contractUsername: string, privyUsername: string,
    discordUsername: string, twitterUsername: string, email: string)

  datatype DisplayUser = DisplayUser(
    wallet: Option<string>, username: string, displayName: string, monadGamesConnected: bool)

  /** `buildDisplayUser()`; `hasMonadGamesUser` says whether a cross-app
      account was found. */
  function BuildDisplayUser(address: string, id: Identity, hasMonadGamesUser: bool): DisplayUser
  {
    var names := [id.monadGamesUsername, id.contractUsername, id.privyUsername];
    var wallet := if address == "" then "Unknown" else ShortAddress(address);
    DisplayUser(
      if address == "" then None else Some(address),
      FirstTruthy(names, ""),
      FirstTruthy(names + [id.discordUsername, id.twitterUsername, id.email], wallet),
      hasMonadGamesUser)
  }

  /** The display name is never empty. */
  lemma DisplayNameNeverEmpty(address: string, id: Identity, hasMonadGamesUser: bool)
    ensures BuildDisplayUser(address, id, hasMonadGamesUser).displayName != ""
  {
    if address != "" {
      assert |SliceHead(address, 6)| >= 1;
    }
  }

  /** The display name is the username whenever there is one, so a
      MonadGames username always wins. */
  lemma DisplayNamePrefersUsername(address: string, id: Identity, hasMonadGamesUser: bool)
    ensures var u := BuildDisplayUser(address, id, hasMonadGamesUser);
      (u.username != "" ==> u.displayName == u.username)
      && (id.monadGamesUsername != "" ==> u.displayName == id.monadGamesUsername)
  {
    var names := [id.monadGamesUsername, id.contractUsername, id.privyUsername];
    var all := names + [id.discordUsername, id.twitterUsername, id.email];
    var i := if names[0] != "" then 0 else if names[1] != "" then 1 else 2;
    if names[i] != "" {
      FirstTruthyIsFirst(names, "", i);
      FirstTruthyIsFirst(all, if address == "" then "Unknown" else ShortAddress(address), i);
    }
  }

  /** With no name of any kind the display name is the shortened wallet,
      or "Unknown" without one. */
  lemma DisplayNameFallsBackToWallet(address: string, id: Identity, hasMonadGamesUser: bool)
    requires id == Identity("", "", "", "", "", "")
    ensures var u := BuildDisplayUser(address, id, hasMonadGamesUser);
      u.username == "" && u.displayName == (if address == "" then "Unknown" else FormatAddress(address))
  {
  }

  // ---------------------------------------------------------------------
  // Guard chains
  // ---------------------------------------------------------------------

  datatype Refusal = NotConnected | ContractNotDeployed | TooShort | TooLong

  /** The contract-address test shared by both actions. */
  predicate Deployed(contract: string)
  {
    contract != "" && contract != ZERO_ADDRESS
  }

  /** The guards of `submitGameScore`, first failing guard first. */
  function SubmitGuard(authenticated: bool, address: string, contract: string): Option<Refusal>
  {
    if !IsConnected(authenticated, address) then Some(NotConnected)
    else if !Deployed(contract) then Some(ContractNotDeployed)
    else None
  }

  /** The guards of `updateUsername`, first failing guard first. */
  function UsernameGuard(authenticated: bool, address: string, contract: string, newUsername: string)
    : Option<Refusal>
  {
    if !IsConnected(authenticated, address) then Some(NotConnected)
    else if !Deployed(contract) then Some(ContractNotDeployed)
    else if newUsername == "" || Utf16Length(Trim(newUsername)) < MIN_USERNAME then Some(TooShort)
    else if Utf16Length(Trim(newUsername)) > MAX_USERNAME then Some(TooLong)
    else None
  }

  /** `submitGameScore` refuses exactly when the player is not connected or
      the contract is unset or zero; `canSubmitScore` follows from passing
      the guards but also admits the zero address. */
  lemma SubmitGuardOrder(authenticated: bool, address: string, contract: string)
    ensures var g := SubmitGuard(authenticated, address, contract);
      (g == Some(NotConnected) <==> !IsConnected(authenticated, address))
      && (g == Some(ContractNotDeployed) <==> IsConnected(authenticated, address) && !Deployed(contract))
      && (g.None? ==> CanSubmitScore(authenticated, address, contract))
      && (g.None? <==> authenticated && address != "" && contract != "" && contract != ZERO_ADDRESS)
    ensures authenticated && address != "" ==>
      CanSubmitScore(authenticated, address, ZERO_ADDRESS)
      && SubmitGuard(authenticated, address, ZERO_ADDRESS) == Some(ContractNotDeployed)
  {
  }

  /** `updateUsername` accepts exactly the names `isValidUsername` accepts,
      once connected and deployed; the length checks come after the
      connection and contract checks, and a trimmed length of 20 passes. */
  lemma UsernameGuardOrder(authenticated: bool, address: string, contract: string, name: string)
    ensures var g := UsernameGuard(authenticated, address, contract, name);
      (g.None? <==> SubmitGuard(authenticated, address, contract).None? && IsValidUsername(name))
      && (g == Some(NotConnected) <==> !IsConnected(authenticated, address))
      && (g == Some(ContractNotDeployed) <==> IsConnected(authenticated, address) && !Deployed(contract))
      && (g == Some(TooShort) <==>
            SubmitGuard(authenticated, address, contract).None? && Utf16Length(Trim(name)) < MIN_USERNAME)
      && (g == Some(TooLong) <==>
            SubmitGuard(authenticated, address, contract).None? && Utf16Length(Trim(name)) > MAX_USERNAME)
  {
    if name == "" {
      assert Utf16Length(Trim(name)) == 0;
    }
  }

  // ---------------------------------------------------------------------
  // The hook state the two actions change
  // ---------------------------------------------------------------------

  /** The arguments of a `submitScore` contract write. */
  datatype ScoreWrite = ScoreWrite(score: int, distance: int, powerupsCollected: int)

  class MonadGamesHook {
    var username: string
    var isSubmittingScore: bool
    /** The values passed to `setIsSubmittingScore`, in order. */
    var submittingCalls: seq<bool>
    /** The `submitScore` writes requested, in order. */
    var scoreWrites: seq<ScoreWrite>
    /** The names sent to `setUsername`, in order. */
    var usernameWrites: seq<string>

    constructor ()
      ensures username == "" && !isSubmittingScore
      ensures submittingCalls == [] && scoreWrites == [] && usernameWrites == []
    {
      username := "";
      isSubmittingScore := false;
      submittingCalls := [];
      scoreWrites := [];
      usernameWrites := [];
    }

    /** `submitGameScore(gameStats)`: a refusal returns false and changes
        nothing; otherwise the flag is raised, the write is requested with
        `powerupsCollected || 0`, the flag is lowered in `finally`, and the
        result is true. The write is wagmi's `writeContract`, which reports
        a failed or rejected transaction through the hook's error state and
        never rejects, so the `catch` branch is not reachable from here. */
    method SubmitGameScore(authenticated: bool, address: string, contract: string,
                           score: int, distance: int, powerupsCollected: Option<int>)
      returns (ok: bool)
      modifies this
      ensures ok <==> SubmitGuard(authenticated, address, contract).None?
      ensures !ok ==> unchanged(this)
      ensures ok ==>
        !isSubmittingScore
        && submittingCalls == old(submittingCalls) + [true, false]
        && scoreWrites == old(scoreWrites)
             + [ScoreWrite(score, distance, match powerupsCollected case Some(p) => p case None => 0)]
        && username == old(username) && usernameWrites == old(usernameWrites)
    {
      if SubmitGuard(authenticated, address, contract).Some? {
        return false;
      }
      isSubmittingScore := true;
      submittingCalls := submittingCalls + [true];
      var powerups := match powerupsCollected case Some(p) => p case None => 0;
      scoreWrites := scoreWrites + [ScoreWrite(score, distance, powerups)];
      ok := true;
      isSubmittingScore := false;
      submittingCalls := submittingCalls + [false];
    }

    /** `updateUsername(newUsername)`: a refusal returns false before any
        write; otherwise the trimmed name is sent and then stored as the
        username, whatever becomes of the transaction, since wagmi's
        `writeContract` never rejects. */
    method UpdateUsername(authenticated: bool, address: string, contract: string,
                          newUsername: string)
      returns (ok: bool)
      modifies this
      ensures ok <==> UsernameGuard(authenticated, address, contract, newUsername).None?
      ensures !ok ==> unchanged(this)
      ensures ok ==>
        usernameWrites == old(usernameWrites) + [Trim(newUsername)]
        && username == Trim(newUsername)
        && isSubmittingScore == old(isSubmittingScore)
        && submittingCalls == old(submittingCalls) && scoreWrites == old(scoreWrites)
      ensures ok ==> MIN_USERNAME <= Utf16Length(username) <= MAX_USERNAME
    {
      if UsernameGuard(authenticated, address, contract, newUsername).Some? {
        return false;
      }
      var trimmed := Trim(newUsername);
      usernameWrites := usernameWrites + [trimmed];
      username := trimmed;
      ok := true;
    }
  }
}
