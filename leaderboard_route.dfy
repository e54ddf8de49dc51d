/** The `GET /api/leaderboard` handler of backend/routes/leaderboard.js: it
    asks the Monad Games ID site for the game's leaderboard under two
    parameter orders, takes the first answer that is JSON, and normalises
    its entries (rank, display name, address, score, transactions,
    timestamp).

    The network is the parameter `fetch`, `JSON.parse` is the partial
    function `parse` (`None` where it throws) and `Date.now()` is `now`. */
module LeaderboardRoute {
  import opened Common
  import SubmitScore

  /** A parsed JSON value; numbers are the integral ones. */
  datatype JValue = JNull | JBool(b: bool) | JNum(n: int) | JStr(s: string)
                  | JArr(items: seq<JValue>) | JObj(fields: map<string, JValue>)

  predicate Truthy(v: JValue)
  {
    match v
    case JNull => false
    case JBool(b) => b
    case JNum(n) => n != 0
    case JStr(s) => s != ""
    case _ => true
  }

  /** `a || b`. */
  function Or(a: JValue, b: JValue): JValue
  {
    if Truthy(a) then a else b
  }

  /** `entry[key]` for an entry that is not null: an absent field, or any
      field of a value that is not an object, reads as undefined. */
  function Field(entry: JValue, key: string): JValue
  {
    if entry.JObj? && key in entry.fields then entry.fields[key] else JNull
  }

  /** What one `fetch(url)` and `resp.text()` gave. */
  datatype Fetched = Answer(ok: bool, text: string) | FetchThrew(message: string)

  /** `resp.ok && lastText.trim().startsWith('{')`. */
  predicate LooksLikeJson(f: Fetched)
  {
    f.Answer? && f.ok && var t := Trim(f.text); t != [] && t[0] == '{'
  }

  /** The answer is taken: it looks like JSON and parses to a truthy
      value. */
  predicate Accepted(f: Fetched, parse: string -> Option<JValue>)
  {
    LooksLikeJson(f) && parse(f.text).Some? && Truthy(parse(f.text).value)
  }

  /** Where the URL loop (lines 26-41) stops: `data` and `lastText` as it
      leaves them, how many URLs it fetched, and the message of a `fetch`
      that threw. */
  datatype Scan = Scan(data: Option<JValue>, lastText: string, fetched: nat, thrown: Option<string>)

  /** The loop over `urls` from the given `data` and `lastText`. */
  function ScanFrom(urls: seq<string>, fetch: string -> Fetched, parse: string -> Option<JValue>,
                    data: Option<JValue>, lastText: string): (r: Scan)
    ensures r.fetched <= |urls|
    decreases |urls|
  {
    if urls == [] then Scan(data, lastText, 0, None)
    else
      var f := fetch(urls[0]);
      if f.FetchThrew? then Scan(data, lastText, 1, Some(f.message))
      else
        var d := if LooksLikeJson(f) then parse(f.text) else data;
        if Accepted(f, parse) then Scan(d, f.text, 1, None)
        else
          var r := ScanFrom(urls[1..], fetch, parse, d, f.text);
          r.(fetched := r.fetched + 1)
  }

  /** The loop itself. */
  method FetchFirst(urls: seq<string>, fetch: string -> Fetched, parse: string -> Option<JValue>)
    returns (data: Option<JValue>, lastText: string, fetched: nat, thrown: Option<string>)
    ensures Scan(data, lastText, fetched, thrown) == ScanFrom(urls, fetch, parse, None, "")
  {
    data := None;
    lastText := "";
    var i := 0;
    while i < |urls|
      invariant 0 <= i <= |urls|
      invariant var r := ScanFrom(urls[i..], fetch, parse, data, lastText);
        ScanFrom(urls, fetch, parse, None, "") == r.(fetched := r.fetched + i)
    {
      var f := fetch(urls[i]);
      assert urls[i..][0] == urls[i] && urls[i..][1..] == urls[i + 1..];
      if f.FetchThrew? {
        return data, lastText, i + 1, Some(f.message);
      }
      lastText := f.text;
      if LooksLikeJson(f) {
        data := parse(f.text);
        if data.Some? && Truthy(data.value) {
          return data, lastText, i + 1, None;
        }
      }
      i := i + 1;
    }
    fetched := i;
    thrown := None;
  }

  /** URLs are tried in order and the first accepted answer is taken: no
      later URL is fetched, and `data` is what that answer parsed to. */
  lemma {:induction false} FirstAcceptedWins(urls: seq<string>, fetch: string -> Fetched,
                                             parse: string -> Option<JValue>,
                                             data: Option<JValue>, lastText: string, k: nat)
    requires k < |urls|
    requires forall j :: 0 <= j < k ==> fetch(urls[j]).Answer? && !Accepted(fetch(urls[j]), parse)
    requires Accepted(fetch(urls[k]), parse)
    ensures ScanFrom(urls, fetch, parse, data, lastText)
         == Scan(parse(fetch(urls[k]).text), fetch(urls[k]).text, k + 1, None)
  {
    if k == 0 {
      ScanTakes(urls, fetch, parse, data, lastText);
    } else {
      var f := fetch(urls[0]);
      var d := if LooksLikeJson(f) then parse(f.text) else data;
      var rest := urls[1..];
      forall j | 0 <= j < k - 1
        ensures fetch(rest[j]).Answer? && !Accepted(fetch(rest[j]), parse)
      {
        assert rest[j] == urls[j + 1];
      }
      assert rest[k - 1] == urls[k];
      FirstAcceptedWins(rest, fetch, parse, d, f.text, k - 1);
      ScanSkips(urls, fetch, parse, data, lastText);
    }
  }

  /** An accepted first answer ends the loop after one fetch. */
  lemma ScanTakes(urls: seq<string>, fetch: string -> Fetched, parse: string -> Option<JValue>,
                  data: Option<JValue>, lastText: string)
    requires urls != [] && Accepted(fetch(urls[0]), parse)
    ensures var f := fetch(urls[0]);
      ScanFrom(urls, fetch, parse, data, lastText) == Scan(parse(f.text), f.text, 1, None)
  {
  }

  /** A first answer that is not accepted passes on its parse and its body
      and counts one fetch. */
  lemma ScanSkips(urls: seq<string>, fetch: string -> Fetched, parse: string -> Option<JValue>,
                  data: Option<JValue>, lastText: string)
    requires urls != [] && fetch(urls[0]).Answer? && !Accepted(fetch(urls[0]), parse)
    ensures var f := fetch(urls[0]);
      var r := ScanFrom(urls[1..], fetch, parse, if LooksLikeJson(f) then parse(f.text) else data, f.text);
      ScanFrom(urls, fetch, parse, data, lastText) == r.(fetched := r.fetched + 1)
  {
  }

  /** When no answer is accepted and none throws, every URL is fetched,
      `data` is left null or falsy, and `lastText` is the last body. */
  lemma {:induction false} NoneAccepted(urls: seq<string>, fetch: string -> Fetched,
                                        parse: string -> Option<JValue>,
                                        data: Option<JValue>, lastText: string)
    requires urls != []
    requires data.Some? ==> !Truthy(data.value)
    requires forall j :: 0 <= j < |urls| ==> fetch(urls[j]).Answer? && !Accepted(fetch(urls[j]), parse)
    ensures var r := ScanFrom(urls, fetch, parse, data, lastText);
      && r.fetched == |urls| && r.thrown == None
      && !(r.data.Some? && Truthy(r.data.value))
      && r.lastText == fetch(urls[|urls| - 1]).text
  {
    var f := fetch(urls[0]);
    var d := if LooksLikeJson(f) then parse(f.text) else data;
    var r := ScanFrom(urls[1..], fetch, parse, d, f.text);
    assert ScanFrom(urls, fetch, parse, data, lastText) == r.(fetched := r.fetched + 1);
    if |urls| > 1 {
      assert forall j :: 0 <= j < |urls| - 1 ==> urls[1..][j] == urls[j + 1];
      NoneAccepted(urls[1..], fetch, parse, d, f.text);
    } else {
      assert r == Scan(d, f.text, 0, None);
    }
  }

  // -----------------------------------------------------------------------
  // Entry normalisation

  /** `String(v)`, as a template literal renders it: an array is its
      elements joined with ',' (a null element is empty) and an object is
      "[object Object]". */
  function JsString(v: JValue): string
    decreases v
  {
    match v
    case JNull => "null"
    case JBool(b) => if b then "true" else "false"
    case JNum(n) => SubmitScore.IntDecimal(n)
    case JStr(s) => s
    case JArr(items) =>
      Join(seq(|items|, i requires 0 <= i < |items| => if items[i] == JNull then "" else JsString(items[i])))
    case JObj(_) => "[object Object]"
  }

  /** `parts.join(',')`. */
  function Join(parts: seq<string>): string
  {
    if parts == [] then ""
    else if |parts| == 1 then parts[0]
    else parts[0] + "," + Join(parts[1..])
  }

  /** The position of the first `a` or `b` in `s`, or `|s|`. */
  function IndexOf(s: string, a: char, b: char): (k: nat)
    ensures k <= |s|
    ensures forall i :: 0 <= i < k ==> s[i] != a && s[i] != b
    ensures k < |s| ==> s[k] == a || s[k] == b
  {
    if s == [] || s[0] == a || s[0] == b then 0 else 1 + IndexOf(s[1..], a, b)
  }

  predicate IsRadixMark(c: char)
  {
    c == 'x' || c == 'X' || c == 'o' || c == 'O' || c == 'b' || c == 'B'
  }

  function Pow10(e: nat): (r: nat)
    ensures r >= 1
  {
    if e == 0 then 1 else 10 * Pow10(e - 1)
  }

  /** The exponent after `e` or `E`: an optional sign and at least one
      decimal digit. */
  function ExponentValue(s: string): Option<int>
  {
    var signed := s != [] && (s[0] == '+' || s[0] == '-');
    var v := SubmitScore.RadixValue(if signed then s[1..] else s, 10);
    if v.None? then None
    else if signed && s[0] == '-' then Some(0 - v.value)
    else Some(v.value)
  }

  /** `m * 10^e` when that is an integer. */
  function Scaled(m: nat, e: int): (r: Option<int>)
    ensures e >= 0 ==> r == Some(m * Pow10(e))
  {
    if e >= 0 then Some(m * Pow10(e))
    else if m % Pow10(-e) == 0 then Some(m / Pow10(-e))
    else None
  }

  /** An unsigned decimal literal: a mantissa, then an optional `e` or `E`
      and exponent; its value when that is an integer. */
  function UnsignedDecimal(u: string): Option<int>
  {
    var e := IndexOf(u, 'e', 'E');
    if e == |u| then MantissaValue(u, 0)
    else match ExponentValue(u[e + 1..])
      case None => None
      case Some(x) => MantissaValue(u[..e], x)
  }

  /** Digits with an optional '.' and fraction, at least one digit in all,
      scaled by `10^x`; its value when that is an integer. */
  function MantissaValue(m: string, x: int): Option<int>
  {
    var dot := IndexOf(m, '.', '.');
    var digits := if dot == |m| then m else m[..dot] + m[dot + 1..];
    var fractionLength := if dot == |m| then 0 else |m| - dot - 1;
    if digits == [] then None
    else match SubmitScore.DigitsValue(digits, 10)
      case None => None
      case Some(v) => Scaled(v, x - fractionLength)
  }

  function Negative(v: Option<int>): Option<int>
  {
    if v.Some? then Some(0 - v.value) else None
  }

  /** `Number(s)` for a string, as an integer: surrounding white space is
      ignored and the empty string is 0; `0x`, `0o` and `0b` literals carry
      no sign; anything else is a decimal literal with an optional sign.
      `None` is NaN, a fraction or an infinity. */
  function StringToNumber(s: string): Option<int>
  {
    var t := Trim(s);
    if t == [] then Some(0)
    else if |t| >= 2 && t[0] == '0' && IsRadixMark(t[1]) then SubmitScore.TrimmedToBigInt(t)
    else if t[0] == '-' then Negative(UnsignedDecimal(t[1..]))
    else if t[0] == '+' then UnsignedDecimal(t[1..])
    else UnsignedDecimal(t)
  }

  /** `Number(v || 0)` for the integral cases; `None` is NaN or a
      fraction. An array or object goes through its string. */
  function ToNumber(v: JValue): Option<int>
  {
    if !Truthy(v) then Some(0)
    else match v
      case JBool(_) => Some(1)
      case JNum(n) => Some(n)
      case _ => StringToNumber(JsString(v))
  }

  datatype Entry = Entry(rank: nat, username: JValue, address: JValue,
                         score: Option<int>, transactions: Option<int>, timestamp: JValue)

  /** The display name: `username`, else `player`, else the shortened
      wallet, else 'Unknown'. A wallet array is sliced as an array and
      rendered through its string; `None` where `walletAddress` is a truthy
      number, boolean or object, which has no `.slice` to call. */
  function DisplayName(entry: JValue): Option<JValue>
  {
    var wallet := Field(entry, "walletAddress");
    if Truthy(Field(entry, "username")) then Some(Field(entry, "username"))
    else if Truthy(Field(entry, "player")) then Some(Field(entry, "player"))
    else if !Truthy(wallet) then Some(JStr("Unknown"))
    else if wallet.JStr? then Some(JStr(ShortAddress(wallet.s)))
    else if wallet.JArr? then
      Some(JStr(JsString(JArr(SliceHead(wallet.items, 6))) + "..." + JsString(JArr(SliceTail(wallet.items, 4)))))
    else None
  }

  /** The entry at `index` (lines 53-63); `None` where reading it throws:
      a null entry, or a wallet that has no `.slice`. */
  function Normalise(entry: JValue, index: nat, now: int): Option<Entry>
  {
    if entry == JNull then None
    else
      var name := DisplayName(entry);
      if name.None? then None
      else Some(Entry(index + 1, name.value,
                      Or(Field(entry, "walletAddress"), Or(Field(entry, "wallet"), JNull)),
                      ToNumber(Field(entry, "score")), ToNumber(Field(entry, "transactions")),
                      Or(Field(entry, "updatedAt"), JNum(now))))
  }

  /** `rawEntries.map(...)` from position `from` on. */
  function NormaliseFrom(raw: seq<JValue>, from: nat, now: int): (r: Option<seq<Entry>>)
    requires from <= |raw|
    ensures r.Some? ==> |r.value| == |raw| - from
    ensures r.Some? ==> forall i :: 0 <= i < |r.value| ==> Some(r.value[i]) == Normalise(raw[from + i], from + i, now)
    ensures r.None? <==> exists i :: from <= i < |raw| && Normalise(raw[i], i, now).None?
    decreases |raw| - from
  {
    if from == |raw| then Some([])
    else
      var e := Normalise(raw[from], from, now);
      var rest := NormaliseFrom(raw, from + 1, now);
      if e.None? || rest.None? then None else Some([e.value] + rest.value)
  }

  /** `data?.data || []`, mapped when it is an array and empty otherwise. */
  function Entries(data: JValue, now: int): Option<seq<Entry>>
  {
    var raw := Or(Field(data, "data"), JArr([]));
    if raw.JArr? then NormaliseFrom(raw.items, 0, now) else Some([])
  }

  /** What the handler answers. */
  datatype Reply = Listed(entries: seq<Entry>) | NotJson(debugSnippet: string)
                 | Errored(message: Option<string>)

  function Status(r: Reply): nat
  {
    if r.Listed? then 200 else 500
  }

  /** The two URLs (lines 21-24). */
  function Urls(gameId: string): seq<string>
  {
    ["https://monad-games-id-site.vercel.app/api/leaderboard?gameId=" + gameId + "&sortBy=scores&page=1",
     "https://monad-games-id-site.vercel.app/api/leaderboard?page=1&gameId=" + gameId + "&sortBy=scores"]
  }

  /** The handler (lines 17-71); `gameIdEnv` is `MONAD_GAMES_GAMEID`. An
      exception's message is kept only for a `fetch` that threw. */
  function Handle(gameIdEnv: string, fetch: string -> Fetched, parse: string -> Option<JValue>, now: int): Reply
  {
    var gameId := if gameIdEnv == "" then "237" else gameIdEnv;
    var s := ScanFrom(Urls(gameId), fetch, parse, None, "");
    if s.thrown.Some? then Errored(s.thrown)
    else if !(s.data.Some? && Truthy(s.data.value)) then NotJson(SliceHead(s.lastText, 200))
    else
      var es := Entries(s.data.value, now);
      if es.None? then Errored(None) else Listed(es.value)
  }

  // -----------------------------------------------------------------------
  // Properties

  /** Ranks count up from 1 in list order, one entry per raw entry. */
  lemma RanksFollowOrder(data: JValue, now: int)
    requires data.JObj? && "data" in data.fields && data.fields["data"].JArr?
    ensures var es := Entries(data, now);
      es.Some? ==> |es.value| == |data.fields["data"].items|
                   && forall i :: 0 <= i < |es.value| ==> es.value[i].rank == i + 1
  {
  }

  /** A `data` field that is not an array, or is missing, gives no
      entries. */
  lemma NonArrayIsEmpty(data: JValue, now: int)
    requires !Field(data, "data").JArr?
    ensures Entries(data, now) == Some([])
  {
  }

  /** The display name falls back from `username` to `player` to the
      shortened wallet to 'Unknown', each taken exactly when those before
      it are falsy; a one-element wallet array shows its element on both
      sides of the dots; reading the name throws exactly for a truthy
      wallet that is a number, boolean or object. */
  lemma NameFallback(entry: JValue)
    ensures var u := Field(entry, "username");
      var p := Field(entry, "player");
      var w := Field(entry, "walletAddress");
      && (Truthy(u) ==> DisplayName(entry) == Some(u))
      && (!Truthy(u) && Truthy(p) ==> DisplayName(entry) == Some(p))
      && (!Truthy(u) && !Truthy(p) && w.JStr? && w.s != "" ==>
            DisplayName(entry) == Some(JStr(ShortAddress(w.s)))
            && (|w.s| >= 10 ==> |ShortAddress(w.s)| == 13 && ShortAddress(w.s)[..6] == w.s[..6]
                                && ShortAddress(w.s)[9..] == w.s[|w.s| - 4..]))
      && (!Truthy(u) && !Truthy(p) && !Truthy(w) ==> DisplayName(entry) == Some(JStr("Unknown")))
      && (!Truthy(u) && !Truthy(p) && w.JArr? && |w.items| == 1 && w.items[0].JStr? ==>
            DisplayName(entry) == Some(JStr(w.items[0].s + "..." + w.items[0].s)))
      && (DisplayName(entry).None? <==>
            !Truthy(u) && !Truthy(p) && Truthy(w) && (w.JNum? || w.JBool? || w.JObj?))
  {
    var w := Field(entry, "walletAddress");
    if !Truthy(Field(entry, "username")) && !Truthy(Field(entry, "player"))
       && w.JArr? && |w.items| == 1 && w.items[0].JStr? {
      OneItemWallet(entry);
    }
  }

  /** A one-element wallet array is its own head and tail slice, and
      renders as its single string. */
  lemma OneItemWallet(entry: JValue)
    requires !Truthy(Field(entry, "username")) && !Truthy(Field(entry, "player"))
    requires var w := Field(entry, "walletAddress"); w.JArr? && |w.items| == 1 && w.items[0].JStr?
    ensures var a := Field(entry, "walletAddress").items[0].s;
      DisplayName(entry) == Some(JStr(a + "..." + a))
  {
    var w := Field(entry, "walletAddress");
    var a := w.items[0].s;
    assert w.items == [JStr(a)];
    assert SliceHead(w.items, 6) == [JStr(a)] && SliceTail(w.items, 4) == [JStr(a)];
    OneItemArrayString(a);
  }

  /** `[a].toString()` is `a`. */
  lemma OneItemArrayString(a: string)
    ensures JsString(JArr([JStr(a)])) == a
  {
    var items := [JStr(a)];
    var parts := seq(|items|, i requires 0 <= i < |items| =>
                       if items[i] == JNull then "" else JsString(items[i]));
    assert parts == [a];
  }

  /** Normalising throws exactly for a null entry or a name that cannot be
      read; otherwise the rank is the position plus one, the address is
      `walletAddress`, else `wallet`, else null, a missing or falsy score or
      transaction count is 0, a numeric one is itself and a string one is
      read as a JavaScript number, and a missing timestamp is the time of
      the request. */
  lemma AddressAndDefaults(entry: JValue, index: nat, now: int)
    ensures Normalise(entry, index, now).None? <==> entry == JNull || DisplayName(entry).None?
    ensures Normalise(entry, index, now).Some? ==>
      var e := Normalise(entry, index, now).value;
      && e.rank == index + 1
      && Some(e.username) == DisplayName(entry)
      && (Truthy(Field(entry, "walletAddress")) ==> e.address == Field(entry, "walletAddress"))
      && (!Truthy(Field(entry, "walletAddress")) && Truthy(Field(entry, "wallet")) ==> e.address == Field(entry, "wallet"))
      && (!Truthy(Field(entry, "walletAddress")) && !Truthy(Field(entry, "wallet")) ==> e.address == JNull)
      && (!Truthy(Field(entry, "score")) ==> e.score == Some(0))
      && (!Truthy(Field(entry, "transactions")) ==> e.transactions == Some(0))
      && (Field(entry, "score").JNum? ==> e.score == Some(Field(entry, "score").n))
      && (Field(entry, "score").JStr? ==> e.score == StringToNumber(Field(entry, "score").s))
      && (Field(entry, "transactions").JStr? ==> e.transactions == StringToNumber(Field(entry, "transactions").s))
      && (!Truthy(Field(entry, "updatedAt")) ==> e.timestamp == JNum(now))
      && (Truthy(Field(entry, "updatedAt")) ==> e.timestamp == Field(entry, "updatedAt"))
  {
  }

  /** A non-empty string of decimal digits. */
  predicate IsDigits(d: string)
  {
    d != [] && forall i :: 0 <= i < |d| ==> '0' <= d[i] <= '9'
  }

  /** The value of a string of decimal digits. */
  function DigitsNat(d: string): (r: nat)
    requires IsDigits(d)
  {
    SubmitScore.DigitsValue(d, 10).value
  }

  /** The mantissa of a string of digits followed by a mark is those
      digits. */
  lemma MarkEndsDigits(d: string, rest: string, a: char, b: char)
    requires IsDigits(d) && rest != [] && (rest[0] == a || rest[0] == b)
    requires !('0' <= a <= '9') && !('0' <= b <= '9')
    ensures IndexOf(d + rest, a, b) == |d|
    ensures (d + rest)[..|d|] == d && (d + rest)[|d| + 1..] == rest[1..]
  {
    assert (d + rest)[|d|] == rest[0];
  }

  /** `Number` reads the literal at the front of `d + rest` when `d` is
      digits and `rest` is not white space at its end. */
  lemma ReadsUnsigned(d: string, rest: string)
    requires IsDigits(d) && rest != [] && !IsJsWhitespace(rest[|rest| - 1])
    requires !('0' <= rest[0] <= '9') && !IsRadixMark(rest[0])
    ensures StringToNumber(d + rest) == UnsignedDecimal(d + rest)
  {
    var u := d + rest;
    TrimKeeps(u);
    assert u[0] == d[0];
    assert |u| >= 2 && !IsRadixMark(u[1]) by {
      if |d| >= 2 {
        assert u[1] == d[1];
      } else {
        assert u[1] == rest[0];
      }
    }
  }

  /** A mantissa of plain digits is their value. */
  lemma MantissaOfDigits(d: string, x: int)
    requires IsDigits(d)
    ensures MantissaValue(d, x) == Scaled(DigitsNat(d), x)
  {
    DigitsHaveNoMarks(d);
  }

  /** A mantissa `d.f` of digits is the value of `d` and `f` written
      together, scaled down by the length of `f`. */
  lemma MantissaWithPoint(d: string, f: string, x: int)
    requires IsDigits(d) && (f == [] || IsDigits(f))
    ensures IsDigits(d + f)
    ensures MantissaValue(d + "." + f, x) == Scaled(DigitsNat(d + f), x - |f|)
  {
    PointSplits(d, f);
    DigitsJoin(d, f);
  }

  /** In `d + "." + f` the point sits right after `d`; dropping it leaves
      `d + f` with `|f|` digits after it. */
  lemma PointSplits(d: string, f: string)
    requires IsDigits(d)
    ensures var m := d + "." + f;
      IndexOf(m, '.', '.') == |d| && m[..|d|] + m[|d| + 1..] == d + f && |m| - |d| - 1 == |f|
  {
    var rest := "." + f;
    assert d + "." + f == d + rest;
    MarkEndsDigits(d, rest, '.', '.');
  }

  lemma DigitsJoin(d: string, f: string)
    requires IsDigits(d) && (f == [] || IsDigits(f))
    ensures IsDigits(d + f)
  {
    assert forall i :: 0 <= i < |d + f| ==> (d + f)[i] == if i < |d| then d[i] else f[i - |d|];
  }

  /** A literal `m` with no exponent mark is read as a mantissa. */
  lemma NoExponent(m: string)
    requires forall i :: 0 <= i < |m| ==> m[i] == '.' || '0' <= m[i] <= '9'
    ensures UnsignedDecimal(m) == MantissaValue(m, 0)
  {
  }

  /** The exponent of `d + "e" + x` is the value of `x`. */
  lemma ExponentSplits(d: string, x: string)
    requires IsDigits(d) && IsDigits(x)
    ensures UnsignedDecimal(d + ("e" + x)) == MantissaValue(d, DigitsNat(x))
  {
    var rest := "e" + x;
    MarkEndsDigits(d, rest, 'e', 'E');
    assert rest[1..] == x;
    assert !(x[0] == '+' || x[0] == '-');
  }

  /** `Number(d + 'e' + x)` is `d * 10^x` for digit strings `d` and `x`. */
  lemma ExponentScales(d: string, x: string)
    requires IsDigits(d) && IsDigits(x)
    ensures StringToNumber(d + "e" + x) == Some(DigitsNat(d) * Pow10(DigitsNat(x)))
  {
    assert d + "e" + x == d + ("e" + x);
    ReadsUnsigned(d, "e" + x);
    ExponentSplits(d, x);
    MantissaOfDigits(d, DigitsNat(x));
  }

  /** A trailing '.' leaves the integer `d`. */
  lemma TrailingPoint(d: string)
    requires IsDigits(d)
    ensures StringToNumber(d + ".") == Some(DigitsNat(d))
  {
    ReadsUnsigned(d, ".");
    PointValue(d);
  }

  lemma PointValue(d: string)
    requires IsDigits(d)
    ensures UnsignedDecimal(d + ".") == Some(DigitsNat(d))
  {
    assert d + "." + [] == d + "." && d + [] == d;
    NoExponent(d + ".");
    MantissaWithPoint(d, [], 0);
  }

  /** Appending a digit multiplies by ten and adds it. */
  lemma AppendDigit(d: string, c: char)
    requires IsDigits(d) && '0' <= c <= '9'
    ensures IsDigits(d + [c])
    ensures DigitsNat(d + [c]) == DigitsNat(d) * 10 + (c as nat - '0' as nat)
  {
    assert (d + [c])[..|d|] == d;
  }

  /** `(10 v + k) / 10` is an integer exactly when `k` is 0. */
  lemma TenthOf(v: nat, k: nat)
    requires k < 10
    ensures Scaled(v * 10 + k, -1) == (if k == 0 then Some(v) else None)
  {
    assert Pow10(1) == 10;
    assert (v * 10 + k) % 10 == k && (v * 10 + k) / 10 == v;
  }

  /** The digits of `d + "." + [c]` are `d` then `c`, a tenth apart. */
  lemma OneFractionDigit(d: string, c: char)
    requires IsDigits(d) && '0' <= c <= '9'
    ensures UnsignedDecimal(d + ("." + [c])) == Scaled(DigitsNat(d) * 10 + (c as nat - '0' as nat), -1)
  {
    calc {
      UnsignedDecimal(d + ("." + [c]));
      { FractionHasNoExponent(d, c); }
      MantissaValue(d + "." + [c], 0);
      { MantissaWithPoint(d, [c], 0); }
      Scaled(DigitsNat(d + [c]), 0 - 1);
      { AppendDigit(d, c); }
      Scaled(DigitsNat(d) * 10 + (c as nat - '0' as nat), -1);
    }
  }

  lemma FractionHasNoExponent(d: string, c: char)
    requires IsDigits(d) && '0' <= c <= '9'
    ensures UnsignedDecimal(d + ("." + [c])) == MantissaValue(d + "." + [c], 0)
  {
    var u := d + ("." + [c]);
    assert d + "." + [c] == u;
    NoExponent(u);
  }

  lemma ReadsFraction(d: string, c: char)
    requires IsDigits(d) && '0' <= c <= '9'
    ensures StringToNumber(d + "." + [c]) == UnsignedDecimal(d + ("." + [c]))
  {
    assert d + "." + [c] == d + ("." + [c]);
    ReadsUnsigned(d, "." + [c]);
  }

  /** A fractional zero leaves the integer `d`; any other single
      fractional digit makes a fraction, which is not an integer. */
  lemma FractionDigit(d: string, c: char)
    requires IsDigits(d) && '0' <= c <= '9'
    ensures StringToNumber(d + "." + [c]) == (if c == '0' then Some(DigitsNat(d)) else None)
  {
    ReadsFraction(d, c);
    OneFractionDigit(d, c);
    TenthOf(DigitsNat(d), c as nat - '0' as nat);
  }

  /** A string whose first non-blank character cannot start a number is
      NaN; so is every object, which reads as "[object Object]". */
  lemma NotANumber(s: string, m: map<string, JValue>)
    requires Trim(s) != [] && !('0' <= Trim(s)[0] <= '9')
    requires Trim(s)[0] != '+' && Trim(s)[0] != '-' && Trim(s)[0] != '.'
    ensures StringToNumber(s) == None
    ensures ToNumber(JObj(m)) == None
  {
    FirstCharDecides(Trim(s));
    ObjectIsNaN(m);
  }

  lemma ObjectIsNaN(m: map<string, JValue>)
    ensures StringToNumber(JsString(JObj(m))) == None
  {
    BracketedIsNaN(JsString(JObj(m)));
  }

  /** "[object Object]" starts and ends with a bracket, which no number does. */
  lemma BracketedIsNaN(o: string)
    requires |o| >= 2 && o[0] == '[' && o[|o| - 1] == ']'
    ensures StringToNumber(o) == None
  {
    TrimKeeps(o);
    FirstCharDecides(o);
  }

  lemma FirstCharDecides(t: string)
    requires t != [] && !('0' <= t[0] <= '9') && t[0] != '+' && t[0] != '-' && t[0] != '.'
    ensures UnsignedDecimal(t) == None
  {
    var e := IndexOf(t, 'e', 'E');
    var m := if e == |t| then t else t[..e];
    if m != [] {
      var dot := IndexOf(m, '.', '.');
      assert dot != 0;
      var digits := if dot == |m| then m else m[..dot] + m[dot + 1..];
      assert digits[0] == t[0];
      assert SubmitScore.DigitValue(digits[0]) >= 10;
    }
  }

  /** Digits hold neither an exponent mark nor a decimal point. */
  lemma DigitsHaveNoMarks(d: string)
    requires forall i :: 0 <= i < |d| ==> '0' <= d[i] <= '9'
    ensures IndexOf(d, 'e', 'E') == |d| && IndexOf(d, '.', '.') == |d|
  {
  }

  /** A string of decimal digits is an unsigned decimal literal with
      neither fraction nor exponent. */
  lemma PlainDecimal(d: string)
    requires d != [] && forall i :: 0 <= i < |d| ==> '0' <= d[i] <= '9'
    ensures UnsignedDecimal(d) == SubmitScore.Widened(SubmitScore.DigitsValue(d, 10))
  {
    DigitsHaveNoMarks(d);
    assert d[..|d|] == d && d[..|d|] + "" == d;
    assert SubmitScore.DigitsValue(d, 10).Some?;
  }

  lemma UnsignedDigitString(d: string)
    requires d != [] && forall i :: 0 <= i < |d| ==> '0' <= d[i] <= '9'
    ensures StringToNumber(d) == SubmitScore.Widened(SubmitScore.DigitsValue(d, 10))
  {
    assert StringToNumber(d) == UnsignedDecimal(d) by {
      SubmitScore.TrimDigits(d);
      assert d[0] != '-' && d[0] != '+';
      assert |d| >= 2 ==> !IsRadixMark(d[1]);
    }
    PlainDecimal(d);
  }

  lemma NegativeDigitString(d: string)
    requires d != [] && forall i :: 0 <= i < |d| ==> '0' <= d[i] <= '9'
    ensures StringToNumber("-" + d) == Negative(SubmitScore.Widened(SubmitScore.DigitsValue(d, 10)))
  {
    var t := "-" + d;
    assert StringToNumber(t) == Negative(UnsignedDecimal(d)) by {
      SubmitScore.TrimDigits(t);
      assert t[0] == '-' && t[1..] == d;
    }
    PlainDecimal(d);
  }

  /** A number's decimal string reads back as that number. */
  lemma DecimalStringValue(n: int)
    ensures StringToNumber(SubmitScore.IntDecimal(n)) == Some(n)
  {
    var m: nat := if n < 0 then -n else n;
    var d := SubmitScore.NatDecimal(m);
    SubmitScore.NatDecimalValue(m);
    if n < 0 {
      assert SubmitScore.IntDecimal(n) == "-" + d;
      NegativeDigitString(d);
    } else {
      assert SubmitScore.IntDecimal(n) == d;
      UnsignedDigitString(d);
    }
  }

  /** The decimal string of an integer reads back as that integer, as does
      a one-element array holding it. */
  lemma DecimalStringsAreNumbers(n: int)
    ensures ToNumber(JStr(SubmitScore.IntDecimal(n))) == Some(n)
    ensures ToNumber(JArr([JNum(n)])) == Some(n)
  {
    DecimalStringValue(n);
    SingletonJoins(n);
  }

  /** `[n].toString()` is the decimal string of `n`. */
  lemma SingletonJoins(n: int)
    ensures JsString(JArr([JNum(n)])) == SubmitScore.IntDecimal(n)
  {
    var items := [JNum(n)];
    var parts := seq(|items|, i requires 0 <= i < |items| =>
                       if items[i] == JNull then "" else JsString(items[i]));
    assert parts == [SubmitScore.IntDecimal(n)];
  }

  /** The handler lists the entries of the first URL's answer when that
      is accepted, never fetching the second. */
  lemma HandlerUsesFirstAccepted(gameIdEnv: string, fetch: string -> Fetched,
                                 parse: string -> Option<JValue>, now: int)
    requires Accepted(fetch(Urls(if gameIdEnv == "" then "237" else gameIdEnv)[0]), parse)
    ensures var url := Urls(if gameIdEnv == "" then "237" else gameIdEnv)[0];
      var es := Entries(parse(fetch(url).text).value, now);
      && ScanFrom(Urls(if gameIdEnv == "" then "237" else gameIdEnv), fetch, parse, None, "").fetched == 1
      && Handle(gameIdEnv, fetch, parse, now) == (if es.Some? then Listed(es.value) else Errored(None))
  {
    var urls := Urls(if gameIdEnv == "" then "237" else gameIdEnv);
    FirstAcceptedWins(urls, fetch, parse, None, "", 0);
  }

  /** An answer from the first URL that is not accepted sends the loop on
      to the second. */
  lemma SecondUrlIsFallback(urls: seq<string>, fetch: string -> Fetched, parse: string -> Option<JValue>)
    requires |urls| == 2
    requires fetch(urls[0]).Answer? && !Accepted(fetch(urls[0]), parse) && Accepted(fetch(urls[1]), parse)
    ensures ScanFrom(urls, fetch, parse, None, "")
         == Scan(parse(fetch(urls[1]).text), fetch(urls[1]).text, 2, None)
  {
    FirstAcceptedWins(urls, fetch, parse, None, "", 1);
  }

  /** With neither answer accepted and no `fetch` throwing, the handler
      answers 500 with the first 200 characters of the second body. */
  lemma NoJsonGives500(gameIdEnv: string, fetch: string -> Fetched,
                       parse: string -> Option<JValue>, now: int)
    requires var urls := Urls(if gameIdEnv == "" then "237" else gameIdEnv);
      forall j :: 0 <= j < 2 ==> fetch(urls[j]).Answer? && !Accepted(fetch(urls[j]), parse)
    ensures var urls := Urls(if gameIdEnv == "" then "237" else gameIdEnv);
      var r := Handle(gameIdEnv, fetch, parse, now);
      && r == NotJson(SliceHead(fetch(urls[1]).text, 200))
      && Status(r) == 500 && |r.debugSnippet| <= 200
  {
    var urls := Urls(if gameIdEnv == "" then "237" else gameIdEnv);
    NoneAccepted(urls, fetch, parse, None, "");
  }
}
