/** The pure helpers of the `useLeaderboard` hook
    (frontend/src/hooks/useLeaderboard.js): turning the contract's
    `getTopScores` entries into ranked rows, looking a player up by address,
    the top-N slice, the score statistics and the score colour bands. */
module LeaderboardHook {
  import opened Common
  import SubmitScore

  /** An entry as `getTopScores` returns it. */
  datatype ContractEntry = ContractEntry(player: string, username: string, score: int, timestamp: int)

  /** A row of `leaderboardData` (its formatted score and date are
      presentation and are not kept). */
  datatype Row = Row(rank: nat, address: string, username: string, score: int,
                     timestamp: int, isCurrentUser: bool)

  /** `contractLeaderboard.map((entry, index) => ...)` (lines 40-49) from
      position `from` on. */
  function RowsFrom(entries: seq<ContractEntry>, from: nat): (r: seq<Row>)
    requires from <= |entries|
    ensures |r| == |entries| - from
    ensures forall i :: 0 <= i < |r| ==> r[i] == RowOf(entries[from + i], from + i)
    decreases |entries| - from
  {
    if from == |entries| then [] else [RowOf(entries[from], from)] + RowsFrom(entries, from + 1)
  }

  /** The row for the entry at `index`: ranked `index + 1`, named
      `Player {index + 1}` when the username is empty. */
  function RowOf(e: ContractEntry, index: nat): Row
  {
    Row(index + 1, e.player,
        if e.username != "" then e.username else "Player " + SubmitScore.IntDecimal(index + 1),
        e.score, e.timestamp, false)
  }

  function Rows(entries: seq<ContractEntry>): seq<Row>
  {
    RowsFrom(entries, 0)
  }

  /** Ranks are positions counted from 1, and nobody is marked yet. */
  lemma RowsAreRanked(entries: seq<ContractEntry>)
    ensures var rows := Rows(entries);
      && |rows| == |entries|
      && (forall i :: 0 <= i < |rows| ==>
            rows[i].rank == i + 1 && !rows[i].isCurrentUser
            && rows[i].address == entries[i].player && rows[i].score == entries[i].score)
      && (forall i :: 0 <= i < |rows| && entries[i].username == "" ==>
            rows[i].username == "Player " + SubmitScore.IntDecimal(i + 1))
      && (forall i :: 0 <= i < |rows| && entries[i].username != "" ==> rows[i].username == entries[i].username)
  {
  }

  // -----------------------------------------------------------------------
  // Lookup

  /** The index of the first row whose address matches `user` ignoring
      case (`Array.prototype.find`). */
  function FindFrom(rows: seq<Row>, user: string, from: nat): (r: Option<nat>)
    requires from <= |rows|
    ensures r.Some? ==> from <= r.value < |rows| && SameAddress(rows[r.value].address, user)
                        && forall j :: from <= j < r.value ==> !SameAddress(rows[j].address, user)
    ensures r.None? ==> forall j :: from <= j < |rows| ==> !SameAddress(rows[j].address, user)
    decreases |rows| - from
  {
    if from == |rows| then None
    else if SameAddress(rows[from].address, user) then Some(from)
    else FindFrom(rows, user, from + 1)
  }

  /** `getUserRank(userAddress)` (lines 129-137): null for an empty
      address, else the rank of the first matching row, else null. */
  function UserRank(rows: seq<Row>, user: string): (r: Option<nat>)
    ensures user == "" ==> r == None
    ensures user != "" && r.Some? ==>
      exists i :: 0 <= i < |rows| && SameAddress(rows[i].address, user) && r.value == rows[i].rank
                  && forall j :: 0 <= j < i ==> !SameAddress(rows[j].address, user)
    ensures r.None? && user != "" ==> forall j :: 0 <= j < |rows| ==> !SameAddress(rows[j].address, user)
  {
    if user == "" then None
    else
      var i := FindFrom(rows, user, 0);
      if i.Some? then Some(rows[i.value].rank) else None
  }

  /** `isUserInTopN(userAddress, n = 10)` (lines 180-183); `None` is an
      omitted `n`. */
  function InTopN(rows: seq<Row>, user: string, n: Option<int>): bool
  {
    var rank := UserRank(rows, user);
    rank.Some? && rank.value <= (if n.Some? then n.value else 10)
  }

  /** On rows ranked by position, as the contract mapping produces them, a
      player is in the top `n` exactly when their first matching row is
      among the first `n`. */
  lemma TopNIsPosition(rows: seq<Row>, user: string, n: int)
    requires user != ""
    requires forall i :: 0 <= i < |rows| ==> rows[i].rank == i + 1
    ensures InTopN(rows, user, Some(n)) <==>
      exists i :: 0 <= i < |rows| && i < n && SameAddress(rows[i].address, user)
                  && forall j :: 0 <= j < i ==> !SameAddress(rows[j].address, user)
  {
    var f := FindFrom(rows, user, 0);
    if f.Some? {
      var k := f.value;
      assert UserRank(rows, user) == Some(k + 1);
      if k < n {
        assert 0 <= k < |rows| && k < n && SameAddress(rows[k].address, user)
               && forall j :: 0 <= j < k ==> !SameAddress(rows[j].address, user);
      }
      forall i | 0 <= i < |rows| && SameAddress(rows[i].address, user)
                 && (forall j :: 0 <= j < i ==> !SameAddress(rows[j].address, user))
        ensures i == k
      {
      }
    } else {
      assert UserRank(rows, user) == None;
    }
  }

  /** `getTopPlayers(count = 10)` (lines 140-142): `slice(0, count)`, which
      for a negative count drops that many rows from the end. */
  function TopPlayers(rows: seq<Row>, count: Option<int>): (r: seq<Row>)
    ensures var c := if count.Some? then count.value else 10;
      && |r| <= |rows| && r == rows[..|r|]
      && (c >= 0 ==> |r| == if c < |rows| then c else |rows|)
      && (c < 0 ==> |r| == if |rows| + c > 0 then |rows| + c else 0)
  {
    var c := if count.Some? then count.value else 10;
    var end := if c >= 0 then (if c < |rows| then c else |rows|)
               else (if |rows| + c > 0 then |rows| + c else 0);
    rows[..end]
  }

  /** `updateCurrentUser(userAddress)` (lines 116-126): only
      `isCurrentUser` changes, set exactly on the rows whose address
      matches, and cleared everywhere for an empty address. */
  function MarkCurrentUser(rows: seq<Row>, user: string): (r: seq<Row>)
    ensures |r| == |rows|
    ensures forall i :: 0 <= i < |rows| ==>
      r[i] == rows[i].(isCurrentUser := user != "" && SameAddress(rows[i].address, user))
    decreases |rows|
  {
    if rows == [] then []
    else [rows[0].(isCurrentUser := user != "" && SameAddress(rows[0].address, user))]
         + MarkCurrentUser(rows[1..], user)
  }

  /** Marking the same user twice changes nothing more. */
  lemma MarkTwice(rows: seq<Row>, user: string)
    ensures MarkCurrentUser(MarkCurrentUser(rows, user), user) == MarkCurrentUser(rows, user)
  {
  }

  // -----------------------------------------------------------------------
  // Statistics

  function Sum(s: seq<int>): int
  {
    if s == [] then 0 else Sum(s[..|s| - 1]) + s[|s| - 1]
  }

  /** `Math.max(...s)` for a non-empty list. */
  function Max(s: seq<int>): (m: int)
    requires s != []
    ensures m in s && forall i :: 0 <= i < |s| ==> s[i] <= m
  {
    if |s| == 1 then s[0]
    else
      var m := Max(s[1..]);
      assert forall i :: 1 <= i < |s| ==> s[i] == s[1..][i - 1];
      if s[0] >= m then s[0] else m
  }

  /** `Math.round(sum / n)`, halves rounding up. */
  function RoundedMean(sum: int, n: nat): (a: int)
    requires n > 0
    ensures 2 * n * a - n <= 2 * sum < 2 * n * a + n
  {
    (2 * sum + n) / (2 * n)
  }

  predicate Sorted(s: seq<int>)
  {
    forall i, j :: 0 <= i < j < |s| ==> s[i] <= s[j]
  }

  /** Inserting `x` into a sorted list. */
  function Insert(x: int, s: seq<int>): (r: seq<int>)
    requires Sorted(s)
    ensures |r| == |s| + 1
    ensures Sorted(r) && multiset(r) == multiset(s) + multiset{x}
  {
    if s == [] then [x]
    else if x <= s[0] then [x] + s
    else
      var t := Insert(x, s[1..]);
      assert s == [s[0]] + s[1..];
      InsertKeepsHead(s[0], x, s[1..], t);
      [s[0]] + t
  }

  /** A head no larger than every element of `rest` nor than `x` stays in
      front of anything built from them. */
  lemma InsertKeepsHead(h: int, x: int, rest: seq<int>, t: seq<int>)
    requires h <= x && forall i :: 0 <= i < |rest| ==> h <= rest[i]
    requires Sorted(t) && multiset(t) == multiset(rest) + multiset{x}
    ensures Sorted([h] + t)
  {
    forall i | 0 <= i < |t|
      ensures h <= t[i]
    {
      assert t[i] in multiset(t);
      assert t[i] == x || t[i] in rest;
    }
  }

  /** `scores.sort((a, b) => a - b)`, on a fresh copy. */
  function Sort(s: seq<int>): (r: seq<int>)
    ensures |r| == |s|
    ensures Sorted(r) && multiset(r) == multiset(s)
  {
    if s == [] then []
    else
      assert s == [s[0]] + s[1..];
      Insert(s[0], Sort(s[1..]))
  }

  datatype ScoreStats = ScoreStats(highestScore: int, averageScore: int, medianScore: int, totalPlayers: nat)

  function Scores(rows: seq<Row>): (s: seq<int>)
    ensures |s| == |rows| && forall i :: 0 <= i < |rows| ==> s[i] == rows[i].score
  {
    if rows == [] then [] else [rows[0].score] + Scores(rows[1..])
  }

  /** `getScoreStats()` (lines 160-177); `None` for an empty board. */
  function StatsOf(rows: seq<Row>): Option<ScoreStats>
  {
    if rows == [] then None
    else
      var s := Scores(rows);
      Some(ScoreStats(Max(s), RoundedMean(Sum(s), |s|), Sort(s)[|s| / 2], |rows|))
  }

  /** In a sorted list every element up to position `k` is at most the
      one at `k`, and every element from `k` on at least it. */
  lemma SortedAround(sorted: seq<int>, k: nat)
    requires Sorted(sorted) && k < |sorted|
    ensures forall i :: 0 <= i <= k ==> sorted[i] <= sorted[k]
    ensures forall i :: k <= i < |sorted| ==> sorted[k] <= sorted[i]
  {
  }

  /** The middle of a sorted permutation of `s` is one of the scores, with
      at least half of them on each side. */
  lemma MedianFacts(s: seq<int>)
    requires s != []
    ensures var sorted := Sort(s);
      var med := sorted[|s| / 2];
      && med in multiset(s)
      && (forall i :: 0 <= i <= |s| / 2 ==> sorted[i] <= med)
      && (forall i :: |s| / 2 <= i < |s| ==> med <= sorted[i])
  {
    var sorted := Sort(s);
    assert sorted[|s| / 2] in multiset(sorted);
    SortedAround(sorted, |s| / 2);
  }

  /** The statistics describe the board: the highest score is one of the
      scores and no score passes it, the median is one of the scores with
      at least half of them on each side in sorted order, the average is
      the sum divided by the count rounded to the nearest integer, and the
      count is the number of rows. */
  lemma StatsDescribeBoard(rows: seq<Row>)
    ensures StatsOf(rows).None? <==> rows == []
    ensures rows != [] ==>
      var st := StatsOf(rows).value;
      var s := Scores(rows);
      && st.totalPlayers == |rows|
      && st.highestScore in s && (forall i :: 0 <= i < |rows| ==> rows[i].score <= st.highestScore)
      && st.medianScore in multiset(s) && st.medianScore <= st.highestScore
      && (forall i :: 0 <= i <= |s| / 2 ==> Sort(s)[i] <= st.medianScore)
      && (forall i :: |s| / 2 <= i < |s| ==> st.medianScore <= Sort(s)[i])
      && 2 * |s| * st.averageScore - |s| <= 2 * Sum(s) < 2 * |s| * st.averageScore + |s|
  {
    if rows != [] {
      var s := Scores(rows);
      MedianFacts(s);
      var med := Sort(s)[|s| / 2];
      assert med in s;
      var i :| 0 <= i < |s| && s[i] == med;
      assert rows[i].score == med;
    }
  }

  // -----------------------------------------------------------------------
  // Colours

  /** `getScoreColor(score)` (lines 231-237). */
  function ScoreColor(score: int): string
  {
    if score >= 10000 then "text-purple-400"
    else if score >= 5000 then "text-blue-400"
    else if score >= 2000 then "text-green-400"
    else if score >= 500 then "text-yellow-400"
    else "text-gray-400"
  }

  /** Each colour is one band of scores, every threshold inclusive. */
  lemma ScoreColorBands(score: int)
    ensures ScoreColor(score) == "text-purple-400" <==> 10000 <= score
    ensures ScoreColor(score) == "text-blue-400" <==> 5000 <= score < 10000
    ensures ScoreColor(score) == "text-green-400" <==> 2000 <= score < 5000
    ensures ScoreColor(score) == "text-yellow-400" <==> 500 <= score < 2000
    ensures ScoreColor(score) == "text-gray-400" <==> score < 500
  {
  }
}
