/**
 * The signed-in user's card on a contest page
 * (components/contests/user-score-card.tsx): the user's leaderboard entry,
 * a rank that is the entry's list position plus one, and a per-problem
 * score breakdown.
 */
module UserScoreCard {
  import opened Wrappers
  import opened Types
  import opened Text
  import Utils

  /** `leaderboard.findIndex(e => e.user_id === userId)`: first position of the user, or -1. */
  function FindIndex(board: seq<LeaderboardEntry>, userId: string): (r: int)
    ensures -1 <= r < |board|
    ensures r >= 0 ==> board[r].userId == userId && forall k :: 0 <= k < r ==> board[k].userId != userId
    ensures r == -1 <==> forall k :: 0 <= k < |board| ==> board[k].userId != userId
  {
    if board == [] then -1
    else if board[0].userId == userId then 0
    else
      var r := FindIndex(board[1..], userId);
      assert forall k :: 1 <= k < |board| ==> board[k] == board[1..][k - 1];
      if r == -1 then -1 else r + 1
  }

  /** `leaderboard.find(e => e.user_id === userId)`: the first entry of the user. */
  function Find(board: seq<LeaderboardEntry>, userId: string): Option<LeaderboardEntry> {
    if board == [] then None
    else if board[0].userId == userId then Some(board[0])
    else Find(board[1..], userId)
  }

  /** `userEntry`: nothing while there is no leaderboard. */
  function UserEntry(board: Option<seq<LeaderboardEntry>>, userId: string): Option<LeaderboardEntry> {
    match board
    case None => None
    case Some(entries) => Find(entries, userId)
  }

  /** `userRank`: 1 + the user's first list position; 0 with no leaderboard or no entry. */
  function UserRank(board: Option<seq<LeaderboardEntry>>, userId: string): (rank: nat)
    ensures rank == 0 <==> board.None? || forall k :: 0 <= k < |board.value| ==> board.value[k].userId != userId
    ensures rank > 0 ==> && rank <= |board.value|
                         && board.value[rank - 1].userId == userId
                         && forall k :: 0 <= k < rank - 1 ==> board.value[k].userId != userId
  {
    match board
    case None => 0
    case Some(entries) => FindIndex(entries, userId) + 1
  }

  /** `find` and `findIndex` agree: the entry exists exactly when the rank is positive, and it sits at rank - 1. */
  lemma {:induction false} FindAtIndex(board: seq<LeaderboardEntry>, userId: string)
    ensures var r := FindIndex(board, userId);
      if r == -1 then Find(board, userId) == None else Find(board, userId) == Some(board[r])
  {
    if board != [] && board[0].userId != userId {
      FindAtIndex(board[1..], userId);
    }
  }

  lemma EntryIffRanked(board: Option<seq<LeaderboardEntry>>, userId: string)
    ensures UserEntry(board, userId).Some? <==> UserRank(board, userId) > 0
    ensures UserRank(board, userId) > 0 ==>
      UserEntry(board, userId) == Some(board.value[UserRank(board, userId) - 1])
  {
    if board.Some? {
      FindAtIndex(board.value, userId);
    }
  }

  /**
   * With one entry per user the rank is the list position plus one, whatever
   * the scores: two users with equal totals still get different ranks.
   */
  lemma RankIsPosition(board: seq<LeaderboardEntry>, i: nat)
    requires i < |board|
    requires forall a, b :: 0 <= a < b < |board| ==> board[a].userId != board[b].userId
    ensures UserRank(Some(board), board[i].userId) == i + 1
  {
    var r := UserRank(Some(board), board[i].userId);
    assert r > 0;
    assert !(r - 1 < i);
    assert !(i < r - 1);
  }

  lemma TiesGetDistinctRanks(board: seq<LeaderboardEntry>, i: nat, j: nat)
    requires i < j < |board|
    requires forall a, b :: 0 <= a < b < |board| ==> board[a].userId != board[b].userId
    ensures UserRank(Some(board), board[i].userId) < UserRank(Some(board), board[j].userId)
  {
    RankIsPosition(board, i);
    RankIsPosition(board, j);
  }

  /** A score cell shows the score, or an en dash when the problem has no score (`?? "–"`). */
  datatype ScoreCell = Score(value: int) | Dash

  /** A row; a missing score has no colour (the source colours it from an undefined number). */
  datatype BreakdownRow = BreakdownRow(problemId: string, title: string, href: string, cell: ScoreCell,
                                       color: Option<Utils.Hsl>)

  /** The breakdown table: one row per contest problem, in contest order, titled P1, P2, ... */
  function Breakdown(problemIds: seq<string>, scores: map<string, int>): (rows: seq<BreakdownRow>)
    ensures |rows| == |problemIds|
    ensures forall i :: 0 <= i < |rows| ==>
      && rows[i].problemId == problemIds[i]
      && rows[i].title == RowTitle(i + 1)
      && rows[i].href == "/problems?id=" + problemIds[i]
    ensures forall i :: 0 <= i < |rows| ==>
      && (problemIds[i] in scores ==> rows[i].cell == Score(scores[problemIds[i]])
                                      && rows[i].color == Some(Utils.ScoreColor(scores[problemIds[i]] as real)))
      && (problemIds[i] !in scores ==> rows[i].cell == Dash && rows[i].color == None)
  {
    seq(|problemIds|, i requires 0 <= i < |problemIds| =>
      var id := problemIds[i];
      if id in scores then
        BreakdownRow(id, RowTitle(i + 1), "/problems?id=" + id, Score(scores[id]),
                     Some(Utils.ScoreColor(scores[id] as real)))
      else BreakdownRow(id, RowTitle(i + 1), "/problems?id=" + id, Dash, None))
  }

  /** The title of the problem at 1-based position `n`: "P" and the decimal digits of `n`. */
  function RowTitle(n: nat): string {
    "P" + Decimal(n)
  }

  /** A title reads back as its position, so no two positions share a title. */
  lemma RowTitleInjective(m: nat, n: nat)
    ensures |RowTitle(m)| >= 2 && RowTitle(m)[0] == 'P' && DecimalValue(RowTitle(m)[1..]) == m
    ensures m != n ==> RowTitle(m) != RowTitle(n)
  {
    assert RowTitle(m)[1..] == Decimal(m);
    assert RowTitle(n)[1..] == Decimal(n);
    DecimalRoundTrip(m);
    DecimalRoundTrip(n);
  }

  /** Rows are titled P1, P2, ... in contest order, so no two rows share a title. */
  lemma BreakdownTitles(problemIds: seq<string>, scores: map<string, int>, i: nat, j: nat)
    requires i < |problemIds| && j < |problemIds| && i != j
    ensures var rows := Breakdown(problemIds, scores);
      && rows[i].title[0] == 'P'
      && DecimalValue(rows[i].title[1..]) == i + 1
      && rows[i].title != rows[j].title
  {
    var rows := Breakdown(problemIds, scores);
    var ti, tj := rows[i].title, rows[j].title;
    assert ti == RowTitle(i + 1) && tj == RowTitle(j + 1);
    RowTitleInjective(i + 1, j + 1);
    assert ti[0] == 'P' && DecimalValue(ti[1..]) == i + 1 && ti != tj;
  }

  /** What the card shows. */
  datatype CardView =
    | Skeleton
    | Nothing
    | Ranked(rank: nat, totalScore: int, breakdown: Option<seq<BreakdownRow>>)
    | NotRanked

  /**
   * The card: a skeleton while either fetch is loading or nobody is signed in,
   * nothing without a contest, the rank and total when the user has an entry
   * (with the breakdown while it is expanded), and "not ranked" otherwise.
   */
  function Card(contest: Option<Contest>, contestLoading: bool,
                board: Option<seq<LeaderboardEntry>>, boardLoading: bool,
                user: Option<User>, open: bool): (v: CardView)
    ensures v.Skeleton? <==> contestLoading || boardLoading || user.None?
    ensures v.Nothing? <==> !v.Skeleton? && contest.None?
    ensures v.Ranked? <==> !v.Skeleton? && contest.Some? && UserRank(board, user.value.id) > 0
    ensures v.Ranked? ==> v.rank == UserRank(board, user.value.id)
    ensures v.Ranked? ==>
      var entry := board.value[v.rank - 1];
      && entry.userId == user.value.id
      && v.totalScore == entry.totalScore
      && v.breakdown == (if open then Some(Breakdown(contest.value.problemIds, entry.problemScores)) else None)
  {
    if contestLoading || boardLoading || user.None? then Skeleton
    else if contest.None? then Nothing
    else
      var entry := UserEntry(board, user.value.id);
      var rank := UserRank(board, user.value.id);
      EntryIffRanked(board, user.value.id);
      if entry.Some? && rank > 0 then
        Ranked(rank, entry.value.totalScore,
               if open then Some(Breakdown(contest.value.problemIds, entry.value.problemScores)) else None)
      else NotRanked
  }
}
