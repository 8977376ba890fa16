/** The record shapes of lib/types.ts that the modelled components consume. */
module Types {
  import opened Wrappers

  datatype User = User(
    id: string,
    username: string,
    nickname: string,
    signature: string,
    avatarUrl: string,
    // read by the profile card although the record type does not declare it
    tags: Option<string>)

  datatype Contest = Contest(
    id: string,
    name: string,
    problemIds: seq<string>)

  datatype LeaderboardEntry = LeaderboardEntry(
    userId: string,
    username: string,
    nickname: string,
    avatarUrl: string,
    totalScore: int,
    problemScores: map<string, int>)

  /** One scoring event; `time` is already parsed into milliseconds since the epoch. */
  datatype ScorePoint = ScorePoint(time: int, score: int, problemId: string)

  datatype TrendEntry = TrendEntry(
    userId: string,
    username: string,
    nickname: string,
    history: seq<ScorePoint>)

  datatype LinkItem = LinkItem(name: string, url: string)
}
