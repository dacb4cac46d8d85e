/** The `uwume` command: the caller's own count. */
module UwuMe {
  import opened Wrappers
  import opened Scoreboard
  import opened Mentions

  /**
   * The reply to `uwume`: the caller's stored count, or 0 for a caller
   * never counted, as one reply line. It only reads the scoreboard.
   */
  function Run(bot: Bot, user: UserId): (reply: string)
    reads bot, bot.leaderboard
    ensures user in bot.leaderboard.scores ==> reply == MentionLine(user, bot.leaderboard.scores[user])
    ensures user !in bot.leaderboard.scores ==> reply == MentionLine(user, 0)
    ensures ParseLine(reply) == Some(Entry(user, ScoreOf(bot.leaderboard.scores, user)))
  {
    var count := ScoreOf(bot.leaderboard.scores, user);
    MentionLineRoundTrip(user, count);
    MentionLine(user, count)
  }
}
