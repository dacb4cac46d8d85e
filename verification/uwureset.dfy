/** The `uwureset` command: replaces the whole leaderboard. */
module UwuReset {
  import opened Wrappers
  import opened Scoreboard

  /** The value of a resolved command option. */
  datatype ResolvedValue = StringValue(text: string) | OtherValue

  /** A resolved command option. */
  datatype ResolvedOption = ResolvedOption(name: string, value: ResolvedValue)

  /** The argument the command reads: the first option, when it holds a string. */
  function FirstString(options: seq<ResolvedOption>): Option<string>
  {
    if |options| > 0 && options[0].value.StringValue? then Some(options[0].value.text) else None
  }

  /**
   * `uwureset`: resets the scoreboard from the first option. A first
   * option that is missing or not a string, or a string that does not
   * parse, changes nothing.
   */
  method Run(bot: Bot, options: seq<ResolvedOption>, parse: string -> Option<map<UserId, nat>>)
    returns (reply: string)
    modifies bot, bot.leaderboard, bot.persist
    ensures bot.leaderboard == old(bot.leaderboard) && bot.persist == old(bot.persist)
    ensures (|options| == 0 || !options[0].value.StringValue?) ==>
              reply == NotAStringReply && unchanged(bot, bot.leaderboard, bot.persist)
    ensures |options| > 0 && options[0].value.StringValue? ==>
              Outcome(bot.Snapshot(), bot.persist.store, reply) ==
              ResetOutcome(old(bot.Snapshot()), old(bot.persist.store), Some(options[0].value.text), parse)
  {
    reply := bot.Reset(FirstString(options), parse);
  }
}
