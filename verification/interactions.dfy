/**
 * The slash-command dispatch of `src/main.rs` (`interaction_create`):
 * each known command name computes its reply text; an unknown name is a
 * programming error in the Rust program, here the absence of a reply.
 */
module Interactions {
  import opened Wrappers
  import opened Text
  import opened Scoreboard
  import UwuMe
  import UwuLead

  /** The value of a command option as delivered. */
  datatype OptionValue = StringValue(text: string) | OtherValue

  /** A command option as delivered: its name and value. */
  datatype CommandOption = CommandOption(name: string, value: OptionValue)

  /** The name of the reset command's option. */
  const ArgumentName: string := "New Leaderboard"

  /** How many entries the `uwulead` arm lists. */
  const InlineLimit: nat := 10

  /** The reply to `uwumeeter`. */
  function MeterReply(total: nat): string
  {
    "UwU meter: " + NatToString(total)
  }

  /** `value.as_str()`: the text of a string value, nothing for any other kind. */
  function AsStr(value: OptionValue): Option<string>
  {
    if value.StringValue? then Some(value.text) else None
  }

  /** Option `i` is the last one named `ArgumentName`. */
  ghost predicate LastNamedAt(options: seq<CommandOption>, i: int)
  {
    0 <= i < |options| && options[i].name == ArgumentName &&
    forall j :: i < j < |options| ==> options[j].name != ArgumentName
  }

  /**
   * The reset argument: the value of the LAST option named
   * `ArgumentName`, as a string; nothing if there is no such option or
   * its value is not a string.
   */
  function LastNamed(options: seq<CommandOption>): (arg: Option<string>)
    ensures arg.Some? <==> exists i :: LastNamedAt(options, i) && options[i].value.StringValue?
    ensures forall i :: LastNamedAt(options, i) ==> arg == AsStr(options[i].value)
  {
    if options == [] then None
    else
      var init := options[..|options| - 1];
      var last := options[|options| - 1];
      if last.name == ArgumentName then
        assert LastNamedAt(options, |options| - 1);
        AsStr(last.value)
      else
        var arg := LastNamed(init);
        assert forall i :: LastNamedAt(options, i) <==> LastNamedAt(init, i);
        arg
  }

  /** The `for option in &options` loop that extracts the reset argument. */
  method FindArgument(options: seq<CommandOption>) returns (arg: Option<string>)
    ensures arg == LastNamed(options)
  {
    arg := None;
    for i := 0 to |options|
      invariant arg == LastNamed(options[..i])
    {
      assert options[..i + 1][..i] == options[..i];
      if options[i].name == ArgumentName {
        arg := AsStr(options[i].value);
      }
    }
    assert options[..|options|] == options;
  }

  /**
   * `interaction_create`: the reply for the command `name` invoked by
   * `user` with `options`. Only `uwureset` changes anything.
   */
  method InteractionCreate(bot: Bot, name: string, user: UserId, options: seq<CommandOption>,
                           parse: string -> Option<map<UserId, nat>>)
    returns (response: Option<string>)
    modifies bot, bot.leaderboard, bot.persist
    ensures bot.leaderboard == old(bot.leaderboard) && bot.persist == old(bot.persist)
    ensures name != "uwureset" ==> unchanged(bot, bot.leaderboard, bot.persist)
    ensures name == "uwumeeter" ==> response == Some(MeterReply(bot.uwuCount))
    ensures name == "uwulead" ==>
              response.Some? && UwuLead.IsLeaderboardReply(bot.leaderboard.scores, InlineLimit, response.value)
    ensures name == "uwume" ==> response == Some(UwuMe.Run(bot, user))
    ensures name == "uwureset" ==>
              response.Some? &&
              Outcome(bot.Snapshot(), bot.persist.store, response.value) ==
              ResetOutcome(old(bot.Snapshot()), old(bot.persist.store), LastNamed(options), parse)
    ensures name !in {"uwumeeter", "uwulead", "uwume", "uwureset"} ==> response == None
  {
    if name == "uwumeeter" {
      response := Some(MeterReply(bot.uwuCount));
    } else if name == "uwulead" {
      var listed, text := UwuLead.SortedTop(bot.leaderboard.scores, InlineLimit);
      response := Some(text);
    } else if name == "uwume" {
      response := Some(UwuMe.Run(bot, user));
    } else if name == "uwureset" {
      var arg := FindArgument(options);
      var reply := bot.Reset(arg, parse);
      response := Some(reply);
    } else {
      response := None;
    }
  }
}
