/**
 * The UwU scoreboard of `src/main.rs`: the running total (`uwu_count`),
 * the per-user tally (`Leaderboard`), the key/value store the bot saves
 * both to, the message handler that counts keyword messages, the reset
 * shared by the `uwureset` entry points, and the load-or-default startup.
 *
 * Every operation runs as one sequential step: the mutex and the atomic
 * counter of the Rust program only serialise concurrent deliveries.
 */
module Scoreboard {
  import opened Wrappers
  import opened Text

  /** A Discord user identifier. */
  type UserId = nat

  /** One `(user, count)` entry of the scores map. */
  datatype Entry = Entry(user: UserId, count: nat)

  /** An immutable view of the scoreboard: the total and the scores. */
  datatype State = State(total: nat, scores: map<UserId, nat>)

  /* ------------------------------------------------------------------ */
  /* Sum of the scores                                                   */
  /* ------------------------------------------------------------------ */

  /** Some user of a non-empty scores map. */
  ghost function Pick(scores: map<UserId, nat>): (u: UserId)
    requires scores != map[]
    ensures u in scores
  {
    assert scores.Keys == {} ==> scores == map[];
    var u :| u in scores; u
  }

  /** The sum of all counts in a scores map. */
  ghost function Sum(scores: map<UserId, nat>): nat
    decreases |scores|
  {
    if scores == map[] then 0
    else
      var u := Pick(scores);
      assert |scores - {u}| < |scores| by {
        assert (scores - {u}).Keys == scores.Keys - {u};
      }
      scores[u] + Sum(scores - {u})
  }

  /** The sum may be split at any user, not only the one `Sum` picks. */
  lemma {:induction false} SumRemove(scores: map<UserId, nat>, u: UserId)
    requires u in scores
    ensures Sum(scores) == scores[u] + Sum(scores - {u})
    decreases |scores|
  {
    var v := Pick(scores);
    if v != u {
      var withoutV, withoutU := scores - {v}, scores - {u};
      assert withoutV.Keys == scores.Keys - {v};
      assert withoutU.Keys == scores.Keys - {u};
      var withoutBoth := withoutV - {u};
      assert withoutU - {v} == withoutBoth by {
        assert (withoutU - {v}).Keys == withoutBoth.Keys;
      }
      SumRemove(withoutV, u);
      SumRemove(withoutU, v);
    }
  }

  /** Setting one user's count changes the sum by the difference. */
  lemma {:induction false} SumUpdate(scores: map<UserId, nat>, u: UserId, v: nat)
    ensures Sum(scores[u := v]) + ScoreOf(scores, u) == Sum(scores) + v
  {
    var updated := scores[u := v];
    SumRemove(updated, u);
    assert updated - {u} == scores - {u};
    if u in scores {
      SumRemove(scores, u);
    } else {
      assert scores - {u} == scores;
    }
  }

  /* ------------------------------------------------------------------ */
  /* Scores                                                              */
  /* ------------------------------------------------------------------ */

  /** A user's count, 0 for a user never counted (`get(..).unwrap_or(&0)`). */
  function ScoreOf(scores: map<UserId, nat>, u: UserId): nat
  {
    if u in scores then scores[u] else 0
  }

  /**
   * The scores after `update_score(u, s)`: the user is inserted at 0 when
   * absent, then `s` is added to its count.
   */
  function Credited(scores: map<UserId, nat>, u: UserId, s: nat): (r: map<UserId, nat>)
    ensures r.Keys == scores.Keys + {u}
    ensures r[u] == ScoreOf(scores, u) + s
    ensures forall v :: v in scores && v != u ==> r[v] == scores[v]
  {
    scores[u := ScoreOf(scores, u) + s]
  }

  /** Crediting `s` points to one user raises the sum by exactly `s`. */
  lemma CreditedSum(scores: map<UserId, nat>, u: UserId, s: nat)
    ensures Sum(Credited(scores, u, s)) == Sum(scores) + s
  {
    SumUpdate(scores, u, ScoreOf(scores, u) + s);
  }

  /** The `Leaderboard` struct: the per-user scores map. */
  class Leaderboard {
    var scores: map<UserId, nat>

    /** `Leaderboard::new`: no user has a score yet. */
    constructor ()
      ensures scores == map[]
    {
      scores := map[];
    }

    /** A leaderboard holding the given scores, as deserialised at startup. */
    constructor FromScores(scores: map<UserId, nat>)
      ensures this.scores == scores
    {
      this.scores := scores;
    }

    /** `update_score`: adds `score` to `user`'s count in place. */
    method UpdateScore(user: UserId, score: nat)
      modifies this
      ensures scores == Credited(old(scores), user, score)
    {
      scores := scores[user := ScoreOf(scores, user) + score];
    }
  }

  /**
   * The `for` loop of the reset: adds up every count of `scores`, one
   * entry at a time.
   */
  method TotalOf(scores: map<UserId, nat>) returns (total: nat)
    ensures total == Sum(scores)
  {
    total := 0;
    var rest := scores;
    while rest != map[]
      invariant total + Sum(rest) == Sum(scores)
      decreases |rest|
    {
      var u :| u in rest;
      SumRemove(rest, u);
      total := total + rest[u];
      rest := rest - {u};
    }
  }

  /* ------------------------------------------------------------------ */
  /* Persistence                                                         */
  /* ------------------------------------------------------------------ */

  /** The key under which the total is saved. */
  const CountKey: string := "uwu_count"
  /** The key under which the scores are saved. */
  const BoardKey: string := "leaderboard"

  /** A saved value: a total or a scores map (serialisation is abstracted). */
  datatype Stored = CountData(count: nat) | BoardData(scores: map<UserId, nat>)

  /** Startup fails when a saved value cannot be read back as its kind. */
  datatype LoadError = Corrupt(key: string)

  /** The persistence instance: a key/value store. */
  class PersistInstance {
    var store: map<string, Stored>

    constructor (store: map<string, Stored>)
      ensures this.store == store
    {
      this.store := store;
    }

    /** `save(key, value)`: replaces whatever was stored under `key`. */
    method Save(key: string, value: Stored)
      modifies this
      ensures store == old(store)[key := value]
    {
      store := store[key := value];
    }
  }

  /** The store after both values of `s` are saved, the total first. */
  function Saved(store: map<string, Stored>, s: State): (r: map<string, Stored>)
    ensures r.Keys == store.Keys + {CountKey, BoardKey}
    ensures forall k :: k in store && k != CountKey && k != BoardKey ==> r[k] == store[k]
    ensures LoadState(r) == Ok(s)
  {
    store[CountKey := CountData(s.total)][BoardKey := BoardData(s.scores)]
  }

  /** The saved scores, or an empty map when none were saved. */
  function LoadBoard(store: map<string, Stored>): Result<map<UserId, nat>, LoadError>
  {
    if BoardKey !in store then Ok(map[])
    else match store[BoardKey]
      case BoardData(scores) => Ok(scores)
      case CountData(_) => Err(Corrupt(BoardKey))
  }

  /** The saved total, or 0 when none was saved. */
  function LoadCount(store: map<string, Stored>): Result<nat, LoadError>
  {
    if CountKey !in store then Ok(0)
    else match store[CountKey]
      case CountData(n) => Ok(n)
      case BoardData(_) => Err(Corrupt(CountKey))
  }

  /**
   * The state the bot starts from: the scores are loaded first, then the
   * total; a missing key means the default and an unreadable value fails.
   */
  function LoadState(store: map<string, Stored>): (r: Result<State, LoadError>)
    ensures r.Err? <==>
              (BoardKey in store && !store[BoardKey].BoardData?) ||
              (CountKey in store && !store[CountKey].CountData?)
    ensures r.Err? && BoardKey in store && !store[BoardKey].BoardData? ==> r.error == Corrupt(BoardKey)
    ensures r.Ok? ==> r.value.scores == (if BoardKey in store then store[BoardKey].scores else map[])
    ensures r.Ok? ==> r.value.total == (if CountKey in store then store[CountKey].count else 0)
  {
    match LoadBoard(store)
    case Err(e) => Err(e)
    case Ok(scores) =>
      match LoadCount(store)
      case Err(e) => Err(e)
      case Ok(total) => Ok(State(total, scores))
  }

  /** With nothing saved, the bot starts with no scores and a total of 0. */
  lemma LoadNothing(store: map<string, Stored>)
    requires BoardKey !in store && CountKey !in store
    ensures LoadState(store) == Ok(State(0, map[]))
  {
  }

  /* ------------------------------------------------------------------ */
  /* Messages                                                            */
  /* ------------------------------------------------------------------ */

  datatype User = User(id: UserId, bot: bool)

  /** An incoming chat message. */
  datatype Message = Message(content: string, author: User)

  /** A message counts when its lower-cased text contains "uwu" and a human wrote it. */
  predicate Counts(msg: Message)
  {
    Contains(ToLower(msg.content), "uwu") && !msg.author.bot
  }

  /** The scoreboard after a message: one more for the total and the author. */
  function OnMessage(s: State, msg: Message): State
  {
    if Counts(msg) then State(s.total + 1, Credited(s.scores, msg.author.id, 1)) else s
  }

  /** A message changes the scoreboard exactly when it counts. */
  lemma MessageChangesIffCounts(s: State, msg: Message)
    ensures OnMessage(s, msg) != s <==> Counts(msg)
  {
  }

  /**
   * A counting message adds exactly one to the total and to its author,
   * however often the keyword occurs, and touches no other user.
   */
  lemma MessageCountsOnce(s: State, msg: Message)
    requires Counts(msg)
    ensures OnMessage(s, msg).total == s.total + 1
    ensures ScoreOf(OnMessage(s, msg).scores, msg.author.id) == ScoreOf(s.scores, msg.author.id) + 1
    ensures OnMessage(s, msg).scores.Keys == s.scores.Keys + {msg.author.id}
    ensures forall v :: v in s.scores && v != msg.author.id ==> OnMessage(s, msg).scores[v] == s.scores[v]
  {
  }

  /** The total equals the sum of the scores. */
  ghost predicate Consistent(s: State)
  {
    s.total == Sum(s.scores)
  }

  /** Counting a message keeps the total equal to the sum of the scores. */
  lemma MessageKeepsConsistent(s: State, msg: Message)
    requires Consistent(s)
    ensures Consistent(OnMessage(s, msg))
  {
    if Counts(msg) {
      CreditedSum(s.scores, msg.author.id, 1);
    }
  }

  /** The scoreboard after a sequence of messages, in order. */
  function OnMessages(s: State, msgs: seq<Message>): State
    decreases msgs
  {
    if msgs == [] then s else OnMessages(OnMessage(s, msgs[0]), msgs[1..])
  }

  /** How many of `msgs` count. */
  function CountingMessages(msgs: seq<Message>): nat
  {
    if msgs == [] then 0 else (if Counts(msgs[0]) then 1 else 0) + CountingMessages(msgs[1..])
  }

  /**
   * Over any sequence of messages the total grows by the number of
   * counting messages and stays equal to the sum of the scores.
   */
  lemma {:induction false} MessagesKeepConsistent(s: State, msgs: seq<Message>)
    requires Consistent(s)
    ensures Consistent(OnMessages(s, msgs))
    ensures OnMessages(s, msgs).total == s.total + CountingMessages(msgs)
    decreases msgs
  {
    if msgs != [] {
      MessageKeepsConsistent(s, msgs[0]);
      MessagesKeepConsistent(OnMessage(s, msgs[0]), msgs[1..]);
    }
  }

  /* ------------------------------------------------------------------ */
  /* The bot                                                             */
  /* ------------------------------------------------------------------ */

  /** Reply when the reset argument is missing or not a string. */
  const NotAStringReply: string :=
    "The leaderboard must be a string in the command's argument. Nothing changed."
  /** Reply when the reset argument does not parse. */
  const ParseErrorReply: string := "Error parsing the leaderboard. Nothing changed."

  /** Reply after a successful reset, showing the new total. */
  function ResetReply(total: nat): string
  {
    "New Uwu meeter: " + NatToString(total)
  }

  /** What a reset leaves behind: the scoreboard, the store and the reply. */
  datatype Outcome = Outcome(state: State, store: map<string, Stored>, reply: string)

  /**
   * The reset on values, given the extracted string argument (if any) and
   * the JSON parser: a missing argument or one that does not parse leaves
   * the scoreboard and the store as they were; otherwise the parsed map
   * becomes the scores, the total is recomputed from it and both are saved.
   */
  ghost function ResetOutcome(s: State, store: map<string, Stored>, arg: Option<string>,
                              parse: string -> Option<map<UserId, nat>>): Outcome
  {
    match arg
    case None => Outcome(s, store, NotAStringReply)
    case Some(text) =>
      match parse(text)
      case None => Outcome(s, store, ParseErrorReply)
      case Some(newScores) =>
        var t := State(Sum(newScores), newScores);
        Outcome(t, Saved(store, t), ResetReply(t.total))
  }

  /** A reset without a usable argument changes nothing and says so. */
  lemma ResetFailureChangesNothing(s: State, store: map<string, Stored>, arg: Option<string>,
                                   parse: string -> Option<map<UserId, nat>>)
    requires arg.None? || parse(arg.value).None?
    ensures ResetOutcome(s, store, arg, parse).state == s
    ensures ResetOutcome(s, store, arg, parse).store == store
    ensures arg.None? ==> ResetOutcome(s, store, arg, parse).reply == NotAStringReply
    ensures arg.Some? ==> ResetOutcome(s, store, arg, parse).reply == ParseErrorReply
  {
  }

  /**
   * A successful reset installs exactly the parsed map, whatever came
   * before, leaves the total equal to its sum, saves both, and reports
   * the new total.
   */
  lemma ResetSuccess(s: State, store: map<string, Stored>, text: string,
                     parse: string -> Option<map<UserId, nat>>)
    requires parse(text).Some?
    ensures var r := ResetOutcome(s, store, Some(text), parse);
            && r.state.scores == parse(text).value
            && Consistent(r.state)
            && LoadState(r.store) == Ok(r.state)
            && r.reply == ResetReply(r.state.total)
  {
  }

  /** The `Bot` struct: the total, the leaderboard and the store. */
  class Bot {
    var uwuCount: nat
    var leaderboard: Leaderboard
    var persist: PersistInstance

    constructor (uwuCount: nat, leaderboard: Leaderboard, persist: PersistInstance)
      ensures this.uwuCount == uwuCount
      ensures this.leaderboard == leaderboard && this.persist == persist
    {
      this.uwuCount := uwuCount;
      this.leaderboard := leaderboard;
      this.persist := persist;
    }

    /** The current total and scores. */
    function Snapshot(): State
      reads this, leaderboard
    {
      State(uwuCount, leaderboard.scores)
    }

    /** What the store would give back at the next startup. */
    function Restored(): Result<State, LoadError>
      reads this, persist
    {
      LoadState(persist.store)
    }

    /**
     * The `message` handler: a counting message bumps the total and the
     * author's score by one, then saves the total and the scores; any
     * other message changes nothing.
     */
    method HandleMessage(msg: Message)
      modifies this, leaderboard, persist
      ensures leaderboard == old(leaderboard) && persist == old(persist)
      ensures Snapshot() == OnMessage(old(Snapshot()), msg)
      ensures Counts(msg) ==> persist.store == Saved(old(persist.store), Snapshot())
      ensures Counts(msg) ==> Restored() == Ok(Snapshot())
      ensures !Counts(msg) ==> unchanged(this, leaderboard, persist)
      ensures old(Consistent(Snapshot())) ==> Consistent(Snapshot())
    {
      ghost var before := Snapshot();
      if Counts(msg) {
        uwuCount := uwuCount + 1;
        leaderboard.UpdateScore(msg.author.id, 1);
        persist.Save(CountKey, CountData(uwuCount));
        persist.Save(BoardKey, BoardData(leaderboard.scores));
      }
      if Consistent(before) {
        MessageKeepsConsistent(before, msg);
      }
    }

    /**
     * A successful reset: the scores become exactly `newScores`, the total
     * is recomputed from them whatever it was, and both are saved.
     */
    method ResetTo(newScores: map<UserId, nat>) returns (newTotal: nat)
      modifies this, leaderboard, persist
      ensures leaderboard == old(leaderboard) && persist == old(persist)
      ensures Snapshot() == State(newTotal, newScores)
      ensures newTotal == Sum(newScores) && Consistent(Snapshot())
      ensures persist.store == Saved(old(persist.store), Snapshot())
      ensures Restored() == Ok(Snapshot())
    {
      leaderboard.scores := newScores;
      newTotal := TotalOf(leaderboard.scores);
      uwuCount := newTotal;
      persist.Save(CountKey, CountData(newTotal));
      persist.Save(BoardKey, BoardData(leaderboard.scores));
    }

    /** The reset behind both `uwureset` entry points, as `ResetOutcome` describes it. */
    method Reset(arg: Option<string>, parse: string -> Option<map<UserId, nat>>) returns (reply: string)
      modifies this, leaderboard, persist
      ensures leaderboard == old(leaderboard) && persist == old(persist)
      ensures Outcome(Snapshot(), persist.store, reply) ==
              ResetOutcome(old(Snapshot()), old(persist.store), arg, parse)
      ensures (arg.None? || parse(arg.value).None?) ==> unchanged(this, leaderboard, persist)
    {
      match arg
      case None =>
        reply := NotAStringReply;
      case Some(text) =>
        match parse(text)
        case None =>
          reply := ParseErrorReply;
        case Some(newScores) =>
          var newTotal := ResetTo(newScores);
          reply := ResetReply(uwuCount);
    }
  }

  /**
   * Startup: the scores saved under "leaderboard" (or an empty leaderboard)
   * and the total saved under "uwu_count" (or 0); an unreadable value
   * aborts the start.
   */
  method Start(persist: PersistInstance) returns (r: Result<Bot, LoadError>)
    ensures r.Err? <==> LoadState(persist.store).Err?
    ensures r.Err? ==> r.error == LoadState(persist.store).error
    ensures r.Ok? ==> fresh(r.value) && fresh(r.value.leaderboard) && r.value.persist == persist
    ensures r.Ok? ==> r.value.Snapshot() == LoadState(persist.store).value
  {
    var leaderboard: Leaderboard;
    if BoardKey in persist.store {
      if !persist.store[BoardKey].BoardData? {
        return Err(Corrupt(BoardKey));
      }
      leaderboard := new Leaderboard.FromScores(persist.store[BoardKey].scores);
    } else {
      leaderboard := new Leaderboard();
    }
    var uwuCount: nat;
    if CountKey in persist.store {
      match persist.store[CountKey]
      case CountData(n) =>
        uwuCount := n;
      case BoardData(_) =>
        return Err(Corrupt(CountKey));
    } else {
      uwuCount := 0;
    }
    var bot := new Bot(uwuCount, leaderboard, persist);
    r := Ok(bot);
  }
}
