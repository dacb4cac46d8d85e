/**
 * The `uwulead` command: the users with the highest counts, best first,
 * one reply line each under a header.
 */
module UwuLead {
  import opened Scoreboard
  import opened Mentions

  /** The first line of every leaderboard reply. */
  const Header: string := "UwU Leaderboard:\n"

  /** How many entries the `uwulead` command lists. */
  const Limit: nat := 5

  function Min(a: nat, b: nat): nat
  {
    if a <= b then a else b
  }

  /** The reply lines for the listed entries, in order. */
  function Render(listed: seq<Entry>): string
  {
    if listed == [] then "" else MentionLine(listed[0].user, listed[0].count) + Render(listed[1..])
  }

  /** Rendering one more entry appends its line. */
  lemma {:induction false} RenderSnoc(listed: seq<Entry>, e: Entry)
    ensures Render(listed + [e]) == Render(listed) + MentionLine(e.user, e.count)
  {
    if listed != [] {
      assert (listed + [e])[1..] == listed[1..] + [e];
      RenderSnoc(listed[1..], e);
    }
  }

  /** `e` is an entry of `scores`, with the user's exact count. */
  ghost predicate IsEntryOf(e: Entry, scores: map<UserId, nat>)
  {
    e.user in scores && scores[e.user] == e.count
  }

  ghost function UsersOf(entries: seq<Entry>): set<UserId>
  {
    set k | 0 <= k < |entries| :: entries[k].user
  }

  ghost predicate DistinctUsers(entries: seq<Entry>)
  {
    forall i, j :: 0 <= i < j < |entries| ==> entries[i].user != entries[j].user
  }

  /** Non-increasing counts. */
  ghost predicate SortedByCount(entries: seq<Entry>)
  {
    forall i, j :: 0 <= i < j < |entries| ==> entries[i].count >= entries[j].count
  }

  /** `entries` lists every entry of `scores` exactly once, in some order. */
  ghost predicate Enumerates(entries: seq<Entry>, scores: map<UserId, nat>)
  {
    && |entries| == |scores|
    && (forall k :: 0 <= k < |entries| ==> IsEntryOf(entries[k], scores))
    && DistinctUsers(entries)
    && (forall u :: u in scores ==> u in UsersOf(entries))
  }

  /**
   * `listed` is a valid top-`limit` view of `scores`: as many entries as
   * the limit allows, each a real entry, no user twice, best first, and
   * nobody left out has more than anybody listed. Ties may come in any
   * order, since the order of a hash map is unspecified.
   */
  ghost predicate IsTopListing(scores: map<UserId, nat>, limit: nat, listed: seq<Entry>)
  {
    && |listed| == Min(limit, |scores|)
    && (forall k :: 0 <= k < |listed| ==> IsEntryOf(listed[k], scores))
    && DistinctUsers(listed)
    && SortedByCount(listed)
    && (forall u, k :: u in scores && u !in UsersOf(listed) && 0 <= k < |listed| ==> scores[u] <= listed[k].count)
  }

  /** `response` is the header followed by the lines of some top-`limit` view. */
  ghost predicate IsLeaderboardReply(scores: map<UserId, nat>, limit: nat, response: string)
  {
    exists listed :: IsTopListing(scores, limit, listed) && response == Header + Render(listed)
  }

  /** `scores.iter().collect()`: every entry of the map, in no particular order. */
  method Collect(scores: map<UserId, nat>) returns (entries: seq<Entry>)
    ensures Enumerates(entries, scores)
  {
    entries := [];
    var rest := scores.Keys;
    while rest != {}
      invariant rest <= scores.Keys
      invariant |entries| + |rest| == |scores|
      invariant forall k :: 0 <= k < |entries| ==> IsEntryOf(entries[k], scores) && entries[k].user !in rest
      invariant DistinctUsers(entries)
      invariant forall u :: u in scores && u !in rest ==> u in UsersOf(entries)
      decreases |rest|
    {
      var u :| u in rest;
      ghost var before := entries;
      entries := entries + [Entry(u, scores[u])];
      assert UsersOf(entries) == UsersOf(before) + {u} by {
        assert entries[|before|].user == u;
        assert forall k :: 0 <= k < |before| ==> entries[k] == before[k];
      }
      rest := rest - {u};
    }
  }

  /** The position of a highest count in `a[from..]`. */
  method IndexOfMax(a: array<Entry>, from: nat) returns (m: nat)
    requires from < a.Length
    ensures from <= m < a.Length
    ensures forall q :: from <= q < a.Length ==> a[m].count >= a[q].count
  {
    m := from;
    var q := from + 1;
    while q < a.Length
      invariant from <= m < q <= a.Length
      invariant forall r :: from <= r < q ==> a[m].count >= a[r].count
    {
      if a[q].count > a[m].count {
        m := q;
      }
      q := q + 1;
    }
  }

  /**
   * `sort_by(|a, b| b.1.cmp(a.1))`: sorts by count, highest first, in
   * place. Equal counts may end in any order.
   */
  method SortByCount(a: array<Entry>)
    modifies a
    ensures SortedByCount(a[..])
    ensures multiset(a[..]) == multiset(old(a[..]))
  {
    var i := 0;
    while i < a.Length
      invariant 0 <= i <= a.Length
      invariant forall p, q :: 0 <= p < i && p < q < a.Length ==> a[p].count >= a[q].count
      invariant multiset(a[..]) == multiset(old(a[..]))
    {
      var m := IndexOfMax(a, i);
      a[i], a[m] := a[m], a[i];
      i := i + 1;
    }
  }

  /** A sequence with distinct users holds each entry at most once. */
  lemma {:induction false} AtMostOnce(entries: seq<Entry>, e: Entry)
    requires DistinctUsers(entries)
    ensures multiset(entries)[e] <= 1
  {
    if entries != [] {
      var init := entries[..|entries| - 1];
      assert entries == init + [entries[|entries| - 1]];
      AtMostOnce(init, e);
      if e == entries[|entries| - 1] {
        assert e !in init;
      }
    }
  }

  /** An entry at two positions occurs at least twice. */
  lemma Twice(entries: seq<Entry>, i: nat, j: nat)
    requires i < j < |entries| && entries[i] == entries[j]
    ensures multiset(entries)[entries[i]] >= 2
  {
    assert entries == entries[..j] + entries[j..];
    assert entries[i] in entries[..j];
    assert entries[j] in entries[j..];
  }

  /** A reordering of an enumeration of `scores` enumerates it too. */
  lemma PermutationEnumerates(entries: seq<Entry>, perm: seq<Entry>, scores: map<UserId, nat>)
    requires Enumerates(entries, scores)
    requires multiset(perm) == multiset(entries)
    ensures Enumerates(perm, scores)
  {
    assert |perm| == |multiset(perm)| == |entries|;
    forall k | 0 <= k < |perm|
      ensures IsEntryOf(perm[k], scores)
    {
      assert perm[k] in multiset(entries);
    }
    forall u | u in scores
      ensures u in UsersOf(perm)
    {
      var k :| 0 <= k < |entries| && entries[k].user == u;
      assert entries[k] in multiset(perm);
      var m :| 0 <= m < |perm| && perm[m] == entries[k];
    }
    forall i, j | 0 <= i < j < |perm|
      ensures perm[i].user != perm[j].user
    {
      if perm[i].user == perm[j].user {
        assert perm[i] == perm[j];
        Twice(perm, i, j);
        AtMostOnce(entries, perm[i]);
        assert false;
      }
    }
  }

  /** A prefix of a sorted enumeration is a top view. */
  lemma PrefixIsTop(sorted: seq<Entry>, scores: map<UserId, nat>, limit: nat, k: nat)
    requires Enumerates(sorted, scores) && SortedByCount(sorted)
    requires k == Min(limit, |sorted|)
    ensures IsTopListing(scores, limit, sorted[..k])
  {
    var listed := sorted[..k];
    forall u, i | u in scores && u !in UsersOf(listed) && 0 <= i < |listed|
      ensures scores[u] <= listed[i].count
    {
      var m :| 0 <= m < |sorted| && sorted[m].user == u;
      assert m >= k;
      assert sorted[m].count == scores[u];
    }
  }

  /** The entries of `scores` in a fresh array, sorted by count, highest first. */
  method SortedEntries(scores: map<UserId, nat>) returns (sorted: array<Entry>)
    ensures fresh(sorted)
    ensures Enumerates(sorted[..], scores) && SortedByCount(sorted[..])
  {
    var entries := Collect(scores);
    sorted := new Entry[|entries|](k requires 0 <= k < |entries| => entries[k]);
    assert sorted[..] == entries;
    SortByCount(sorted);
    PermutationEnumerates(entries, sorted[..], scores);
  }

  /**
   * The leaderboard body: the sorted entries, of which the first `limit`
   * are rendered under the header.
   */
  method SortedTop(scores: map<UserId, nat>, limit: nat) returns (listed: seq<Entry>, response: string)
    ensures IsTopListing(scores, limit, listed)
    ensures response == Header + Render(listed)
  {
    var sorted := SortedEntries(scores);
    ghost var all := sorted[..];
    response := Header;
    var k := 0;
    while k < sorted.Length && k < limit
      invariant k <= sorted.Length && k <= limit
      invariant sorted[..] == all
      invariant response == Header + Render(sorted[..k])
    {
      RenderSnoc(sorted[..k], sorted[k]);
      assert sorted[..k + 1] == sorted[..k] + [sorted[k]];
      response := response + MentionLine(sorted[k].user, sorted[k].count);
      k := k + 1;
    }
    listed := sorted[..k];
    PrefixIsTop(all, scores, limit, k);
  }

  /** `uwulead`: the top five. It only reads the scoreboard. */
  method Run(bot: Bot) returns (response: string)
    ensures IsLeaderboardReply(bot.leaderboard.scores, Limit, response)
  {
    var listed;
    listed, response := SortedTop(bot.leaderboard.scores, Limit);
  }

  /** Distinct users in `listed` means as many users as entries. */
  lemma {:induction false} UsersOfDistinct(listed: seq<Entry>)
    requires DistinctUsers(listed)
    ensures |UsersOf(listed)| == |listed|
  {
    if listed != [] {
      var init := listed[..|listed| - 1];
      UsersOfDistinct(init);
      assert UsersOf(listed) == UsersOf(init) + {listed[|listed| - 1].user};
      assert listed[|listed| - 1].user !in UsersOf(init);
    }
  }

  /** With no more users than the limit, every user is listed. */
  lemma ListsEveryoneWhenFew(scores: map<UserId, nat>, limit: nat, listed: seq<Entry>)
    requires IsTopListing(scores, limit, listed)
    requires |scores| <= limit
    ensures UsersOf(listed) == scores.Keys
  {
    UsersOfDistinct(listed);
    assert UsersOf(listed) <= scores.Keys;
    var missing := scores.Keys - UsersOf(listed);
    assert scores.Keys == UsersOf(listed) + missing;
    assert |missing| == 0;
  }

  /** With the scores {42: 5, 99: 2}, the top two are user 42, then user 99. */
  lemma TopTwoExample(listed: seq<Entry>)
    requires IsTopListing(map[42 := 5, 99 := 2], 2, listed)
    ensures listed == [Entry(42, 5), Entry(99, 2)]
  {
    var scores := map[42 := 5, 99 := 2];
    assert |scores| == 2 by {
      assert scores.Keys == {42, 99};
    }
    assert IsEntryOf(listed[0], scores) && IsEntryOf(listed[1], scores);
    assert listed[0].user != listed[1].user;
    assert listed[0].count >= listed[1].count;
  }
}
