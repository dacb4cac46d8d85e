/**
 * The reply line `<@user>: count` followed by a newline, shared by the
 * personal-score and leaderboard replies, and a reader that recovers the
 * user and the count from such a line.
 */
module Mentions {
  import opened Wrappers
  import opened Text
  import opened Scoreboard

  /** One reply line: a mention of `user`, a colon and the count. */
  function MentionLine(user: UserId, count: nat): string
  {
    "<@" + NatToString(user) + ">: " + NatToString(count) + "\n"
  }

  /** The length of the longest prefix of `s` made of decimal digits. */
  function DigitSpan(s: string): (k: nat)
    ensures k <= |s| && AllDigits(s[..k])
    ensures k < |s| ==> !IsDigit(s[k])
  {
    if s == [] || !IsDigit(s[0]) then 0
    else
      var k := 1 + DigitSpan(s[1..]);
      assert s[..k] == [s[0]] + s[1..][..k - 1];
      k
  }

  /** The digit prefix of `digits + rest` is `digits` when `rest` starts with a non-digit. */
  lemma {:induction false} DigitSpanOf(digits: string, rest: string)
    requires AllDigits(digits)
    requires rest == [] || !IsDigit(rest[0])
    ensures DigitSpan(digits + rest) == |digits|
  {
    if digits != [] {
      assert (digits + rest)[1..] == digits[1..] + rest;
      DigitSpanOf(digits[1..], rest);
    }
  }

  /** Reads a reply line back into the entry it shows. */
  function ParseLine(s: string): Option<Entry>
  {
    if |s| < 2 || s[..2] != "<@" then None
    else
      var t := s[2..];
      var i := DigitSpan(t);
      if i == 0 || |t| < i + 3 || t[i..i + 3] != ">: " then None
      else
        var rest := t[i + 3..];
        var j := DigitSpan(rest);
        if j == 0 || rest[j..] != "\n" then None
        else Some(Entry(DigitsValue(t[..i]), DigitsValue(rest[..j])))
  }

  /** A reply line shows exactly its user and count. */
  lemma MentionLineRoundTrip(user: UserId, count: nat)
    ensures ParseLine(MentionLine(user, count)) == Some(Entry(user, count))
  {
    var u, c := NatToString(user), NatToString(count);
    var s := MentionLine(user, count);
    var t := s[2..];
    assert t == u + (">: " + c + "\n");
    DigitSpanOf(u, ">: " + c + "\n");
    assert t[..|u|] == u;
    var rest := t[|u| + 3..];
    assert rest == c + "\n";
    DigitSpanOf(c, "\n");
    assert rest[..|c|] == c;
    NatToStringRoundTrip(user);
    NatToStringRoundTrip(count);
  }
}
