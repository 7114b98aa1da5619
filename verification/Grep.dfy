/**
 The backtracking matcher of user/grep.c.

 A C string is the sequence of its characters before the terminator, so the
 test `*text == '\0'` is "no character left".  A pointer into the text is an
 index; a pointer into the pattern is the rest of the pattern.
 */
module Grep {

  /** One step of a pattern: a character, a starred character, or a final '$'. */
  datatype Item = One(c: char) | Star(c: char) | End

  /** What a pattern means, item by item: 'c*' binds tightest, and '$' anchors only at the very end. */
  function Parse(re: string): (items: seq<Item>)
  {
    if re == [] then []
    else if |re| >= 2 && re[1] == '*' then [Star(re[0])] + Parse(re[2..])
    else if re == "$" then [End]
    else [One(re[0])] + Parse(re[1..])
  }

  predicate Accepts(c: char, x: char) {
    c == '.' || c == x
  }

  /** The stretch text[lo..hi] belongs to the language of one item. */
  ghost predicate InLanguage(it: Item, text: string, lo: nat, hi: nat)
    requires lo <= hi <= |text|
  {
    match it
    case One(c) => hi == lo + 1 && Accepts(c, text[lo])
    case Star(c) => forall k :: lo <= k < hi ==> Accepts(c, text[k])
    case End => lo == hi == |text|
  }

  /** cuts splits a stretch of the text into one consecutive piece per item. */
  ghost predicate IsSplit(items: seq<Item>, text: string, cuts: seq<nat>)
  {
    && |cuts| == |items| + 1
    && (forall i :: 0 <= i < |cuts| ==> cuts[i] <= |text|)
    && (forall i :: 0 <= i < |items| ==> cuts[i] <= cuts[i+1] && InLanguage(items[i], text, cuts[i], cuts[i+1]))
  }

  /** Some stretch of the text that starts at lo is in the language of the items. */
  ghost predicate MatchesAt(items: seq<Item>, text: string, lo: nat)
  {
    exists cuts :: IsSplit(items, text, cuts) && cuts[0] == lo
  }

  lemma MatchesEmpty(text: string, lo: nat)
    requires lo <= |text|
    ensures MatchesAt([], text, lo)
  {
    assert IsSplit([], text, [lo]);
  }

  lemma MatchesCons(it: Item, rest: seq<Item>, text: string, lo: nat, mid: nat)
    requires lo <= mid <= |text| && InLanguage(it, text, lo, mid) && MatchesAt(rest, text, mid)
    ensures MatchesAt([it] + rest, text, lo)
  {
    var cuts :| IsSplit(rest, text, cuts) && cuts[0] == mid;
    var all := [lo] + cuts;
    forall i | 0 <= i < |[it] + rest|
      ensures all[i] <= all[i+1] && InLanguage(([it] + rest)[i], text, all[i], all[i+1])
    {
      if i > 0 {
        assert cuts[i-1] <= cuts[i];
      }
    }
    assert IsSplit([it] + rest, text, all);
  }

  lemma MatchesUncons(it: Item, rest: seq<Item>, text: string, lo: nat) returns (mid: nat)
    requires MatchesAt([it] + rest, text, lo)
    ensures lo <= mid <= |text| && InLanguage(it, text, lo, mid) && MatchesAt(rest, text, mid)
  {
    var items := [it] + rest;
    var cuts :| IsSplit(items, text, cuts) && cuts[0] == lo;
    mid := cuts[1];
    assert items[0] == it;
    forall i | 0 <= i < |rest|
      ensures cuts[1..][i] <= cuts[1..][i+1] && InLanguage(rest[i], text, cuts[1..][i], cuts[1..][i+1])
    {
      assert items[i+1] == rest[i];
    }
    assert IsSplit(rest, text, cuts[1..]);
  }

  /** matchhere decides whether the pattern matches a stretch starting exactly at pos. */
  method MatchHere(re: string, text: string, pos: nat) returns (found: bool)
    requires pos <= |text|
    ensures found <==> MatchesAt(Parse(re), text, pos)
    decreases |re|, 1, |text| - pos
  {
    if re == [] {
      MatchesEmpty(text, pos);
      return true;
    }
    if |re| >= 2 && re[1] == '*' {
      found := MatchStar(re[0], re[2..], text, pos);
      return;
    }
    if re == "$" {
      if pos == |text| {
        MatchesEmpty(text, pos);
        MatchesCons(End, [], text, pos, pos);
      } else if MatchesAt([End] + [], text, pos) {
        var mid := MatchesUncons(End, [], text, pos);
      }
      return pos == |text|;
    }
    var rest := Parse(re[1..]);
    if pos < |text| && (re[0] == '.' || re[0] == text[pos]) {
      found := MatchHere(re[1..], text, pos + 1);
      if found {
        MatchesCons(One(re[0]), rest, text, pos, pos + 1);
      } else if MatchesAt([One(re[0])] + rest, text, pos) {
        var mid := MatchesUncons(One(re[0]), rest, text, pos);
      }
      return;
    }
    if MatchesAt([One(re[0])] + rest, text, pos) {
      var mid := MatchesUncons(One(re[0]), rest, text, pos);
    }
    return false;
  }

  /** matchstar decides whether c*re matches a stretch starting at pos; it tries the shortest run of c first. */
  method MatchStar(c: char, re: string, text: string, pos: nat) returns (found: bool)
    requires pos <= |text|
    ensures found <==> MatchesAt([Star(c)] + Parse(re), text, pos)
    decreases |re| + 1, 0
  {
    var p := pos;
    while true
      invariant pos <= p <= |text|
      invariant forall k :: pos <= k < p ==> Accepts(c, text[k])
      invariant forall q :: pos <= q < p ==> !MatchesAt(Parse(re), text, q)
      decreases |text| - p
    {
      var here := MatchHere(re, text, p);
      if here {
        MatchesCons(Star(c), Parse(re), text, pos, p);
        return true;
      }
      if p == |text| || !(text[p] == c || c == '.') {
        break;
      }
      p := p + 1;
    }
    if MatchesAt([Star(c)] + Parse(re), text, pos) {
      var mid := MatchesUncons(Star(c), Parse(re), text, pos);
    }
    return false;
  }

  /** The meaning of a whole pattern: anchored by a leading '^', otherwise free to start anywhere. */
  ghost predicate PatternMatches(re: string, text: string)
  {
    if re != [] && re[0] == '^' then MatchesAt(Parse(re[1..]), text, 0)
    else exists lo :: 0 <= lo <= |text| && MatchesAt(Parse(re), text, lo)
  }

  /** match is sound, complete and terminating for every pattern and every text. */
  method Match(re: string, text: string) returns (found: bool)
    ensures found <==> PatternMatches(re, text)
  {
    if re != [] && re[0] == '^' {
      found := MatchHere(re[1..], text, 0);
      return;
    }
    var p := 0;
    while true
      invariant 0 <= p <= |text|
      invariant forall q :: 0 <= q < p ==> !MatchesAt(Parse(re), text, q)
      decreases |text| - p
    {
      var here := MatchHere(re, text, p);
      if here {
        return true;
      }
      if p == |text| {
        break;
      }
      p := p + 1;
    }
    return false;
  }
}
