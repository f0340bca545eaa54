/**
 * The scoring rule of `scoreRound` (shared/Game.ts), stated on values.
 *
 * A player's points for a round depend only on how many OTHER players
 * submitted exactly the same string (the empty string included): one other
 * gives 3, two or more others give 1, none gives 0.
 */
module Scoring {
  /** How many of the positions below `n` submitted `w`. */
  function Occurrences(subs: seq<string>, w: string, n: int): (c: nat)
    requires 0 <= n <= |subs|
    ensures c <= n
  {
    if n == 0 then 0 else Occurrences(subs, w, n - 1) + (if subs[n - 1] == w then 1 else 0)
  }

  /** The points the player at `i` earns this round. */
  function RoundDelta(subs: seq<string>, i: int): (d: int)
    requires 0 <= i < |subs|
    ensures 0 <= d <= 3
  {
    var others := Occurrences(subs, subs[i], |subs|) - 1;
    if others == 1 then 3 else if others >= 2 then 1 else 0
  }

  /**
   * The group `scoreRound` builds for a word: the positions below `n` that
   * submitted it, in increasing order.
   */
  function IndicesOf(subs: seq<string>, w: string, n: int): seq<int>
    requires 0 <= n <= |subs|
  {
    if n == 0 then [] else IndicesOf(subs, w, n - 1) + (if subs[n - 1] == w then [n - 1] else [])
  }

  /** The group of a word lists positions that submitted it, below `n`, increasing. */
  lemma {:induction false} IndicesOfSound(subs: seq<string>, w: string, n: int)
    requires 0 <= n <= |subs|
    ensures forall t :: 0 <= t < |IndicesOf(subs, w, n)| ==>
      0 <= IndicesOf(subs, w, n)[t] < n && subs[IndicesOf(subs, w, n)[t]] == w
    ensures forall t, u :: 0 <= t < u < |IndicesOf(subs, w, n)| ==>
      IndicesOf(subs, w, n)[t] < IndicesOf(subs, w, n)[u]
  {
    if n > 0 {
      IndicesOfSound(subs, w, n - 1);
    }
  }

  /** The group of a word holds every position that submitted it. */
  lemma {:induction false} IndicesOfComplete(subs: seq<string>, w: string, n: int, j: int)
    requires 0 <= j < n <= |subs| && subs[j] == w
    ensures j in IndicesOf(subs, w, n)
  {
    if j < n - 1 {
      IndicesOfComplete(subs, w, n - 1, j);
    }
  }

  /** The group of a word has as many members as the word has occurrences. */
  lemma {:induction false} GroupSizeIsOccurrences(subs: seq<string>, w: string, n: int)
    requires 0 <= n <= |subs|
    ensures |IndicesOf(subs, w, n)| == Occurrences(subs, w, n)
  {
    if n > 0 {
      GroupSizeIsOccurrences(subs, w, n - 1);
    }
  }

  /**
   * The increment each member of a group of `count` players receives in
   * `scoreRound`; groups of one (or none) receive nothing.
   */
  function GroupBonus(count: int): (inc: int)
    ensures inc == 3 <==> count == 2
    ensures inc == 1 <==> count >= 3
    ensures inc == 0 <==> count <= 1
  {
    if count == 2 then 3 else if count > 2 then 1 else 0
  }

  /** The group increment a player's group gets is exactly the player's delta. */
  lemma GroupBonusIsDelta(subs: seq<string>, i: int)
    requires 0 <= i < |subs|
    ensures GroupBonus(|IndicesOf(subs, subs[i], |subs|)|) == RoundDelta(subs, i)
  {
    GroupSizeIsOccurrences(subs, subs[i], |subs|);
  }

  /** The other positions whose submission equals the one at `i`. */
  function Sharers(subs: seq<string>, i: int): set<int>
    requires 0 <= i < |subs|
  {
    set j | 0 <= j < |subs| && j != i && subs[j] == subs[i]
  }

  /** The positions below `n` that submitted `w`, as a set. */
  function MatchSet(subs: seq<string>, w: string, n: int): set<int>
    requires 0 <= n <= |subs|
  {
    set j | 0 <= j < n && subs[j] == w
  }

  lemma {:induction false} OccurrencesCountMatches(subs: seq<string>, w: string, n: int)
    requires 0 <= n <= |subs|
    ensures |MatchSet(subs, w, n)| == Occurrences(subs, w, n)
  {
    if n == 0 {
      assert MatchSet(subs, w, n) == {};
    } else {
      OccurrencesCountMatches(subs, w, n - 1);
      var before := MatchSet(subs, w, n - 1);
      assert n - 1 !in before;
      if subs[n - 1] == w {
        assert MatchSet(subs, w, n) == before + {n - 1};
      } else {
        assert MatchSet(subs, w, n) == before;
      }
    }
  }

  /**
   * The scoring rule in terms of the other players who share a submission:
   * exactly one other gives 3, two or more give 1, none gives 0.
   */
  lemma RoundDeltaBySharers(subs: seq<string>, i: int)
    requires 0 <= i < |subs|
    ensures Occurrences(subs, subs[i], |subs|) == |Sharers(subs, i)| + 1
    ensures RoundDelta(subs, i) == 3 <==> |Sharers(subs, i)| == 1
    ensures RoundDelta(subs, i) == 1 <==> |Sharers(subs, i)| >= 2
    ensures RoundDelta(subs, i) == 0 <==> Sharers(subs, i) == {}
  {
    OccurrencesCountMatches(subs, subs[i], |subs|);
    assert MatchSet(subs, subs[i], |subs|) == Sharers(subs, i) + {i};
  }

  /** The points the player at `p` has received once the groups of the words in `done` are scored. */
  ghost function Earned(subs: seq<string>, done: set<string>, p: int): int
    requires 0 <= p < |subs|
  {
    if subs[p] in done then RoundDelta(subs, p) else 0
  }

  /** Scoring the group of one more word adds the group's increment to its members only. */
  lemma EarnedStep(subs: seq<string>, done: set<string>, word: string, p: int)
    requires 0 <= p < |subs| && word !in done
    ensures var group := IndicesOf(subs, word, |subs|);
      Earned(subs, done + {word}, p) == Earned(subs, done, p)
        + if p in group then GroupBonus(|group|) else 0
  {
    if subs[p] == word {
      IndicesOfComplete(subs, word, |subs|, p);
      GroupBonusIsDelta(subs, p);
    } else {
      IndicesOfSound(subs, word, |subs|);
    }
  }

  /** A pair of equal words earns 3 each; the odd one out earns nothing. */
  lemma PairBeatsSingle()
    ensures var subs := ["CAT", "CAT", "DOG"];
      RoundDelta(subs, 0) == 3 && RoundDelta(subs, 1) == 3 && RoundDelta(subs, 2) == 0
  {
    var subs := ["CAT", "CAT", "DOG"];
    assert Occurrences(subs, "CAT", 3) == 2 by {
      assert Occurrences(subs, "CAT", 1) == 1;
    }
    assert Occurrences(subs, "DOG", 3) == 1 by {
      assert Occurrences(subs, "DOG", 1) == 0;
    }
  }

  /** Three or more equal words earn 1 each, while a pair beside them still earns 3. */
  lemma CrowdBesidePair()
    ensures var subs := ["x", "x", "x", "y", "y"];
      (forall i :: 0 <= i < 3 ==> RoundDelta(subs, i) == 1)
      && RoundDelta(subs, 3) == 3 && RoundDelta(subs, 4) == 3
  {
    var subs := ["x", "x", "x", "y", "y"];
    assert Occurrences(subs, "x", 5) == 3 by {
      assert Occurrences(subs, "x", 1) == 1;
      assert Occurrences(subs, "x", 3) == 3;
    }
    assert Occurrences(subs, "y", 5) == 2 by {
      assert Occurrences(subs, "y", 1) == 0;
      assert Occurrences(subs, "y", 3) == 0;
    }
  }
}
