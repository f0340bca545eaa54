/**
 * The `Player` record of shared/Game.ts and the name lookups the game runs
 * over its ordered roster (`findIndex`, `find`, `splice`).
 *
 * A player's name is set by the constructor and never reassigned, so it is a
 * `const`: lookups by name read no mutable state.
 */
module Players {
  import opened Wrappers

  /** Every field of a player at one moment, used to state what changes. */
  datatype PlayerInfo = PlayerInfo(
    name: string, submission: string, score: int, ready: bool, isAdmin: bool)

  /** The fields of a player that are broadcast to the clients. */
  datatype PublicInfo = PublicInfo(name: string, score: int, ready: bool, isAdmin: bool)

  class Player {
    const name: string
    var submission: string
    var score: int
    var ready: bool
    var isAdmin: bool

    /** A new player has submitted nothing, scored nothing and is not ready. */
    constructor (name: string, isFirstPlayer: bool := false)
      ensures Info() == PlayerInfo(name, "", 0, false, isFirstPlayer)
    {
      this.name := name;
      submission := "";
      score := 0;
      ready := false;
      isAdmin := isFirstPlayer;
    }

    function Info(): PlayerInfo
      reads this
    {
      PlayerInfo(name, submission, score, ready, isAdmin)
    }

    method ChangeSubmission(newVal: string)
      modifies this`submission
      ensures submission == newVal
    {
      submission := newVal;
    }

    method ClearSubmission()
      modifies this`submission
      ensures submission == ""
    {
      submission := "";
    }

    method IncrementScore(val: int)
      modifies this`score
      ensures score == old(score) + val
    {
      score := score + val;
    }

    /** The public view carries every field but the submission. */
    function PlayerPublicInfo(): (r: PublicInfo)
      reads this
      ensures r.name == name && r.score == score && r.ready == ready && r.isAdmin == isAdmin
    {
      PublicInfo(name, score, ready, isAdmin)
    }

    method ToggleReady()
      modifies this`ready
      ensures ready == !old(ready)
    {
      ready := !ready;
    }
  }

  /** `findIndex` on the name: the first exact match, or -1 when there is none. */
  function IndexOfName(ps: seq<Player>, name: string): (r: int)
    ensures -1 <= r < |ps|
    ensures r >= 0 ==> ps[r].name == name && forall j :: 0 <= j < r ==> ps[j].name != name
    ensures r == -1 <==> forall j :: 0 <= j < |ps| ==> ps[j].name != name
  {
    if |ps| == 0 then -1
    else if ps[0].name == name then 0
    else
      var t := IndexOfName(ps[1..], name);
      if t < 0 then -1 else t + 1
  }

  /**
   * `splice(start, 1)` for a start that `findIndex` can return: a start of -1
   * counts from the end and removes the last element, if there is one.
   */
  function SpliceOne<T>(s: seq<T>, start: int): (r: seq<T>)
    requires -1 <= start < |s|
    ensures 0 <= start ==> |r| == |s| - 1 && r == s[..start] + s[start + 1..]
    ensures start == -1 && s != [] ==> r == s[..|s| - 1]
    ensures start == -1 && s == [] ==> r == []
  {
    var k := if start < 0 then (if |s| + start < 0 then 0 else |s| + start) else start;
    if k < |s| then s[..k] + s[k + 1..] else s
  }

  /**
   * `removePlayer`: splice out whatever `findIndex` found. A non-empty roster
   * always loses exactly one player, whether or not the name is present.
   */
  function RemoveByName(ps: seq<Player>, name: string): (r: seq<Player>)
    ensures ps != [] ==> |r| == |ps| - 1
    ensures ps == [] ==> r == []
  {
    SpliceOne(ps, IndexOfName(ps, name))
  }

  /** With a present name, exactly its first match is removed; the rest keep their order. */
  lemma RemoveFirstMatch(ps: seq<Player>, name: string, k: int)
    requires 0 <= k < |ps| && ps[k].name == name
    requires forall j :: 0 <= j < k ==> ps[j].name != name
    ensures RemoveByName(ps, name) == ps[..k] + ps[k + 1..]
  {
    assert IndexOfName(ps, name) == k;
  }

  /** With an absent name, `findIndex` gives -1 and the last player is removed. */
  lemma RemoveAbsentDropsLast(ps: seq<Player>, name: string)
    requires forall j :: 0 <= j < |ps| ==> ps[j].name != name
    ensures RemoveByName(ps, name) == if ps == [] then [] else ps[..|ps| - 1]
  {
    assert IndexOfName(ps, name) == -1;
  }

  /** No object stands at two places in `s`. */
  ghost predicate Distinct<T>(s: seq<T>)
  {
    forall i, j :: 0 <= i < j < |s| ==> s[i] != s[j]
  }

  /** Splicing one element out of a sequence without repeats leaves none. */
  lemma SpliceOneKeepsDistinct<T>(s: seq<T>, start: int)
    requires -1 <= start < |s| && Distinct(s)
    ensures Distinct(SpliceOne(s, start))
  {
  }

  /** How many players carry the name. */
  function CountNamed(ps: seq<Player>, name: string): (c: nat)
    ensures c <= |ps|
    ensures c == 0 <==> forall j :: 0 <= j < |ps| ==> ps[j].name != name
  {
    if ps == [] then 0
    else CountNamed(ps[1..], name) + (if ps[0].name == name then 1 else 0)
  }

  lemma {:induction false} CountNamedAppend(a: seq<Player>, b: seq<Player>, name: string)
    ensures CountNamed(a + b, name) == CountNamed(a, name) + CountNamed(b, name)
  {
    if a == [] {
      assert a + b == b;
    } else {
      assert (a + b)[1..] == a[1..] + b;
      CountNamedAppend(a[1..], b, name);
    }
  }

  /** Appending adds one player and no check on its name is made. */
  lemma AppendIsFound(ps: seq<Player>, p: Player)
    ensures CountNamed(ps + [p], p.name) == CountNamed(ps, p.name) + 1
    ensures IndexOfName(ps + [p], p.name) >= 0
  {
    CountNamedAppend(ps, [p], p.name);
    assert CountNamed([p], p.name) == 1 by {
      assert [p][1..] == [];
    }
  }

  /** Removing a present name takes away exactly one player of that name. */
  lemma RemovePresentTakesOne(ps: seq<Player>, name: string)
    requires exists j :: 0 <= j < |ps| && ps[j].name == name
    ensures CountNamed(RemoveByName(ps, name), name) == CountNamed(ps, name) - 1
    ensures forall other :: other != name ==>
      CountNamed(RemoveByName(ps, name), other) == CountNamed(ps, other)
  {
    var k := IndexOfName(ps, name);
    RemoveFirstMatch(ps, name, k);
    assert ps == ps[..k] + [ps[k]] + ps[k + 1..];
    forall n
      ensures CountNamed(ps, n) ==
        CountNamed(ps[..k], n) + CountNamed([ps[k]], n) + CountNamed(ps[k + 1..], n)
      ensures CountNamed(RemoveByName(ps, name), n) ==
        CountNamed(ps[..k], n) + CountNamed(ps[k + 1..], n)
    {
      CountNamedAppend(ps[..k] + [ps[k]], ps[k + 1..], n);
      CountNamedAppend(ps[..k], [ps[k]], n);
      CountNamedAppend(ps[..k], ps[k + 1..], n);
      assert [ps[k]][1..] == [];
    }
  }

  /** Adding a player under a fresh name and removing that name restores the roster. */
  lemma AddThenRemove(ps: seq<Player>, p: Player)
    requires forall j :: 0 <= j < |ps| ==> ps[j].name != p.name
    ensures RemoveByName(ps + [p], p.name) == ps
  {
    var qs := ps + [p];
    var k := IndexOfName(qs, p.name);
    assert qs[|ps|].name == p.name;
    assert k == |ps|;
    RemoveFirstMatch(qs, p.name, k);
    assert qs[..k] == ps;
  }
}
