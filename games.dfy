/**
 * The `Game` class of shared/Game.ts: one room's ordered roster of players,
 * its room name and its round counter.
 */
module Games {
  import opened Wrappers
  import opened Util
  import opened Players
  import opened Scoring

  class Game {
    var players: seq<Player>
    var roomName: string
    var round: int

    /** No player object stands at two places in the roster. */
    ghost predicate Valid()
      reads this
    {
      Distinct(players)
    }

    /** Every player's fields, in roster order. */
    ghost function Roster(): seq<PlayerInfo>
      reads this, players
    {
      seq(|players|, i reads this, players requires 0 <= i < |players| => players[i].Info())
    }

    /** Every player's current submission, in roster order. */
    ghost function Submitted(): (s: seq<string>)
      reads this, players
      ensures |s| == |players| && forall i :: 0 <= i < |players| ==> s[i] == players[i].submission
    {
      seq(|players|, i reads this, players requires 0 <= i < |players| => players[i].submission)
    }

    /** A new game has no players, round 0 and a six-character random room name. */
    constructor (draws: seq<nat>)
      requires 6 <= |draws|
      ensures Valid() && players == [] && round == 0
      ensures roomName == Code(draws, 6) && |roomName| == 6
    {
      players := [];
      round := 0;
      var name := RandomString(6, draws);
      roomName := name.value;
    }

    /** `newGame`: round 0 and every score 0; nothing else changes. */
    method NewGame()
      requires Valid()
      modifies this`round, players
      ensures Valid() && players == old(players) && round == 0
      ensures forall i :: 0 <= i < |players| ==>
        players[i].Info() == old(players[i].Info()).(score := 0)
    {
      round := 0;
      var i := 0;
      while i < |players|
        invariant 0 <= i <= |players| && round == 0
        invariant forall j :: 0 <= j < |players| ==>
          players[j].Info() == old(players[j].Info()).(score := if j < i then 0 else old(players[j].score))
      {
        players[i].score := 0;
        i := i + 1;
      }
    }

    /** `playerExists`: some player's name equals `name` exactly. */
    function PlayerExists(name: string): (b: bool)
      reads this
      ensures b <==> exists j :: 0 <= j < |players| && players[j].name == name
    {
      IndexOfName(players, name) >= 0
    }

    /** `getPlayerData`: the public view of every player, in roster order. */
    function GetPlayerData(): (r: seq<PublicInfo>)
      reads this, players
      ensures |r| == |players|
      ensures forall i :: 0 <= i < |r| ==> r[i] == players[i].PlayerPublicInfo()
    {
      seq(|players|, i reads this, players requires 0 <= i < |players| => players[i].PlayerPublicInfo())
    }

    /** `addPlayer`: append at the end, whatever the name. */
    method AddPlayer(player: Player)
      requires Valid() && player !in players
      modifies this`players
      ensures Valid() && players == old(players) + [player]
    {
      players := players + [player];
    }

    /** `removePlayer`: splice out the index `findIndex` returns, -1 included. */
    method RemovePlayer(playerName: string)
      requires Valid()
      modifies this`players
      ensures Valid() && players == RemoveByName(old(players), playerName)
    {
      var index := IndexOfName(players, playerName);
      SpliceOneKeepsDistinct(players, index);
      players := SpliceOne(players, index);
    }

    /** `getPlayer`: the first player with exactly this name, if any. */
    function GetPlayer(playerName: string): (r: Option<Player>)
      reads this
      ensures r.None? <==> forall j :: 0 <= j < |players| ==> players[j].name != playerName
      ensures r.Some? ==> r.value.name == playerName
      ensures r.Some? ==> exists k :: 0 <= k < |players| && players[k] == r.value &&
                            (forall j :: 0 <= j < k ==> players[j].name != playerName)
    {
      var index := IndexOfName(players, playerName);
      if index >= 0 then Some(players[index]) else None
    }

    /**
     * `readyPlayerToggle`: flips `ready` of the first player with the name;
     * an unknown name changes nothing.
     */
    method ReadyPlayerToggle(playerName: string)
      requires Valid()
      modifies players
      ensures Valid() && players == old(players)
      ensures forall i :: 0 <= i < |players| ==>
        (players[i].Info() ==
           if i == IndexOfName(players, playerName)
           then old(players[i].Info()).(ready := !old(players[i].ready))
           else old(players[i].Info()))
    {
      var player := GetPlayer(playerName);
      if player.Some? {
        player.value.ToggleReady();
      }
    }

    /**
     * The first loop of `scoreRound`: each submission mapped to the positions
     * that submitted it, in increasing order. A key is created only with its
     * first position, so no group is empty.
     */
    method GroupBySubmission() returns (wordCount: map<string, seq<int>>)
      ensures forall w :: w in wordCount ==> wordCount[w] == IndicesOf(Submitted(), w, |players|)
      ensures forall w :: w in wordCount ==> wordCount[w] != []
      ensures forall j :: 0 <= j < |players| ==> players[j].submission in wordCount
    {
      ghost var subs := Submitted();
      wordCount := map[];
      var i := 0;
      while i < |players|
        invariant 0 <= i <= |players|
        invariant forall w :: w in wordCount ==> wordCount[w] == IndicesOf(subs, w, i)
        invariant forall w :: w in wordCount ==> wordCount[w] != []
        invariant forall w :: w !in wordCount ==> IndicesOf(subs, w, i) == []
        invariant forall j :: 0 <= j < i ==> subs[j] in wordCount
      {
        var word := players[i].submission;
        assert word == subs[i];
        if word in wordCount {
          wordCount := wordCount[word := wordCount[word] + [i]];
        } else {
          wordCount := wordCount[word := [i]];
        }
        i := i + 1;
      }
    }

    /** The innermost loop of `scoreRound`: add `inc` to the score at each listed position. */
    method AddToScores(playerIndices: seq<int>, inc: int)
      requires Valid()
      requires forall t :: 0 <= t < |playerIndices| ==> 0 <= playerIndices[t] < |players|
      requires forall t, u :: 0 <= t < u < |playerIndices| ==> playerIndices[t] < playerIndices[u]
      modifies players
      ensures forall p :: 0 <= p < |players| ==>
        players[p].Info() == old(players[p].Info()).(
          score := old(players[p].score) + if p in playerIndices then inc else 0)
    {
      var t := 0;
      while t < |playerIndices|
        invariant 0 <= t <= |playerIndices|
        invariant forall p :: 0 <= p < |players| ==>
          players[p].Info() == old(players[p].Info()).(
            score := old(players[p].score) + if p in playerIndices[..t] then inc else 0)
      {
        var q := playerIndices[t];
        assert q !in playerIndices[..t];
        assert playerIndices[..t + 1] == playerIndices[..t] + [q];
        players[q].score := players[q].score + inc;
        t := t + 1;
      }
      assert playerIndices[..t] == playerIndices;
    }

    /**
     * The body of the second loop of `scoreRound`, for the group of `word`:
     * if it has two or more members, each gets the group increment. This is
     * stated against the scores at the start of the round (`start`): before
     * the call the groups of the words in `done` are scored, after it those
     * of `done + {word}` are.
     */
    method AwardGroup(playerIndices: seq<int>, ghost start: seq<PlayerInfo>, ghost subs: seq<string>,
                      ghost done: set<string>, ghost word: string)
      requires Valid() && |start| == |subs| == |players| && word !in done
      requires playerIndices == IndicesOf(subs, word, |subs|)
      requires forall t :: 0 <= t < |playerIndices| ==> 0 <= playerIndices[t] < |players|
      requires forall t, u :: 0 <= t < u < |playerIndices| ==> playerIndices[t] < playerIndices[u]
      requires forall p :: 0 <= p < |players| ==>
        players[p].Info() == start[p].(score := start[p].score + Earned(subs, done, p))
      modifies players
      ensures forall p :: 0 <= p < |players| ==>
        players[p].Info() == start[p].(score := start[p].score + Earned(subs, done + {word}, p))
    {
      var count := |playerIndices|;
      if count > 1 {
        AddToScores(playerIndices, GroupBonus(count));
      }
      forall p | 0 <= p < |players|
        ensures players[p].Info() == start[p].(score := start[p].score + Earned(subs, done + {word}, p))
      {
        EarnedStep(subs, done, word, p);
      }
    }

    /**
     * `scoreRound`: group the roster positions by exact submission, then add
     * 3 to each member of a group of two and 1 to each member of a larger
     * group. Only scores change.
     */
    method ScoreRound()
      requires Valid()
      modifies players
      ensures Valid() && players == old(players)
      ensures round == old(round) && roomName == old(roomName)
      ensures forall p :: 0 <= p < |players| ==>
        players[p].Info() == old(players[p].Info()).(
          score := old(players[p].score) + RoundDelta(old(Submitted()), p))
    {
      ghost var subs := Submitted();
      ghost var start := Roster();
      var wordCount := GroupBySubmission();

      // Hand out the points group by group, in any order.
      var remaining := wordCount.Keys;
      ghost var done: set<string> := {};
      while remaining != {}
        invariant remaining <= wordCount.Keys && done == wordCount.Keys - remaining
        invariant forall p :: 0 <= p < |players| ==>
          players[p].Info() == start[p].(score := start[p].score + Earned(subs, done, p))
        decreases remaining
      {
        var word :| word in remaining;
        IndicesOfSound(subs, word, |subs|);
        AwardGroup(wordCount[word], start, subs, done, word);
        remaining := remaining - {word};
        done := done + {word};
      }
      assert forall p :: 0 <= p < |players| ==> subs[p] in done;
    }
  }
}
