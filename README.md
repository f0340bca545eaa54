# PrefixSuffixGame core in Dafny

This project models the shared game logic of PrefixSuffixGame, a party word
game. Players join a room, each submits a completion of a word stem, and
players whose submissions match earn points. The model covers two files.

- `shared/Game.ts`
  - `Player` is a mutable record. It becomes the class `Players.Player`, whose
    methods update its fields in place.
  - `Game` owns the ordered roster (`players`), the room name and the round
    counter. It becomes the class `Games.Game`.
  - `findIndex` and `splice` on the roster are pure functions over
    `seq<Player>` in module `Players`. `find` is `Games.Game.GetPlayer`,
    built on `Players.IndexOfName`.
  - The scoring rule of `scoreRound` is stated on values in module `Scoring`.
    The imperative `Game.ScoreRound` method is proved against it.
- `shared/util.ts`
  - `randomString` and `randomArrayObject` are in module `Util`.
  - Each `Math.random()` outcome is a parameter. A draw for `randomString` is
    the integer `floor(Math.random() * 256)`. The choice for
    `randomArrayObject` is the index `floor(Math.random() * arr.length)`.

Files: `wrappers.dfy` (Option and Result), `util.dfy`, `players.dfy`,
`scoring.dfy`, `games.dfy`.

The scoring rule: each player scores by how many OTHER players submitted
exactly the same string, the empty string included. One other gives 3
points, two or more others give 1, and none gives 0.
`Scoring.RoundDelta` defines this from a count of occurrences.
`Scoring.RoundDeltaBySharers` restates it with the set of sharing players.
`Scoring.GroupBonusIsDelta` proves that the source's group-size computation
gives the same result. `Games.Game.ScoreRound` proves that the method changes
each score by exactly that delta and changes nothing else.

Behaviour a reader might expect that the code does not have (the model
follows the code):
- Player names are compared exactly. Nothing is case-folded or trimmed, and
  nothing checks name length.
- Removing a player never moves the admin flag to another player.
- There is no skip marker and no `lastSubmission` record.
- `scoreRound` does not advance the round.
- A new game starts at round 0, not 1.
- Room names are drawn from upper case letters, lower case letters and digits,
  not from upper case letters and digits only.
- Removing a name that is not in the roster is not a no-op. `findIndex`
  returns -1, and `splice(-1, 1)` then removes the last player.
  `Players.RemoveAbsentDropsLast` states this.

## Model

| member | source | states |
|---|---|---|
| Util.CharIndex | shared/util.ts:10 | The index a draw picks, `draw % 62`, is always a valid position in the 62-character alphabet |
| Util.Code | shared/util.ts:5-10 | The string spelled by the first `n` draws has exactly `n` characters, and every one is in the alphabet |
| Util.RandomString | shared/util.ts:1-14 | Size 0 fails with the "Zero-length" error, and only size 0 fails. A negative size gives "" because the loop never runs. A positive size gives exactly `size` alphabet characters, the k-th chosen by the k-th draw |
| Util.RandomArrayObject | shared/util.ts:16-18 | A non-empty array yields one of its own elements. An empty array yields nothing (`undefined`) |
| Util.CodeMayBeLowerCase | shared/util.ts:5-7 | The alphabet contains lower case: draw 26 spells "a" |
| Players.Player.constructor | shared/Game.ts:3-12 | A new player has the given name, an empty submission, score 0, is not ready, and is admin exactly when created as the first player |
| Players.Player.ChangeSubmission | shared/Game.ts:14-16 | Sets the submission and may modify no other field |
| Players.Player.ClearSubmission | shared/Game.ts:18-20 | Empties the submission and may modify no other field |
| Players.Player.IncrementScore | shared/Game.ts:22-24 | The score grows by exactly `val`, and no other field may change |
| Players.Player.PlayerPublicInfo | shared/Game.ts:26-33 | The public view carries name, score, readiness and admin flag, but not the submission |
| Players.Player.ToggleReady | shared/Game.ts:35-37 | Readiness is negated and no other field may change, so two toggles restore it |
| Players.IndexOfName | shared/Game.ts:68 | `findIndex` by name returns the first position whose name equals the key exactly, or -1 exactly when no name matches |
| Players.SpliceOne | shared/Game.ts:69 | `splice(start, 1)`: a start inside the roster removes that entry and keeps the rest in order. A start of -1 removes the last entry. An empty roster stays empty |
| Players.RemoveByName | shared/Game.ts:67-70 | `findIndex` followed by `splice(index, 1)` takes exactly one player out of a non-empty roster, whether or not the name is present, and leaves an empty roster empty |
| Players.RemoveFirstMatch | shared/Game.ts:67-70 | With a present name, exactly the first player with that name is removed and the rest keep their order |
| Players.RemoveAbsentDropsLast | shared/Game.ts:67-70 | With an absent name, `findIndex` gives -1 and the last player is removed, or nothing when the roster is empty |
| Players.AppendIsFound | shared/Game.ts:63-65 | Appending a player adds one more player with its name, with no duplicate check, and the name is then found |
| Players.RemovePresentTakesOne | shared/Game.ts:67-70 | Removing a present name takes away one player of that name. The count of that name drops by one and the count of every other name is unchanged |
| Players.AddThenRemove | shared/Game.ts:63-70 | Appending a player under a name no one has, then removing that name, gives back the original roster |
| Scoring.Occurrences | shared/Game.ts:88-95 | The number of positions below `n` that submitted a word is at most `n` |
| Scoring.RoundDelta | shared/Game.ts:85-112 | A player's points for a round are between 0 and 3 |
| Scoring.IndicesOfSound | shared/Game.ts:88-95 | The group built for a word lists, in increasing order, positions below `n` whose submission is that word |
| Scoring.IndicesOfComplete | shared/Game.ts:88-95 | Every position that submitted a word is in that word's group |
| Scoring.GroupSizeIsOccurrences | shared/Game.ts:99 | A word's group size equals the word's number of occurrences |
| Scoring.GroupBonus | shared/Game.ts:99-106 | The increment is 3 exactly for a group of 2, 1 exactly for a group of 3 or more, and 0 exactly for a group of at most 1 |
| Scoring.GroupBonusIsDelta | shared/Game.ts:98-110 | The increment a player's group receives is exactly the player's round delta |
| Scoring.RoundDeltaBySharers | shared/Game.ts:98-110 | The delta is 3 iff exactly one other player shares the submission, 1 iff two or more share it, and 0 iff none does |
| Scoring.EarnedStep | shared/Game.ts:98-111 | Scoring one more word's group adds that group's increment to the group's members and changes no other player's points |
| Scoring.PairBeatsSingle | shared/Game.ts:85-112 | For submissions CAT, CAT, DOG, the matching pair earns 3 each and the odd one out earns 0 |
| Scoring.CrowdBesidePair | shared/Game.ts:85-112 | For x, x, x, y, y, the crowd of three earns 1 each while the pair still earns 3 each |
| Games.Game.constructor | shared/Game.ts:41-46 | A new game has an empty roster, round 0 and a room name of six random alphabet characters |
| Games.Game.NewGame | shared/Game.ts:48-53 | The round becomes 0 and every score becomes 0. The roster, its order and all other player fields are unchanged |
| Games.Game.PlayerExists | shared/Game.ts:55-57 | True iff some player's name equals the key exactly |
| Games.Game.GetPlayerData | shared/Game.ts:59-61 | One public view per player, with the same length and order as the roster |
| Games.Game.AddPlayer | shared/Game.ts:63-65 | The player is appended at the end and earlier entries stay unchanged and in order |
| Games.Game.RemovePlayer | shared/Game.ts:67-70 | The roster becomes the result of splicing out whatever `findIndex` returned, as described for RemoveByName |
| Games.Game.GetPlayer | shared/Game.ts:81-83 | The first player whose name equals the key, or nothing exactly when no name matches |
| Games.Game.ReadyPlayerToggle | shared/Game.ts:72-79 | Flips `ready` of the first player with the name and changes nothing else. An unknown name changes nothing |
| Games.Game.GroupBySubmission | shared/Game.ts:86-95 | Every player's submission is a key, and every key's group is non-empty, so the keys are exactly the submissions. Each key maps to exactly the increasing list of positions that submitted it |
| Games.Game.AddToScores | shared/Game.ts:107-109 | Each listed position's score grows by the increment. No other score and no other field changes |
| Games.Game.AwardGroup | shared/Game.ts:98-111 | Handling one word's group takes the scores from "groups in `done` scored" to "groups in `done` plus this word scored" |
| Games.Game.ScoreRound | shared/Game.ts:85-112 | Each player's score grows by its round delta, so no score decreases. Names, submissions, readiness, admin flags, roster order, room name and round are unchanged |

## Left out

- `server/index.ts` is not part of this model. It holds the Express and Socket.IO plumbing, the room registry and `getRandomWord`. It calls `Game` methods that `shared/Game.ts` does not define: `allPlayersReady`, `startWritingPhase`, `allWordsSubmitted`, `startIdlePhase` and `getGameData`.
- `server/readWords.ts` (file reading), `server/index.js`, `src/main.ts` and `src/util/Notifications.ts` are not part of this model. They are I/O, a server stub and browser code.
- `shared/types.ts` declares types only and has no behaviour.
- `Math.random` is replaced by draws passed as parameters. The floating-point product and `Math.floor` are not modelled. The model does not capture the uneven spread of `draw % 62` over the alphabet.
- Util.RandomString: takes `size` as an integer. A fractional JavaScript `size` (the loop would run `ceil(size)` times) is not modelled.
- Games.Game.AddPlayer: requires that the same `Player` object is not already in the roster. The source would push it a second time and alias two entries. Names may still repeat, as in the source.
- Games.Game.ScoreRound: the groups are handled in an unspecified order. JavaScript's `Object.values` order (integer-like keys first, then insertion order) is not modelled. The groups are disjoint, so the resulting scores are the same in any order.
- The submission map is an exact string-keyed map. In the source it is a plain JavaScript object, so for a submission such as "constructor", "toString" or "__proto__" the test `wordCount[word]` at shared/Game.ts:90 finds a truthy inherited value and `wordCount[word].push(i)` at shared/Game.ts:91 throws, because that value has no `push`. `scoreRound` then stops in its first loop, before any score changes. The model does not capture this exception: it scores such a submission like any other string.
- `console.warn` in `readyPlayerToggle` is output only and is left out.
- Scores are JavaScript numbers. The model uses unbounded integers, so floating-point rounding of very large scores is not modelled.
- A player's `name` is a constant. The source never reassigns it after construction.
