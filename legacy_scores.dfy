/**
 * data/model/scores.js: the older `ChannelScores`, whose `addToScoreBoard`
 * updates or appends an entry and never sorts.
 */
module LegacyScores {
  import opened Scoreboard

  datatype ScoresJson = ScoresJson(id: string, wins: int, total: int, scoreboard: seq<Entry>)

  class ChannelScores {
    var id: string
    var wins: int
    var total: int
    var scoreboard: seq<Entry>

    /** As for the newer ledger, without the order of the board. */
    ghost predicate Consistent()
      reads this
    {
      && 0 <= wins <= total
      && UniqueIds(scoreboard)
      && SumWins(scoreboard) == wins
    }

    constructor(userId: string)
      ensures id == userId && wins == 0 && total == 0 && scoreboard == []
      ensures Consistent()
    {
      id := userId;
      wins := 0;
      total := 0;
      scoreboard := [];
    }

    function GetScoresJSON(): (j: ScoresJson)
      reads this
      ensures j.id == id && j.wins == wins && j.total == total && j.scoreboard == scoreboard
    {
      ScoresJson(id, wins, total, scoreboard)
    }

    /** Afterwards the ledger reads back exactly `j`, so setting what was read changes nothing. */
    method SetScoresJSON(j: ScoresJson)
      modifies this
      ensures GetScoresJSON() == j
    {
      id := j.id;
      wins := j.wins;
      total := j.total;
      scoreboard := j.scoreboard;
    }

    /**
     * One more win for the player: a known id keeps the list's length and
     * order, an unknown id is appended with one win.
     */
    method AddToScoreBoard(user: string, userId: string)
      modifies this`scoreboard
      ensures scoreboard == Upsert(old(scoreboard), user, userId)
      ensures HasId(old(scoreboard), userId) ==> |scoreboard| == |old(scoreboard)|
      ensures !HasId(old(scoreboard), userId) ==> scoreboard == old(scoreboard) + [Entry(userId, user, 1)]
      ensures SumWins(scoreboard) == SumWins(old(scoreboard)) + 1
      ensures UniqueIds(old(scoreboard)) ==> UniqueIds(scoreboard)
    {
      UpsertAddsOneWin(scoreboard, user, userId);
      if UniqueIds(scoreboard) {
        UpsertKeepsIdsUnique(scoreboard, user, userId);
      }
      var k := IndexOfId(scoreboard, userId);
      if k < |scoreboard| {
        UpsertExisting(scoreboard, user, userId);
        scoreboard := scoreboard[k := Entry(userId, user, scoreboard[k].wins + 1)];
      } else {
        scoreboard := scoreboard + [Entry(userId, user, 1)];
      }
    }

    /**
     * A won game: one more channel win, one more game played and one more win for the player.
     * Any ledger is accepted (a loaded one may be inconsistent); a consistent one stays so.
     */
    method AddWin(name: string, userId: string)
      modifies this`wins, this`total, this`scoreboard
      ensures wins == old(wins) + 1 && total == old(total) + 1
      ensures scoreboard == Upsert(old(scoreboard), name, userId)
      ensures old(Consistent()) ==> Consistent()
    {
      wins := wins + 1;
      total := total + 1;
      AddToScoreBoard(name, userId);
    }

    /** A lost or ended game: one more game played; a consistent ledger stays so. */
    method AddTotal()
      modifies this`total
      ensures total == old(total) + 1
      ensures old(Consistent()) ==> Consistent()
    {
      total := total + 1;
    }
  }
}
