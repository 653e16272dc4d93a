/**
 * data/scores.js: `ChannelScores`, the per-channel ledger of channel wins,
 * games played and the scoreboard, kept sorted by wins.
 */
module Scores {
  import opened Scoreboard

  /** The object `getScoresJSON` builds and `setScoresJSON` takes. */
  datatype ScoresJson = ScoresJson(id: string, wins: int, total: int, scoreboard: seq<Entry>)

  class ChannelScores {
    var id: string
    var wins: int
    var total: int
    var scoreboard: seq<Entry>

    /**
     * The ledger's invariant: the channel never wins more games than it played,
     * each player has one entry, the entries' wins add up to the channel's wins
     * and the board is sorted by wins.
     */
    ghost predicate Consistent()
      reads this
    {
      && 0 <= wins <= total
      && UniqueIds(scoreboard)
      && SumWins(scoreboard) == wins
      && SortedDesc(scoreboard)
    }

    constructor(userId: string)
      ensures id == userId && wins == 0 && total == 0 && scoreboard == []
      ensures Consistent()
    {
      id := userId;
      wins := 0;
      total := 0;
      scoreboard := [];
    }

    function GetScoresJSON(): (j: ScoresJson)
      reads this
      ensures j.id == id && j.wins == wins && j.total == total && j.scoreboard == scoreboard
    {
      ScoresJson(id, wins, total, scoreboard)
    }

    /** Afterwards the ledger reads back exactly `j`, so setting what was read changes nothing. */
    method SetScoresJSON(j: ScoresJson)
      modifies this
      ensures GetScoresJSON() == j
    {
      id := j.id;
      wins := j.wins;
      total := j.total;
      scoreboard := j.scoreboard;
    }

    /** One more win for the player with `userId`, under the name `user`, then the board is sorted. */
    method AddToScoreBoard(user: string, userId: string)
      modifies this`scoreboard
      ensures scoreboard == SortDesc(Upsert(old(scoreboard), user, userId))
      ensures SortedDesc(scoreboard)
      ensures SumWins(scoreboard) == SumWins(old(scoreboard)) + 1
      ensures UniqueIds(old(scoreboard)) ==> UniqueIds(scoreboard)
      ensures HasId(scoreboard, userId)
    {
      UpsertThenSort(scoreboard, user, userId);
      scoreboard := SortDesc(Upsert(scoreboard, user, userId));
    }

    /**
     * A won game: one more channel win, one more game played and one more win for the player.
     * Any ledger is accepted (a loaded one may be inconsistent); a consistent one stays so.
     */
    method AddWin(name: string, userId: string)
      modifies this`wins, this`total, this`scoreboard
      ensures wins == old(wins) + 1 && total == old(total) + 1
      ensures scoreboard == SortDesc(Upsert(old(scoreboard), name, userId))
      ensures old(Consistent()) ==> Consistent()
    {
      wins := wins + 1;
      total := total + 1;
      AddToScoreBoard(name, userId);
    }

    /** A lost or ended game: one more game played; a consistent ledger stays so. */
    method AddTotal()
      modifies this`total
      ensures total == old(total) + 1
      ensures old(Consistent()) ==> Consistent()
    {
      total := total + 1;
    }

    /** `scoreboard.sort((a, b) => b.wins - a.wins)`, in place; a sorted board is left as it is. */
    method SortBoard()
      modifies this`scoreboard
      ensures scoreboard == SortDesc(old(scoreboard))
      ensures SortedDesc(scoreboard)
      ensures SortedDesc(old(scoreboard)) ==> scoreboard == old(scoreboard)
    {
      ghost var wasSorted := SortedDesc(scoreboard);
      if wasSorted {
        SortDescOfSorted(scoreboard);
      }
      SortDescSorted(scoreboard);
      scoreboard := SortDesc(scoreboard);
    }

    /**
     * Sorts the board, then reports the player's wins and place; on a
     * consistent ledger the sort changes nothing.
     */
    method GetWinsAndPlaceById(userId: string) returns (userWins: int, place: int)
      modifies this`scoreboard
      ensures scoreboard == SortDesc(old(scoreboard))
      ensures (userWins, place) == WinsAndPlace(scoreboard, userId)
      ensures SortedDesc(old(scoreboard)) ==> scoreboard == old(scoreboard)
    {
      SortBoard();
      var k := IndexOfId(scoreboard, userId);
      if k < |scoreboard| {
        userWins := scoreboard[k].wins;
        place := IndexOfWins(scoreboard, userWins) + 1;
      } else {
        userWins, place := 0, -1;
      }
    }

    /** Sorts the board, then renders its first ten entries. */
    method GetTopTen() returns (text: string)
      modifies this`scoreboard
      ensures scoreboard == SortDesc(old(scoreboard))
      ensures text == TopTen(scoreboard)
      ensures SortedDesc(old(scoreboard)) ==> scoreboard == old(scoreboard)
    {
      SortBoard();
      text := TopTen(scoreboard);
    }

    /** The channel's wins and games played; a consistent ledger never reports more wins than games. */
    function GetChannelWins(): (r: (int, int))
      reads this
      ensures Consistent() ==> 0 <= r.0 <= r.1
      ensures r.0 == wins && r.1 == total
    {
      (wins, total)
    }
  }
}
