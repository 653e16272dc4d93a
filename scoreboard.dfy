/**
 * The scoreboard list shared by data/scores.js and data/model/scores.js: a
 * list of `{id, user, wins}` entries, the upsert by id that `addToScoreBoard`
 * performs, the stable descending sort `sort((a, b) => b.wins - a.wins)`, the
 * rank lookup of `getWinsAndPlaceById` and the text of `getTopTen`.
 */
module Scoreboard {
  import opened JsString
  import opened Decimal
  import opened Wrappers

  /** One scoreboard entry: a Twitch user id, the display name and the number of wins. */
  datatype Entry = Entry(id: string, user: string, wins: int)

  /** The first index whose entry has this id, or the length when there is none (`filter(e => e.id === id)[0]`). */
  function IndexOfId(board: seq<Entry>, id: string): (k: nat)
    ensures k <= |board|
    ensures k < |board| ==> board[k].id == id
    ensures forall j :: 0 <= j < k ==> board[j].id != id
  {
    if |board| == 0 then 0
    else if board[0].id == id then 0
    else 1 + IndexOfId(board[1..], id)
  }

  /** The first index whose entry has this many wins, or the length (`findIndex(e => e.wins === w)`). */
  function IndexOfWins(board: seq<Entry>, w: int): (k: nat)
    ensures k <= |board|
    ensures k < |board| ==> board[k].wins == w
    ensures forall j :: 0 <= j < k ==> board[j].wins != w
  {
    if |board| == 0 then 0
    else if board[0].wins == w then 0
    else 1 + IndexOfWins(board[1..], w)
  }

  predicate HasId(board: seq<Entry>, id: string)
  {
    exists i :: 0 <= i < |board| && board[i].id == id
  }

  /** No two entries share an id. */
  predicate UniqueIds(board: seq<Entry>)
  {
    forall i, j :: 0 <= i < j < |board| ==> board[i].id != board[j].id
  }

  /** Wins never increase along the list. */
  predicate SortedDesc(board: seq<Entry>)
  {
    forall i, j :: 0 <= i < j < |board| ==> board[i].wins >= board[j].wins
  }

  function SumWins(board: seq<Entry>): int
  {
    if |board| == 0 then 0 else board[0].wins + SumWins(board[1..])
  }

  /**
   * `addToScoreBoard` before its sort: the first entry with the id gets the new
   * name and one more win; without one, a new entry with one win is pushed.
   */
  function Upsert(board: seq<Entry>, user: string, id: string): (r: seq<Entry>)
    ensures HasId(r, id)
    ensures |r| == if HasId(board, id) then |board| else |board| + 1
    ensures forall j :: 0 <= j < |board| && board[j].id != id ==> r[j] == board[j]
  {
    var k := IndexOfId(board, id);
    if k < |board| then
      var r := board[k := Entry(id, user, board[k].wins + 1)];
      assert r[k].id == id;
      r
    else
      var r := board + [Entry(id, user, 1)];
      assert r[|board|].id == id;
      r
  }

  /** A known id: the same entries in the same order, the first one with that id renamed and one win up. */
  lemma UpsertExisting(board: seq<Entry>, user: string, id: string)
    requires HasId(board, id)
    ensures var r := Upsert(board, user, id);
      var k := IndexOfId(board, id);
      && |r| == |board|
      && board[k].id == id && r[k] == Entry(id, user, board[k].wins + 1)
      && (forall j :: 0 <= j < |board| && j != k ==> r[j] == board[j])
  {
  }

  /** An unknown id: exactly one entry `{id, user, 1}` is added at the end, the others keep their order. */
  lemma UpsertNew(board: seq<Entry>, user: string, id: string)
    requires !HasId(board, id)
    ensures Upsert(board, user, id) == board + [Entry(id, user, 1)]
  {
  }

  lemma {:induction false} SumWinsAppend(board: seq<Entry>, e: Entry)
    ensures SumWins(board + [e]) == SumWins(board) + e.wins
  {
    if |board| > 0 {
      assert (board + [e])[1..] == board[1..] + [e];
      SumWinsAppend(board[1..], e);
    }
  }

  lemma {:induction false} SumWinsUpdate(board: seq<Entry>, k: nat, e: Entry)
    requires k < |board|
    ensures SumWins(board[k := e]) == SumWins(board) - board[k].wins + e.wins
  {
    if k > 0 {
      assert board[k := e][1..] == board[1..][k - 1 := e];
      SumWinsUpdate(board[1..], k - 1, e);
    }
  }

  /** An upsert adds exactly one win to the board. */
  lemma {:induction false} UpsertAddsOneWin(board: seq<Entry>, user: string, id: string)
    ensures SumWins(Upsert(board, user, id)) == SumWins(board) + 1
  {
    var k := IndexOfId(board, id);
    if k < |board| {
      SumWinsUpdate(board, k, Entry(id, user, board[k].wins + 1));
    } else {
      SumWinsAppend(board, Entry(id, user, 1));
    }
  }

  /** An upsert keeps ids unique, and afterwards the id is on the board. */
  lemma UpsertKeepsIdsUnique(board: seq<Entry>, user: string, id: string)
    requires UniqueIds(board)
    ensures UniqueIds(Upsert(board, user, id))
    ensures HasId(Upsert(board, user, id), id)
  {
    var k := IndexOfId(board, id);
    var r := Upsert(board, user, id);
    assert r[k].id == id;
  }

  /** Places `e` before the first entry with no more wins than it, so it goes ahead of its ties. */
  function InsertDesc(e: Entry, board: seq<Entry>): (r: seq<Entry>)
    ensures multiset(r) == multiset(board) + multiset{e}
  {
    if |board| == 0 then [e]
    else if e.wins >= board[0].wins then [e] + board
    else
      assert board == [board[0]] + board[1..];
      [board[0]] + InsertDesc(e, board[1..])
  }

  /**
   * The in-place `sort((a, b) => b.wins - a.wins)`: an insertion sort that,
   * like the stable JavaScript sort, keeps entries with equal wins in their
   * original order.
   */
  function SortDesc(board: seq<Entry>): (r: seq<Entry>)
    ensures multiset(r) == multiset(board)
  {
    if |board| == 0 then []
    else
      assert board == [board[0]] + board[1..];
      InsertDesc(board[0], SortDesc(board[1..]))
  }

  /** Every entry of `tail` has at most `w` wins. */
  ghost predicate AllAtMost(tail: seq<Entry>, w: int)
  {
    forall j :: 0 <= j < |tail| ==> tail[j].wins <= w
  }

  lemma ConsSorted(e: Entry, board: seq<Entry>)
    requires SortedDesc(board) && AllAtMost(board, e.wins)
    ensures SortedDesc([e] + board)
  {
    var r := [e] + board;
    forall i, j | 0 <= i < j < |r|
      ensures r[i].wins >= r[j].wins
    {
      assert r[j] == board[j - 1];
      if i > 0 {
        assert r[i] == board[i - 1];
      }
    }
  }

  lemma {:induction false} InsertDescSorted(e: Entry, board: seq<Entry>)
    requires SortedDesc(board)
    ensures SortedDesc(InsertDesc(e, board))
  {
    if |board| == 0 {
    } else if e.wins >= board[0].wins {
      ConsSorted(e, board);
    } else {
      var tail := InsertDesc(e, board[1..]);
      InsertDescSorted(e, board[1..]);
      forall j | 0 <= j < |tail|
        ensures tail[j].wins <= board[0].wins
      {
        var x := tail[j];
        assert x in multiset(tail);
        assert x in multiset(board[1..]) + multiset{e};
        if x != e {
          var m :| 0 <= m < |board[1..]| && board[1..][m] == x;
          assert board[m + 1] == x;
        }
      }
      ConsSorted(board[0], tail);
    }
  }

  /** The sorted board has wins in non-increasing order. */
  lemma {:induction false} SortDescSorted(board: seq<Entry>)
    ensures SortedDesc(SortDesc(board))
  {
    if |board| > 0 {
      SortDescSorted(board[1..]);
      InsertDescSorted(board[0], SortDesc(board[1..]));
    }
  }

  /** Sorting a board that is already sorted changes nothing, so the repeated sorts of the queries are harmless. */
  lemma {:induction false} SortDescOfSorted(board: seq<Entry>)
    requires SortedDesc(board)
    ensures SortDesc(board) == board
  {
    if |board| > 0 {
      var tail := board[1..];
      assert SortedDesc(tail) by {
        forall i, j | 0 <= i < j < |tail| ensures tail[i].wins >= tail[j].wins {
          assert tail[i] == board[i + 1] && tail[j] == board[j + 1];
        }
      }
      SortDescOfSorted(tail);
      assert SortDesc(board) == InsertDesc(board[0], tail);
      assert board == [board[0]] + tail;
    }
  }

  lemma {:induction false} InsertDescSum(e: Entry, board: seq<Entry>)
    ensures SumWins(InsertDesc(e, board)) == SumWins(board) + e.wins
  {
    if |board| > 0 && e.wins < board[0].wins {
      InsertDescSum(e, board[1..]);
    } else if |board| > 0 {
      assert ([e] + board)[1..] == board;
    }
  }

  /** Sorting keeps the total of the wins. */
  lemma {:induction false} SortDescSum(board: seq<Entry>)
    ensures SumWins(SortDesc(board)) == SumWins(board)
  {
    if |board| > 0 {
      SortDescSum(board[1..]);
      InsertDescSum(board[0], SortDesc(board[1..]));
    }
  }

  /** Ids are unique exactly when the multiset of entries holds no two entries with one id. */
  lemma {:induction false} InsertDescUnique(e: Entry, board: seq<Entry>)
    requires UniqueIds(board)
    requires forall x :: x in board ==> x.id != e.id
    ensures UniqueIds(InsertDesc(e, board))
  {
    if |board| == 0 {
    } else if e.wins >= board[0].wins {
      ConsUnique(e, board);
    } else {
      var tail := InsertDesc(e, board[1..]);
      InsertDescUnique(e, board[1..]);
      forall j | 0 <= j < |tail|
        ensures tail[j].id != board[0].id
      {
        var x := tail[j];
        assert x in multiset(tail);
        assert x in multiset(board[1..]) + multiset{e};
        if x != e {
          var m :| 0 <= m < |board[1..]| && board[1..][m] == x;
          assert board[m + 1] == x;
        }
      }
      ConsUnique(board[0], tail);
    }
  }

  lemma ConsUnique(e: Entry, board: seq<Entry>)
    requires UniqueIds(board)
    requires forall j :: 0 <= j < |board| ==> board[j].id != e.id
    ensures UniqueIds([e] + board)
  {
    var r := [e] + board;
    forall i, j | 0 <= i < j < |r|
      ensures r[i].id != r[j].id
    {
      assert r[j] == board[j - 1];
      if i > 0 {
        assert r[i] == board[i - 1];
      }
    }
  }

  /** Sorting keeps ids unique. */
  lemma {:induction false} SortDescUnique(board: seq<Entry>)
    requires UniqueIds(board)
    ensures UniqueIds(SortDesc(board))
  {
    if |board| > 0 {
      SortDescUnique(board[1..]);
      forall x | x in SortDesc(board[1..])
        ensures x.id != board[0].id
      {
        assert x in multiset(board[1..]);
        var j :| 0 <= j < |board[1..]| && board[1..][j] == x;
        assert board[j + 1] == x;
      }
      InsertDescUnique(board[0], SortDesc(board[1..]));
    }
  }

  /** Sorting keeps every id on the board. */
  lemma SortDescKeepsIds(board: seq<Entry>, id: string)
    requires HasId(board, id)
    ensures HasId(SortDesc(board), id)
  {
    var i :| 0 <= i < |board| && board[i].id == id;
    assert board[i] in multiset(SortDesc(board));
  }

  /**
   * `addToScoreBoard` of data/scores.js, upsert then sort: the board is
   * sorted, holds the id, has one more win in total and keeps ids unique.
   */
  lemma UpsertThenSort(board: seq<Entry>, user: string, id: string)
    ensures var r := SortDesc(Upsert(board, user, id));
      && SortedDesc(r)
      && HasId(r, id)
      && SumWins(r) == SumWins(board) + 1
      && (UniqueIds(board) ==> UniqueIds(r))
  {
    var upserted := Upsert(board, user, id);
    UpsertAddsOneWin(board, user, id);
    SortDescSum(upserted);
    SortDescSorted(upserted);
    var k := IndexOfId(board, id);
    if k == |board| {
      assert upserted[|board|].id == id;
    } else {
      assert upserted[k].id == id;
    }
    SortDescKeepsIds(upserted, id);
    if UniqueIds(board) {
      UpsertKeepsIdsUnique(board, user, id);
      SortDescUnique(upserted);
    }
  }

  /**
   * `getWinsAndPlaceById` on the board it has just sorted: `(0, -1)` for an
   * unknown id, else the wins of the id's entry and one more than the first
   * index holding that many wins.
   */
  function WinsAndPlace(board: seq<Entry>, id: string): (r: (int, int))
    ensures r.1 == -1 <==> !HasId(board, id)
    ensures r.1 != -1 ==> 1 <= r.1 <= |board| && exists j :: 0 <= j < |board| && board[j].id == id && board[j].wins == r.0
  {
    var k := IndexOfId(board, id);
    if k < |board| then
      var w := board[k].wins;
      (w, IndexOfWins(board, w) + 1)
    else (0, -1)
  }

  /**
   * For a known id the wins are those of its entry and the place is at most
   * its own 1-based position; for an unknown id the answer is `(0, -1)`.
   */
  lemma WinsAndPlaceOfEntry(board: seq<Entry>, id: string)
    ensures !HasId(board, id) ==> WinsAndPlace(board, id) == (0, -1)
    ensures HasId(board, id) ==>
      var (w, place) := WinsAndPlace(board, id);
      var k := IndexOfId(board, id);
      w == board[k].wins && 1 <= place <= k + 1
  {
  }

  /** Tied players share a place. */
  lemma TiesSharePlace(board: seq<Entry>, a: string, b: string)
    requires HasId(board, a) && HasId(board, b)
    requires WinsAndPlace(board, a).0 == WinsAndPlace(board, b).0
    ensures WinsAndPlace(board, a).1 == WinsAndPlace(board, b).1
  {
  }

  /**
   * On a sorted board the place means what a rank means: every entry before
   * it has more wins, every entry from it on has at most as many.
   */
  lemma PlaceIsRank(board: seq<Entry>, id: string)
    requires SortedDesc(board) && HasId(board, id)
    ensures var (w, place) := WinsAndPlace(board, id);
      && (forall j :: 0 <= j < place - 1 ==> board[j].wins > w)
      && (forall j :: place - 1 <= j < |board| ==> board[j].wins <= w)
  {
    var k := IndexOfId(board, id);
    var w := board[k].wins;
    var p := IndexOfWins(board, w);
    assert p <= k;
    forall j | 0 <= j < p
      ensures board[j].wins > w
    {
      assert board[j].wins >= board[k].wins;
    }
  }

  /**
   * `${e.user}: ${e.wins} wins`: the name and ": ", then a figure that
   * `parseInt` reads back as the wins, and " wins" at the end.
   */
  function Render(e: Entry): (line: string)
    ensures e.user + ": " <= line
    ensures ParseInt(line[|e.user| + 2..]) == Some(e.wins)
    ensures |line| >= |e.user| + 7 && line[|line| - 5..] == " wins"
  {
    var line := e.user + ": " + IntToString(e.wins) + " wins";
    assert line[|e.user| + 2..] == IntToString(e.wins) + " wins";
    ParseIntOfIntToString(e.wins, " wins");
    line
  }

  function Renders(board: seq<Entry>): (lines: seq<string>)
    ensures |lines| == |board|
    ensures forall i :: 0 <= i < |board| ==> lines[i] == Render(board[i])
  {
    seq(|board|, i requires 0 <= i < |board| => Render(board[i]))
  }

  /** `getTopTen` on the board it has just sorted: the first ten entries rendered and joined by ", ". */
  function TopTen(board: seq<Entry>): (text: string)
    ensures var n := if |board| < 10 then |board| else 10;
      forall i :: 0 <= i < n ==> PieceAt(text, Renders(board[..n]), ", ", i)
    ensures var n := if |board| < 10 then |board| else 10;
      n > 0 ==> |text| + 2 == Offset(Renders(board[..n]), ", ", n)
  {
    var n := if |board| < 10 then |board| else 10;
    JoinLines(Renders(board[..n]))
  }

  /** `lines.join(", ")`, with the layout `JoinLayout` proves. */
  function JoinLines(lines: seq<string>): (text: string)
    ensures forall i :: 0 <= i < |lines| ==> PieceAt(text, lines, ", ", i)
    ensures |lines| > 0 ==> |text| + 2 == Offset(lines, ", ", |lines|)
  {
    if lines == [] then ""
    else
      JoinLayout(lines, ", ");
      OffsetOfEnd(lines, ", ");
      Join(lines, ", ")
  }

  /** The text is empty exactly when the board is, and otherwise starts with the first entry. */
  lemma TopTenStartsWithLeader(board: seq<Entry>)
    ensures TopTen(board) == "" <==> |board| == 0
    ensures |board| > 0 ==> Render(board[0]) <= TopTen(board)
  {
    if |board| > 0 {
      var n := if |board| < 10 then |board| else 10;
      JoinStartsWithFirst(Renders(board[..n]), ", ");
      assert |Render(board[0])| > 0;
    }
  }

  /** Only the first ten entries show. */
  lemma TopTenShowsTen(board: seq<Entry>)
    requires |board| > 10
    ensures TopTen(board) == TopTen(board[..10])
  {
    assert board[..10][..10] == board[..10];
  }
}
