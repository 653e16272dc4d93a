/**
 * What a Hangman round computes about a guess, independent of where the round's
 * state lives: how often a letter occurs in the word, the progress after the
 * letter is revealed, and the sorted list of guesses.
 */
module Guesses {

  /** The number of positions of `w` that hold `c`. */
  function CountOf(w: string, c: char): (n: nat)
    ensures n <= |w|
    ensures n == 0 <==> c !in w
  {
    if w == [] then 0
    else
      var init := w[..|w| - 1];
      assert w == init + [w[|w| - 1]];
      CountOf(init, c) + (if w[|w| - 1] == c then 1 else 0)
  }

  /** The positions of `w` that hold `c`. */
  ghost function Matches(w: string, c: char): set<nat>
  {
    set i: nat | i < |w| && w[i] == c
  }

  /** `CountOf` counts exactly the matching positions. */
  lemma {:induction false} CountOfIsMatches(w: string, c: char)
    ensures CountOf(w, c) == |Matches(w, c)|
  {
    if w != [] {
      var n := |w| - 1;
      var init := w[..n];
      CountOfIsMatches(init, c);
      if w[n] == c {
        assert Matches(w, c) == Matches(init, c) + {n};
        assert n !in Matches(init, c);
      } else {
        assert Matches(w, c) == Matches(init, c);
      }
    }
  }

  /** The placeholder progress of a fresh round: one '-' per letter. */
  function Masked(n: nat): (p: string)
    ensures |p| == n
  {
    seq(n, _ => '-')
  }

  /**
   * The progress after guessing the letter `c`: every position where the word
   * holds `c` shows `c`, every other position is kept.
   */
  function Revealed(word: string, progress: string, c: char): (p: string)
    ensures |p| == |progress|
  {
    seq(|progress|, i requires 0 <= i < |progress| => if i < |word| && word[i] == c then c else progress[i])
  }

  /** Revealing one more letter of the word changes at most that position of the progress. */
  lemma RevealedExtend(word: string, progress: string, c: char, i: nat)
    requires i < |word| <= |progress|
    ensures Revealed(word[..i + 1], progress, c)
         == if word[i] == c then Revealed(word[..i], progress, c)[i := c] else Revealed(word[..i], progress, c)
  {
  }

  /** Revealing changes a position only where the word holds the letter, and sets it to the letter. */
  lemma RevealedChangesOnlyMatches(word: string, progress: string, c: char)
    requires |word| == |progress|
    ensures forall i :: 0 <= i < |word| && word[i] == c ==> Revealed(word, progress, c)[i] == word[i]
    ensures forall i :: 0 <= i < |word| && word[i] != c ==> Revealed(word, progress, c)[i] == progress[i]
  {
  }

  /** Revealing the same letter a second time changes nothing. */
  lemma RevealedIdempotent(word: string, progress: string, c: char)
    ensures Revealed(word, Revealed(word, progress, c), c) == Revealed(word, progress, c)
  {
  }

  /** JavaScript's default string order: lexicographic, by character. */
  predicate LexLe(a: string, b: string)
  {
    a == [] || (b != [] && (a[0] < b[0] || (a[0] == b[0] && LexLe(a[1..], b[1..]))))
  }

  lemma {:induction false} LexLeTotal(a: string, b: string)
    ensures LexLe(a, b) || LexLe(b, a)
  {
    if a != [] && b != [] && a[0] == b[0] {
      LexLeTotal(a[1..], b[1..]);
    }
  }

  lemma {:induction false} LexLeTransitive(a: string, b: string, c: string)
    requires LexLe(a, b) && LexLe(b, c)
    ensures LexLe(a, c)
  {
    if a != [] && a[0] == b[0] && b[0] == c[0] {
      LexLeTransitive(a[1..], b[1..], c[1..]);
    }
  }

  predicate SortedStrings(s: seq<string>)
  {
    forall i, j :: 0 <= i < j < |s| ==> LexLe(s[i], s[j])
  }

  /** `x` placed before the first element it does not follow. */
  function InsertString(x: string, s: seq<string>): (r: seq<string>)
    ensures multiset(r) == multiset(s) + multiset{x}
  {
    if s == [] then [x]
    else if LexLe(x, s[0]) then [x] + s
    else
      var r := [s[0]] + InsertString(x, s[1..]);
      assert s == [s[0]] + s[1..];
      r
  }

  /** `Array.prototype.sort()` with the default comparator on a list of strings. */
  function SortStrings(s: seq<string>): (r: seq<string>)
    ensures multiset(r) == multiset(s)
  {
    if s == [] then []
    else
      assert s == [s[0]] + s[1..];
      InsertString(s[0], SortStrings(s[1..]))
  }

  lemma {:induction false} InsertStringSorted(x: string, s: seq<string>)
    requires SortedStrings(s)
    ensures SortedStrings(InsertString(x, s))
  {
    if s == [] {
    } else if LexLe(x, s[0]) {
      forall j | 0 <= j < |s| ensures LexLe(x, s[j]) {
        if j > 0 { LexLeTransitive(x, s[0], s[j]); }
      }
      ConsSortedStrings(x, s);
    } else {
      LexLeTotal(x, s[0]);
      InsertStringSorted(x, s[1..]);
      InsertStringBounded(s[0], x, s[1..]);
      ConsSortedStrings(s[0], InsertString(x, s[1..]));
    }
  }

  /** A sorted list stays sorted under a new head that precedes all of it. */
  lemma ConsSortedStrings(h: string, t: seq<string>)
    requires SortedStrings(t)
    requires forall k :: 0 <= k < |t| ==> LexLe(h, t[k])
    ensures SortedStrings([h] + t)
  {
    var r := [h] + t;
    forall i, j | 0 <= i < j < |r| ensures LexLe(r[i], r[j]) {
      assert r[j] == t[j - 1];
      if i > 0 {
        assert r[i] == t[i - 1];
      }
    }
  }

  /** Inserting an element that follows `h` into a list that follows `h` gives a list that follows `h`. */
  lemma InsertStringBounded(h: string, x: string, s: seq<string>)
    requires LexLe(h, x)
    requires forall k :: 0 <= k < |s| ==> LexLe(h, s[k])
    ensures forall k :: 0 <= k < |InsertString(x, s)| ==> LexLe(h, InsertString(x, s)[k])
  {
    var r := InsertString(x, s);
    forall k | 0 <= k < |r| ensures LexLe(h, r[k]) {
      var y := r[k];
      assert y in multiset(r);
      if y != x {
        assert y in multiset(s);
        var j :| 0 <= j < |s| && s[j] == y;
      }
    }
  }

  /** The sort gives a sorted list; with `multiset(SortStrings(s)) == multiset(s)` it is the sorted permutation. */
  lemma {:induction false} SortStringsSorted(s: seq<string>)
    ensures SortedStrings(SortStrings(s))
  {
    if s != [] {
      SortStringsSorted(s[1..]);
      InsertStringSorted(s[0], SortStrings(s[1..]));
    }
  }
}
