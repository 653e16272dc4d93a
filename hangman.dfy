/**
 * data/hangman.js: `ChannelHangman`, the state of one channel's Hangman round.
 * `Date.now()` is the parameter `now` (milliseconds since the epoch).
 */
module Hangman {
  import opened Wrappers
  import opened JsString
  import opened Guesses

  /**
   * The progress is a JavaScript array of characters. A write past its end
   * grows it and leaves holes (`undefined`, here `None`) before the new slot.
   */
  function Slots(s: string): (p: seq<Option<char>>)
    ensures |p| == |s| && forall k :: 0 <= k < |s| ==> p[k] == Some(s[k])
  {
    seq(|s|, k requires 0 <= k < |s| => Some(s[k]))
  }

  /** `p[i] = c` on a JavaScript array. */
  function Put(p: seq<Option<char>>, i: nat, c: char): seq<Option<char>>
  {
    if i < |p| then p[i := Some(c)] else p + seq(i - |p|, _ => None) + [Some(c)]
  }

  /** The progress after `checkLetterGuess`'s loop has visited the letters of `w`. */
  function RevealedSlots(w: string, p: seq<Option<char>>, c: char): seq<Option<char>>
    decreases |w|
  {
    if w == [] then p
    else
      var i := |w| - 1;
      var q := RevealedSlots(w[..i], p, c);
      if w[i] == c then Put(q, i, c) else q
  }

  /**
   * Every position of the word holding `c` now holds `c`; every other slot is
   * the old one, or a hole where the array grew; the array grows only up to
   * the last match, and not at all when it was as long as the word.
   */
  lemma {:induction false} RevealedSlotsPositions(w: string, p: seq<Option<char>>, c: char)
    ensures var r := RevealedSlots(w, p, c);
      && |p| <= |r| <= (if |w| <= |p| then |p| else |w|)
      && (|p| < |r| ==> w[|r| - 1] == c)
      && (forall k :: 0 <= k < |w| && w[k] == c ==> k < |r| && r[k] == Some(c))
      && (forall k :: 0 <= k < |r| && !(k < |w| && w[k] == c) ==> r[k] == if k < |p| then p[k] else None)
    decreases |w|
  {
    if w != [] {
      var i := |w| - 1;
      var init := w[..i];
      var q := RevealedSlots(init, p, c);
      RevealedSlotsPositions(init, p, c);
      var r := RevealedSlots(w, p, c);
      forall k | 0 <= k < |w| && w[k] == c
        ensures k < |r| && r[k] == Some(c)
      {
        if k < i {
          assert init[k] == w[k];
        }
      }
      forall k | 0 <= k < |r| && !(k < |w| && w[k] == c)
        ensures r[k] == if k < |p| then p[k] else None
      {
        if k < |q| {
          assert k < |w| ==> k == i || init[k] == w[k];
        }
      }
    }
  }

  /** On a hole-free progress at least as long as the word, this is the reveal on strings. */
  lemma {:induction false} RevealedSlotsOfString(w: string, s: string, c: char)
    requires |w| <= |s|
    ensures RevealedSlots(w, Slots(s), c) == Slots(Revealed(w, s, c))
  {
    RevealedSlotsPositions(w, Slots(s), c);
  }

  /** `p.join('')`: the characters in order, a hole giving the empty string. */
  function Text(p: seq<Option<char>>): string
  {
    if p == [] then ""
    else Text(p[..|p| - 1]) + (match p[|p| - 1] case Some(ch) => [ch] case None => "")
  }

  /** Joining a hole-free progress gives back its characters; holes only shorten the text. */
  lemma {:induction false} TextOfSlots(s: string)
    ensures Text(Slots(s)) == s
    decreases |s|
  {
    if s != [] {
      var i := |s| - 1;
      assert Slots(s)[..i] == Slots(s[..i]);
      TextOfSlots(s[..i]);
      assert s == s[..i] + [s[i]];
    }
  }

  lemma {:induction false} TextNoLonger(p: seq<Option<char>>)
    ensures |Text(p)| <= |p|
    decreases |p|
  {
    if p != [] {
      TextNoLonger(p[..|p| - 1]);
    }
  }

  class ChannelHangman {
    /** User id to the time (ms) their letter cooldown ends. */
    var letterCooldownUser: map<string, int>
    /** User id to the time (ms) their word cooldown ends. */
    var wordCooldownUser: map<string, int>
    var started: bool
    var lives: int
    /** Letters and words guessed so far, kept sorted. */
    var guessed: seq<string>
    var word: string
    /** The revealed letters; see `Slots` for the holes. */
    var progress: seq<Option<char>>

    constructor()
      ensures letterCooldownUser == map[] && wordCooldownUser == map[]
      ensures !started && lives == 6
      ensures guessed == [] && word == [] && progress == []
    {
      letterCooldownUser := map[];
      wordCooldownUser := map[];
      started := false;
      lives := 6;
      guessed := [];
      word := [];
      progress := [];
    }

    /** The time the user's letter cooldown ends, or 0 when they are not on cooldown. */
    function GetLetterCooldown(userId: string, now: int): (expiry: int)
      requires now >= 0
      reads this
      ensures expiry != 0 <==> userId in letterCooldownUser && letterCooldownUser[userId] > now
      ensures expiry != 0 ==> expiry == letterCooldownUser[userId]
    {
      if userId in letterCooldownUser && letterCooldownUser[userId] > now then letterCooldownUser[userId] else 0
    }

    method SetLetterCooldown(userId: string, time: int)
      modifies this
      ensures letterCooldownUser == old(letterCooldownUser)[userId := time]
      ensures wordCooldownUser == old(wordCooldownUser)
      ensures started == old(started) && lives == old(lives) && guessed == old(guessed)
      ensures word == old(word) && progress == old(progress)
    {
      letterCooldownUser := letterCooldownUser[userId := time];
    }

    /** The time the user's word cooldown ends, or 0 when they are not on cooldown. */
    function GetWordCooldown(userId: string, now: int): (expiry: int)
      requires now >= 0
      reads this
      ensures expiry != 0 <==> userId in wordCooldownUser && wordCooldownUser[userId] > now
      ensures expiry != 0 ==> expiry == wordCooldownUser[userId]
    {
      if userId in wordCooldownUser && wordCooldownUser[userId] > now then wordCooldownUser[userId] else 0
    }

    method SetWordCooldown(userId: string, time: int)
      modifies this
      ensures wordCooldownUser == old(wordCooldownUser)[userId := time]
      ensures letterCooldownUser == old(letterCooldownUser)
      ensures started == old(started) && lives == old(lives) && guessed == old(guessed)
      ensures word == old(word) && progress == old(progress)
    {
      wordCooldownUser := wordCooldownUser[userId := time];
    }

    /** Deletes every key of both cooldown maps. */
    method ResetCooldowns()
      modifies this`letterCooldownUser, this`wordCooldownUser
      ensures letterCooldownUser == map[] && wordCooldownUser == map[]
      ensures started == old(started) && lives == old(lives) && guessed == old(guessed)
      ensures word == old(word) && progress == old(progress)
    {
      while letterCooldownUser != map[]
        decreases |letterCooldownUser|
      {
        var key :| key in letterCooldownUser;
        letterCooldownUser := letterCooldownUser - {key};
      }
      while wordCooldownUser != map[]
        invariant letterCooldownUser == map[]
        decreases |wordCooldownUser|
      {
        var key :| key in wordCooldownUser;
        wordCooldownUser := wordCooldownUser - {key};
      }
    }

    method SetStarted(state: bool)
      modifies this
      ensures started == state
      ensures lives == old(lives) && guessed == old(guessed) && word == old(word) && progress == old(progress)
      ensures letterCooldownUser == old(letterCooldownUser) && wordCooldownUser == old(wordCooldownUser)
    {
      started := state;
    }

    method LoseALive()
      modifies this
      ensures lives == old(lives) - 1
      ensures started == old(started) && guessed == old(guessed) && word == old(word) && progress == old(progress)
      ensures letterCooldownUser == old(letterCooldownUser) && wordCooldownUser == old(wordCooldownUser)
    {
      lives := lives - 1;
    }

    method ResetLives()
      modifies this
      ensures lives == 6
      ensures started == old(started) && guessed == old(guessed) && word == old(word) && progress == old(progress)
      ensures letterCooldownUser == old(letterCooldownUser) && wordCooldownUser == old(wordCooldownUser)
    {
      lives := 6;
    }

    /**
     * `guessed.join(", ")`: every guess in order, each followed by ", " except
     * the last, and nothing else.
     */
    function GetGuessed(): (text: string)
      reads this
      ensures guessed == [] ==> text == ""
      ensures guessed != [] ==> |text| == Offset(guessed, ", ", |guessed| - 1) + |guessed[|guessed| - 1]|
      ensures forall i :: 0 <= i < |guessed| ==> PieceAt(text, guessed, ", ", i)
    {
      if guessed == [] then ""
      else
        JoinLayout(guessed, ", ");
        Join(guessed, ", ")
    }

    /** `guessed.includes(s)` */
    function IsInGuessed(s: string): (found: bool)
      reads this
      ensures found <==> exists i :: 0 <= i < |guessed| && guessed[i] == s
    {
      s in guessed
    }

    /** Pushes `s` onto the guessed list and sorts the list. */
    method AddGuessed(s: string)
      modifies this
      ensures guessed == SortStrings(old(guessed) + [s])
      ensures multiset(guessed) == multiset(old(guessed)) + multiset{s}
      ensures SortedStrings(guessed) && s in guessed && |guessed| == |old(guessed)| + 1
      ensures started == old(started) && lives == old(lives) && word == old(word) && progress == old(progress)
      ensures letterCooldownUser == old(letterCooldownUser) && wordCooldownUser == old(wordCooldownUser)
    {
      guessed := SortStrings(guessed + [s]);
      SortStringsSorted(old(guessed) + [s]);
      assert s in multiset(guessed);
      assert |multiset(guessed)| == |multiset(old(guessed))| + 1;
    }

    /** `guessed.length = 0` */
    method ResetGuessed()
      modifies this
      ensures guessed == []
      ensures started == old(started) && lives == old(lives) && word == old(word) && progress == old(progress)
      ensures letterCooldownUser == old(letterCooldownUser) && wordCooldownUser == old(wordCooldownUser)
    {
      guessed := [];
    }

    method SetWord(w: string)
      modifies this
      ensures word == w
      ensures started == old(started) && lives == old(lives) && guessed == old(guessed) && progress == old(progress)
      ensures letterCooldownUser == old(letterCooldownUser) && wordCooldownUser == old(wordCooldownUser)
    {
      word := w;
    }

    /** `progress.join('')`: the revealed letters as text, holes left out. */
    function GetProgress(): (text: string)
      reads this
      ensures |text| <= |progress|
      ensures forall s :: progress == Slots(s) ==> text == s
    {
      TextNoLonger(progress);
      forall s | progress == Slots(s) {
        TextOfSlots(s);
      }
      Text(progress)
    }

    method SetProgress(p: seq<Option<char>>)
      modifies this
      ensures progress == p
      ensures started == old(started) && lives == old(lives) && guessed == old(guessed) && word == old(word)
      ensures letterCooldownUser == old(letterCooldownUser) && wordCooldownUser == old(wordCooldownUser)
    {
      progress := p;
    }

    /**
     * Writes `c` into the progress at every position where the word holds `c`
     * and returns how many such positions there are. A progress shorter than
     * the word grows as a JavaScript array does.
     */
    method CheckLetterGuess(c: char) returns (times: nat)
      modifies this`progress
      ensures progress == RevealedSlots(word, old(progress), c)
      ensures times == CountOf(word, c)
    {
      times := 0;
      var i := 0;
      while i < |word|
        invariant 0 <= i <= |word|
        invariant progress == RevealedSlots(word[..i], old(progress), c)
        invariant times == CountOf(word[..i], c)
      {
        assert word[..i + 1][..i] == word[..i];
        if word[i] == c {
          if i < |progress| {
            progress := progress[i := Some(c)];
          } else {
            progress := progress + seq(i - |progress|, _ => None) + [Some(c)];
          }
          times := times + 1;
        }
        i := i + 1;
      }
      assert word[..i] == word;
    }
  }
}
