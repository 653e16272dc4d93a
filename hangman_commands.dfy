/**
 * commands/hangman-commands.js: the single-channel Hangman of the first
 * version, whose state is module-level variables. Here those variables are the
 * fields of one `Game` object, and the three commands `!start`, `!end` and
 * `!guess` are its methods, each proved against a step function on the
 * `Round` value of the state.
 */
module HangmanCommands {
  import opened JsString
  import opened Commands
  import opened Guesses

  /** `isGuess`: the first token of the message is exactly "!guess". */
  function IsGuess(message: string): (matches: bool)
    ensures matches <==> FirstToken(message) == GUESS
  {
    IsCommand(GUESS, message)
  }

  /** The round part of the state: what the commands read and change. */
  datatype Round = Round(started: bool, lives: int, guessed: seq<string>, word: string, progress: string)

  /**
   * What holds of every reachable round: a running round has 1 to 6 lives,
   * the progress is as long as the word and the guesses are sorted.
   */
  predicate Inv(r: Round)
  {
    && 0 <= r.lives <= 6
    && (r.started ==> r.lives >= 1)
    && |r.progress| == |r.word|
    && SortedStrings(r.guessed)
  }

  datatype StartReply = AlreadyInProgress | Started(progress: string)

  datatype EndReply = NoReply | Ended

  /** The chat replies of `!guess`, with the values the text shows. */
  datatype GuessReply =
    | NoGame
    | InvalidGuess
    | AlreadyGuessed(token: string, guessed: seq<string>)
    | LetterFound(times: nat, letter: string, lives: int, guessed: seq<string>, progress: string)
    | LetterMissing(letter: string, lives: int, guessed: seq<string>, progress: string)
    | LostOnLetter(letter: string, guessed: seq<string>, progress: string, word: string)
    | WordWrong(guess: string, lives: int, guessed: seq<string>, progress: string)
    | LostOnWord(guess: string, guessed: seq<string>, progress: string, word: string)
    | Won(word: string)

  /** The initial state of the module's variables. */
  const Initial := Round(false, 6, [], [], [])

  /** `hangmanStart`, given the word the dictionary picked. */
  function StartStep(r: Round, selectedWord: string): (Round, StartReply)
  {
    if r.started then (r, AlreadyInProgress)
    else
      var progress := Masked(|selectedWord|);
      (Round(true, 6, [], ToUpper(selectedWord), progress), Started(progress))
  }

  /** `hangmanEnd` */
  function EndStep(r: Round): (Round, EndReply)
  {
    if r.started then (r.(started := false), Ended) else (r, NoReply)
  }

  /** A guess message has the right shape: two parts, the second one letter long or as long as the word. */
  predicate WellFormed(r: Round, message: string)
  {
    var parts := Split(message);
    |parts| == 2 && (|parts[1]| == 1 || |parts[1]| == |r.word|)
  }

  /** The upper-cased guess of a well-formed message. */
  function Token(message: string): string
  {
    var parts := Split(message);
    if |parts| == 2 then ToUpper(parts[1]) else ""
  }

  /** A guess the round goes on to judge: a game is running, the shape is right and the token is new. */
  predicate Accepted(r: Round, message: string)
  {
    r.started && WellFormed(r, message) && Token(message) !in r.guessed
  }

  /** The letter branch of `hangmanGuess`, for a new one-letter token: record it, reveal it, judge. */
  function LetterStep(r: Round, token: string): (Round, GuessReply)
    requires |token| == 1
  {
    var c := token[0];
    var recorded := r.(guessed := SortStrings(r.guessed + [token]), progress := Revealed(r.word, r.progress, c));
    LetterVerdict(recorded, token, CountOf(r.word, c))
  }

  /** The verdict on a letter found `times` times, once it is recorded and revealed. */
  function LetterVerdict(r: Round, token: string, times: nat): (Round, GuessReply)
  {
    if times > 0 then
      if r.word == r.progress then (r.(started := false), Won(r.word))
      else (r, LetterFound(times, token, r.lives, r.guessed, r.progress))
    else if r.lives - 1 == 0 then
      (r.(started := false, lives := 0), LostOnLetter(token, r.guessed, r.progress, r.word))
    else
      (r.(lives := r.lives - 1), LetterMissing(token, r.lives - 1, r.guessed, r.progress))
  }

  /** The word branch of `hangmanGuess`, for a new token as long as the word. */
  function WordStep(r: Round, token: string): (Round, GuessReply)
  {
    var guessed := SortStrings(r.guessed + [token]);
    var next := r.(guessed := guessed);
    if token == r.word then
      (next.(started := false), Won(r.word))
    else if r.lives - 1 == 0 then
      (next.(started := false, lives := 0), LostOnWord(token, guessed, r.progress, r.word))
    else
      (next.(lives := r.lives - 1), WordWrong(token, r.lives - 1, guessed, r.progress))
  }

  /** `hangmanGuess`: the new round and the reply. */
  function GuessStep(r: Round, message: string): (Round, GuessReply)
  {
    if !r.started then (r, NoGame)
    else if !WellFormed(r, message) then (r, InvalidGuess)
    else if Token(message) in r.guessed then (r, AlreadyGuessed(Token(message), r.guessed))
    else if |Split(message)[1]| == 1 then LetterStep(r, Token(message))
    else WordStep(r, Token(message))
  }

  /** The module's initial state satisfies the invariant. */
  lemma InitialInv()
    ensures Inv(Initial)
  {
  }

  /** `!start` while a round runs changes nothing. */
  lemma StartWhileStartedChangesNothing(r: Round, selectedWord: string)
    requires r.started
    ensures StartStep(r, selectedWord) == (r, AlreadyInProgress)
  {
  }

  /**
   * `!start` from idle opens a round with 6 lives, no guesses, the upper-cased
   * word and a progress of '-' as long as the word, and keeps the invariant.
   */
  lemma StartFromIdle(r: Round, selectedWord: string)
    requires !r.started
    ensures var (r', reply) := StartStep(r, selectedWord);
      && r'.started && r'.lives == 6 && r'.guessed == []
      && r'.word == ToUpper(selectedWord)
      && |r'.progress| == |r'.word| && (forall i :: 0 <= i < |r'.progress| ==> r'.progress[i] == '-')
      && reply == Started(r'.progress)
      && Inv(r')
  {
  }

  /** `!end` stops a running round and touches nothing else; on an idle one it does nothing. */
  lemma EndOnlyStops(r: Round)
    ensures EndStep(r).0 == r.(started := false)
    ensures !r.started ==> EndStep(r) == (r, NoReply)
  {
  }

  /** A guess with no game, the wrong shape or an old token changes nothing. */
  lemma RejectedGuessChangesNothing(r: Round, message: string)
    requires !Accepted(r, message)
    ensures GuessStep(r, message).0 == r
    ensures GuessStep(r, message).1 in {NoGame, InvalidGuess, AlreadyGuessed(Token(message), r.guessed)}
  {
  }

  /**
   * An accepted guess adds its upper-cased token to the guesses, which stay
   * sorted; the word never changes.
   */
  lemma {:induction false} AcceptedGuessRecordsToken(r: Round, message: string)
    requires Accepted(r, message)
    ensures var r' := GuessStep(r, message).0;
      && r'.word == r.word
      && multiset(r'.guessed) == multiset(r.guessed) + multiset{Token(message)}
      && SortedStrings(r'.guessed)
  {
    var token := Token(message);
    var r' := GuessStep(r, message).0;
    if |Split(message)[1]| == 1 {
      LetterStepRecords(r, token);
    } else {
      WordStepRecords(r, token);
    }
    SortStringsSorted(r.guessed + [token]);
  }

  /** The letter branch sorts the token into the guesses and keeps the word. */
  lemma LetterStepRecords(r: Round, token: string)
    requires |token| == 1
    ensures LetterStep(r, token).0.guessed == SortStrings(r.guessed + [token])
    ensures LetterStep(r, token).0.word == r.word
  {
    var g := SortStrings(r.guessed + [token]);
    var c := token[0];
    var recorded := r.(guessed := g, progress := Revealed(r.word, r.progress, c));
    assert LetterStep(r, token) == LetterVerdict(recorded, token, CountOf(r.word, c));
    assert LetterStep(r, token).0.guessed == g;
  }

  /** The word branch sorts the token into the guesses and keeps the word. */
  lemma WordStepRecords(r: Round, token: string)
    ensures WordStep(r, token).0.guessed == SortStrings(r.guessed + [token])
    ensures WordStep(r, token).0.word == r.word
  {
    var g := SortStrings(r.guessed + [token]);
    assert WordStep(r, token).0.guessed == g;
  }

  /**
   * An accepted letter reveals exactly the positions where the word holds the
   * letter, and a found-letter reply reports that many.
   */
  lemma LetterGuessReveals(r: Round, message: string)
    requires Accepted(r, message) && |Split(message)[1]| == 1
    ensures var (r', reply) := GuessStep(r, message);
      var c := Token(message)[0];
      && r'.progress == Revealed(r.word, r.progress, c)
      && (reply.LetterFound? ==> reply.times == CountOf(r.word, c) && reply.times > 0)
  {
  }

  /**
   * A guess costs a life exactly when it misses: a letter not in the word or a
   * wrong word. It costs exactly one, and the round ends exactly when none is left.
   */
  lemma {:induction false} MissCostsOneLife(r: Round, message: string)
    requires Inv(r) && Accepted(r, message)
    ensures var r' := GuessStep(r, message).0;
      var token := Token(message);
      var miss := if |Split(message)[1]| == 1 then token[0] !in r.word else token != r.word;
      && (miss ==> r'.lives == r.lives - 1 && (r'.started <==> r'.lives > 0))
      && (!miss ==> r'.lives == r.lives)
  {
    var token := Token(message);
    if |Split(message)[1]| == 1 {
      assert CountOf(r.word, token[0]) == 0 <==> token[0] !in r.word;
    }
  }

  /**
   * The round is won exactly when an accepted letter completes the progress or
   * an accepted word equals the target; a win keeps the lives, and a winning
   * word does not touch the progress.
   */
  lemma WinIsExact(r: Round, message: string)
    requires Accepted(r, message)
    ensures var (r', reply) := GuessStep(r, message);
      var token := Token(message);
      var isLetter := |Split(message)[1]| == 1;
      && (reply.Won? <==>
           (if isLetter then token[0] in r.word && Revealed(r.word, r.progress, token[0]) == r.word
            else token == r.word))
      && (reply.Won? ==> !r'.started && r'.lives == r.lives)
      && (reply.Won? && !isLetter ==> r'.progress == r.progress)
  {
    var token := Token(message);
    if |Split(message)[1]| == 1 {
      assert CountOf(r.word, token[0]) == 0 <==> token[0] !in r.word;
    }
  }

  /** Every guess keeps the invariant, so a running round always has between 1 and 6 lives. */
  lemma {:induction false} GuessKeepsInv(r: Round, message: string)
    requires Inv(r)
    ensures Inv(GuessStep(r, message).0)
  {
    if Accepted(r, message) {
      AcceptedGuessRecordsToken(r, message);
    }
  }

  /** Guessing an accepted token again, while the round runs, is rejected as already guessed. */
  lemma {:induction false} RepeatedGuessIsRejected(r: Round, message: string)
    requires Inv(r) && Accepted(r, message)
    requires GuessStep(r, message).0.started
    ensures var r' := GuessStep(r, message).0;
      GuessStep(r', message) == (r', AlreadyGuessed(Token(message), r'.guessed))
  {
    AcceptedGuessRecordsToken(r, message);
    var r' := GuessStep(r, message).0;
    assert Token(message) in multiset(r'.guessed);
  }

  /** The module-level state of commands/hangman-commands.js. */
  class Game {
    /** Never read or written by the commands: the clearing loops iterate the numbers below. */
    var letterCooldownUser: map<string, int>
    var wordCooldownUser: map<string, int>
    /** Cooldowns in milliseconds. */
    var letterCooldown: int
    var wordCooldown: int
    var started: bool
    var lives: int
    var guessed: seq<string>
    var word: string
    var progress: string

    ghost function State(): Round
      reads this
    {
      Round(started, lives, guessed, word, progress)
    }

    ghost predicate Valid()
      reads this
    {
      Inv(State())
    }

    /** The values the variables have when the module loads. */
    constructor()
      ensures Valid() && State() == Initial
      ensures letterCooldownUser == map[] && wordCooldownUser == map[]
      ensures letterCooldown == 30000 && wordCooldown == 90000
    {
      letterCooldownUser := map[];
      wordCooldownUser := map[];
      letterCooldown := 30000;
      wordCooldown := 90000;
      started := false;
      lives := 6;
      guessed := [];
      word := [];
      progress := [];
    }

    /** `!start`, with the dictionary's word as a parameter. */
    method Start(selectedWord: string) returns (reply: StartReply)
      requires Valid()
      modifies this`started, this`lives, this`guessed, this`word, this`progress
      ensures Valid()
      ensures (State(), reply) == StartStep(old(State()), selectedWord)
    {
      if started {
        reply := AlreadyInProgress;
      } else {
        // The source's clearing loops run over the numbers `letterCooldown` and
        // `wordCooldown`, which have no keys: they change nothing.
        lives := 6;
        guessed := [];
        word := ToUpper(selectedWord);
        progress := Masked(|selectedWord|);
        reply := Started(progress);
        started := true;
      }
    }

    /** `!end` */
    method End() returns (reply: EndReply)
      requires Valid()
      modifies this`started
      ensures Valid()
      ensures (State(), reply) == EndStep(old(State()))
    {
      if started {
        started := false;
        reply := Ended;
      } else {
        reply := NoReply;
      }
    }

    /** `!guess <letter or word>` */
    method Guess(message: string) returns (reply: GuessReply)
      requires Valid()
      modifies this`started, this`lives, this`guessed, this`progress
      ensures Valid()
      ensures (State(), reply) == GuessStep(old(State()), message)
    {
      GuessKeepsInv(State(), message);
      var guessMessage := Split(message);
      if !started {
        reply := NoGame;
      } else if |guessMessage| != 2 || (|guessMessage[1]| != 1 && |guessMessage[1]| != |word|) {
        reply := InvalidGuess;
      } else if ToUpper(guessMessage[1]) in guessed {
        reply := AlreadyGuessed(ToUpper(guessMessage[1]), guessed);
      } else if |guessMessage[1]| == 1 {
        reply := GuessLetter(ToUpper(guessMessage[1]));
      } else {
        // Here the token is as long as the word. The source's last branch, a
        // generic invalid-usage reply, cannot be reached after the shape check.
        reply := GuessWord(ToUpper(guessMessage[1]));
      }
    }

    /** The letter branch: record the letter, reveal it and count it, then judge. */
    method GuessLetter(charGuess: string) returns (reply: GuessReply)
      requires |charGuess| == 1 && |progress| == |word|
      modifies this`started, this`lives, this`guessed, this`progress
      ensures (State(), reply) == LetterStep(old(State()), charGuess)
    {
      guessed := SortStrings(guessed + [charGuess]);
      var times := Reveal(charGuess[0]);
      reply := JudgeLetter(charGuess, times);
    }

    /** The judging part of the letter branch. */
    method JudgeLetter(charGuess: string, times: nat) returns (reply: GuessReply)
      modifies this`started, this`lives
      ensures (State(), reply) == LetterVerdict(old(State()), charGuess, times)
    {
      if times > 0 {
        if word == progress {
          started := false;
          reply := Won(word);
        } else {
          reply := LetterFound(times, charGuess, lives, guessed, progress);
        }
      } else {
        lives := lives - 1;
        if lives == 0 {
          started := false;
          reply := LostOnLetter(charGuess, guessed, progress, word);
        } else {
          reply := LetterMissing(charGuess, lives, guessed, progress);
        }
      }
    }

    /** The reveal loop of the letter branch: uncover every position holding `c` and count them. */
    method Reveal(c: char) returns (times: nat)
      requires |progress| == |word|
      modifies this`progress
      ensures progress == Revealed(word, old(progress), c)
      ensures times == CountOf(word, c)
    {
      times := 0;
      var i := 0;
      while i < |word|
        invariant 0 <= i <= |word|
        invariant progress == Revealed(word[..i], old(progress), c)
        invariant times == CountOf(word[..i], c)
      {
        RevealedExtend(word, old(progress), c, i);
        if word[i] == c {
          progress := progress[i := c];
          times := times + 1;
        }
        assert word[..i + 1][..i] == word[..i];
        i := i + 1;
      }
      assert word[..i] == word;
    }

    /** The word branch: record the word, then judge it against the target. */
    method GuessWord(wordGuess: string) returns (reply: GuessReply)
      modifies this`started, this`lives, this`guessed
      ensures (State(), reply) == WordStep(old(State()), wordGuess)
    {
      guessed := SortStrings(guessed + [wordGuess]);
      if wordGuess == word {
        started := false;
        reply := Won(word);
      } else {
        lives := lives - 1;
        if lives == 0 {
          started := false;
          reply := LostOnWord(wordGuess, guessed, progress, word);
        } else {
          reply := WordWrong(wordGuess, lives, guessed, progress);
        }
      }
    }
  }
}
