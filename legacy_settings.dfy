/**
 * data/model/settings.js: the older `ChannelSettings`, with public fields,
 * cooldown setters that accept 0 to 999 seconds and assign even an unchanged
 * value, and three definitions each of `getSubOnly` and `setSubOnly`. In a
 * JavaScript class body the last definition of a name wins, so the effective
 * pair reads and writes `autoPlay`, and nothing changes `subOnly` after
 * construction except loading settings.
 */
module LegacySettings {
  import opened JsString
  import opened Decimal
  import opened Wrappers

  datatype SettingsJson = SettingsJson(letterCooldown: int, wordCooldown: int, subOnly: bool, autoPlay: bool)

  const MAX_COOLDOWN := 999

  /** `${b}` for a boolean. */
  function BoolText(b: bool): (text: string)
    ensures text == "true" <==> b
    ensures text == "false" <==> !b
  {
    if b then "true" else "false"
  }

  /** The space-separated words of the `printSettings` text. */
  function SettingsWords(letterCooldown: int, wordCooldown: int, subOnly: bool, autoPlay: bool): seq<string>
  {
    ["Letter", "Guess", "Cooldown:", IntToString(letterCooldown) + ".",
     "Word", "Guess", "Cooldown:", IntToString(wordCooldown) + ".",
     "Sub", "Only:", BoolText(subOnly) + ".",
     "Auto", "Start:" + BoolText(autoPlay) + "."]
  }

  /**
   * `printSettings`: "Letter Guess Cooldown: L. Word Guess Cooldown: W. Sub
   * Only: true|false. Auto Start:true|false." (no space after "Start:"),
   * written as its words joined by single spaces.
   */
  function SettingsText(letterCooldown: int, wordCooldown: int, subOnly: bool, autoPlay: bool): string
  {
    Join(SettingsWords(letterCooldown, wordCooldown, subOnly, autoPlay), " ")
  }

  /** No word of the settings text holds a space. */
  lemma SettingsWordsSpaceFree(letterCooldown: int, wordCooldown: int, subOnly: bool, autoPlay: bool)
    ensures var w := SettingsWords(letterCooldown, wordCooldown, subOnly, autoPlay);
      |w| == 13 && forall i :: 0 <= i < |w| ==> ' ' !in w[i]
  {
    var w := SettingsWords(letterCooldown, wordCooldown, subOnly, autoPlay);
    FixedWordsSpaceFree();
    assert ' ' !in IntToString(letterCooldown) + ".";
    assert ' ' !in IntToString(wordCooldown) + ".";
    BoolWordSpaceFree(subOnly);
    BoolWordSpaceFree(autoPlay);
    forall i | 0 <= i < |w|
      ensures ' ' !in w[i]
    {
    }
  }

  lemma FixedWordsSpaceFree()
    ensures ' ' !in "Letter" && ' ' !in "Guess" && ' ' !in "Cooldown:"
    ensures ' ' !in "Word" && ' ' !in "Sub" && ' ' !in "Only:" && ' ' !in "Auto"
  {
  }

  lemma BoolWordSpaceFree(b: bool)
    ensures ' ' !in BoolText(b) + "." && ' ' !in "Start:" + BoolText(b) + "."
  {
    if b {
      assert BoolText(b) + "." == "true." && "Start:" + BoolText(b) + "." == "Start:true.";
    } else {
      assert BoolText(b) + "." == "false." && "Start:" + BoolText(b) + "." == "Start:false.";
    }
  }

  /** Splitting the settings text at its spaces gives back its words. */
  lemma SettingsTextSplits(letterCooldown: int, wordCooldown: int, subOnly: bool, autoPlay: bool)
    ensures Split(SettingsText(letterCooldown, wordCooldown, subOnly, autoPlay))
      == SettingsWords(letterCooldown, wordCooldown, subOnly, autoPlay)
  {
    SettingsWordsSpaceFree(letterCooldown, wordCooldown, subOnly, autoPlay);
    SplitJoin(SettingsWords(letterCooldown, wordCooldown, subOnly, autoPlay));
  }

  /** `parseInt` of each cooldown word stops at its final '.' and gives back the cooldown. */
  lemma SettingsWordsParse(letterCooldown: int, wordCooldown: int, subOnly: bool, autoPlay: bool)
    ensures var w := SettingsWords(letterCooldown, wordCooldown, subOnly, autoPlay);
      ParseInt(w[3]) == Some(letterCooldown) && ParseInt(w[7]) == Some(wordCooldown)
  {
    var w := SettingsWords(letterCooldown, wordCooldown, subOnly, autoPlay);
    assert w[3] == IntToString(letterCooldown) + "." && w[7] == IntToString(wordCooldown) + ".";
    ParseIntOfIntToString(letterCooldown, ".");
    ParseIntOfIntToString(wordCooldown, ".");
  }

  /**
   * The settings text reads back: its fourth and eighth words parse to the two
   * cooldowns, and its eleventh and thirteenth words show the two switches.
   */
  lemma SettingsTextReadsBack(letterCooldown: int, wordCooldown: int, subOnly: bool, autoPlay: bool)
    ensures var parts := Split(SettingsText(letterCooldown, wordCooldown, subOnly, autoPlay));
      && |parts| == 13
      && ParseInt(parts[3]) == Some(letterCooldown)
      && ParseInt(parts[7]) == Some(wordCooldown)
      && parts[10] == BoolText(subOnly) + "."
      && parts[12] == "Start:" + BoolText(autoPlay) + "."
  {
    var w := SettingsWords(letterCooldown, wordCooldown, subOnly, autoPlay);
    var parts := Split(SettingsText(letterCooldown, wordCooldown, subOnly, autoPlay));
    SettingsTextSplits(letterCooldown, wordCooldown, subOnly, autoPlay);
    assert parts == w;
    SettingsWordsParse(letterCooldown, wordCooldown, subOnly, autoPlay);
    assert w[10] == BoolText(subOnly) + "." && w[12] == "Start:" + BoolText(autoPlay) + ".";
  }

  class ChannelSettings {
    var letterCooldown: int
    var wordCooldown: int
    var subOnly: bool
    var autoPlay: bool

    /** The constructor's parameters default to 30, 90, false and false. */
    constructor(letterCooldown: int := 30, wordCooldown: int := 90, subOnly: bool := false, autoPlay: bool := false)
      ensures this.letterCooldown == letterCooldown && this.wordCooldown == wordCooldown
      ensures this.subOnly == subOnly && this.autoPlay == autoPlay
    {
      this.letterCooldown := letterCooldown;
      this.wordCooldown := wordCooldown;
      this.subOnly := subOnly;
      this.autoPlay := autoPlay;
    }

    function GetSettingJSON(): (j: SettingsJson)
      reads this
      ensures j.letterCooldown == letterCooldown && j.wordCooldown == wordCooldown
      ensures j.subOnly == subOnly && j.autoPlay == autoPlay
    {
      SettingsJson(letterCooldown, wordCooldown, subOnly, autoPlay)
    }

    /** Afterwards the settings read back exactly `j`, so setting what was read changes nothing. */
    method SetSettingJSON(j: SettingsJson)
      modifies this
      ensures GetSettingJSON() == j
    {
      letterCooldown := j.letterCooldown;
      wordCooldown := j.wordCooldown;
      subOnly := j.subOnly;
      autoPlay := j.autoPlay;
    }

    /** Accepts 0 to 999 seconds, even the current value; anything else changes nothing. */
    method SetLetterCooldown(second: int) returns (changed: bool)
      modifies this`letterCooldown
      ensures changed <==> 0 <= second <= MAX_COOLDOWN
      ensures letterCooldown == if changed then second else old(letterCooldown)
    {
      if second < 0 || second > MAX_COOLDOWN {
        changed := false;
      } else {
        letterCooldown := second;
        changed := true;
      }
    }

    /** As `SetLetterCooldown`, for the word cooldown. */
    method SetWordCooldown(second: int) returns (changed: bool)
      modifies this`wordCooldown
      ensures changed <==> 0 <= second <= MAX_COOLDOWN
      ensures wordCooldown == if changed then second else old(wordCooldown)
    {
      if second < 0 || second > MAX_COOLDOWN {
        changed := false;
      } else {
        wordCooldown := second;
        changed := true;
      }
    }

    /** The effective `getSubOnly`, the last one defined: it reports the automatic restart. */
    function GetSubOnly(): (state: bool)
      reads this
      ensures state == autoPlay
    {
      autoPlay
    }

    /** The effective `setSubOnly`: false when `autoPlay` already is `state`, else it sets `autoPlay`. */
    method SetSubOnly(state: bool) returns (changed: bool)
      modifies this`autoPlay
      ensures changed <==> state != old(autoPlay)
      ensures autoPlay == state
    {
      if autoPlay == state {
        changed := false;
      } else {
        autoPlay := state;
        changed := true;
      }
    }

    /** The settings as one line of chat, from which every value can be read back. */
    function PrintSettings(): (text: string)
      reads this
      ensures var parts := Split(text);
        && |parts| == 13
        && ParseInt(parts[3]) == Some(letterCooldown)
        && ParseInt(parts[7]) == Some(wordCooldown)
        && parts[10] == BoolText(subOnly) + "."
        && parts[12] == "Start:" + BoolText(autoPlay) + "."
    {
      SettingsTextReadsBack(letterCooldown, wordCooldown, subOnly, autoPlay);
      SettingsText(letterCooldown, wordCooldown, subOnly, autoPlay)
    }
  }
}
