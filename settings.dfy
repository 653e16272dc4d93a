/**
 * data/settings.js: `ChannelSettings`, the per-channel settings an admin may
 * change. The cooldown setters accept 0 to 3600 seconds and refuse a value
 * equal to the current one; every setter reports whether it changed anything.
 */
module Settings {
  import opened JsString
  import opened Decimal
  import opened Wrappers

  /** The object `getSettingJSON` builds and `setSettingJSON` takes. */
  datatype SettingsJson = SettingsJson(id: string, letterCooldown: int, wordCooldown: int, subOnly: bool, autoPlay: bool)

  const MAX_COOLDOWN := 3600

  /** `state ? "ON" : "OFF"` */
  function OnOff(state: bool): (text: string)
    ensures text == "ON" <==> state
    ensures text == "OFF" <==> !state
  {
    if state then "ON" else "OFF"
  }

  /** The space-separated words of the `printSettings` text. */
  function SettingsWords(letterCooldown: int, wordCooldown: int, subOnly: bool, autoPlay: bool): seq<string>
  {
    ["Letter", "Guess", "Cooldown:", IntToString(letterCooldown), "SECOND(S).",
     "Word", "Guess", "Cooldown:", IntToString(wordCooldown), "SECOND(S).",
     "Sub", "Only:", OnOff(subOnly) + ".",
     "Auto", "Start:", OnOff(autoPlay) + "."]
  }

  /**
   * `printSettings`: "Letter Guess Cooldown: L SECOND(S). Word Guess Cooldown:
   * W SECOND(S). Sub Only: ON|OFF. Auto Start: ON|OFF.", written as its words
   * joined by single spaces.
   */
  function SettingsText(letterCooldown: int, wordCooldown: int, subOnly: bool, autoPlay: bool): string
  {
    Join(SettingsWords(letterCooldown, wordCooldown, subOnly, autoPlay), " ")
  }

  /** No word of the settings text holds a space. */
  lemma SettingsWordsSpaceFree(letterCooldown: int, wordCooldown: int, subOnly: bool, autoPlay: bool)
    ensures var w := SettingsWords(letterCooldown, wordCooldown, subOnly, autoPlay);
      |w| == 16 && forall i :: 0 <= i < |w| ==> ' ' !in w[i]
  {
    var w := SettingsWords(letterCooldown, wordCooldown, subOnly, autoPlay);
    FixedWordsSpaceFree();
    SwitchWordSpaceFree(subOnly);
    SwitchWordSpaceFree(autoPlay);
    forall i | 0 <= i < |w|
      ensures ' ' !in w[i]
    {
    }
  }

  lemma FixedWordsSpaceFree()
    ensures ' ' !in "Letter" && ' ' !in "Guess" && ' ' !in "Cooldown:" && ' ' !in "SECOND(S)."
    ensures ' ' !in "Word" && ' ' !in "Sub" && ' ' !in "Only:" && ' ' !in "Auto" && ' ' !in "Start:"
  {
  }

  lemma SwitchWordSpaceFree(state: bool)
    ensures ' ' !in OnOff(state) + "."
  {
    if state {
      assert OnOff(state) + "." == "ON.";
    } else {
      assert OnOff(state) + "." == "OFF.";
    }
  }

  /** Splitting the settings text at its spaces gives back its words. */
  lemma SettingsTextSplits(letterCooldown: int, wordCooldown: int, subOnly: bool, autoPlay: bool)
    ensures Split(SettingsText(letterCooldown, wordCooldown, subOnly, autoPlay))
      == SettingsWords(letterCooldown, wordCooldown, subOnly, autoPlay)
  {
    SettingsWordsSpaceFree(letterCooldown, wordCooldown, subOnly, autoPlay);
    SplitJoin(SettingsWords(letterCooldown, wordCooldown, subOnly, autoPlay));
  }

  /** The two cooldown words parse back to the cooldowns. */
  lemma SettingsWordsParse(letterCooldown: int, wordCooldown: int, subOnly: bool, autoPlay: bool)
    ensures var w := SettingsWords(letterCooldown, wordCooldown, subOnly, autoPlay);
      ParseInt(w[3]) == Some(letterCooldown) && ParseInt(w[8]) == Some(wordCooldown)
  {
    var w := SettingsWords(letterCooldown, wordCooldown, subOnly, autoPlay);
    assert w[3] == IntToString(letterCooldown) && w[8] == IntToString(wordCooldown);
    ParseIntOfIntToString(letterCooldown, "");
    ParseIntOfIntToString(wordCooldown, "");
    assert IntToString(letterCooldown) + "" == IntToString(letterCooldown);
    assert IntToString(wordCooldown) + "" == IntToString(wordCooldown);
  }

  /**
   * The settings text reads back: its fourth and ninth words parse to the two
   * cooldowns, and its thirteenth and sixteenth words show the two switches.
   */
  lemma SettingsTextReadsBack(letterCooldown: int, wordCooldown: int, subOnly: bool, autoPlay: bool)
    ensures var parts := Split(SettingsText(letterCooldown, wordCooldown, subOnly, autoPlay));
      && |parts| == 16
      && ParseInt(parts[3]) == Some(letterCooldown)
      && ParseInt(parts[8]) == Some(wordCooldown)
      && parts[12] == OnOff(subOnly) + "."
      && parts[15] == OnOff(autoPlay) + "."
  {
    var w := SettingsWords(letterCooldown, wordCooldown, subOnly, autoPlay);
    var parts := Split(SettingsText(letterCooldown, wordCooldown, subOnly, autoPlay));
    SettingsTextSplits(letterCooldown, wordCooldown, subOnly, autoPlay);
    assert parts == w;
    SettingsWordsParse(letterCooldown, wordCooldown, subOnly, autoPlay);
    assert w[12] == OnOff(subOnly) + "." && w[15] == OnOff(autoPlay) + ".";
  }

  class ChannelSettings {
    var id: string
    var letterCooldown: int
    var wordCooldown: int
    var subOnly: bool
    var autoPlay: bool

    /** Both cooldowns are in the range the setters accept. */
    ghost predicate CooldownsInRange()
      reads this
    {
      0 <= letterCooldown <= MAX_COOLDOWN && 0 <= wordCooldown <= MAX_COOLDOWN
    }

    constructor(userId: string)
      ensures id == userId && letterCooldown == 30 && wordCooldown == 60 && !subOnly && !autoPlay
      ensures CooldownsInRange()
    {
      id := userId;
      letterCooldown := 30;
      wordCooldown := 60;
      subOnly := false;
      autoPlay := false;
    }

    function GetSettingJSON(): (j: SettingsJson)
      reads this
      ensures j.id == id && j.letterCooldown == letterCooldown && j.wordCooldown == wordCooldown
      ensures j.subOnly == subOnly && j.autoPlay == autoPlay
    {
      SettingsJson(id, letterCooldown, wordCooldown, subOnly, autoPlay)
    }

    /** Afterwards the settings read back exactly `j`, so setting what was read changes nothing. */
    method SetSettingJSON(j: SettingsJson)
      modifies this
      ensures GetSettingJSON() == j
    {
      id := j.id;
      letterCooldown := j.letterCooldown;
      wordCooldown := j.wordCooldown;
      subOnly := j.subOnly;
      autoPlay := j.autoPlay;
    }

    /** Accepts 0 to 3600 seconds that differ from the current cooldown; anything else changes nothing. */
    method SetLetterCooldown(second: int) returns (changed: bool)
      modifies this`letterCooldown
      ensures changed <==> 0 <= second <= MAX_COOLDOWN && second != old(letterCooldown)
      ensures letterCooldown == if changed then second else old(letterCooldown)
      ensures old(CooldownsInRange()) ==> CooldownsInRange()
    {
      if second < 0 || second > MAX_COOLDOWN || letterCooldown == second {
        changed := false;
      } else {
        letterCooldown := second;
        changed := true;
      }
    }

    /** As `SetLetterCooldown`, for the word cooldown. */
    method SetWordCooldown(second: int) returns (changed: bool)
      modifies this`wordCooldown
      ensures changed <==> 0 <= second <= MAX_COOLDOWN && second != old(wordCooldown)
      ensures wordCooldown == if changed then second else old(wordCooldown)
      ensures old(CooldownsInRange()) ==> CooldownsInRange()
    {
      if second < 0 || second > MAX_COOLDOWN || wordCooldown == second {
        changed := false;
      } else {
        wordCooldown := second;
        changed := true;
      }
    }

    /** Reports whether the switch moved; afterwards it is `state` either way. */
    method SetSubOnly(state: bool) returns (changed: bool)
      modifies this`subOnly
      ensures changed <==> state != old(subOnly)
      ensures subOnly == state
    {
      if subOnly == state {
        changed := false;
      } else {
        subOnly := state;
        changed := true;
      }
    }

    /** As `SetSubOnly`, for the automatic restart. */
    method SetAuto(state: bool) returns (changed: bool)
      modifies this`autoPlay
      ensures changed <==> state != old(autoPlay)
      ensures autoPlay == state
    {
      if autoPlay == state {
        changed := false;
      } else {
        autoPlay := state;
        changed := true;
      }
    }

    /** The settings as one line of chat, from which every value can be read back. */
    function PrintSettings(): (text: string)
      reads this
      ensures var parts := Split(text);
        && |parts| == 16
        && ParseInt(parts[3]) == Some(letterCooldown)
        && ParseInt(parts[8]) == Some(wordCooldown)
        && parts[12] == OnOff(subOnly) + "."
        && parts[15] == OnOff(autoPlay) + "."
    {
      SettingsTextReadsBack(letterCooldown, wordCooldown, subOnly, autoPlay);
      SettingsText(letterCooldown, wordCooldown, subOnly, autoPlay)
    }
  }
}
