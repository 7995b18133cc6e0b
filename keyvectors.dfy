/** Tokens whose reading the layout language's rules single out: unknown and exact
    command names, a negative width, a glyph that is itself a sigil, and the
    pressed marker on a two-character key. */
module KeyVectors {
  import opened Wrappers
  import opened QtString
  import opened VirtKeyDefs
  import opened KeyParser
  import opened KeyFormat

  /** `&UNKNOWNCMD`: a name that is no enum key gives a CUSTOM command. */
  lemma UnknownCommandIsCustom()
    ensures KeySpec("&UNKNOWNCMD") == Some(KeyData(Command, Custom, "", 1.0, false, "", None))
  {
    var k := CommandSource("UNKNOWNCMD", "", "", "", false);
    assert Format(k) == "&UNKNOWNCMD";
    assert KeyToValue("UNKNOWNCMD") == None;
    assert Expected(k) == KeyData(Command, Custom, "", 1.0, false, "", None);
    ParseFormat(k);
  }

  /** `&SHIFT`: the exact enum key selects SHIFT. */
  lemma ShiftNameIsShift()
    ensures KeySpec("&SHIFT") == Some(KeyData(Command, Shift, "", 1.0, false, "", None))
  {
    var k := CommandSource("SHIFT", "", "", "", false);
    assert Format(k) == "&SHIFT";
    assert KeyToValue("SHIFT") == Some(Shift);
    assert Expected(k) == KeyData(Command, Shift, "", 1.0, false, "", None);
    ParseFormat(k);
  }

  /** Matching is case-sensitive: `&shift` is a CUSTOM command. */
  lemma LowerCaseNameIsCustom()
    ensures KeySpec("&shift") == Some(KeyData(Command, Custom, "", 1.0, false, "", None))
  {
    var k := CommandSource("shift", "", "", "", false);
    assert Format(k) == "&shift";
    assert KeyToValue("shift") == None;
    assert Expected(k) == KeyData(Command, Custom, "", 1.0, false, "", None);
    ParseFormat(k);
  }

  /** `&UNDEFINED` names the enum key UNDEFINED, so the command is UNDEFINED and not
      CUSTOM. */
  lemma UndefinedNameIsUndefined()
    ensures KeySpec("&UNDEFINED") == Some(KeyData(Command, UndefinedCommand, "", 1.0, false, "", None))
  {
    var k := CommandSource("UNDEFINED", "", "", "", false);
    assert Format(k) == "&UNDEFINED";
    assert KeyToValue("UNDEFINED") == Some(UndefinedCommand);
    assert Expected(k) == KeyData(Command, UndefinedCommand, "", 1.0, false, "", None);
    ParseFormat(k);
  }

  /** Underscores in command text become spaces. */
  lemma UnderscoreText()
    ensures KeySpec("&:a_b") == Some(KeyData(Command, Custom, "a b", 1.0, false, "", None))
  {
    var k := CommandSource("", "a_b", "", "", false);
    assert Format(k) == "&:a_b";
    assert KeyToValue("") == None;
    assert Replace("a_b", '_', ' ') == "a b";
    assert Expected(k) == KeyData(Command, Custom, "a b", 1.0, false, "", None);
    ParseFormat(k);
  }

  /** `#!` is the glyph `!`, not pressed; `#a!` is a pressed `a`. */
  lemma BangGlyph()
    ensures KeySpec("#!") == Some(KeyData(Character, UndefinedCommand, "!", 1.0, false, "", None))
    ensures KeySpec("#a!").value.pressed
  {
    ParseFormat(CharacterSource('!', "", false));
    assert Format(CharacterSource('!', "", false)) == "#!";
    ParseFormat(CharacterSource('a', "", true));
    assert Format(CharacterSource('a', "", true)) == "#a!";
  }

  /** `#%` is the glyph `%` with the default width. */
  lemma PercentGlyph()
    ensures KeySpec("#%") == Some(KeyData(Character, UndefinedCommand, "%", 1.0, false, "", None))
  {
    ParseFormat(CharacterSource('%', "", false));
    assert Format(CharacterSource('%', "", false)) == "#%";
  }

  /** `#a%-1`: the width run after `%` is empty (`-` is not a digit), so the width
      stays 1.0. */
  lemma NegativeWidth()
    ensures KeySpec("#a%-1") == Some(KeyData(Character, UndefinedCommand, "a", 1.0, false, "", None))
  {
    var key := "#a%-1";
    KeySpecCharacter(key);
    assert key[2] == '%' && key[3] != '%' && key[4] != '%';
    LastIndexOfUnique(key, WidthSigil, 2);
    assert !IsWidthChar(key[3]);
    RunEndUnique(key, 3, IsWidthChar, 3);
  }

  /** `#a%0`: a zero width is reset to 1.0. */
  lemma ZeroWidth()
    ensures KeySpec("#a%0") == Some(KeyData(Character, UndefinedCommand, "a", 1.0, false, "", None))
  {
    ParseFormat(CharacterSource('a', "0", false));
    assert Format(CharacterSource('a', "0", false)) == "#a%0";
  }

  /** A spacer reads its width from a `%` at index 1 only. */
  lemma SpacerWidth()
    ensures KeySpec("~%2").value.widthFactor == 2.0
    ensures KeySpec("~x%2").value.widthFactor == 1.0
  {
    ParseFormat(SpacerSource("2", false));
    assert Format(SpacerSource("2", false)) == "~%2";
    assert ToDouble("2") == 2.0 by {
      assert IndexOf("2", '.', 0) == -1;
      assert DigitsValue("2", 0, 1) == 2;
    }
    var key := "~x%2";
    KeySpecSpacer(key);
    LastIndexOfUnique(key, WidthSigil, 2);
  }

  /** `&%2`: the grammar allows an empty command name before `%width`, but the
      parser reads a width only where the last `%` sits beyond index 1 for a command
      key, so this is a CUSTOM key of width 1.0. */
  lemma EmptyNameWidth()
    ensures KeySpec("&%2") == Some(KeyData(Command, Custom, "", 1.0, false, "", None))
  {
    var key := "&%2";
    KeySpecCommand(key);
    assert !IsLetterOrDigit(key[1]);
    RunEndUnique(key, 1, IsLetterOrDigit, 1);
    assert key[1] != ':' && key[2] != ':';
    assert IndexOf(key, CommandTextSigil, 1) == -1;
    LastIndexOfUnique(key, LinkSigil, -1);
    LastIndexOfUnique(key, WidthSigil, 1);
  }

  /** `&:%2` and `&@%2`: name, text and link are empty, but the last `%` sits at
      index 2, beyond index 1, so the width is read. */
  lemma EmptyFieldsWidth()
    ensures KeySpec("&:%2") == Some(KeyData(Command, Custom, "", 2.0, false, "", None))
    ensures KeySpec("&@%2") == Some(KeyData(Command, Custom, "", 2.0, false, "", None))
  {
    assert ToDouble("2") == 2.0 by {
      assert IndexOf("2", '.', 0) == -1;
      assert DigitsValue("2", 0, 1) == 2;
    }
    EmptyTextWidth();
    EmptyLinkWidth();
  }

  lemma EmptyTextWidth()
    requires ToDouble("2") == 2.0
    ensures KeySpec("&:%2") == Some(KeyData(Command, Custom, "", 2.0, false, "", None))
  {
    var key := "&:%2";
    assert NameEnd(key) == 1 by { RunEndUnique(key, 1, IsLetterOrDigit, 1); }
    assert CommandTextOf(key) == "" by {
      assert IndexOf(key, CommandTextSigil, 1) == 1;
      RunEndUnique(key, 2, IsTextChar, 2);
    }
    assert LinkOf(key) == "" by { LastIndexOfUnique(key, LinkSigil, -1); }
    assert WidthOf(key, Command) == 2.0 by { WidthTwoAt2(key); }
    KeySpecCommand(key);
  }

  lemma EmptyLinkWidth()
    requires ToDouble("2") == 2.0
    ensures KeySpec("&@%2") == Some(KeyData(Command, Custom, "", 2.0, false, "", None))
  {
    var key := "&@%2";
    assert NameEnd(key) == 1 by { RunEndUnique(key, 1, IsLetterOrDigit, 1); }
    assert CommandTextOf(key) == "" by { assert IndexOf(key, CommandTextSigil, 1) == -1; }
    assert LinkOf(key) == "" by {
      LastIndexOfUnique(key, LinkSigil, 1);
      RunEndUnique(key, 2, IsLetterOrDigit, 2);
    }
    assert WidthOf(key, Command) == 2.0 by { WidthTwoAt2(key); }
    KeySpecCommand(key);
  }

  /** A four-character command token ending in `%2` with no other `%` is 2.0 wide. */
  lemma WidthTwoAt2(key: string)
    requires key == "&:%2" || key == "&@%2"
    requires ToDouble("2") == 2.0
    ensures WidthOf(key, Command) == 2.0
  {
    LastIndexOfUnique(key, WidthSigil, 2);
    RunEndUnique(key, 3, IsWidthChar, 4);
    assert key[3..4] == "2";
  }

  /** `#a ^b #c`: the token without a key sigil is skipped, so the row holds two keys. */
  lemma SkippedToken()
    ensures |RowSpec("#a ^b #c")| == 2
    ensures RowSpec("#a ^b #c")[0].text == "a" && RowSpec("#a ^b #c")[1].text == "c"
  {
    SkippedTokenSplit();
    SkippedTokenKeys();
  }

  lemma SkippedTokenSplit()
    ensures Split(Simplified("#a ^b #c"), ' ') == ["#a", "^b", "#c"]
  {
    var tokens := ["#a", "^b", "#c"];
    assert forall w :: w in tokens ==> w != [] && NoSpace(w);
    assert JoinWith(tokens, ' ') == "#a ^b #c";
    WordsOfJoin(tokens);
    assert forall p :: p in tokens ==> ' ' !in p;
    SplitOfJoin(tokens, ' ');
  }

  lemma SkippedTokenKeys()
    ensures |KeysOf(["#a", "^b", "#c"])| == 2
    ensures KeysOf(["#a", "^b", "#c"])[0].text == "a" && KeysOf(["#a", "^b", "#c"])[1].text == "c"
  {
    var tokens := ["#a", "^b", "#c"];
    ParseFormat(CharacterSource('a', "", false));
    ParseFormat(CharacterSource('c', "", false));
    assert Format(CharacterSource('a', "", false)) == "#a";
    assert Format(CharacterSource('c', "", false)) == "#c";
    assert KeySpec("^b") == None;
    KeysOfSnoc(tokens, 0);
    KeysOfSnoc(tokens, 1);
    KeysOfSnoc(tokens, 2);
    assert tokens[..0] == [] && tokens[..3] == tokens;
    assert tokens[0] == "#a" && tokens[1] == "^b" && tokens[2] == "#c";
  }
}
