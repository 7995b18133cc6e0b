/** VK_DEFAULT_LAYOUT (VirtKeyboard.h:30-54) as createLayout reads it: four pages,
    letters, caps, symbols1 and symbols2, of four rows each; the keys that switch
    pages name pages that exist, and the shift key of the caps page is the only key
    shown pressed. */
module DefaultLayoutFacts {
  import opened Wrappers
  import opened QtString
  import opened VirtKeyDefs
  import opened KeyParser
  import opened KeyFormat
  import opened PageBuilder
  import opened Keyboard
  import opened PagedLayout

  // ---- the fields of the command tokens of the default layout

  lemma Width1624()
    ensures AllWidthChars("1.624") && WidthValue("1.624") == 1.624
  {
    var s := "1.624";
    assert s[1] == '.' && forall k :: 0 <= k < |s| && k != 1 ==> s[k] != '.';
    assert IndexOf(s, '.', 0) == 1;
    assert IndexOf(s, '.', 2) == -1 by {
      assert forall k :: 2 <= k < |s| ==> s[k] != '.';
    }
    assert DigitsValue(s, 0, 1) == 1;
    assert DigitsValue(s, 2, 5) == 624 by {
      assert DigitsValue(s, 2, 3) == 6;
      assert DigitsValue(s, 2, 4) == 62;
    }
    assert Pow10(3) == 1000;
  }

  lemma Width1625()
    ensures AllWidthChars("1.625") && WidthValue("1.625") == 1.625
  {
    var s := "1.625";
    assert s[1] == '.' && forall k :: 0 <= k < |s| && k != 1 ==> s[k] != '.';
    assert IndexOf(s, '.', 0) == 1;
    assert IndexOf(s, '.', 2) == -1 by {
      assert forall k :: 2 <= k < |s| ==> s[k] != '.';
    }
    assert DigitsValue(s, 0, 1) == 1;
    assert DigitsValue(s, 2, 5) == 625 by {
      assert DigitsValue(s, 2, 3) == 6;
      assert DigitsValue(s, 2, 4) == 62;
    }
    assert Pow10(3) == 1000;
  }

  lemma Width59()
    ensures AllWidthChars("5.9") && WidthValue("5.9") == 5.9
  {
    var s := "5.9";
    assert s[1] == '.' && forall k :: 0 <= k < |s| && k != 1 ==> s[k] != '.';
    assert IndexOf(s, '.', 0) == 1;
    assert IndexOf(s, '.', 2) == -1 by {
      assert forall k :: 2 <= k < |s| ==> s[k] != '.';
    }
    assert DigitsValue(s, 0, 1) == 5;
    assert DigitsValue(s, 2, 3) == 9;
    assert Pow10(1) == 10;
  }

  lemma Width346()
    ensures AllWidthChars("3.46") && WidthValue("3.46") == 3.46
  {
    var s := "3.46";
    assert s[1] == '.' && forall k :: 0 <= k < |s| && k != 1 ==> s[k] != '.';
    assert IndexOf(s, '.', 0) == 1;
    assert IndexOf(s, '.', 2) == -1 by {
      assert forall k :: 2 <= k < |s| ==> s[k] != '.';
    }
    assert DigitsValue(s, 0, 1) == 3;
    assert DigitsValue(s, 2, 4) == 46 by {
      assert DigitsValue(s, 2, 3) == 4;
    }
    assert Pow10(2) == 100;
  }


  lemma LetterName(s: string)
    requires forall k :: 0 <= k < |s| ==> 'a' <= s[k] <= 'z' || 'A' <= s[k] <= 'Z' || '0' <= s[k] <= '9'
    ensures AllLettersOrDigits(s)
  {
  }

  lemma TextChars(s: string)
    requires forall k :: 0 <= k < |s| ==> s[k] != '@' && s[k] != '%' && s[k] != '!'
    ensures AllTextChars(s)
  {
  }

  lemma ShiftName()
    ensures AllLettersOrDigits("SHIFT") && KeyToValue("SHIFT") == Some(Shift)
  {
    LetterName("SHIFT");
  }

  lemma BkspaceName()
    ensures AllLettersOrDigits("BKSPACE") && KeyToValue("BKSPACE") == Some(BkSpace)
  {
    LetterName("BKSPACE");
  }

  lemma EmptyName()
    ensures AllLettersOrDigits("") && KeyToValue("") == None
  {
  }

  lemma SpaceName()
    ensures AllLettersOrDigits("SPACE") && KeyToValue("SPACE") == Some(Space)
  {
    LetterName("SPACE");
  }

  lemma EnterName()
    ensures AllLettersOrDigits("ENTER") && KeyToValue("ENTER") == Some(Enter)
  {
    LetterName("ENTER");
  }

  lemma CapsLink()
    ensures AllLettersOrDigits("caps")
  {
    LetterName("caps");
  }

  lemma LettersLink()
    ensures AllLettersOrDigits("letters")
  {
    LetterName("letters");
  }

  lemma Symbols1Link()
    ensures AllLettersOrDigits("symbols1")
  {
    LetterName("symbols1");
  }

  lemma Symbols2Link()
    ensures AllLettersOrDigits("symbols2")
  {
    LetterName("symbols2");
  }

  lemma Query123Text()
    ensures AllTextChars("?123") && Replace("?123", '_', ' ') == "?123"
  {
    TextChars("?123");
  }

  lemma AbcText()
    ensures AllTextChars("ABC") && Replace("ABC", '_', ' ') == "ABC"
  {
    TextChars("ABC");
  }

  lemma BkSpText()
    ensures AllTextChars("BkSp") && Replace("BkSp", '_', ' ') == "BkSp"
  {
    TextChars("BkSp");
  }

  lemma BkSpaceText()
    ensures AllTextChars("BkSpace") && Replace("BkSpace", '_', ' ') == "BkSpace"
  {
    TextChars("BkSpace");
  }

  lemma EnterText()
    ensures AllTextChars("Enter") && Replace("Enter", '_', ' ') == "Enter"
  {
    TextChars("Enter");
  }

  lemma ShiftText()
    ensures AllTextChars("Shift") && Replace("Shift", '_', ' ') == "Shift"
  {
    TextChars("Shift");
  }

  // ---- the keys of the default layout

  /** A two-character `#c` token is the character key `c`, one key wide and not
      pressed, even where `c` is itself a sigil such as `!` or `%`. */
  lemma CharacterToken(t: string)
    requires |t| == 2 && t[0] == CharacterSigil
    ensures KeySpec(t) == Some(KeyData(Character, UndefinedCommand, [t[1]], 1.0, false, "", None))
  {
    ParseFormatCharacter(t[1], "", false);
    assert Format(CharacterSource(t[1], "", false)) == t;
  }

  /** `&SHIFT:Shift@caps%1.624`: the SHIFT command labelled Shift, linked to the caps page. */
  lemma ShiftToCapsKey()
    ensures KeySpec("&SHIFT:Shift@caps%1.624") == Some(KeyData(Command, Shift, "Shift", 1.624, false, "caps", None))
    ensures NoSpace("&SHIFT:Shift@caps%1.624")
  {
    var k := CommandSource("SHIFT", "Shift", "caps", "1.624", false);
    ShiftToCapsWellFormed();
    ShiftToCapsFormat();
    ShiftToCapsExpected();
    ParseFormat(k);
    ShiftToCapsPlain();
  }

  lemma ShiftToCapsWellFormed()
    ensures WellFormed(CommandSource("SHIFT", "Shift", "caps", "1.624", false))
  {
    Width1624();
    ShiftName();
    CapsLink();
    ShiftText();
  }

  lemma ShiftToCapsFormat()
    ensures Format(CommandSource("SHIFT", "Shift", "caps", "1.624", false)) == "&SHIFT:Shift@caps%1.624"
  {
    assert Format(CommandSource("SHIFT", "Shift", "caps", "1.624", false)) == "&" + "SHIFT" + ":Shift" + "@caps" + "%1.624";
    ShiftToCapsPieces();
  }

  lemma ShiftToCapsPieces()
    ensures "&SHIFT:Shift@caps%1.624" == "&" + "SHIFT" + ":Shift" + "@caps" + "%1.624"
  {
  }

  lemma ShiftToCapsExpected()
    requires WellFormed(CommandSource("SHIFT", "Shift", "caps", "1.624", false))
    ensures Expected(CommandSource("SHIFT", "Shift", "caps", "1.624", false)) == KeyData(Command, Shift, "Shift", 1.624, false, "caps", None)
  {
    Width1624();
    ShiftName();
    ShiftText();
  }

  lemma ShiftToCapsPlain()
    ensures NoSpace("&SHIFT:Shift@caps%1.624")
  {
  }

  /** `&BKSPACE:BkSpace%1.625`: the BKSPACE command labelled BkSpace. */
  lemma BackSpaceKey()
    ensures KeySpec("&BKSPACE:BkSpace%1.625") == Some(KeyData(Command, BkSpace, "BkSpace", 1.625, false, "", None))
    ensures NoSpace("&BKSPACE:BkSpace%1.625")
  {
    var k := CommandSource("BKSPACE", "BkSpace", "", "1.625", false);
    BackSpaceWellFormed();
    BackSpaceFormat();
    BackSpaceExpected();
    ParseFormat(k);
    BackSpacePlain();
  }

  lemma BackSpaceWellFormed()
    ensures WellFormed(CommandSource("BKSPACE", "BkSpace", "", "1.625", false))
  {
    Width1625();
    BkspaceName();
    BkSpaceText();
  }

  lemma BackSpaceFormat()
    ensures Format(CommandSource("BKSPACE", "BkSpace", "", "1.625", false)) == "&BKSPACE:BkSpace%1.625"
  {
    assert Format(CommandSource("BKSPACE", "BkSpace", "", "1.625", false)) == "&" + "BKSPACE" + ":BkSpace" + "%1.625";
    BackSpacePieces();
  }

  lemma BackSpacePieces()
    ensures "&BKSPACE:BkSpace%1.625" == "&" + "BKSPACE" + ":BkSpace" + "%1.625"
  {
  }

  lemma BackSpaceExpected()
    requires WellFormed(CommandSource("BKSPACE", "BkSpace", "", "1.625", false))
    ensures Expected(CommandSource("BKSPACE", "BkSpace", "", "1.625", false)) == KeyData(Command, BkSpace, "BkSpace", 1.625, false, "", None)
  {
    Width1625();
    BkspaceName();
    BkSpaceText();
  }

  lemma BackSpacePlain()
    ensures NoSpace("&BKSPACE:BkSpace%1.625")
  {
  }

  /** `&:?123@symbols1%1.624`: a nameless, so CUSTOM, command labelled ?123, linked to the symbols1 page. */
  lemma ToSymbols1Key()
    ensures KeySpec("&:?123@symbols1%1.624") == Some(KeyData(Command, Custom, "?123", 1.624, false, "symbols1", None))
    ensures NoSpace("&:?123@symbols1%1.624")
  {
    var k := CommandSource("", "?123", "symbols1", "1.624", false);
    ToSymbols1WellFormed();
    ToSymbols1Format();
    ToSymbols1Expected();
    ParseFormat(k);
    ToSymbols1Plain();
  }

  lemma ToSymbols1WellFormed()
    ensures WellFormed(CommandSource("", "?123", "symbols1", "1.624", false))
  {
    Width1624();
    EmptyName();
    Symbols1Link();
    Query123Text();
  }

  lemma ToSymbols1Format()
    ensures Format(CommandSource("", "?123", "symbols1", "1.624", false)) == "&:?123@symbols1%1.624"
  {
    assert Format(CommandSource("", "?123", "symbols1", "1.624", false)) == "&" + ":?123" + "@symbols1" + "%1.624";
    ToSymbols1Pieces();
  }

  lemma ToSymbols1Pieces()
    ensures "&:?123@symbols1%1.624" == "&" + ":?123" + "@symbols1" + "%1.624"
  {
  }

  lemma ToSymbols1Expected()
    requires WellFormed(CommandSource("", "?123", "symbols1", "1.624", false))
    ensures Expected(CommandSource("", "?123", "symbols1", "1.624", false)) == KeyData(Command, Custom, "?123", 1.624, false, "symbols1", None)
  {
    Width1624();
    EmptyName();
    Query123Text();
  }

  lemma ToSymbols1Plain()
    ensures NoSpace("&:?123@symbols1%1.624")
  {
  }

  /** `&SPACE%5.9`: the SPACE command, five and nine tenths keys wide, with no text. */
  lemma WideSpaceKey()
    ensures KeySpec("&SPACE%5.9") == Some(KeyData(Command, Space, "", 5.9, false, "", None))
    ensures NoSpace("&SPACE%5.9")
  {
    var k := CommandSource("SPACE", "", "", "5.9", false);
    WideSpaceWellFormed();
    WideSpaceFormat();
    WideSpaceExpected();
    ParseFormat(k);
    WideSpacePlain();
  }

  lemma WideSpaceWellFormed()
    ensures WellFormed(CommandSource("SPACE", "", "", "5.9", false))
  {
    Width59();
    SpaceName();
  }

  lemma WideSpaceFormat()
    ensures Format(CommandSource("SPACE", "", "", "5.9", false)) == "&SPACE%5.9"
  {
    assert Format(CommandSource("SPACE", "", "", "5.9", false)) == "&" + "SPACE" + "%5.9";
    WideSpacePieces();
  }

  lemma WideSpacePieces()
    ensures "&SPACE%5.9" == "&" + "SPACE" + "%5.9"
  {
  }

  lemma WideSpaceExpected()
    requires WellFormed(CommandSource("SPACE", "", "", "5.9", false))
    ensures Expected(CommandSource("SPACE", "", "", "5.9", false)) == KeyData(Command, Space, "", 5.9, false, "", None)
  {
    Width59();
    SpaceName();
  }

  lemma WideSpacePlain()
    ensures NoSpace("&SPACE%5.9")
  {
  }

  /** `&ENTER:Enter%1.625`: the ENTER command labelled Enter. */
  lemma EnterKey()
    ensures KeySpec("&ENTER:Enter%1.625") == Some(KeyData(Command, Enter, "Enter", 1.625, false, "", None))
    ensures NoSpace("&ENTER:Enter%1.625")
  {
    var k := CommandSource("ENTER", "Enter", "", "1.625", false);
    EnterWellFormed();
    EnterFormat();
    EnterExpected();
    ParseFormat(k);
    EnterPlain();
  }

  lemma EnterWellFormed()
    ensures WellFormed(CommandSource("ENTER", "Enter", "", "1.625", false))
  {
    Width1625();
    EnterName();
    EnterText();
  }

  lemma EnterFormat()
    ensures Format(CommandSource("ENTER", "Enter", "", "1.625", false)) == "&ENTER:Enter%1.625"
  {
    assert Format(CommandSource("ENTER", "Enter", "", "1.625", false)) == "&" + "ENTER" + ":Enter" + "%1.625";
    EnterPieces();
  }

  lemma EnterPieces()
    ensures "&ENTER:Enter%1.625" == "&" + "ENTER" + ":Enter" + "%1.625"
  {
  }

  lemma EnterExpected()
    requires WellFormed(CommandSource("ENTER", "Enter", "", "1.625", false))
    ensures Expected(CommandSource("ENTER", "Enter", "", "1.625", false)) == KeyData(Command, Enter, "Enter", 1.625, false, "", None)
  {
    Width1625();
    EnterName();
    EnterText();
  }

  lemma EnterPlain()
    ensures NoSpace("&ENTER:Enter%1.625")
  {
  }

  /** `&SHIFT:Shift@letters%1.624!`: the SHIFT command labelled Shift, linked to the letters page and pressed. */
  lemma ShiftToLettersKey()
    ensures KeySpec("&SHIFT:Shift@letters%1.624!") == Some(KeyData(Command, Shift, "Shift", 1.624, true, "letters", None))
    ensures NoSpace("&SHIFT:Shift@letters%1.624!")
  {
    var k := CommandSource("SHIFT", "Shift", "letters", "1.624", true);
    ShiftToLettersWellFormed();
    ShiftToLettersFormat();
    ShiftToLettersExpected();
    ParseFormat(k);
    ShiftToLettersPlain();
  }

  lemma ShiftToLettersWellFormed()
    ensures WellFormed(CommandSource("SHIFT", "Shift", "letters", "1.624", true))
  {
    Width1624();
    ShiftName();
    LettersLink();
    ShiftText();
  }

  lemma ShiftToLettersFormat()
    ensures Format(CommandSource("SHIFT", "Shift", "letters", "1.624", true)) == "&SHIFT:Shift@letters%1.624!"
  {
    assert Format(CommandSource("SHIFT", "Shift", "letters", "1.624", true)) == "&" + "SHIFT" + ":Shift" + "@letters" + "%1.624" + "!";
    ShiftToLettersPieces();
  }

  lemma ShiftToLettersPieces()
    ensures "&SHIFT:Shift@letters%1.624!" == "&" + "SHIFT" + ":Shift" + "@letters" + "%1.624" + "!"
  {
  }

  lemma ShiftToLettersExpected()
    requires WellFormed(CommandSource("SHIFT", "Shift", "letters", "1.624", true))
    ensures Expected(CommandSource("SHIFT", "Shift", "letters", "1.624", true)) == KeyData(Command, Shift, "Shift", 1.624, true, "letters", None)
  {
    Width1624();
    ShiftName();
    ShiftText();
  }

  lemma ShiftToLettersPlain()
    ensures NoSpace("&SHIFT:Shift@letters%1.624!")
  {
  }

  /** `&:?123@symbols2%1.624`: a CUSTOM command labelled ?123, linked to the symbols2 page. */
  lemma ToSymbols2Key()
    ensures KeySpec("&:?123@symbols2%1.624") == Some(KeyData(Command, Custom, "?123", 1.624, false, "symbols2", None))
    ensures NoSpace("&:?123@symbols2%1.624")
  {
    var k := CommandSource("", "?123", "symbols2", "1.624", false);
    ToSymbols2WellFormed();
    ToSymbols2Format();
    ToSymbols2Expected();
    ParseFormat(k);
    ToSymbols2Plain();
  }

  lemma ToSymbols2WellFormed()
    ensures WellFormed(CommandSource("", "?123", "symbols2", "1.624", false))
  {
    Width1624();
    EmptyName();
    Symbols2Link();
    Query123Text();
  }

  lemma ToSymbols2Format()
    ensures Format(CommandSource("", "?123", "symbols2", "1.624", false)) == "&:?123@symbols2%1.624"
  {
    assert Format(CommandSource("", "?123", "symbols2", "1.624", false)) == "&" + ":?123" + "@symbols2" + "%1.624";
    ToSymbols2Pieces();
  }

  lemma ToSymbols2Pieces()
    ensures "&:?123@symbols2%1.624" == "&" + ":?123" + "@symbols2" + "%1.624"
  {
  }

  lemma ToSymbols2Expected()
    requires WellFormed(CommandSource("", "?123", "symbols2", "1.624", false))
    ensures Expected(CommandSource("", "?123", "symbols2", "1.624", false)) == KeyData(Command, Custom, "?123", 1.624, false, "symbols2", None)
  {
    Width1624();
    EmptyName();
    Query123Text();
  }

  lemma ToSymbols2Plain()
    ensures NoSpace("&:?123@symbols2%1.624")
  {
  }

  /** `&BKSPACE:BkSp`: the BKSPACE command labelled BkSp, one key wide. */
  lemma ShortBackSpaceKey()
    ensures KeySpec("&BKSPACE:BkSp") == Some(KeyData(Command, BkSpace, "BkSp", 1.0, false, "", None))
    ensures NoSpace("&BKSPACE:BkSp")
  {
    var k := CommandSource("BKSPACE", "BkSp", "", "", false);
    ShortBackSpaceWellFormed();
    ShortBackSpaceFormat();
    ShortBackSpaceExpected();
    ParseFormat(k);
    ShortBackSpacePlain();
  }

  lemma ShortBackSpaceWellFormed()
    ensures WellFormed(CommandSource("BKSPACE", "BkSp", "", "", false))
  {
    BkspaceName();
    BkSpText();
  }

  lemma ShortBackSpaceFormat()
    ensures Format(CommandSource("BKSPACE", "BkSp", "", "", false)) == "&BKSPACE:BkSp"
  {
    assert Format(CommandSource("BKSPACE", "BkSp", "", "", false)) == "&" + "BKSPACE" + ":BkSp";
    ShortBackSpacePieces();
  }

  lemma ShortBackSpacePieces()
    ensures "&BKSPACE:BkSp" == "&" + "BKSPACE" + ":BkSp"
  {
  }

  lemma ShortBackSpaceExpected()
    requires WellFormed(CommandSource("BKSPACE", "BkSp", "", "", false))
    ensures Expected(CommandSource("BKSPACE", "BkSp", "", "", false)) == KeyData(Command, BkSpace, "BkSp", 1.0, false, "", None)
  {
    BkspaceName();
    BkSpText();
  }

  lemma ShortBackSpacePlain()
    ensures NoSpace("&BKSPACE:BkSp")
  {
  }

  /** `&:ABC@letters%1.624`: a CUSTOM command labelled ABC, linked to the letters page. */
  lemma AbcToLettersKey()
    ensures KeySpec("&:ABC@letters%1.624") == Some(KeyData(Command, Custom, "ABC", 1.624, false, "letters", None))
    ensures NoSpace("&:ABC@letters%1.624")
  {
    var k := CommandSource("", "ABC", "letters", "1.624", false);
    AbcToLettersWellFormed();
    AbcToLettersFormat();
    AbcToLettersExpected();
    ParseFormat(k);
    AbcToLettersPlain();
  }

  lemma AbcToLettersWellFormed()
    ensures WellFormed(CommandSource("", "ABC", "letters", "1.624", false))
  {
    Width1624();
    EmptyName();
    LettersLink();
    AbcText();
  }

  lemma AbcToLettersFormat()
    ensures Format(CommandSource("", "ABC", "letters", "1.624", false)) == "&:ABC@letters%1.624"
  {
    assert Format(CommandSource("", "ABC", "letters", "1.624", false)) == "&" + ":ABC" + "@letters" + "%1.624";
    AbcToLettersPieces();
  }

  lemma AbcToLettersPieces()
    ensures "&:ABC@letters%1.624" == "&" + ":ABC" + "@letters" + "%1.624"
  {
  }

  lemma AbcToLettersExpected()
    requires WellFormed(CommandSource("", "ABC", "letters", "1.624", false))
    ensures Expected(CommandSource("", "ABC", "letters", "1.624", false)) == KeyData(Command, Custom, "ABC", 1.624, false, "letters", None)
  {
    Width1624();
    EmptyName();
    AbcText();
  }

  lemma AbcToLettersPlain()
    ensures NoSpace("&:ABC@letters%1.624")
  {
  }

  /** `&SPACE%3.46`: the SPACE command, 3.46 keys wide. */
  lemma NarrowSpaceKey()
    ensures KeySpec("&SPACE%3.46") == Some(KeyData(Command, Space, "", 3.46, false, "", None))
    ensures NoSpace("&SPACE%3.46")
  {
    var k := CommandSource("SPACE", "", "", "3.46", false);
    NarrowSpaceWellFormed();
    NarrowSpaceFormat();
    NarrowSpaceExpected();
    ParseFormat(k);
    NarrowSpacePlain();
  }

  lemma NarrowSpaceWellFormed()
    ensures WellFormed(CommandSource("SPACE", "", "", "3.46", false))
  {
    Width346();
    SpaceName();
  }

  lemma NarrowSpaceFormat()
    ensures Format(CommandSource("SPACE", "", "", "3.46", false)) == "&SPACE%3.46"
  {
    assert Format(CommandSource("SPACE", "", "", "3.46", false)) == "&" + "SPACE" + "%3.46";
    NarrowSpacePieces();
  }

  lemma NarrowSpacePieces()
    ensures "&SPACE%3.46" == "&" + "SPACE" + "%3.46"
  {
  }

  lemma NarrowSpaceExpected()
    requires WellFormed(CommandSource("SPACE", "", "", "3.46", false))
    ensures Expected(CommandSource("SPACE", "", "", "3.46", false)) == KeyData(Command, Space, "", 3.46, false, "", None)
  {
    Width346();
    SpaceName();
  }

  lemma NarrowSpacePlain()
    ensures NoSpace("&SPACE%3.46")
  {
  }

  /** `&:ABC@caps%1.624`: a CUSTOM command labelled ABC, linked to the caps page. */
  lemma AbcToCapsKey()
    ensures KeySpec("&:ABC@caps%1.624") == Some(KeyData(Command, Custom, "ABC", 1.624, false, "caps", None))
    ensures NoSpace("&:ABC@caps%1.624")
  {
    var k := CommandSource("", "ABC", "caps", "1.624", false);
    AbcToCapsWellFormed();
    AbcToCapsFormat();
    AbcToCapsExpected();
    ParseFormat(k);
    AbcToCapsPlain();
  }

  lemma AbcToCapsWellFormed()
    ensures WellFormed(CommandSource("", "ABC", "caps", "1.624", false))
  {
    Width1624();
    EmptyName();
    CapsLink();
    AbcText();
  }

  lemma AbcToCapsFormat()
    ensures Format(CommandSource("", "ABC", "caps", "1.624", false)) == "&:ABC@caps%1.624"
  {
    assert Format(CommandSource("", "ABC", "caps", "1.624", false)) == "&" + ":ABC" + "@caps" + "%1.624";
    AbcToCapsPieces();
  }

  lemma AbcToCapsPieces()
    ensures "&:ABC@caps%1.624" == "&" + ":ABC" + "@caps" + "%1.624"
  {
  }

  lemma AbcToCapsExpected()
    requires WellFormed(CommandSource("", "ABC", "caps", "1.624", false))
    ensures Expected(CommandSource("", "ABC", "caps", "1.624", false)) == KeyData(Command, Custom, "ABC", 1.624, false, "caps", None)
  {
    Width1624();
    EmptyName();
    AbcText();
  }

  lemma AbcToCapsPlain()
    ensures NoSpace("&:ABC@caps%1.624")
  {
  }

  /** A token that is a key with no link and not shown pressed. */
  predicate PlainKey(t: string)
  {
    t != [] && NoSpace(t) && KeySpec(t).Some? && KeySpec(t).value.linkStr == "" &&
    !KeySpec(t).value.pressed
  }

  /** The first token of a row: a key that opens with a key sigil, with the given
      link and pressed state. */
  predicate FirstKey(t: string, link: string, pressed: bool)
  {
    t != [] && NoSpace(t) && (t[0] == CharacterSigil || t[0] == CommandSigil) &&
    KeySpec(t).Some? && KeySpec(t).value.linkStr == link && KeySpec(t).value.pressed == pressed
  }

  lemma CharacterFirst(t: string)
    requires |t| == 2 && t[0] == CharacterSigil && !IsSpace(t[1])
    ensures FirstKey(t, "", false)
  {
    CharacterToken(t);
  }

  lemma CharacterKey(t: string)
    requires |t| == 2 && t[0] == CharacterSigil && !IsSpace(t[1])
    ensures PlainKey(t)
  {
    CharacterToken(t);
  }

  /** A key row of the default layout: tokens without whitespace, each a key, the
      first opening with a key sigil and carrying the given link and pressed state,
      the others plain. */
  predicate KeyRow(ts: seq<string>, link: string, pressed: bool)
  {
    ts != [] && FirstKey(ts[0], link, pressed) && forall c :: 0 < c < |ts| ==> PlainKey(ts[c])
  }

  /** A row whose first key and every later key are known, two of those separately. */
  lemma KeyRowOf(ts: seq<string>, link: string, pressed: bool, i: nat, j: nat)
    requires ts != []
    requires FirstKey(ts[0], link, pressed)
    requires 0 < i < |ts| && 0 < j < |ts|
    requires PlainKey(ts[i])
    requires PlainKey(ts[j])
    requires forall c :: 0 < c < |ts| && c != i && c != j ==> PlainKey(ts[c])
    ensures KeyRow(ts, link, pressed)
  {
  }

  /** The tokens of row `r` of page `p`: page `p` takes lines 6p to 6p + 5 of the
      layout, its header first and an empty line last. */
  function DefaultTokens(p: nat, r: nat): seq<string>
    requires p < 4 && r < 4
  {
    DefaultLayoutRows[6 * p + r + 1]
  }

  /** The link of the first key of row `r` of page `p`: the shift keys of the two
      letter pages and the bottom-left key of every page switch pages. */
  function DefaultLink(p: int, r: int): string
  {
    if p == 0 && r == 2 then "caps"
    else if p == 0 && r == 3 then "symbols1"
    else if p == 1 && r == 2 then "letters"
    else if p == 1 && r == 3 then "symbols2"
    else if p == 2 && r == 3 then "letters"
    else if p == 3 && r == 3 then "caps"
    else ""
  }

  lemma LettersTopRowFirst()
    ensures FirstKey(DefaultTokens(0, 0)[0], "", false)
  {
    CharacterFirst(DefaultTokens(0, 0)[0]);
  }

  lemma LettersTopRowCharacters()
    ensures forall c :: 0 < c < |DefaultTokens(0, 0)| ==> PlainKey(DefaultTokens(0, 0)[c])
    ensures |DefaultTokens(0, 0)| == 10
  {
    var ts := DefaultTokens(0, 0);
    assert ts == DefaultLayoutRows[1];
    forall c | 0 < c < |ts|
      ensures PlainKey(ts[c])
    {
      CharacterKey(ts[c]);
    }
  }

  lemma LettersTopRow()
    ensures KeyRow(DefaultTokens(0, 0), "", false)
  {
    LettersTopRowFirst();
    LettersTopRowCharacters();
  }

  lemma LettersMiddleRowFirst()
    ensures FirstKey(DefaultTokens(0, 1)[0], "", false)
  {
    CharacterFirst(DefaultTokens(0, 1)[0]);
  }

  lemma LettersMiddleRowCharacters()
    ensures forall c :: 0 < c < |DefaultTokens(0, 1)| ==> PlainKey(DefaultTokens(0, 1)[c])
    ensures |DefaultTokens(0, 1)| == 9
  {
    var ts := DefaultTokens(0, 1);
    assert ts == DefaultLayoutRows[2];
    forall c | 0 < c < |ts|
      ensures PlainKey(ts[c])
    {
      CharacterKey(ts[c]);
    }
  }

  lemma LettersMiddleRow()
    ensures KeyRow(DefaultTokens(0, 1), "", false)
  {
    LettersMiddleRowFirst();
    LettersMiddleRowCharacters();
  }

  lemma LettersShiftRowFirst()
    ensures FirstKey(DefaultTokens(0, 2)[0], "caps", false)
  {
    assert DefaultTokens(0, 2)[0] == "&SHIFT:Shift@caps%1.624";
    ShiftToCapsKey();
  }

  lemma LettersShiftRowKey8()
    ensures PlainKey(DefaultTokens(0, 2)[8])
  {
    assert DefaultTokens(0, 2)[8] == "&BKSPACE:BkSpace%1.625";
    BackSpaceKey();
  }

  lemma LettersShiftRowCharacters()
    ensures forall c :: 0 < c < |DefaultTokens(0, 2)| && c != 8 ==> PlainKey(DefaultTokens(0, 2)[c])
    ensures |DefaultTokens(0, 2)| == 9
  {
    var ts := DefaultTokens(0, 2);
    assert ts == DefaultLayoutRows[3];
    forall c | 0 < c < |ts| && c != 8
      ensures PlainKey(ts[c])
    {
      CharacterKey(ts[c]);
    }
  }

  lemma LettersShiftRow()
    ensures KeyRow(DefaultTokens(0, 2), "caps", false)
  {
    LettersShiftRowFirst();
    LettersShiftRowKey8();
    LettersShiftRowCharacters();
    KeyRowOf(DefaultTokens(0, 2), "caps", false, 8, 8);
  }

  lemma LettersBottomRowFirst()
    ensures FirstKey(DefaultTokens(0, 3)[0], "symbols1", false)
  {
    assert DefaultTokens(0, 3)[0] == "&:?123@symbols1%1.624";
    ToSymbols1Key();
  }

  lemma LettersBottomRowKey2()
    ensures PlainKey(DefaultTokens(0, 3)[2])
  {
    assert DefaultTokens(0, 3)[2] == "&SPACE%5.9";
    WideSpaceKey();
  }

  lemma LettersBottomRowKey4()
    ensures PlainKey(DefaultTokens(0, 3)[4])
  {
    assert DefaultTokens(0, 3)[4] == "&ENTER:Enter%1.625";
    EnterKey();
  }

  lemma LettersBottomRowCharacters()
    ensures forall c :: 0 < c < |DefaultTokens(0, 3)| && c != 2 && c != 4 ==> PlainKey(DefaultTokens(0, 3)[c])
    ensures |DefaultTokens(0, 3)| == 5
  {
    var ts := DefaultTokens(0, 3);
    assert ts == DefaultLayoutRows[4];
    forall c | 0 < c < |ts| && c != 2 && c != 4
      ensures PlainKey(ts[c])
    {
      CharacterKey(ts[c]);
    }
  }

  lemma LettersBottomRow()
    ensures KeyRow(DefaultTokens(0, 3), "symbols1", false)
  {
    LettersBottomRowFirst();
    LettersBottomRowKey2();
    LettersBottomRowKey4();
    LettersBottomRowCharacters();
    KeyRowOf(DefaultTokens(0, 3), "symbols1", false, 2, 4);
  }

  lemma CapsTopRowFirst()
    ensures FirstKey(DefaultTokens(1, 0)[0], "", false)
  {
    CharacterFirst(DefaultTokens(1, 0)[0]);
  }

  lemma CapsTopRowCharacters()
    ensures forall c :: 0 < c < |DefaultTokens(1, 0)| ==> PlainKey(DefaultTokens(1, 0)[c])
    ensures |DefaultTokens(1, 0)| == 10
  {
    var ts := DefaultTokens(1, 0);
    assert ts == DefaultLayoutRows[7];
    forall c | 0 < c < |ts|
      ensures PlainKey(ts[c])
    {
      CharacterKey(ts[c]);
    }
  }

  lemma CapsTopRow()
    ensures KeyRow(DefaultTokens(1, 0), "", false)
  {
    CapsTopRowFirst();
    CapsTopRowCharacters();
  }

  lemma CapsMiddleRowFirst()
    ensures FirstKey(DefaultTokens(1, 1)[0], "", false)
  {
    CharacterFirst(DefaultTokens(1, 1)[0]);
  }

  lemma CapsMiddleRowCharacters()
    ensures forall c :: 0 < c < |DefaultTokens(1, 1)| ==> PlainKey(DefaultTokens(1, 1)[c])
    ensures |DefaultTokens(1, 1)| == 9
  {
    var ts := DefaultTokens(1, 1);
    assert ts == DefaultLayoutRows[8];
    forall c | 0 < c < |ts|
      ensures PlainKey(ts[c])
    {
      CharacterKey(ts[c]);
    }
  }

  lemma CapsMiddleRow()
    ensures KeyRow(DefaultTokens(1, 1), "", false)
  {
    CapsMiddleRowFirst();
    CapsMiddleRowCharacters();
  }

  lemma CapsShiftRowFirst()
    ensures FirstKey(DefaultTokens(1, 2)[0], "letters", true)
  {
    assert DefaultTokens(1, 2)[0] == "&SHIFT:Shift@letters%1.624!";
    ShiftToLettersKey();
  }

  lemma CapsShiftRowKey8()
    ensures PlainKey(DefaultTokens(1, 2)[8])
  {
    assert DefaultTokens(1, 2)[8] == "&BKSPACE:BkSpace%1.625";
    BackSpaceKey();
  }

  lemma CapsShiftRowCharacters()
    ensures forall c :: 0 < c < |DefaultTokens(1, 2)| && c != 8 ==> PlainKey(DefaultTokens(1, 2)[c])
    ensures |DefaultTokens(1, 2)| == 9
  {
    var ts := DefaultTokens(1, 2);
    assert ts == DefaultLayoutRows[9];
    forall c | 0 < c < |ts| && c != 8
      ensures PlainKey(ts[c])
    {
      CharacterKey(ts[c]);
    }
  }

  lemma CapsShiftRow()
    ensures KeyRow(DefaultTokens(1, 2), "letters", true)
  {
    CapsShiftRowFirst();
    CapsShiftRowKey8();
    CapsShiftRowCharacters();
    KeyRowOf(DefaultTokens(1, 2), "letters", true, 8, 8);
  }

  lemma CapsBottomRowFirst()
    ensures FirstKey(DefaultTokens(1, 3)[0], "symbols2", false)
  {
    assert DefaultTokens(1, 3)[0] == "&:?123@symbols2%1.624";
    ToSymbols2Key();
  }

  lemma CapsBottomRowKey2()
    ensures PlainKey(DefaultTokens(1, 3)[2])
  {
    assert DefaultTokens(1, 3)[2] == "&SPACE%5.9";
    WideSpaceKey();
  }

  lemma CapsBottomRowKey4()
    ensures PlainKey(DefaultTokens(1, 3)[4])
  {
    assert DefaultTokens(1, 3)[4] == "&ENTER:Enter%1.625";
    EnterKey();
  }

  lemma CapsBottomRowCharacters()
    ensures forall c :: 0 < c < |DefaultTokens(1, 3)| && c != 2 && c != 4 ==> PlainKey(DefaultTokens(1, 3)[c])
    ensures |DefaultTokens(1, 3)| == 5
  {
    var ts := DefaultTokens(1, 3);
    assert ts == DefaultLayoutRows[10];
    forall c | 0 < c < |ts| && c != 2 && c != 4
      ensures PlainKey(ts[c])
    {
      CharacterKey(ts[c]);
    }
  }

  lemma CapsBottomRow()
    ensures KeyRow(DefaultTokens(1, 3), "symbols2", false)
  {
    CapsBottomRowFirst();
    CapsBottomRowKey2();
    CapsBottomRowKey4();
    CapsBottomRowCharacters();
    KeyRowOf(DefaultTokens(1, 3), "symbols2", false, 2, 4);
  }

  lemma Symbols1TopRowFirst()
    ensures FirstKey(DefaultTokens(2, 0)[0], "", false)
  {
    CharacterFirst(DefaultTokens(2, 0)[0]);
  }

  lemma Symbols1TopRowCharacters()
    ensures forall c :: 0 < c < |DefaultTokens(2, 0)| ==> PlainKey(DefaultTokens(2, 0)[c])
    ensures |DefaultTokens(2, 0)| == 10
  {
    var ts := DefaultTokens(2, 0);
    assert ts == DefaultLayoutRows[13];
    forall c | 0 < c < |ts|
      ensures PlainKey(ts[c])
    {
      CharacterKey(ts[c]);
    }
  }

  lemma Symbols1TopRow()
    ensures KeyRow(DefaultTokens(2, 0), "", false)
  {
    Symbols1TopRowFirst();
    Symbols1TopRowCharacters();
  }

  lemma Symbols1MiddleRowFirst()
    ensures FirstKey(DefaultTokens(2, 1)[0], "", false)
  {
    CharacterFirst(DefaultTokens(2, 1)[0]);
  }

  lemma Symbols1MiddleRowCharacters()
    ensures forall c :: 0 < c < |DefaultTokens(2, 1)| ==> PlainKey(DefaultTokens(2, 1)[c])
    ensures |DefaultTokens(2, 1)| == 9
  {
    var ts := DefaultTokens(2, 1);
    assert ts == DefaultLayoutRows[14];
    forall c | 0 < c < |ts|
      ensures PlainKey(ts[c])
    {
      CharacterKey(ts[c]);
    }
  }

  lemma Symbols1MiddleRow()
    ensures KeyRow(DefaultTokens(2, 1), "", false)
  {
    Symbols1MiddleRowFirst();
    Symbols1MiddleRowCharacters();
  }

  lemma Symbols1ShiftRowFirst()
    ensures FirstKey(DefaultTokens(2, 2)[0], "", false)
  {
    CharacterFirst(DefaultTokens(2, 2)[0]);
  }

  lemma Symbols1ShiftRowKey9()
    ensures PlainKey(DefaultTokens(2, 2)[9])
  {
    assert DefaultTokens(2, 2)[9] == "&BKSPACE:BkSp";
    ShortBackSpaceKey();
  }

  lemma Symbols1ShiftRowCharacters()
    ensures forall c :: 0 < c < |DefaultTokens(2, 2)| && c != 9 ==> PlainKey(DefaultTokens(2, 2)[c])
    ensures |DefaultTokens(2, 2)| == 10
  {
    var ts := DefaultTokens(2, 2);
    assert ts == DefaultLayoutRows[15];
    forall c | 0 < c < |ts| && c != 9
      ensures PlainKey(ts[c])
    {
      CharacterKey(ts[c]);
    }
  }

  lemma Symbols1ShiftRow()
    ensures KeyRow(DefaultTokens(2, 2), "", false)
  {
    Symbols1ShiftRowFirst();
    Symbols1ShiftRowKey9();
    Symbols1ShiftRowCharacters();
    KeyRowOf(DefaultTokens(2, 2), "", false, 9, 9);
  }

  lemma Symbols1BottomRowFirst()
    ensures FirstKey(DefaultTokens(2, 3)[0], "letters", false)
  {
    assert DefaultTokens(2, 3)[0] == "&:ABC@letters%1.624";
    AbcToLettersKey();
  }

  lemma Symbols1BottomRowKey3()
    ensures PlainKey(DefaultTokens(2, 3)[3])
  {
    assert DefaultTokens(2, 3)[3] == "&SPACE%3.46";
    NarrowSpaceKey();
  }

  lemma Symbols1BottomRowKey6()
    ensures PlainKey(DefaultTokens(2, 3)[6])
  {
    assert DefaultTokens(2, 3)[6] == "&ENTER:Enter%1.625";
    EnterKey();
  }

  lemma Symbols1BottomRowCharacters()
    ensures forall c :: 0 < c < |DefaultTokens(2, 3)| && c != 3 && c != 6 ==> PlainKey(DefaultTokens(2, 3)[c])
    ensures |DefaultTokens(2, 3)| == 7
  {
    var ts := DefaultTokens(2, 3);
    assert ts == DefaultLayoutRows[16];
    forall c | 0 < c < |ts| && c != 3 && c != 6
      ensures PlainKey(ts[c])
    {
      CharacterKey(ts[c]);
    }
  }

  lemma Symbols1BottomRow()
    ensures KeyRow(DefaultTokens(2, 3), "letters", false)
  {
    Symbols1BottomRowFirst();
    Symbols1BottomRowKey3();
    Symbols1BottomRowKey6();
    Symbols1BottomRowCharacters();
    KeyRowOf(DefaultTokens(2, 3), "letters", false, 3, 6);
  }

  lemma Symbols2TopRowFirst()
    ensures FirstKey(DefaultTokens(3, 0)[0], "", false)
  {
    CharacterFirst(DefaultTokens(3, 0)[0]);
  }

  lemma Symbols2TopRowCharacters()
    ensures forall c :: 0 < c < |DefaultTokens(3, 0)| ==> PlainKey(DefaultTokens(3, 0)[c])
    ensures |DefaultTokens(3, 0)| == 10
  {
    var ts := DefaultTokens(3, 0);
    assert ts == DefaultLayoutRows[19];
    forall c | 0 < c < |ts|
      ensures PlainKey(ts[c])
    {
      CharacterKey(ts[c]);
    }
  }

  lemma Symbols2TopRow()
    ensures KeyRow(DefaultTokens(3, 0), "", false)
  {
    Symbols2TopRowFirst();
    Symbols2TopRowCharacters();
  }

  lemma Symbols2MiddleRowFirst()
    ensures FirstKey(DefaultTokens(3, 1)[0], "", false)
  {
    CharacterFirst(DefaultTokens(3, 1)[0]);
  }

  lemma Symbols2MiddleRowCharacters()
    ensures forall c :: 0 < c < |DefaultTokens(3, 1)| ==> PlainKey(DefaultTokens(3, 1)[c])
    ensures |DefaultTokens(3, 1)| == 9
  {
    var ts := DefaultTokens(3, 1);
    assert ts == DefaultLayoutRows[20];
    forall c | 0 < c < |ts|
      ensures PlainKey(ts[c])
    {
      CharacterKey(ts[c]);
    }
  }

  lemma Symbols2MiddleRow()
    ensures KeyRow(DefaultTokens(3, 1), "", false)
  {
    Symbols2MiddleRowFirst();
    Symbols2MiddleRowCharacters();
  }

  lemma Symbols2ShiftRowFirst()
    ensures FirstKey(DefaultTokens(3, 2)[0], "", false)
  {
    CharacterFirst(DefaultTokens(3, 2)[0]);
  }

  lemma Symbols2ShiftRowKey9()
    ensures PlainKey(DefaultTokens(3, 2)[9])
  {
    assert DefaultTokens(3, 2)[9] == "&BKSPACE:BkSp";
    ShortBackSpaceKey();
  }

  lemma Symbols2ShiftRowCharacters()
    ensures forall c :: 0 < c < |DefaultTokens(3, 2)| && c != 9 ==> PlainKey(DefaultTokens(3, 2)[c])
    ensures |DefaultTokens(3, 2)| == 10
  {
    var ts := DefaultTokens(3, 2);
    assert ts == DefaultLayoutRows[21];
    forall c | 0 < c < |ts| && c != 9
      ensures PlainKey(ts[c])
    {
      CharacterKey(ts[c]);
    }
  }

  lemma Symbols2ShiftRow()
    ensures KeyRow(DefaultTokens(3, 2), "", false)
  {
    Symbols2ShiftRowFirst();
    Symbols2ShiftRowKey9();
    Symbols2ShiftRowCharacters();
    KeyRowOf(DefaultTokens(3, 2), "", false, 9, 9);
  }

  lemma Symbols2BottomRowFirst()
    ensures FirstKey(DefaultTokens(3, 3)[0], "caps", false)
  {
    assert DefaultTokens(3, 3)[0] == "&:ABC@caps%1.624";
    AbcToCapsKey();
  }

  lemma Symbols2BottomRowKey3()
    ensures PlainKey(DefaultTokens(3, 3)[3])
  {
    assert DefaultTokens(3, 3)[3] == "&SPACE%3.46";
    NarrowSpaceKey();
  }

  lemma Symbols2BottomRowKey6()
    ensures PlainKey(DefaultTokens(3, 3)[6])
  {
    assert DefaultTokens(3, 3)[6] == "&ENTER:Enter%1.625";
    EnterKey();
  }

  lemma Symbols2BottomRowCharacters()
    ensures forall c :: 0 < c < |DefaultTokens(3, 3)| && c != 3 && c != 6 ==> PlainKey(DefaultTokens(3, 3)[c])
    ensures |DefaultTokens(3, 3)| == 7
  {
    var ts := DefaultTokens(3, 3);
    assert ts == DefaultLayoutRows[22];
    forall c | 0 < c < |ts| && c != 3 && c != 6
      ensures PlainKey(ts[c])
    {
      CharacterKey(ts[c]);
    }
  }

  lemma Symbols2BottomRow()
    ensures KeyRow(DefaultTokens(3, 3), "caps", false)
  {
    Symbols2BottomRowFirst();
    Symbols2BottomRowKey3();
    Symbols2BottomRowKey6();
    Symbols2BottomRowCharacters();
    KeyRowOf(DefaultTokens(3, 3), "caps", false, 3, 6);
  }

  // ---- from the rows to the lines of the layout text

  /** Every key row of the default layout, with the link and pressed state of its
      first key. */
  lemma DefaultKeyRow(p: nat, r: nat)
    requires p < 4 && r < 4
    ensures KeyRow(DefaultTokens(p, r), DefaultLink(p, r), p == 1 && r == 2)
  {
    if p == 0 {
      LettersRows(r);
    } else if p == 1 {
      CapsRows(r);
    } else if p == 2 {
      Symbols1Rows(r);
    } else {
      Symbols2Rows(r);
    }
  }

  lemma LettersRows(r: nat)
    requires r < 4
    ensures KeyRow(DefaultTokens(0, r), DefaultLink(0, r), 0 == 1 && r == 2)
  {
    if r == 0 {
      LettersTopRow();
    } else if r == 1 {
      LettersMiddleRow();
    } else if r == 2 {
      LettersShiftRow();
    } else {
      LettersBottomRow();
    }
  }

  lemma CapsRows(r: nat)
    requires r < 4
    ensures KeyRow(DefaultTokens(1, r), DefaultLink(1, r), 1 == 1 && r == 2)
  {
    if r == 0 {
      CapsTopRow();
    } else if r == 1 {
      CapsMiddleRow();
    } else if r == 2 {
      CapsShiftRow();
    } else {
      CapsBottomRow();
    }
  }

  lemma Symbols1Rows(r: nat)
    requires r < 4
    ensures KeyRow(DefaultTokens(2, r), DefaultLink(2, r), 2 == 1 && r == 2)
  {
    if r == 0 {
      Symbols1TopRow();
    } else if r == 1 {
      Symbols1MiddleRow();
    } else if r == 2 {
      Symbols1ShiftRow();
    } else {
      Symbols1BottomRow();
    }
  }

  lemma Symbols2Rows(r: nat)
    requires r < 4
    ensures KeyRow(DefaultTokens(3, r), DefaultLink(3, r), 3 == 1 && r == 2)
  {
    if r == 0 {
      Symbols2TopRow();
    } else if r == 1 {
      Symbols2MiddleRow();
    } else if r == 2 {
      Symbols2ShiftRow();
    } else {
      Symbols2BottomRow();
    }
  }

  /** A key row is a line of keys in the sense of the page splitter. */
  lemma KeyRowTokens(ts: seq<string>, link: string, pressed: bool)
    requires KeyRow(ts, link, pressed)
    ensures KeyTokens(ts)
  {
    assert forall c :: 0 < c < |ts| ==> PlainKey(ts[c]);
  }

  /** The keys of a key row: one per token, the first with the row's link and
      pressed state, the others with neither. */
  lemma KeyRowKeys(ts: seq<string>, link: string, pressed: bool)
    requires KeyRow(ts, link, pressed)
    ensures |KeysOf(ts)| == |ts|
    ensures KeysOf(ts)[0].linkStr == link && KeysOf(ts)[0].pressed == pressed
    ensures forall c :: 0 < c < |ts| ==> KeysOf(ts)[c].linkStr == "" && !KeysOf(ts)[c].pressed
  {
    assert forall c :: 0 < c < |ts| ==> PlainKey(ts[c]);
    KeysOfKeyed(ts);
  }

  /** The page names, in the order of the layout. */
  const DefaultIds: seq<string> := ["letters", "caps", "symbols1", "symbols2"]

  /** Row 6p of the layout, the header of page p. */
  lemma HeaderRow(p: nat)
    requires p < 4
    ensures |RowAt(DefaultLayoutRows, p, 0)| == 1
    ensures HeaderToken(RowAt(DefaultLayoutRows, p, 0)[0], DefaultIds[p])
  {
    var ts := RowAt(DefaultLayoutRows, p, 0);
    if p == 0 {
      assert ts == ["$letters"] && DefaultIds[p] == "letters";
      assert HeaderToken("$letters", "letters");
    } else if p == 1 {
      assert ts == ["$caps"] && DefaultIds[p] == "caps";
      assert HeaderToken("$caps", "caps");
    } else if p == 2 {
      assert ts == ["$symbols1"] && DefaultIds[p] == "symbols1";
      assert HeaderToken("$symbols1", "symbols1");
    } else {
      assert ts == ["$symbols2"] && DefaultIds[p] == "symbols2";
      assert HeaderToken("$symbols2", "symbols2");
    }
  }

  /** Row 6p + 5 of the layout, the empty row after page p. */
  lemma EmptyRow(p: nat)
    requires p < 4
    ensures RowAt(DefaultLayoutRows, p, 5) == []
  {
    if p == 0 {
      assert DefaultLayoutRows[5] == [];
    } else if p == 1 {
      assert DefaultLayoutRows[11] == [];
    } else if p == 2 {
      assert DefaultLayoutRows[17] == [];
    } else {
      assert DefaultLayoutRows[23] == [];
    }
  }

  lemma DefaultPageRows(p: nat)
    requires p < 4
    ensures PageRows(DefaultLayoutRows, p, DefaultIds[p])
  {
    HeaderRow(p);
    EmptyRow(p);
    forall r | 1 <= r < 5
      ensures KeyTokens(RowAt(DefaultLayoutRows, p, r))
    {
      DefaultKeyRow(p, r - 1);
      assert RowAt(DefaultLayoutRows, p, r) == DefaultTokens(p, r - 1);
      KeyRowTokens(DefaultTokens(p, r - 1), DefaultLink(p, r - 1), p == 1 && r - 1 == 2);
    }
  }

  /** The default layout is a paged layout text: four pages of six lines. */
  lemma DefaultPaged()
    ensures Paged(DefaultLayoutRows, DefaultIds)
    ensures JoinedRows(DefaultLayoutLines(), DefaultLayoutRows)
  {
    forall p | 0 <= p < |DefaultIds|
      ensures PageRows(DefaultLayoutRows, p, DefaultIds[p])
    {
      DefaultPageRows(p);
    }
  }

  /** The pages createLayout builds for the empty layout string. */
  lemma DefaultPages()
    ensures LayoutPages([]) == TokenPages(DefaultLayoutRows, DefaultIds)
  {
    DefaultPaged();
    PagedLayoutPages(DefaultLayoutRows, DefaultIds, DefaultLayoutLines());
  }

  // ---- the default keyboard

  /** The keys of row r of page p: one per token, the first with the row's link and
      the caps page's shift key pressed, the others with neither. */
  lemma DefaultRowKeys(p: nat, r: nat)
    requires p < 4 && r < 4
    ensures |KeysOf(DefaultTokens(p, r))| == |DefaultTokens(p, r)|
    ensures KeysOf(DefaultTokens(p, r))[0].linkStr == DefaultLink(p, r)
    ensures KeysOf(DefaultTokens(p, r))[0].pressed == (p == 1 && r == 2)
    ensures forall c :: 0 < c < |DefaultTokens(p, r)| ==>
              KeysOf(DefaultTokens(p, r))[c].linkStr == "" && !KeysOf(DefaultTokens(p, r))[c].pressed
  {
    DefaultKeyRow(p, r);
    KeyRowKeys(DefaultTokens(p, r), DefaultLink(p, r), p == 1 && r == 2);
  }

  lemma DefaultPagesRows(ps: seq<Page>)
    requires ps == TokenPages(DefaultLayoutRows, DefaultIds)
    ensures |ps| == 4 && Ids(ps) == DefaultIds
    ensures forall p :: 0 <= p < 4 ==> |ps[p].rows| == 4
    ensures forall p, r :: 0 <= p < 4 && 0 <= r < 4 ==> ps[p].rows[r] == KeysOf(DefaultTokens(p, r))
  {
    forall p, r | 0 <= p < 4 && 0 <= r < 4
      ensures ps[p].rows[r] == KeysOf(DefaultTokens(p, r))
    {
      assert ps[p].rows[r] == KeysOf(RowAt(DefaultLayoutRows, p, r + 1));
    }
  }

  lemma DefaultPagesKeys(ps: seq<Page>)
    requires ps == TokenPages(DefaultLayoutRows, DefaultIds)
    ensures forall p, r, c :: IsKeyRef(ps, p, r, c) ==>
              ps[p].rows[r][c].linkStr == (if c == 0 then DefaultLink(p, r) else "") &&
              ps[p].rows[r][c].pressed == (p == 1 && r == 2 && c == 0)
  {
    DefaultPagesRows(ps);
    forall p, r, c | IsKeyRef(ps, p, r, c)
      ensures ps[p].rows[r][c].linkStr == (if c == 0 then DefaultLink(p, r) else "")
      ensures ps[p].rows[r][c].pressed == (p == 1 && r == 2 && c == 0)
    {
      DefaultRowKeys(p, r);
    }
  }

  lemma DefaultPagesFind(ps: seq<Page>)
    requires ps == TokenPages(DefaultLayoutRows, DefaultIds)
    ensures FindPage(ps, "letters") == Some(0) && FindPage(ps, "caps") == Some(1)
    ensures FindPage(ps, "symbols1") == Some(2) && FindPage(ps, "symbols2") == Some(3)
  {
    DefaultPagesRows(ps);
    assert ps[0].id == "letters" && ps[1].id == "caps";
    assert ps[2].id == "symbols1" && ps[3].id == "symbols2";
  }

  /** Four pages, named letters, caps, symbols1 and symbols2, of four rows each; row
      r of page p holds the keys of the tokens of its line. */
  lemma DefaultLayoutShape()
    ensures |LayoutPages([])| == 4 && Ids(LayoutPages([])) == DefaultIds
    ensures forall p :: 0 <= p < 4 ==> |LayoutPages([])[p].rows| == 4
    ensures forall p, r :: 0 <= p < 4 && 0 <= r < 4 ==>
              LayoutPages([])[p].rows[r] == KeysOf(DefaultTokens(p, r))
  {
    DefaultPages();
    DefaultPagesRows(LayoutPages([]));
  }

  /** Only the first key of a row can switch pages, and only the shift key of the caps
      page is shown pressed. */
  lemma DefaultLayoutKeys()
    ensures forall p, r, c :: IsKeyRef(LayoutPages([]), p, r, c) ==>
              LayoutPages([])[p].rows[r][c].linkStr == (if c == 0 then DefaultLink(p, r) else "") &&
              LayoutPages([])[p].rows[r][c].pressed == (p == 1 && r == 2 && c == 0)
  {
    DefaultPages();
    DefaultPagesKeys(LayoutPages([]));
  }

  /** A page switch names one of the four pages. */
  lemma DefaultLinkNames(p: int, r: int)
    ensures DefaultLink(p, r) in {"", "letters", "caps", "symbols1", "symbols2"}
  {
  }

  lemma DefaultPagesLinks(ps: seq<Page>)
    requires ps == TokenPages(DefaultLayoutRows, DefaultIds)
    ensures forall p, r, c :: IsKeyRef(ps, p, r, c) && ps[p].rows[r][c].linkStr != [] ==>
              FindPage(ps, ps[p].rows[r][c].linkStr).Some?
  {
    DefaultPagesKeys(ps);
    DefaultPagesFind(ps);
    forall p, r, c | IsKeyRef(ps, p, r, c) && ps[p].rows[r][c].linkStr != []
      ensures FindPage(ps, ps[p].rows[r][c].linkStr).Some?
    {
      DefaultLinkNames(p, r);
    }
  }

  /** Every page switch of the default layout names a page that exists. */
  lemma DefaultLinksResolve()
    ensures forall p, r, c :: IsKeyRef(LayoutPages([]), p, r, c) && LayoutPages([])[p].rows[r][c].linkStr != [] ==>
              FindPage(LayoutPages([]), LayoutPages([])[p].rows[r][c].linkStr).Some?
  {
    DefaultPages();
    DefaultPagesLinks(LayoutPages([]));
  }

  /** The first key of a key row is the key its first token describes. */
  lemma KeyRowFirstKey(ts: seq<string>, link: string, pressed: bool)
    requires KeyRow(ts, link, pressed)
    ensures KeysOf(ts)[0] == KeySpec(ts[0]).value
  {
    assert forall c :: 0 < c < |ts| ==> PlainKey(ts[c]);
    KeysOfKeyed(ts);
  }

  /** The shift keys of the two letter pages. */
  lemma LettersShiftToken()
    ensures KeySpec(DefaultTokens(0, 2)[0]) == Some(KeyData(Command, Shift, "Shift", 1.624, false, "caps", None))
  {
    assert DefaultTokens(0, 2)[0] == "&SHIFT:Shift@caps%1.624";
    ShiftToCapsKey();
  }

  lemma CapsShiftToken()
    ensures KeySpec(DefaultTokens(1, 2)[0]) == Some(KeyData(Command, Shift, "Shift", 1.624, true, "letters", None))
  {
    assert DefaultTokens(1, 2)[0] == "&SHIFT:Shift@letters%1.624!";
    ShiftToLettersKey();
  }

  lemma LettersShiftKey()
    ensures |KeysOf(DefaultTokens(0, 2))| > 0
    ensures KeysOf(DefaultTokens(0, 2))[0] == KeyData(Command, Shift, "Shift", 1.624, false, "caps", None)
  {
    LettersShiftRow();
    KeyRowFirstKey(DefaultTokens(0, 2), "caps", false);
    LettersShiftToken();
  }

  lemma CapsShiftKey()
    ensures |KeysOf(DefaultTokens(1, 2))| > 0
    ensures KeysOf(DefaultTokens(1, 2))[0] == KeyData(Command, Shift, "Shift", 1.624, true, "letters", None)
  {
    CapsShiftRow();
    KeyRowFirstKey(DefaultTokens(1, 2), "letters", true);
    CapsShiftToken();
  }

  lemma DefaultShiftKeys(ps: seq<Page>)
    requires ps == TokenPages(DefaultLayoutRows, DefaultIds)
    ensures IsKeyRef(ps, 0, 2, 0) && IsKeyRef(ps, 1, 2, 0)
    ensures ps[0].rows[2][0] == KeyData(Command, Shift, "Shift", 1.624, false, "caps", None)
    ensures ps[1].rows[2][0] == KeyData(Command, Shift, "Shift", 1.624, true, "letters", None)
  {
    DefaultPagesRows(ps);
    LettersShiftKey();
    CapsShiftKey();
  }

  /** The two shift clicks on the pages as built: each looks its page up. */
  lemma ShiftClicks(ps: seq<Page>)
    requires ps == TokenPages(DefaultLayoutRows, DefaultIds)
    ensures IsKeyRef(ps, 0, 2, 0) && ps[0].rows[2][0].keyType != Spacer
    ensures Touched(ps, ps[0].rows[2][0]) == KeyData(Command, Shift, "Shift", 1.624, false, "caps", Some(1))
    ensures var qs := SetKey(ps, 0, 2, 0, Touched(ps, ps[0].rows[2][0]));
            IsKeyRef(qs, 1, 2, 0) && qs[1].rows[2][0].keyType != Spacer &&
            Touched(qs, qs[1].rows[2][0]) == KeyData(Command, Shift, "Shift", 1.624, true, "letters", Some(0))
  {
    DefaultShiftKeys(ps);
    DefaultPagesFind(ps);
    var qs := SetKey(ps, 0, 2, 0, Touched(ps, ps[0].rows[2][0]));
    assert qs[1].rows[2][0] == ps[1].rows[2][0];
    FindPageOfIds(qs, ps, "letters");
  }

  /** A keyboard given the empty layout string shows the letters page; its shift key
      emits SHIFT and shows the caps page, and the pressed shift key of the caps page
      leads back to the letters page. */
  method DefaultShiftRoundTrip() returns (shown: seq<Option<nat>>, emitted: seq<Option<KeyData>>)
    ensures shown == [Some(0), Some(1), Some(0)]
    ensures emitted == [Some(KeyData(Command, Shift, "Shift", 1.624, false, "caps", Some(1))),
                        Some(KeyData(Command, Shift, "Shift", 1.624, true, "letters", Some(0)))]
  {
    var kb := new VirtKeyboard();
    kb.CreateLayout([]);
    DefaultPages();
    ShiftClicks(kb.pages);
    var s0 := kb.current;
    assert s0 == Some(0);
    var e1 := kb.OnKeyClicked(0, 2, 0);
    var s1 := kb.current;
    assert s1 == Some(1);
    var e2 := kb.OnKeyClicked(1, 2, 0);
    var s2 := kb.current;
    assert s2 == Some(0);
    shown := [s0, s1, s2];
    emitted := [e1, e2];
  }
}
