/** The layout language read in the other direction: a key description written out
    as a token by the grammar of VirtKeyboard.h:21-28, and the proof that the parser
    reads every well-formed token back as the key it describes. */
module KeyFormat {
  import opened Wrappers
  import opened QtString
  import opened VirtKeyDefs
  import opened KeyParser

  /** What a layout author writes for one key. */
  datatype KeySource =
    | CharacterSource(glyph: char, width: string, pressed: bool)
    | CommandSource(name: string, text: string, link: string, width: string, pressed: bool)
    | SpacerSource(width: string, pressed: bool)

  function TextPart(text: string): string
  {
    if text == "" then "" else [CommandTextSigil] + text
  }

  function LinkPart(link: string): string
  {
    if link == "" then "" else [LinkSigil] + link
  }

  function WidthPart(width: string): string
  {
    if width == "" then "" else [WidthSigil] + width
  }

  function PressedPart(pressed: bool): string
  {
    if pressed then [PressedSigil] else ""
  }

  /** The token for a key: sigil, then name, `:text`, `@link`, `%width` and `!`,
      each field only when present. */
  function Format(k: KeySource): string
  {
    match k
    case CharacterSource(g, w, p) => [CharacterSigil, g] + WidthPart(w) + PressedPart(p)
    case CommandSource(n, t, l, w, p) =>
      [CommandSigil] + n + TextPart(t) + LinkPart(l) + WidthPart(w) + PressedPart(p)
    case SpacerSource(w, p) => [SpacerSigil] + WidthPart(w) + PressedPart(p)
  }

  predicate AllLettersOrDigits(s: string)
  {
    forall j :: 0 <= j < |s| ==> IsLetterOrDigit(s[j])
  }

  predicate AllWidthChars(s: string)
  {
    forall j :: 0 <= j < |s| ==> IsWidthChar(s[j])
  }

  predicate AllTextChars(s: string)
  {
    forall j :: 0 <= j < |s| ==> IsTextChar(s[j])
  }

  /** The rules of VirtKeyboard.h:21-28 as far as one token is concerned: names and
      links are letters and digits, command text holds no `%`, `@` or `!`, a width is
      digits and points; and a command key's width needs something between the
      sigil and the `%`, since the parser reads a `%` at index 1 only for spacers. */
  predicate WellFormed(k: KeySource)
  {
    match k
    case CharacterSource(_, w, _) => AllWidthChars(w)
    case CommandSource(n, t, l, w, _) =>
      AllLettersOrDigits(n) && AllTextChars(t) && AllLettersOrDigits(l) && AllWidthChars(w) &&
      (w != "" ==> n != "" || t != "" || l != "")
    case SpacerSource(w, _) => AllWidthChars(w)
  }

  /** The width factor a width field gives: its value when positive, else 1.0. */
  function WidthValue(w: string): (r: real)
    requires AllWidthChars(w)
    ensures r > 0.0
    ensures IsDecimal(w) && ToDouble(w) > 0.0 ==> r == ToDouble(w)
    ensures !(IsDecimal(w) && ToDouble(w) > 0.0) ==> r == 1.0
  {
    if w == "" then 1.0
    else
      var v := ToDouble(w);
      if v <= 0.0 then 1.0 else v
  }

  /** The key record a well-formed description stands for. */
  function Expected(k: KeySource): (d: KeyData)
    requires WellFormed(k)
  {
    match k
    case CharacterSource(g, w, p) =>
      KeyData(Character, UndefinedCommand, [g], WidthValue(w), p, "", None)
    case CommandSource(n, t, l, w, p) =>
      KeyData(Command, CommandFromName(n), Replace(t, '_', ' '), WidthValue(w), p, l, None)
    case SpacerSource(w, p) =>
      KeyData(Spacer, UndefinedCommand, "", WidthValue(w), p, "", None)
  }

  /** Round trip: the parser reads a formatted well-formed key back as that key. */
  lemma {:induction false} ParseFormat(k: KeySource)
    requires WellFormed(k)
    ensures KeySpec(Format(k)) == Some(Expected(k))
  {
    match k
    case CharacterSource(g, w, p) => ParseFormatCharacter(g, w, p);
    case CommandSource(n, t, l, w, p) => ParseFormatCommand(n, t, l, w, p);
    case SpacerSource(w, p) => ParseFormatSpacer(w, p);
  }

  /** The width scan that starts after index `at` stops at the end of `w`. */
  lemma WidthSpan(key: string, at: nat, w: string)
    requires AllWidthChars(w)
    requires at + 1 + |w| <= |key|
    requires forall k :: at < k <= at + |w| ==> key[k] == w[k - at - 1]
    requires at + 1 + |w| == |key| || key[at + 1 + |w|] == PressedSigil
    ensures RunEnd(key, at + 1, IsWidthChar) == at + 1 + |w|
    ensures key[at + 1..at + 1 + |w|] == w
  {
    var e := at + 1 + |w|;
    assert forall k :: at + 1 <= k < e ==> IsWidthChar(key[k]);
    RunEndUnique(key, at + 1, IsWidthChar, e);
  }

  /** Reading the `%width` field that starts at index `at`. */
  lemma WidthFieldAt(key: string, at: nat, w: string, t: KeyType)
    requires AllWidthChars(w) && w != ""
    requires at + 1 + |w| <= |key|
    requires forall k :: at < k <= at + |w| ==> key[k] == w[k - at - 1]
    requires at + 1 + |w| == |key| || key[at + 1 + |w|] == PressedSigil
    requires (t == Spacer && at == 1) || (t != Spacer && at > 1)
    requires LastIndexOf(key, WidthSigil) == at
    ensures WidthOf(key, t) == WidthValue(w)
  {
    assert WidthOf(key, t) == WidthField(key, at + 1);
    WidthSpan(key, at, w);
    WidthFieldOf(key, at + 1, w);
  }

  lemma WidthFieldOf(key: string, start: nat, w: string)
    requires AllWidthChars(w) && w != "" && start + |w| <= |key|
    requires RunEnd(key, start, IsWidthChar) == start + |w|
    requires key[start..start + |w|] == w
    ensures WidthField(key, start) == WidthValue(w)
  {
    var v := ToDouble(key[start..start + |w|]);
    assert WidthField(key, start) == if v <= 0.0 then 1.0 else v;
  }

  /** A token laid out as `prefix`, then `%width`, then an optional `!`, where
      `prefix` holds no `%`: its width and pressed fields read back. */
  lemma WidthAndPressedAfter(key: string, prefix: string, w: string, p: bool, t: KeyType)
    requires AllWidthChars(w)
    requires key == prefix + WidthPart(w) + PressedPart(p)
    requires w == "" ==> forall k :: 0 <= k < |prefix| ==> prefix[k] != WidthSigil
    requires w != "" ==> (t == Spacer && |prefix| == 1) || (t != Spacer && |prefix| > 1)
    requires |prefix| > 0 && (w == "" && !p ==> prefix[|prefix| - 1] != PressedSigil)
    ensures WidthOf(key, t) == WidthValue(w)
    ensures EndsWith(key, PressedSigil) == p
  {
    WidthAfter(key, prefix, w, p, t);
    PressedAfter(key, prefix, w, p);
  }

  lemma PressedAfter(key: string, prefix: string, w: string, p: bool)
    requires AllWidthChars(w)
    requires key == prefix + WidthPart(w) + PressedPart(p)
    requires |prefix| > 0 && (w == "" && !p ==> prefix[|prefix| - 1] != PressedSigil)
    ensures EndsWith(key, PressedSigil) == p
  {
    if !p {
      var body := prefix + WidthPart(w);
      assert key == body;
      if w != "" {
        assert body[|body| - 1] == w[|w| - 1];
      }
    }
  }

  lemma WidthAfter(key: string, prefix: string, w: string, p: bool, t: KeyType)
    requires AllWidthChars(w)
    requires key == prefix + WidthPart(w) + PressedPart(p)
    requires w == "" ==> forall k :: 0 <= k < |prefix| ==> prefix[k] != WidthSigil
    requires w != "" ==> (t == Spacer && |prefix| == 1) || (t != Spacer && |prefix| > 1)
    ensures WidthOf(key, t) == WidthValue(w)
  {
    if w != "" {
      WidthLaidOut(key, prefix, w, p);
      WidthGiven(key, |prefix|, w, t);
    } else {
      var n := |prefix|;
      assert forall k :: 0 <= k < n ==> key[k] == prefix[k];
      assert |key| == n || (|key| == n + 1 && key[n] == PressedSigil);
      LastIndexOfUnique(key, WidthSigil, -1);
    }
  }

  lemma WidthGiven(key: string, n: nat, w: string, t: KeyType)
    requires AllWidthChars(w) && w != ""
    requires n + 1 + |w| <= |key| && key[n] == WidthSigil
    requires forall k :: n < k <= n + |w| ==> key[k] == w[k - n - 1]
    requires n + 1 + |w| == |key| || key[n + 1 + |w|] == PressedSigil
    requires forall k :: n < k < |key| ==> key[k] != WidthSigil
    requires (t == Spacer && n == 1) || (t != Spacer && n > 1)
    ensures WidthOf(key, t) == WidthValue(w)
  {
    LastIndexOfUnique(key, WidthSigil, n);
    WidthFieldAt(key, n, w, t);
  }

  /** Where the characters of `prefix%w!` sit. */
  lemma WidthLaidOut(key: string, prefix: string, w: string, p: bool)
    requires AllWidthChars(w) && w != ""
    requires key == prefix + WidthPart(w) + PressedPart(p)
    ensures |prefix| + 1 + |w| <= |key| && key[|prefix|] == WidthSigil
    ensures forall k :: |prefix| < k <= |prefix| + |w| ==> key[k] == w[k - |prefix| - 1]
    ensures |prefix| + 1 + |w| == |key| || key[|prefix| + 1 + |w|] == PressedSigil
    ensures forall k :: |prefix| < k < |key| ==> key[k] != WidthSigil
  {
    var n := |prefix|;
    var tail := WidthPart(w) + PressedPart(p);
    TailLaidOut(tail, w, p);
    assert key == prefix + tail;
    forall k | n <= k < |key|
      ensures key[k] == tail[k - n]
    {
    }
  }

  lemma TailLaidOut(tail: string, w: string, p: bool)
    requires AllWidthChars(w) && w != ""
    requires tail == WidthPart(w) + PressedPart(p)
    ensures 1 + |w| <= |tail| && tail[0] == WidthSigil
    ensures forall j :: 0 < j <= |w| ==> tail[j] == w[j - 1]
    ensures 1 + |w| == |tail| || tail[1 + |w|] == PressedSigil
    ensures forall j :: 0 < j < |tail| ==> tail[j] != WidthSigil
  {
    assert tail == [WidthSigil] + w + PressedPart(p);
    forall j | 0 < j < |tail|
      ensures j <= |w| ==> tail[j] == w[j - 1]
      ensures tail[j] != WidthSigil
    {
      if j <= |w| {
        assert IsWidthChar(w[j - 1]);
      }
    }
  }

  /** What KeySpec makes of a token by its sigil. */
  lemma KeySpecCharacter(key: string)
    requires StartsWith(key, CharacterSigil)
    ensures KeySpec(key) == Some(KeyData(Character, UndefinedCommand,
      if |key| > 1 then [key[1]] else "", WidthOf(key, Character), PressedOf(key, Character), "", None))
  {
  }

  lemma KeySpecCommand(key: string)
    requires StartsWith(key, CommandSigil)
    ensures KeySpec(key) == Some(KeyData(Command, CommandOf(key), CommandTextOf(key),
      WidthOf(key, Command), EndsWith(key, PressedSigil), LinkOf(key), None))
  {
    assert TypeOf(key) == Command;
    assert PressedOf(key, Command) == EndsWith(key, PressedSigil);
  }

  lemma KeySpecSpacer(key: string)
    requires StartsWith(key, SpacerSigil)
    ensures KeySpec(key) == Some(KeyData(Spacer, UndefinedCommand, "", WidthOf(key, Spacer),
      EndsWith(key, PressedSigil), "", None))
  {
  }

  lemma ParseFormatCharacter(g: char, w: string, p: bool)
    requires AllWidthChars(w)
    ensures KeySpec(Format(CharacterSource(g, w, p))) ==
            Some(KeyData(Character, UndefinedCommand, [g], WidthValue(w), p, "", None))
  {
    var key := Format(CharacterSource(g, w, p));
    var prefix := [CharacterSigil, g];
    assert key == prefix + WidthPart(w) + PressedPart(p);
    KeySpecCharacter(key);
    if w == "" && (g == WidthSigil || g == PressedSigil) {
      assert key == prefix + PressedPart(p);
      LastIndexOfUnique(key, WidthSigil, if g == WidthSigil then 1 else -1);
    } else {
      WidthAndPressedAfter(key, prefix, w, p, Character);
    }
    assert p ==> |key| > 2;
  }

  lemma ParseFormatSpacer(w: string, p: bool)
    requires AllWidthChars(w)
    ensures KeySpec(Format(SpacerSource(w, p))) ==
            Some(KeyData(Spacer, UndefinedCommand, "", WidthValue(w), p, "", None))
  {
    var key := Format(SpacerSource(w, p));
    KeySpecSpacer(key);
    WidthAndPressedAfter(key, [SpacerSigil], w, p, Spacer);
  }

  /** Where the fields of a command token sit: the name from index 1 up to `i0`,
      `:text` up to `i1`, `@link` up to `i2`, then `%width` and `!`. */
  predicate CommandLaidOut(key: string, n: string, t: string, l: string, w: string, p: bool,
                           i0: nat, i1: nat, i2: nat)
  {
    i0 == 1 + |n| && i1 == i0 + |TextPart(t)| && i2 == i1 + |LinkPart(l)| &&
    |key| == i2 + |WidthPart(w)| + |PressedPart(p)| && key[0] == CommandSigil &&
    (forall k :: 1 <= k < i0 ==> key[k] == n[k - 1]) &&
    (t != "" ==> key[i0] == CommandTextSigil) &&
    (forall k :: i0 < k < i1 ==> key[k] == t[k - i0 - 1]) &&
    (l != "" ==> key[i1] == LinkSigil) &&
    (forall k :: i1 < k < i2 ==> key[k] == l[k - i1 - 1]) &&
    key == key[..i2] + WidthPart(w) + PressedPart(p)
  }

  lemma CommandLayout(n: string, t: string, l: string, w: string, p: bool, key: string,
                      i0: nat, i1: nat, i2: nat)
    requires key == Format(CommandSource(n, t, l, w, p))
    requires i0 == 1 + |n| && i1 == i0 + |TextPart(t)| && i2 == i1 + |LinkPart(l)|
    ensures CommandLaidOut(key, n, t, l, w, p, i0, i1, i2)
  {
    var head := [CommandSigil] + n + TextPart(t) + LinkPart(l);
    assert key == head + WidthPart(w) + PressedPart(p);
    assert key[..i2] == head;
    HeadLayout(head, n, t, l, i0, i1, i2);
  }

  lemma HeadLayout(head: string, n: string, t: string, l: string, i0: nat, i1: nat, i2: nat)
    requires head == [CommandSigil] + n + TextPart(t) + LinkPart(l)
    requires i0 == 1 + |n| && i1 == i0 + |TextPart(t)| && i2 == i1 + |LinkPart(l)|
    ensures |head| == i2 && head[0] == CommandSigil
    ensures forall k :: 1 <= k < i0 ==> head[k] == n[k - 1]
    ensures t != "" ==> head[i0] == CommandTextSigil
    ensures forall k :: i0 < k < i1 ==> head[k] == t[k - i0 - 1]
    ensures l != "" ==> head[i1] == LinkSigil
    ensures forall k :: i1 < k < i2 ==> head[k] == l[k - i1 - 1]
  {
    var tp, lp := TextPart(t), LinkPart(l);
    var name := [CommandSigil] + n;
    assert forall k :: 0 <= k < i0 ==> head[k] == name[k];
    assert forall k :: i0 <= k < i1 ==> head[k] == tp[k - i0];
    assert forall k :: i1 <= k < i2 ==> head[k] == lp[k - i1];
  }

  lemma ParseFormatCommand(n: string, t: string, l: string, w: string, p: bool)
    requires WellFormed(CommandSource(n, t, l, w, p))
    ensures KeySpec(Format(CommandSource(n, t, l, w, p))) ==
            Some(KeyData(Command, CommandFromName(n), Replace(t, '_', ' '), WidthValue(w), p, l, None))
  {
    var key := Format(CommandSource(n, t, l, w, p));
    var i0 := 1 + |n|;
    var i1 := i0 + |TextPart(t)|;
    var i2 := i1 + |LinkPart(l)|;
    CommandLayout(n, t, l, w, p, key, i0, i1, i2);
    ParseCommandKey(key, n, t, l, w, p, i0, i1, i2);
  }

  /** A command token laid out field by field reads back as its fields. */
  lemma ParseCommandKey(key: string, n: string, t: string, l: string, w: string, p: bool,
                        i0: nat, i1: nat, i2: nat)
    requires WellFormed(CommandSource(n, t, l, w, p))
    requires CommandLaidOut(key, n, t, l, w, p, i0, i1, i2)
    ensures KeySpec(key) ==
            Some(KeyData(Command, CommandFromName(n), Replace(t, '_', ' '), WidthValue(w), p, l, None))
  {
    KeySpecCommand(key);
    CommandNameAt(key, n, t, l, w, p, i0, i1, i2);
    CommandTextAt(key, n, t, l, w, p, i0, i1, i2);
    CommandLinkAt(key, n, t, l, w, p, i0, i1, i2);
    CommandWidthAt(key, n, t, l, w, p, i0, i1, i2);
  }

  /** The fields of a laid-out command token, one at a time. */
  lemma CommandNameAt(key: string, n: string, t: string, l: string, w: string, p: bool,
                      i0: nat, i1: nat, i2: nat)
    requires WellFormed(CommandSource(n, t, l, w, p))
    requires CommandLaidOut(key, n, t, l, w, p, i0, i1, i2)
    ensures NameEnd(key) == i0 && CommandOf(key) == CommandFromName(n)
  {
    CommandBoundaries(key, n, t, l, w, p, i0, i1, i2);
    NameField(key, n, i0);
  }

  lemma CommandTextAt(key: string, n: string, t: string, l: string, w: string, p: bool,
                      i0: nat, i1: nat, i2: nat)
    requires WellFormed(CommandSource(n, t, l, w, p))
    requires CommandLaidOut(key, n, t, l, w, p, i0, i1, i2)
    ensures CommandTextOf(key) == Replace(t, '_', ' ')
  {
    CommandNameAt(key, n, t, l, w, p, i0, i1, i2);
    CommandBoundaries(key, n, t, l, w, p, i0, i1, i2);
    CommandSigils(key, n, t, l, w, p, i0, i1, i2);
    TextField(key, t, i0, i1);
  }

  lemma CommandLinkAt(key: string, n: string, t: string, l: string, w: string, p: bool,
                      i0: nat, i1: nat, i2: nat)
    requires WellFormed(CommandSource(n, t, l, w, p))
    requires CommandLaidOut(key, n, t, l, w, p, i0, i1, i2)
    ensures LinkOf(key) == l
  {
    CommandBoundaries(key, n, t, l, w, p, i0, i1, i2);
    CommandSigils(key, n, t, l, w, p, i0, i1, i2);
    LinkField(key, l, i1, i2);
  }

  lemma CommandWidthAt(key: string, n: string, t: string, l: string, w: string, p: bool,
                       i0: nat, i1: nat, i2: nat)
    requires WellFormed(CommandSource(n, t, l, w, p))
    requires CommandLaidOut(key, n, t, l, w, p, i0, i1, i2)
    ensures WidthOf(key, Command) == WidthValue(w) && EndsWith(key, PressedSigil) == p
  {
    CommandBoundaries(key, n, t, l, w, p, i0, i1, i2);
    CommandSigils(key, n, t, l, w, p, i0, i1, i2);
    WidthAndPressedAfter(key, key[..i2], w, p, Command);
  }

  /** What follows the link field: `%`, digits and points, `!`. */
  lemma CommandRest(key: string, i2: nat, w: string, p: bool)
    requires AllWidthChars(w) && i2 <= |key|
    requires key == key[..i2] + WidthPart(w) + PressedPart(p)
    ensures forall k :: i2 <= k < |key| ==> key[k] == WidthSigil || key[k] == PressedSigil || IsWidthChar(key[k])
    ensures i2 < |key| ==> key[i2] == WidthSigil || key[i2] == PressedSigil
  {
    var rest := WidthPart(w) + PressedPart(p);
    assert forall k :: i2 <= k < |key| ==> key[k] == rest[k - i2];
  }

  /** Each field of a command token ends where the next begins. */
  lemma CommandBoundaries(key: string, n: string, t: string, l: string, w: string, p: bool,
                          i0: nat, i1: nat, i2: nat)
    requires WellFormed(CommandSource(n, t, l, w, p))
    requires CommandLaidOut(key, n, t, l, w, p, i0, i1, i2)
    ensures i0 == |key| || !IsLetterOrDigit(key[i0])
    ensures i1 == |key| || !IsTextChar(key[i1])
    ensures i2 == |key| || !IsLetterOrDigit(key[i2])
    ensures w == "" && !p ==> key[i2 - 1] != PressedSigil
  {
    CommandRest(key, i2, w, p);
  }

  /** Where the sigils of a command token do not occur. */
  lemma CommandSigils(key: string, n: string, t: string, l: string, w: string, p: bool,
      i0: nat, i1: nat, i2: nat)
    requires WellFormed(CommandSource(n, t, l, w, p))
    requires CommandLaidOut(key, n, t, l, w, p, i0, i1, i2)
    ensures t == "" ==> forall k :: i0 <= k < |key| ==> key[k] != CommandTextSigil
    ensures forall k :: i1 < k < |key| ==> key[k] != LinkSigil
    ensures l == "" ==> forall k :: 0 <= k <= i1 && k < |key| ==> key[k] != LinkSigil
    ensures w == "" ==> forall k :: 0 <= k < i2 ==> key[..i2][k] != WidthSigil
  {
    CommandRest(key, i2, w, p);
    FieldChars(key, n, t, l, w, p, i0, i1, i2);
    NoTextSigil(key, n, t, l, w, p, i0, i1, i2);
    NoLinkSigil(key, n, t, l, w, p, i0, i1, i2);
    NoWidthSigil(key, n, t, l, w, p, i0, i1, i2);
  }

  lemma NoTextSigil(key: string, n: string, t: string, l: string, w: string, p: bool,
      i0: nat, i1: nat, i2: nat)
    requires WellFormed(CommandSource(n, t, l, w, p))
    requires CommandLaidOut(key, n, t, l, w, p, i0, i1, i2)
    requires forall k :: i2 <= k < |key| ==> key[k] == WidthSigil || key[k] == PressedSigil || IsWidthChar(key[k])
    requires forall k :: i1 < k < i2 ==> IsLetterOrDigit(key[k])
    ensures t == "" ==> forall k :: i0 <= k < |key| ==> key[k] != CommandTextSigil
  {
    if t == "" {
      assert forall k :: i1 < k < i2 ==> key[k] != CommandTextSigil;
      assert forall k :: i2 <= k < |key| ==> key[k] != CommandTextSigil;
      assert i1 < |key| ==> key[i1] != CommandTextSigil;
    }
  }

  lemma NoLinkSigil(key: string, n: string, t: string, l: string, w: string, p: bool,
      i0: nat, i1: nat, i2: nat)
    requires WellFormed(CommandSource(n, t, l, w, p))
    requires CommandLaidOut(key, n, t, l, w, p, i0, i1, i2)
    requires forall k :: i2 <= k < |key| ==> key[k] == WidthSigil || key[k] == PressedSigil || IsWidthChar(key[k])
    requires forall k :: 1 <= k < i0 ==> IsLetterOrDigit(key[k])
    requires forall k :: i0 < k < i1 ==> IsTextChar(key[k])
    requires forall k :: i1 < k < i2 ==> IsLetterOrDigit(key[k])
    ensures forall k :: i1 < k < |key| ==> key[k] != LinkSigil
    ensures l == "" ==> forall k :: 0 <= k <= i1 && k < |key| ==> key[k] != LinkSigil
  {
  }

  lemma NoWidthSigil(key: string, n: string, t: string, l: string, w: string, p: bool,
      i0: nat, i1: nat, i2: nat)
    requires WellFormed(CommandSource(n, t, l, w, p))
    requires CommandLaidOut(key, n, t, l, w, p, i0, i1, i2)
    requires forall k :: 1 <= k < i0 ==> IsLetterOrDigit(key[k])
    requires forall k :: i0 < k < i1 ==> IsTextChar(key[k])
    requires forall k :: i1 < k < i2 ==> IsLetterOrDigit(key[k])
    ensures w == "" ==> forall k :: 0 <= k < i2 ==> key[..i2][k] != WidthSigil
  {
    var head := key[..i2];
    assert forall k :: 0 <= k < i2 ==> head[k] == key[k];
  }

  /** The characters of the name, text and link fields. */
  lemma FieldChars(key: string, n: string, t: string, l: string, w: string, p: bool,
                   i0: nat, i1: nat, i2: nat)
    requires WellFormed(CommandSource(n, t, l, w, p))
    requires CommandLaidOut(key, n, t, l, w, p, i0, i1, i2)
    ensures forall k :: 1 <= k < i0 ==> IsLetterOrDigit(key[k])
    ensures forall k :: i0 < k < i1 ==> IsTextChar(key[k])
    ensures forall k :: i1 < k < i2 ==> IsLetterOrDigit(key[k])
  {
  }

  /** The command name runs from index 1 up to `i0`. */
  lemma NameField(key: string, n: string, i0: nat)
    requires AllLettersOrDigits(n) && i0 == 1 + |n| <= |key|
    requires forall k :: 1 <= k < i0 ==> key[k] == n[k - 1]
    requires i0 == |key| || !IsLetterOrDigit(key[i0])
    ensures NameEnd(key) == i0 && CommandOf(key) == CommandFromName(n)
  {
    assert forall k :: 1 <= k < i0 ==> IsLetterOrDigit(key[k]);
    RunEndUnique(key, 1, IsLetterOrDigit, i0);
    assert key[1..i0] == n;
    assert n == "" ==> KeyToValue(n) == None;
  }

  /** The `:text` field runs from `i0` up to `i1`; no `:` follows the name otherwise. */
  lemma TextField(key: string, t: string, i0: nat, i1: nat)
    requires AllTextChars(t) && 1 <= i0 && i1 == i0 + |TextPart(t)| <= |key|
    requires NameEnd(key) == i0
    requires t != "" ==> key[i0] == CommandTextSigil
    requires forall k :: i0 < k < i1 ==> key[k] == t[k - i0 - 1]
    requires i1 == |key| || !IsTextChar(key[i1])
    requires t == "" ==> forall k :: i0 <= k < |key| ==> key[k] != CommandTextSigil
    ensures CommandTextOf(key) == Replace(t, '_', ' ')
  {
    if t != "" {
      assert IndexOf(key, CommandTextSigil, i0) == i0;
      assert forall k :: i0 + 1 <= k < i1 ==> IsTextChar(key[k]);
      RunEndUnique(key, i0 + 1, IsTextChar, i1);
      assert key[i0 + 1..i1] == t;
    } else {
      assert IndexOf(key, CommandTextSigil, i0) == -1;
    }
  }

  /** The `@link` field runs from `i1` up to `i2`; no other `@` occurs. */
  lemma LinkField(key: string, l: string, i1: nat, i2: nat)
    requires AllLettersOrDigits(l) && 1 <= i1 && i2 == i1 + |LinkPart(l)| <= |key|
    requires l != "" ==> key[i1] == LinkSigil
    requires forall k :: i1 < k < i2 ==> key[k] == l[k - i1 - 1]
    requires i2 == |key| || !IsLetterOrDigit(key[i2])
    requires forall k :: i1 < k < |key| ==> key[k] != LinkSigil
    requires l == "" ==> forall k :: 0 <= k <= i1 && k < |key| ==> key[k] != LinkSigil
    ensures LinkOf(key) == l
  {
    if l != "" {
      LastIndexOfUnique(key, LinkSigil, i1);
      assert forall k :: i1 + 1 <= k < i2 ==> IsLetterOrDigit(key[k]);
      RunEndUnique(key, i1 + 1, IsLetterOrDigit, i2);
      assert key[i1 + 1..i2] == l;
    } else {
      LastIndexOfUnique(key, LinkSigil, -1);
    }
  }
}
