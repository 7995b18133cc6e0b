/** The key-token parser of VirtKeyboard::parseLine: one whitespace-separated token
    of a layout row becomes one key record, by a positional scan for the sigils. */
module KeyParser {
  import opened Wrappers
  import opened QtString
  import opened VirtKeyDefs

  /** The key type a token's first character selects; UndefinedType marks a token
      the parser skips. */
  function TypeOf(key: string): KeyType
  {
    if StartsWith(key, CharacterSigil) then Character
    else if StartsWith(key, CommandSigil) then Command
    else if StartsWith(key, SpacerSigil) then Spacer
    else UndefinedType
  }

  /** The end of the command name: the letters and digits from index 1 on. */
  function NameEnd(key: string): nat
    requires |key| >= 1
  {
    RunEnd(key, 1, IsLetterOrDigit)
  }

  /** The command a name selects: the enum value with that key, otherwise CUSTOM. */
  function CommandFromName(name: string): CommandKind
  {
    match KeyToValue(name)
    case Some(c) => c
    case None => Custom
  }

  function CommandOf(key: string): CommandKind
    requires |key| >= 1
  {
    var e := NameEnd(key);
    if 1 < e then CommandFromName(key[1..e]) else Custom
  }

  /** A character that may stand in command text: anything but the link, width and
      pressed sigils. */
  predicate IsTextChar(c: char)
  {
    c != LinkSigil && c != WidthSigil && c != PressedSigil
  }

  function CommandTextOf(key: string): string
    requires |key| >= 1
  {
    var e := NameEnd(key);
    var start := IndexOf(key, CommandTextSigil, e) + 1;
    if start > e then
      var t := RunEnd(key, start, IsTextChar);
      if start < t then Replace(key[start..t], '_', ' ') else ""
    else ""
  }

  function LinkOf(key: string): string
  {
    var start := LastIndexOf(key, LinkSigil) + 1;
    if start > 1 then key[start..RunEnd(key, start, IsLetterOrDigit)] else ""
  }

  /** The width factor read from the digits and points starting at `start`. */
  function WidthField(key: string, start: nat): real
    requires start <= |key|
  {
    var e := RunEnd(key, start, IsWidthChar);
    if start < e then
      var span := key[start..e];
      assert forall k :: 0 <= k < |span| ==> span[k] == key[start + k];
      var v := ToDouble(span);
      if v <= 0.0 then 1.0 else v
    else 1.0
  }

  function WidthOf(key: string, t: KeyType): real
  {
    var w := LastIndexOf(key, WidthSigil);
    if (t == Spacer && w == 1) || (t != Spacer && w > 1) then WidthField(key, w + 1) else 1.0
  }

  function PressedOf(key: string, t: KeyType): bool
  {
    EndsWith(key, PressedSigil) && !(t == Character && |key| == 2)
  }

  /** The key a token describes, or None for a token without a key sigil. */
  function KeySpec(key: string): (r: Option<KeyData>)
    ensures r.None? <==> key == [] || (key[0] != '#' && key[0] != '&' && key[0] != '~')
    ensures r.Some? ==> r.value.widthFactor > 0.0 && r.value.link == None
    ensures r.Some? ==> r.value.keyType != UndefinedType
    ensures r.Some? && r.value.keyType != Command ==>
              r.value.linkStr == "" && r.value.command == UndefinedCommand
    ensures r.Some? && r.value.keyType == Spacer ==> r.value.text == ""
  {
    var t := TypeOf(key);
    if t == UndefinedType then None
    else
      Some(KeyData(
        t,
        if t == Command then CommandOf(key) else UndefinedCommand,
        if t == Character then (if |key| > 1 then [key[1]] else "")
        else if t == Command then CommandTextOf(key)
        else "",
        WidthOf(key, t),
        PressedOf(key, t),
        if t == Command then LinkOf(key) else "",
        None))
  }

  /** A command key's kind is UNDEFINED exactly when its name run is the enum key
      UNDEFINED, and CUSTOM exactly when the run is CUSTOM or names no enum value at
      all (the empty run included); otherwise it is the value the run names. */
  lemma CommandKindOf(key: string)
    requires StartsWith(key, CommandSigil)
    ensures KeySpec(key).Some? && KeySpec(key).value.keyType == Command
    ensures var name := key[1..NameEnd(key)];
            var kind := KeySpec(key).value.command;
            (kind == UndefinedCommand <==> name == "UNDEFINED") &&
            (kind == Custom <==> name == "CUSTOM" || forall c: CommandKind :: CommandName(c) != name) &&
            (kind != Custom ==> CommandName(kind) == name)
  {
    var name := key[1..NameEnd(key)];
    assert KeySpec(key).value.command == CommandOf(key);
    if NameEnd(key) == 1 {
      assert name == "";
      assert forall c: CommandKind :: CommandName(c) != name;
    } else {
      KeyToValueOfName(UndefinedCommand);
      KeyToValueOfName(Custom);
    }
  }

  /** The body of the token loop of parseLine (VirtKeyboard.cpp:158-252): fills a
      fresh key record field by field while scanning the token. */
  method ParseKeyToken(key: string) returns (result: Option<KeyData>)
    ensures result == KeySpec(key)
  {
    var data := NewKeyData();

    if StartsWith(key, CharacterSigil) {
      data := data.(keyType := Character);
    } else if StartsWith(key, CommandSigil) {
      data := data.(keyType := Command);
    } else if StartsWith(key, SpacerSigil) {
      data := data.(keyType := Spacer);
    } else {
      return None;
    }

    if data.keyType == Character {
      if |key| > 1 {
        data := data.(text := [key[1]]);
      }
    } else if data.keyType == Command {
      data := ParseCommandFields(key, data);
    }

    data := ParseWidth(key, data);

    if EndsWith(key, PressedSigil) {
      data := data.(pressed := true);
      if data.keyType == Character && |key| == 2 {
        data := data.(pressed := false);
      }
    }

    return Some(data);
  }

  /** The command part of the token loop (VirtKeyboard.cpp:174-225): the command
      from the name after the sigil, the text after the first `:` that follows the
      name, and the link after the last `@`. */
  method ParseCommandFields(key: string, data: KeyData) returns (d: KeyData)
    requires StartsWith(key, CommandSigil)
    requires data.text == "" && data.linkStr == ""
    ensures d == data.(command := CommandOf(key), text := CommandTextOf(key), linkStr := LinkOf(key))
  {
    var commandEnd;
    d, commandEnd := ParseCommandName(key, data);
    d := ParseCommandText(key, commandEnd, d);
    d := ParseLink(key, d);
  }

  /** VirtKeyboard.cpp:174-191: CUSTOM, or the enum value named by the letters and
      digits after the sigil. */
  method ParseCommandName(key: string, data: KeyData) returns (d: KeyData, commandEnd: nat)
    requires StartsWith(key, CommandSigil)
    ensures commandEnd == NameEnd(key)
    ensures d == data.(command := CommandOf(key))
  {
    d := data.(command := Custom);

    var commandStart := 1;
    commandEnd := commandStart;
    while commandEnd < |key|
      invariant commandStart <= commandEnd <= |key|
      invariant forall k :: commandStart <= k < commandEnd ==> IsLetterOrDigit(key[k])
    {
      if !IsLetterOrDigit(key[commandEnd]) {
        break;
      }
      commandEnd := commandEnd + 1;
    }
    RunEndUnique(key, commandStart, IsLetterOrDigit, commandEnd);

    if commandStart < commandEnd {
      var commandValue := KeyToValue(key[commandStart..commandEnd]);
      if commandValue.Some? {
        d := d.(command := commandValue.value);
      }
    }
  }

  /** VirtKeyboard.cpp:193-209: the text from just after the first `:` at or after
      the end of the name up to the next `@`, `%` or `!`, with `_` read as a space. */
  method ParseCommandText(key: string, commandEnd: nat, data: KeyData) returns (d: KeyData)
    requires StartsWith(key, CommandSigil) && commandEnd == NameEnd(key)
    requires data.text == ""
    ensures d == data.(text := CommandTextOf(key))
  {
    var text := data.text;
    var commandTextStart := IndexOf(key, CommandTextSigil, commandEnd) + 1;
    if commandTextStart > commandEnd {
      var commandTextEnd := commandTextStart;
      while commandTextEnd < |key|
        invariant commandTextStart <= commandTextEnd <= |key|
        invariant forall k :: commandTextStart <= k < commandTextEnd ==> IsTextChar(key[k])
      {
        if !IsTextChar(key[commandTextEnd]) {
          break;
        }
        commandTextEnd := commandTextEnd + 1;
      }
      RunEndUnique(key, commandTextStart, IsTextChar, commandTextEnd);

      if commandTextStart < commandTextEnd {
        text := Replace(key[commandTextStart..commandTextEnd], '_', ' ');
      }
    }
    assert text == CommandTextOf(key);
    d := data.(text := text);
  }

  /** VirtKeyboard.cpp:211-225: the letters and digits after the last `@`. */
  method ParseLink(key: string, data: KeyData) returns (d: KeyData)
    requires StartsWith(key, CommandSigil)
    requires data.linkStr == ""
    ensures d == data.(linkStr := LinkOf(key))
  {
    d := data;
    var linkStart := LastIndexOf(key, LinkSigil) + 1;
    if linkStart > 1 {
      var linkEnd := linkStart;
      while linkEnd < |key|
        invariant linkStart <= linkEnd <= |key|
        invariant forall k :: linkStart <= k < linkEnd ==> IsLetterOrDigit(key[k])
      {
        if !IsLetterOrDigit(key[linkEnd]) {
          break;
        }
        linkEnd := linkEnd + 1;
      }
      RunEndUnique(key, linkStart, IsLetterOrDigit, linkEnd);

      if linkStart < linkEnd {
        d := d.(linkStr := key[linkStart..linkEnd]);
      }
    }
  }

  /** The width part of the token loop (VirtKeyboard.cpp:228-246): the digits and
      points after the last `%`, where that sigil sits at index 1 for a spacer and
      beyond index 1 for any other key; a width that is not positive is reset to 1.0. */
  method ParseWidth(key: string, data: KeyData) returns (d: KeyData)
    requires data.widthFactor == 1.0
    ensures d == data.(widthFactor := WidthOf(key, data.keyType))
  {
    var factor := data.widthFactor;
    var widthStart := LastIndexOf(key, WidthSigil);
    if (data.keyType == Spacer && widthStart == 1) || (data.keyType != Spacer && widthStart > 1) {
      widthStart := widthStart + 1;
      var widthEnd := widthStart;
      while widthEnd < |key|
        invariant widthStart <= widthEnd <= |key|
        invariant forall k :: widthStart <= k < widthEnd ==> IsWidthChar(key[k])
      {
        if !IsWidthChar(key[widthEnd]) {
          break;
        }
        widthEnd := widthEnd + 1;
      }
      RunEndUnique(key, widthStart, IsWidthChar, widthEnd);

      if widthStart < widthEnd {
        var span := key[widthStart..widthEnd];
        assert forall k :: 0 <= k < |span| ==> span[k] == key[widthStart + k];
        factor := ToDouble(span);
        if factor <= 0.0 {
          factor := 1.0;
        }
      }
      assert factor == WidthField(key, widthStart);
    }
    assert factor == WidthOf(key, data.keyType);
    d := data.(widthFactor := factor);
  }

  /** The keys of a row: the keys of its tokens, in order, skipping the tokens
      without a key sigil. */
  function KeysOf(tokens: seq<string>): (keys: seq<KeyData>)
    ensures |keys| <= |tokens|
    ensures forall k :: 0 <= k < |keys| ==> keys[k].link == None && keys[k].keyType != UndefinedType
  {
    if tokens == [] then []
    else
      var last := tokens[|tokens| - 1];
      KeysOf(tokens[..|tokens| - 1]) + (match KeySpec(last) case Some(d) => [d] case None => [])
  }

  /** One more token adds its key, if it has one, at the end of the row. */
  lemma KeysOfSnoc(tokens: seq<string>, i: nat)
    requires i < |tokens|
    ensures KeysOf(tokens[..i + 1]) ==
            KeysOf(tokens[..i]) + (match KeySpec(tokens[i]) case Some(d) => [d] case None => [])
  {
    assert tokens[..i + 1][..i] == tokens[..i];
  }

  /** The row a layout line yields: its tokens are the parts of the simplified line
      between single spaces. */
  function RowSpec(line: string): seq<KeyData>
  {
    KeysOf(Split(Simplified(line), ' '))
  }

  /** Rows concatenate: the keys of two token lists are the keys of each in turn. */
  lemma {:induction false} KeysOfAppend(a: seq<string>, b: seq<string>)
    ensures KeysOf(a + b) == KeysOf(a) + KeysOf(b)
    decreases |b|
  {
    if b == [] {
      assert a + b == a;
    } else {
      var n := |b| - 1;
      assert (a + b)[..|a + b| - 1] == a + b[..n];
      assert (a + b)[|a + b| - 1] == b[n];
      KeysOfAppend(a, b[..n]);
    }
  }

  /** When every token has a key sigil, the row has one key per token, in order. */
  lemma {:induction false} KeysOfKeyed(tokens: seq<string>)
    requires forall k :: 0 <= k < |tokens| ==> KeySpec(tokens[k]).Some?
    ensures |KeysOf(tokens)| == |tokens|
    ensures forall k :: 0 <= k < |tokens| ==> KeysOf(tokens)[k] == KeySpec(tokens[k]).value
    decreases |tokens|
  {
    if tokens != [] {
      var n := |tokens| - 1;
      var init := tokens[..n];
      assert forall k :: 0 <= k < n ==> init[k] == tokens[k];
      KeysOfKeyed(init);
      KeysOfSnoc(tokens, n);
      assert tokens[..n + 1] == tokens;
      var keys := KeysOf(tokens);
      assert keys == KeysOf(init) + [KeySpec(tokens[n]).value];
      forall k | 0 <= k < |tokens|
        ensures keys[k] == KeySpec(tokens[k]).value
      {
        if k < n {
          assert keys[k] == KeysOf(init)[k];
        }
      }
    }
  }

  /** Tokens without a key sigil contribute nothing. */
  lemma {:induction false} KeysOfUnkeyed(tokens: seq<string>)
    requires forall k :: 0 <= k < |tokens| ==> KeySpec(tokens[k]).None?
    ensures KeysOf(tokens) == []
    decreases |tokens|
  {
    if tokens != [] {
      var n := |tokens| - 1;
      var init := tokens[..n];
      assert forall k :: 0 <= k < n ==> init[k] == tokens[k];
      KeysOfUnkeyed(init);
    }
  }

  /** The tokens of a line are its words: the keys of a row are those of the words of
      its line, in order, however the line is spaced. */
  lemma RowSpecWords(line: string)
    ensures RowSpec(line) == KeysOf(Words(line))
  {
    var ws := Words(line);
    if ws == [] {
      assert Simplified(line) == [];
      assert Split([], ' ') == [""];
      assert [""][..0] == [];
      assert KeysOf([""]) == KeysOf([]) + [];
    } else {
      forall p | p in ws
        ensures ' ' !in p
      {
        assert NoSpace(p);
      }
      SplitOfJoin(ws, ' ');
    }
  }

  /** Tokens that hold no whitespace. */
  predicate PlainTokens(tokens: seq<string>)
  {
    forall k :: 0 <= k < |tokens| ==> tokens[k] != [] && NoSpace(tokens[k])
  }

  /** A line written as plain tokens joined by single spaces is already simplified
      and reads back as the keys of those tokens. */
  lemma LineOfTokens(tokens: seq<string>)
    requires tokens != [] && PlainTokens(tokens)
    ensures Simplified(JoinWith(tokens, ' ')) == JoinWith(tokens, ' ')
    ensures RowSpec(JoinWith(tokens, ' ')) == KeysOf(tokens)
  {
    assert forall w :: w in tokens ==> w != [] && NoSpace(w);
    WordsOfJoin(tokens);
    forall p | p in tokens
      ensures ' ' !in p
    {
      assert NoSpace(p);
    }
    SplitOfJoin(tokens, ' ');
  }

  /** VirtKeyboard::parseLine without the widgets: one key per token with a key
      sigil; an empty line is skipped before it is split. */
  method ParseLine(line: string) returns (row: seq<KeyData>)
    ensures row == RowSpec(line)
  {
    if line == [] {
      assert Split(Simplified(line), ' ') == [""];
      return [];
    }
    row := ParseTokens(Split(Simplified(line), ' '));
  }

  /** The token loop of parseLine (VirtKeyboard.cpp:156-255). */
  method ParseTokens(keys: seq<string>) returns (row: seq<KeyData>)
    ensures row == KeysOf(keys)
  {
    row := [];
    var i := 0;
    while i < |keys|
      invariant 0 <= i <= |keys|
      invariant row == KeysOf(keys[..i])
    {
      var data := ParseKeyToken(keys[i]);
      KeysOfSnoc(keys, i);
      if data.Some? {
        row := row + [data.value];
      }
      i := i + 1;
    }
    assert keys[..|keys|] == keys;
  }
}
