# VirtKeyboard layout parser and page navigation, in Dafny

VirtKeyboard is a Qt on-screen keyboard. Its layout is a text in a small
language. A `$id` line starts a page. Each following non-empty line is a row of
keys. Each row holds space-separated key tokens:

- `#g` is a character key with glyph `g`;
- `&NAME:text@link%width!` is a command key;
- `~%width` is a spacer.

`createLayout` splits the text into pages and `parsePage` turns each page into
rows. `parseLine` scans every token position by position and fills a
`VirtKeyData` record. `onKeyClicked` follows a key's link to another page. It
looks that page up on the first click and caches it on the key.

This project models that core:

| module | file | what it holds |
|---|---|---|
| `Wrappers` | `wrappers.dfy` | `Option` |
| `QtString` | `qstring.dfy` | the QString operations the parser uses. `simplified` is modelled as the words joined by single spaces. `split` keeps empty parts. Also `indexOf`, `lastIndexOf`, `replace`, the scan loops and `toDouble` on digit/point runs. |
| `VirtKeyDefs` | `keydefs.dfy` | everything from `VirtKeyboard.h`: the eight sigils, the `Type` and `Command` enums, the `keyToValue` name table, the `VirtKeyData` record with its defaults, and `VK_DEFAULT_LAYOUT` |
| `KeyParser` | `keyparser.dfy` | the token scanner of `parseLine`. Each of its loops is a method proved against one specification function (`KeySpec` and its field functions). A row is the keys of its tokens (`KeysOf`, `RowSpec`). |
| `KeyFormat` | `keyformat.dfy` | the inverse direction: a key description written out as a token by the rules in `VirtKeyboard.h:21-28`, and the round trip proving that the parser reads it back |
| `PageBuilder` | `pagebuilder.dfy` | the line loop of `createLayout` and the header handling of `parsePage`. An independent reference definition (`PagesOf`) is proved equal to them. |
| `Keyboard` | `keyboard.dfy` | the class `VirtKeyboard` (pages, current page, per-key cached links) with `CreateLayout` and `OnKeyClicked`, and the link lookup (`findChild`) |
| `KeyVectors` | `keyvectors.dfy` | single tokens the rules single out, proved as concrete facts |
| `PagedLayout` | `pagedlayout.dfy` | a general theorem: a text of six-line pages (header, four key lines, empty line) gives exactly those pages |
| `DefaultLayoutFacts` | `defaultlayout.dfy` | the default layout: its four pages, every key, its links, and a shift round trip on a keyboard built from the empty string |

Widths are exact rationals (`real`). `toDouble` is modelled on the only
strings the width scan can pass it, runs of digits and points. Such a run is a
number exactly when it has a digit and at most one point. Anything else gives
0.0, which the parser then resets to 1.0.

The cached `QWidget*` of a key is an `Option<nat>`: the index of the page in
the stacked widget.

### Behaviour worth knowing

- **Default layout.** Only the exactly empty string is replaced by the default
  layout (`VirtKeyboard.cpp:79`). Text that yields no page, such as a single
  space, gives no pages and no current page (`BlankLayoutHasNoPages`).
- **`&UNDEFINED`.** The name table is the whole `Command` enum, UNDEFINED
  included, so `&UNDEFINED` gives command UNDEFINED (`VirtKeyboard.cpp:189-190`;
  `UndefinedNameIsUndefined`, `CommandKindOf`). Every other command key gets
  CUSTOM or a named command.
- **Links are cached.** A link is looked up on the first click and the result is
  cached on the key (`VirtKeyboard.cpp:315-318`). `ClickNavigation` and
  `TouchedLink` prove that, while the cache stays honest, a click shows the same
  page a fresh lookup would.
- **Duplicate page ids.** When several pages share an id, Qt leaves open which
  of them `findChild` returns (`VirtKeyboard.cpp:317`). The model picks the first
  page with that id. A unique id, as in the default layout, resolves the same way
  in both.
- **A command key's `%` at index 1 is not read.** The parser reads a command
  key's width only when the last `%` sits beyond index 1
  (`VirtKeyboard.cpp:228-230`). So `&%2` is a CUSTOM key of width 1.0
  (`EmptyNameWidth`). The grammar in `VirtKeyboard.h:23-28` allows that empty
  name. `&:%2` and `&@%2` also have empty name, text and link, but their `%`
  sits at index 2, so they are 2.0 wide (`EmptyFieldsWidth`).
  `KeyFormat.WellFormed` asks for a non-empty name, text or link before a
  command key's width. The reason is that `Format` writes no `:` or `@` for an
  empty field, so `&%w` is the only token it could write with `%` at index 1.

## Model

| member | source | states |
|---|---|---|
| VirtKeyDefs.Sigils | VirtKeyboard.h:12-19 | the eight sigils `$ # % & : @ ! ~` are pairwise distinct |
| VirtKeyDefs.KeyToValue | VirtKeyboard.cpp:188-190 | a found value's enum key is exactly the name (case-sensitive); None only when no enum key equals the name |
| VirtKeyDefs.KeyToValueOfName | VirtKeyboard.h:67-68 | every one of the six enum values, UNDEFINED included, is found again from its key |
| VirtKeyDefs.NewKeyData | VirtKeyboard.h:84-92 | a fresh record has type and command UNDEFINED, empty text and linkStr, width 1.0, not pressed, no cached link |
| QtString.RunEnd | VirtKeyboard.cpp:178-182 | the scan loop stops at the first index whose character fails the test, or at the end |
| QtString.IndexOf | VirtKeyboard.cpp:193 | the first occurrence at or after `from`, or -1 when there is none |
| QtString.LastIndexOf | VirtKeyboard.cpp:211 | the last occurrence, or -1 when there is none |
| QtString.Replace | VirtKeyboard.cpp:206 | same length; each `a` becomes `b`, every other character is kept |
| QtString.Words | VirtKeyboard.cpp:154 | the words of a line are non-empty and hold no whitespace |
| QtString.WordsOfNoSpace | VirtKeyboard.cpp:154 | text without whitespace is one word, or no word when empty |
| QtString.WordsAtSpace | VirtKeyboard.cpp:154 | any whitespace character (a tab, a repeated or leading space) splits words: the words around it are the words of the text; with WordsOfNoSpace this fixes the words of every text |
| QtString.Simplified | VirtKeyboard.cpp:88 | QString::simplified, defined as the words joined by single spaces; SimplifiedShape, SimplifiedIdempotent and JoinIsSimplified state what it gives |
| QtString.SimplifiedShape | VirtKeyboard.cpp:88 | the result holds only single spaces between non-blank characters, and it has the same words as the input |
| QtString.Split | VirtKeyboard.cpp:81 | at least one part; no part holds the separator; joining the parts with it gives the text back |
| QtString.SplitOfJoin | VirtKeyboard.cpp:81 | splitting parts joined by a separator they do not contain gives the parts back |
| QtString.WordsOfJoin | VirtKeyboard.cpp:154 | words joined by single spaces split back into the same words |
| QtString.SimplifiedIdempotent | VirtKeyboard.cpp:154 | simplifying a line that createLayout already simplified changes nothing |
| QtString.JoinIsSimplified | VirtKeyboard.cpp:88 | words joined by single spaces have only single inner spaces and start and end with a non-space |
| QtString.ToDouble | VirtKeyboard.cpp:243 | not a number gives 0.0; a number is positive exactly when some digit is not 0; never negative |
| QtString.SplitTerminated | VirtKeyboard.h:30-54 | lines each ended by a line feed split back into the lines and one empty last part |
| KeyParser.KeySpec | VirtKeyboard.cpp:158-252 | a token gives a key exactly when it starts with `#`, `&` or `~`; a key's width is positive and it caches no link; only command keys get a command or a link; spacers get no text |
| KeyParser.TypeOf | VirtKeyboard.cpp:160-166 | the type the first character selects, UNDEFINED for a token that is skipped; ParseKeyToken is proved to compute it, and KeySpec returns None exactly for the UNDEFINED type |
| KeyParser.CommandOf | VirtKeyboard.cpp:174-191 | the kind of a command token; CommandKindOf states it, and ParseCommandName is proved to compute it |
| KeyParser.CommandTextOf | VirtKeyboard.cpp:193-209 | the specification ParseCommandText is proved to compute; ParseFormatCommand and UnderscoreText state its value on well-formed tokens |
| KeyParser.LinkOf | VirtKeyboard.cpp:211-225 | the specification ParseLink is proved to compute; ParseFormatCommand states its value on well-formed tokens |
| KeyParser.WidthOf | VirtKeyboard.cpp:228-246 | the specification ParseWidth is proved to compute; KeySpec states it is positive, and WidthValue with the ParseFormat lemmas and the width vectors state its value |
| KeyParser.PressedOf | VirtKeyboard.cpp:248-252 | the specification of the `!` test in ParseKeyToken; ParseFormat and BangGlyph state its value, the length-2 character exception included |
| KeyParser.CommandKindOf | VirtKeyboard.cpp:174-191 | the kind is UNDEFINED exactly when the name run is `UNDEFINED`, and CUSTOM exactly when the run is `CUSTOM` or names no enum value (the empty run included); otherwise it is the value the run names |
| KeyParser.ParseKeyToken | VirtKeyboard.cpp:158-252 | the field-by-field scan of one token gives exactly `KeySpec` of it |
| KeyParser.ParseCommandFields | VirtKeyboard.cpp:174-225 | the command part sets command, text and link as the field functions say and keeps every other field |
| KeyParser.ParseCommandName | VirtKeyboard.cpp:174-191 | the name loop ends at the end of the letter/digit run, and the command is the enum value so named, else CUSTOM |
| KeyParser.ParseCommandText | VirtKeyboard.cpp:193-209 | the text runs from just after the first `:` at or after the name's end up to the next `@`, `%` or `!`, with `_` as space, and is set only when non-empty |
| KeyParser.ParseLink | VirtKeyboard.cpp:211-225 | the link is the letter/digit run after the last `@`, set only when non-empty |
| KeyParser.ParseWidth | VirtKeyboard.cpp:228-246 | the width is read only when the last `%` sits at index 1 for a spacer or beyond index 1 otherwise; a missing or non-positive width leaves 1.0 |
| KeyParser.KeysOf | VirtKeyboard.cpp:156-166 | a row has at most one key per token; every key has a type and no cached link |
| KeyParser.KeysOfAppend | VirtKeyboard.cpp:156-255 | the keys of two token runs are the keys of the first followed by those of the second: order is kept |
| KeyParser.KeysOfKeyed | VirtKeyboard.cpp:160-166 | when every token has a key sigil, the row has one key per token, in order, each the key of its token |
| KeyParser.KeysOfUnkeyed | VirtKeyboard.cpp:160-166 | tokens without a key sigil contribute no key |
| KeyParser.RowSpecWords | VirtKeyboard.cpp:154 | a line's keys are the keys of its whitespace-separated words |
| KeyParser.LineOfTokens | VirtKeyboard.cpp:154 | a line written as tokens joined by single spaces is already simplified and gives the keys of those tokens |
| KeyParser.ParseLine | VirtKeyboard.cpp:147-259 | parseLine builds exactly `RowSpec` of the line |
| KeyParser.ParseTokens | VirtKeyboard.cpp:156-255 | the token loop produces exactly the keys of the tokens, in order |
| KeyFormat.WidthValue | VirtKeyboard.cpp:241-245 | a width field gives a positive factor: its own value when that is a positive number, else 1.0 |
| KeyFormat.ParseFormat | VirtKeyboard.h:21-28 | round trip: every key written out by the grammar's rules is parsed back as the key it describes, with `_` in command text read as a space |
| KeyFormat.ParseFormatCharacter | VirtKeyboard.cpp:160-171 | a character token gives its glyph, its width and its `!`, except that `#!` is an unpressed `!` |
| KeyFormat.ParseFormatCommand | VirtKeyboard.cpp:172-226 | a well-formed command token gives its named kind, its text, its link, its width and its `!` |
| KeyFormat.ParseFormatSpacer | VirtKeyboard.cpp:228-252 | a spacer token reads its width from a `%` at index 1 and its `!` |
| KeyVectors.UnknownCommandIsCustom | VirtKeyboard.cpp:190 | `&UNKNOWNCMD` is a CUSTOM command |
| KeyVectors.ShiftNameIsShift | VirtKeyboard.cpp:188-190 | `&SHIFT` is a SHIFT command |
| KeyVectors.LowerCaseNameIsCustom | VirtKeyboard.cpp:189 | `&shift` is CUSTOM: matching is case-sensitive |
| KeyVectors.UndefinedNameIsUndefined | VirtKeyboard.cpp:189-190 | `&UNDEFINED` is an UNDEFINED command |
| KeyVectors.UnderscoreText | VirtKeyboard.cpp:206 | `&:a_b` has text `a b` |
| KeyVectors.BangGlyph | VirtKeyboard.cpp:248-252 | `#!` is an unpressed `!`; `#a!` is pressed |
| KeyVectors.PercentGlyph | VirtKeyboard.cpp:228-230 | `#%` is the glyph `%` with width 1.0 |
| KeyVectors.NegativeWidth | VirtKeyboard.cpp:235-241 | `#a%-1` keeps width 1.0 |
| KeyVectors.ZeroWidth | VirtKeyboard.cpp:244 | `#a%0` is reset to width 1.0 |
| KeyVectors.SpacerWidth | VirtKeyboard.cpp:229-230 | `~%2` is 2.0 wide; `~x%2` keeps 1.0 |
| KeyVectors.SkippedToken | VirtKeyboard.cpp:154-166 | `#a ^b #c` gives exactly the two keys `a` and `c` |
| KeyVectors.EmptyNameWidth | VirtKeyboard.cpp:228-230 | `&%2` is a CUSTOM key of width 1.0: a command key's `%` at index 1 is not read |
| KeyVectors.EmptyFieldsWidth | VirtKeyboard.cpp:228-245 | `&:%2` and `&@%2`, with empty name, text and link, are CUSTOM keys 2.0 wide: their `%` sits beyond index 1 |
| KeyVectors.EmptyTextWidth | VirtKeyboard.cpp:228-245 | `&:%2`, with an empty text after `:`, is a CUSTOM key 2.0 wide |
| KeyVectors.EmptyLinkWidth | VirtKeyboard.cpp:228-245 | `&@%2`, with an empty link after `@`, is a CUSTOM key 2.0 wide |
| PageBuilder.Cleaned | VirtKeyboard.cpp:86-90 | the kept lines are non-empty and simplified |
| PageBuilder.CleanedAppend | VirtKeyboard.cpp:86-90 | lines are cleaned one by one, so cleaning distributes over concatenation |
| PageBuilder.CleanedKeepsClean | VirtKeyboard.cpp:88-90 | lines already non-empty and simplified are all kept unchanged |
| PageBuilder.CleanedDropsEmpty | VirtKeyboard.cpp:90 | an empty line is dropped |
| PageBuilder.GroupLines | VirtKeyboard.cpp:83-103 | the grouping loop cuts the cleaned lines into blocks, losing and reordering nothing, with every block after the first opening with the block's only header |
| PageBuilder.PushLine | VirtKeyboard.cpp:92-101 | one step of the loop: a header closes the current block, and every line lands in order |
| PageBuilder.AppendBlock | VirtKeyboard.cpp:103 | the last block is appended after the others |
| PageBuilder.ParsePage | VirtKeyboard.cpp:110-145 | a block whose first line is not a header gives no page; otherwise one page named by the header minus its sigil, one row per further line |
| PageBuilder.ParseRows | VirtKeyboard.cpp:133-139 | one row per line, each the row of keys of that line |
| PageBuilder.ParsePages | VirtKeyboard.cpp:105 | the pages of the blocks, in order |
| PageBuilder.Rows | VirtKeyboard.cpp:133-139 | exactly one row per line, rows without keys included |
| PageBuilder.PagesOfSections | VirtKeyboard.cpp:105 | one page per header section |
| PageBuilder.NextHeader | VirtKeyboard.cpp:92 | the next header line at or after `i`, or the end |
| PageBuilder.CollectSections | VirtKeyboard.cpp:83-105 | grouping and parsing the blocks give the same sections as the reference reading of the cleaned lines |
| PageBuilder.PagesOfIds | VirtKeyboard.cpp:117-123 | the page ids, in order, are the headers minus their sigil, one per header line |
| PageBuilder.PagesOfLeading | VirtKeyboard.cpp:112-117 | the lines before the first header form no page |
| PageBuilder.PagesOfRows | VirtKeyboard.cpp:133-139 | after the first header, each line is either a header or exactly one row |
| PageBuilder.SectionsFromAppend | VirtKeyboard.cpp:92-103 | a block that starts with a header adds exactly its own section |
| PageBuilder.BlankLayoutHasNoPages | VirtKeyboard.cpp:79 | a layout of one space is not replaced by the default layout and gives no pages |
| PageBuilder.EffectiveLayout | VirtKeyboard.cpp:79 | the layout text createLayout settles on; DefaultIfEmpty is proved to compute it, and BlankLayoutHasNoPages shows that whitespace is kept |
| PageBuilder.LayoutPages | VirtKeyboard.cpp:79-105 | the pages of a layout string, by the reference reading of its cleaned lines; CreateLayout is proved to build exactly these, PagesOfIds, PagesOfLeading and PagesOfRows state their ids and rows, and DefaultPages states them for the empty string |
| Keyboard.FindPage | VirtKeyboard.cpp:317 | the page with that id, or None exactly when no page has it; among pages sharing the id, which Qt leaves open, the first |
| Keyboard.FindPageOfIds | VirtKeyboard.cpp:317 | the lookup depends on the page ids only |
| Keyboard.SetKey | VirtKeyboard.cpp:317 | writing one key changes that key and nothing else |
| Keyboard.TouchedLink | VirtKeyboard.cpp:314-318 | after the link step the key's link is the page its link names (none without a link); the cache stays honest; a second step changes nothing |
| Keyboard.Touched | VirtKeyboard.cpp:314-318 | the link step changes the link and nothing else; a key with a cached link, or without a link, keeps its link; otherwise the link becomes the page its name finds |
| Keyboard.SetKeyKeepsLinks | VirtKeyboard.cpp:317 | caching one link keeps every cached link right |
| Keyboard.PagesUnlinked | VirtKeyboard.h:92 | freshly parsed keys cache no link |
| Keyboard.UnlinkedCached | VirtKeyboard.h:92 | keys without a cached link satisfy the cache invariant |
| Keyboard.BuildPages | VirtKeyboard.cpp:81-105 | the pages built from a layout text are the reference pages of its cleaned lines, with no link cached |
| Keyboard.DefaultIfEmpty | VirtKeyboard.cpp:79 | the empty string becomes the default layout; any other string is kept |
| Keyboard.VirtKeyboard.CreateLayout | VirtKeyboard.cpp:70-108 | the old pages are replaced by the pages of the layout; the current page is 0 exactly when there is a page |
| Keyboard.VirtKeyboard.OnKeyClicked | VirtKeyboard.cpp:307-325 | a real key looks its link up only when none is cached and caches it, a cached page becomes the current page, and the key is emitted; anything else changes nothing |
| Keyboard.ClickNavigation | VirtKeyboard.cpp:314-322 | a click shows the page FindPage gives for the key's link (the first such page when ids repeat); with no such page, or with no link, the current page stays |
| PagedLayout.TokenPages | VirtKeyboard.h:30-54 | one page per id |
| PagedLayout.PagedLayoutPages | VirtKeyboard.cpp:81-105 | a text of six-line pages gives one page per header, in order, each with one row of keys per key line |
| DefaultLayoutFacts.DefaultPaged | VirtKeyboard.h:30-54 | the default layout text is four such six-line pages |
| DefaultLayoutFacts.DefaultPages | VirtKeyboard.h:30-54 | the empty layout string gives the pages of the default layout's token rows |
| DefaultLayoutFacts.DefaultPagesFind | VirtKeyboard.h:31-49 | the ids letters, caps, symbols1 and symbols2 are found at pages 0, 1, 2 and 3 |
| DefaultLayoutFacts.DefaultRowKeys | VirtKeyboard.h:32-53 | every token of a default row is a key; only the first key of a row has a link, and only the caps shift key is pressed |
| DefaultLayoutFacts.DefaultLayoutShape | VirtKeyboard.h:30-54 | four pages, letters, caps, symbols1 and symbols2 in that order, four rows each, each row the keys of its tokens |
| DefaultLayoutFacts.DefaultLayoutKeys | VirtKeyboard.h:34-53 | every key's link and pressed flag: the only pressed key is the caps shift key, so the `#!` keys are not pressed |
| DefaultLayoutFacts.DefaultLinkNames | VirtKeyboard.h:34-53 | every link names one of the four page ids |
| DefaultLayoutFacts.DefaultLinksResolve | VirtKeyboard.h:34-53 | every link of the default layout finds a page |
| DefaultLayoutFacts.LettersShiftToken | VirtKeyboard.h:34 | the letters shift token is an unpressed SHIFT `Shift` key 1.624 wide linking to caps |
| DefaultLayoutFacts.CapsShiftToken | VirtKeyboard.h:40 | the caps shift token is the same key, pressed, linking to letters |
| DefaultLayoutFacts.DefaultShiftKeys | VirtKeyboard.h:34-40 | the two shift keys as built on the default pages |
| DefaultLayoutFacts.ShiftClicks | VirtKeyboard.cpp:314-318 | the shift keys look up caps (page 1) and letters (page 0) |
| DefaultLayoutFacts.DefaultShiftRoundTrip | VirtKeyboard.cpp:307-325 | a keyboard built from the empty string shows letters; shift emits SHIFT and shows caps; the pressed caps shift leads back to letters |

## Left out

- Qt widgets are not modelled: the stacked widget, the box layouts, spacer items, padding, and `setFixedSize` with `_keySize.width() * widthFactor`. A page is its id and its rows of key records; a spacer token is a key record of type SPACER.
- `loadLayout` is not modelled: it is file I/O and a UTF-8 codec. Its result is the `layoutStr` parameter of `CreateLayout`.
- The shift, backspace and enter icon images are not modelled, nor the ownership of those images.
- The `&` to `&&` escaping of a button label is not modelled. It is a Qt mnemonic quirk of the label, not of the key record.
- Signals, `Q_EMIT`, `dynamic_cast` of `sender()` and `setChecked` are not modelled. The sender is the key's (page, row, column) position. A position outside the pages, or a spacer, is what a failed cast stands for. The emitted record is `OnKeyClicked`'s result.
- QtString.ToDouble: IEEE double rounding, exponents, signs, overflow and underflow are not modelled. The width scan only ever passes digits and points, and the value is an exact rational. `QString::toDouble` gives 0.0 on underflow, so the code resets a width such as `0.` followed by 400 zeros and a `1` to 1.0. The model keeps that tiny positive value instead.
- QtString.IsLetterOrDigit: ASCII letters and digits only. `QChar::isLetter`/`isDigit` would also accept other Unicode letters and digits.
- QtString.IsSpace: ASCII whitespace, U+0085 and U+00A0 only. Other Unicode spaces are not modelled.
- Keyboard.FindPage: searches the pages, not the whole widget tree; only page widgets get an object name. When several pages share an id, Qt leaves open which child `findChild` returns; the order of the children also changes as pages are shown. The model picks the first page with the id, so for duplicate ids it may show a different page than the code.
- KeyParser.KeySpec: a character outside the Basic Multilingual Plane is one character of a token, while `QString` indexes UTF-16 code units. For `#😀` the code's `key[1]` is a lone high surrogate and the model's glyph is the whole character. Token lengths and the `%` position count that character once, not twice.
- VirtKeyDefs.DefaultLayout: the literal is held as its token rows. The text is built by joining each row with single spaces and ending every line with a line feed, which gives the characters of the literal.
