/** The declarations of VirtKeyboard.h that the layout parser uses: the sigils of
    the layout language, the key type and command enumerations with the names the
    Qt meta-object system knows them by, the key record with its default field
    values, and the built-in default layout. */
module VirtKeyDefs {
  import opened Wrappers
  import opened QtString

  const HeaderSigil: char := '$'
  const CharacterSigil: char := '#'
  const WidthSigil: char := '%'
  const CommandSigil: char := '&'
  const CommandTextSigil: char := ':'
  const LinkSigil: char := '@'
  const PressedSigil: char := '!'
  const SpacerSigil: char := '~'

  /** The eight sigils, in declaration order. */
  function Sigils(): (s: seq<char>)
    ensures |s| == 8
    ensures forall i, j :: 0 <= i < j < |s| ==> s[i] != s[j]
  {
    [HeaderSigil, CharacterSigil, WidthSigil, CommandSigil,
     CommandTextSigil, LinkSigil, PressedSigil, SpacerSigil]
  }

  /** VirtKey::Type. */
  datatype KeyType = UndefinedType | Character | Command | Spacer

  /** VirtKey::Command. */
  datatype CommandKind = UndefinedCommand | Custom | Shift | Space | BkSpace | Enter

  /** The key of each VirtKey::Command value as Q_ENUM registers it. */
  function CommandName(c: CommandKind): string
  {
    match c
    case UndefinedCommand => "UNDEFINED"
    case Custom => "CUSTOM"
    case Shift => "SHIFT"
    case Space => "SPACE"
    case BkSpace => "BKSPACE"
    case Enter => "ENTER"
  }

  /** QMetaEnum::keyToValue for VirtKey::Command: the value whose key is exactly
      `name` (case-sensitive), or None where Qt returns -1. */
  function KeyToValue(name: string): (r: Option<CommandKind>)
    ensures r.Some? ==> CommandName(r.value) == name
    ensures r.None? ==> forall c: CommandKind :: CommandName(c) != name
  {
    if name == "UNDEFINED" then Some(UndefinedCommand)
    else if name == "CUSTOM" then Some(Custom)
    else if name == "SHIFT" then Some(Shift)
    else if name == "SPACE" then Some(Space)
    else if name == "BKSPACE" then Some(BkSpace)
    else if name == "ENTER" then Some(Enter)
    else None
  }

  /** Every enum value is found again from its key. */
  lemma KeyToValueOfName(c: CommandKind)
    ensures KeyToValue(CommandName(c)) == Some(c)
  {
  }

  /** VirtKeyData. The cached `link` (a QWidget pointer in the source) is the index
      of the page it points to; the icon image is not part of this model. */
  datatype KeyData = KeyData(
    keyType: KeyType,
    command: CommandKind,
    text: string,
    widthFactor: real,
    pressed: bool,
    linkStr: string,
    link: Option<nat>)

  /** A default-constructed VirtKeyData. */
  function NewKeyData(): (d: KeyData)
    ensures d.keyType == UndefinedType && d.command == UndefinedCommand
    ensures d.text == "" && d.linkStr == ""
    ensures d.widthFactor == 1.0 && !d.pressed && d.link == None
  {
    KeyData(UndefinedType, UndefinedCommand, "", 1.0, false, "", None)
  }

  /** The lines of VK_DEFAULT_LAYOUT, each written as its tokens: a line is its
      tokens joined by single spaces, and an empty list is an empty line. */
  const DefaultLayoutRows: seq<seq<string>> := [
    ["$letters"],
    ["#q", "#w", "#e", "#r", "#t", "#y", "#u", "#i", "#o", "#p"],
    ["#a", "#s", "#d", "#f", "#g", "#h", "#j", "#k", "#l"],
    ["&SHIFT:Shift@caps%1.624", "#z", "#x", "#c", "#v", "#b", "#n", "#m", "&BKSPACE:BkSpace%1.625"],
    ["&:?123@symbols1%1.624", "#@", "&SPACE%5.9", "#.", "&ENTER:Enter%1.625"],
    [],
    ["$caps"],
    ["#Q", "#W", "#E", "#R", "#T", "#Y", "#U", "#I", "#O", "#P"],
    ["#A", "#S", "#D", "#F", "#G", "#H", "#J", "#K", "#L"],
    ["&SHIFT:Shift@letters%1.624!", "#Z", "#X", "#C", "#V", "#B", "#N", "#M", "&BKSPACE:BkSpace%1.625"],
    ["&:?123@symbols2%1.624", "#@", "&SPACE%5.9", "#.", "&ENTER:Enter%1.625"],
    [],
    ["$symbols1"],
    ["#1", "#2", "#3", "#4", "#5", "#6", "#7", "#8", "#9", "#0"],
    ["#@", "##", "#$", "#%", "#€", "#&", "#*", "#-", "#+"],
    ["#(", "#)", "#!", "#\"", "#'", "#:", "#;", "#/", "#?", "&BKSPACE:BkSp"],
    ["&:ABC@letters%1.624", "#=", "#_", "&SPACE%3.46", "#,", "#.", "&ENTER:Enter%1.625"],
    [],
    ["$symbols2"],
    ["#1", "#2", "#3", "#4", "#5", "#6", "#7", "#8", "#9", "#0"],
    ["#@", "##", "#$", "#%", "#€", "#&", "#*", "#-", "#+"],
    ["#(", "#)", "#!", "#\"", "#'", "#:", "#;", "#/", "#?", "&BKSPACE:BkSp"],
    ["&:ABC@caps%1.624", "#=", "#_", "&SPACE%3.46", "#,", "#.", "&ENTER:Enter%1.625"],
    []
  ]

  /** The lines of VK_DEFAULT_LAYOUT as text. */
  function DefaultLayoutLines(): (lines: seq<string>)
    ensures |lines| == |DefaultLayoutRows|
  {
    seq(|DefaultLayoutRows|, i requires 0 <= i < |DefaultLayoutRows| => JoinWith(DefaultLayoutRows[i], ' '))
  }

  /** VK_DEFAULT_LAYOUT: four cross-linked pages, letters, caps and two symbol pages,
      every line followed by a line feed. */
  const DefaultLayout: string := Terminated(DefaultLayoutLines())
}
