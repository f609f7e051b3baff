/** The add-player form of `src/Header.tsx`: the colour palette, the
    checks that gate the Add button and flag the name field, and the form
    state `newplayer` / `playerColor` / modal visibility that the handlers
    change. The Add button is the only guard against two players with one
    name, since `onAdd` overwrites an existing entry. */
module Header {
  import opened Optional
  import opened Session

  /** `colors`: the colour schemes a player can pick. */
  const Colors: seq<string> := [
    "rose", "pink", "fuchsia", "purple", "violet", "indigo",
    "blue", "lightBlue", "darkBlue", "cyan", "teal", "emerald",
    "green", "lime", "yellow", "amber", "orange", "red"
  ]

  /** The palette offers 18 different, non-empty colour names. */
  lemma PaletteDistinct()
    ensures |Colors| == 18
    ensures forall i, j :: 0 <= i < j < |Colors| ==> Colors[i] != Colors[j]
    ensures forall i :: 0 <= i < |Colors| ==> Colors[i] != ""
  {
  }

  /** `isDisabled` of the Add button: `!newplayer || !playerColor ||
      playerNames.includes(newplayer)`. An empty string is falsy, so an
      empty colour counts as none. */
  predicate AddDisabled(playerNames: seq<string>, newPlayer: string, playerColor: Option<string>): (disabled: bool)
    ensures NameInvalid(playerNames, newPlayer) ==> disabled
    ensures !disabled ==> newPlayer != "" && playerColor.Some? && playerColor.value != ""
  {
    newPlayer == "" || playerColor == None || playerColor == Some("") || newPlayer in playerNames
  }

  /** `isInvalid` of the name field. */
  predicate NameInvalid(playerNames: seq<string>, newPlayer: string): (invalid: bool)
    ensures invalid <==> exists i :: 0 <= i < |playerNames| && playerNames[i] == newPlayer
  {
    newPlayer in playerNames
  }

  /** The name field is flagged, and Add disabled, exactly for a name
      that already has a player in the record: two players cannot share a
      name. */
  lemma NameInvalidIffPlayer(d: Data, newPlayer: string, playerColor: Option<string>)
    requires Valid(d)
    ensures NameInvalid(PlayerNames(d), newPlayer) <==> newPlayer in d.players
    ensures newPlayer in d.players ==> AddDisabled(PlayerNames(d), newPlayer, playerColor)
  {
  }

  /** A flagged name always disables the button; a non-empty name that
      is not flagged, with a palette colour picked, enables it. */
  lemma AddEnabledWhen(playerNames: seq<string>, newPlayer: string, i: nat)
    requires i < |Colors|
    ensures NameInvalid(playerNames, newPlayer) ==> AddDisabled(playerNames, newPlayer, Some(Colors[i]))
    ensures !AddDisabled(playerNames, newPlayer, Some(Colors[i])) <==> newPlayer != "" && !NameInvalid(playerNames, newPlayer)
  {
    PaletteDistinct();
  }

  /** What an enabled Add press does to a well-formed record: the name is
      new, so one player is appended with a zero tally, everyone already
      there keeps their record, and the amount left does not move. */
  lemma EnabledAddIsFresh(d: Data, newPlayer: string, color: string)
    requires Valid(d)
    requires !AddDisabled(PlayerNames(d), newPlayer, Some(color))
    ensures newPlayer !in d.players && newPlayer != "" && color != ""
    ensures Valid(AddPlayer(d, newPlayer, color))
    ensures AddPlayer(d, newPlayer, color).order == d.order + [newPlayer]
    ensures forall k :: k in d.players ==> AddPlayer(d, newPlayer, color).players[k] == d.players[k]
    ensures AmountLeft(AddPlayer(d, newPlayer, color)) == AmountLeft(d)
  {
    AddPlayerKeepsValid(d, newPlayer, color);
    AmountLeftAfterAdd(d, newPlayer, color);
  }

  /** The modal's form state. */
  class AddPlayerForm {
    /** `newplayer`: the text of the name field. */
    var newPlayer: string
    /** `playerColor`: the picked colour, undefined until one is pressed. */
    var playerColor: Option<string>
    /** `modalState.isOpen`. */
    var isOpen: bool

    constructor ()
      ensures newPlayer == "" && playerColor == None && !isOpen
    {
      newPlayer := "";
      playerColor := None;
      isOpen := false;
    }

    /** The header's Add Player button: `modalState.onOpen`. */
    method Open()
      modifies `isOpen
      ensures isOpen
    {
      isOpen := true;
    }

    /** `onChangeText={setNewPlayer}` of the name field. */
    method ChangeName(text: string)
      modifies `newPlayer
      ensures newPlayer == text
    {
      newPlayer := text;
    }

    /** Pressing the swatch of palette entry `i`. */
    method PickColor(i: nat)
      requires i < |Colors|
      modifies `playerColor
      ensures playerColor == Some(Colors[i])
    {
      playerColor := Some(Colors[i]);
    }

    /** The modal's `onClose`: hide it and clear the form. */
    method Close()
      modifies this
      ensures !isOpen && newPlayer == "" && playerColor == None
    {
      isOpen := false;
      newPlayer := "";
      playerColor := None;
    }

    /** The enabled Add button: hand the name and colour to `onAdd`, clear
        the form and close the modal. */
    method PressAdd(playerNames: seq<string>) returns (player: string, color: string)
      requires !AddDisabled(playerNames, newPlayer, playerColor)
      modifies this
      ensures player == old(newPlayer) && Some(color) == old(playerColor)
      ensures player != "" && color != "" && player !in playerNames
      ensures !isOpen && newPlayer == "" && playerColor == None
    {
      player := newPlayer;
      color := playerColor.value;
      newPlayer := "";
      playerColor := None;
      isOpen := false;
    }
  }
}
