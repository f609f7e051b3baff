/** The `App` component of `src/App.tsx` as an object: its state cells
    are fields, and each handler replaces them as the corresponding
    `setData`/`setSound` call does. Device storage is a field too, read
    and written synchronously. */
module App {
  import opened Optional
  import opened JsNumber
  import opened Sounds
  import opened Session

  class AppState {
    /** `data`: the state record. */
    var data: Data
    /** The `'data'` entry of device storage. */
    var storage: Option<Data>
    /** `kegTotal`: the text typed into the keg-total field. */
    var kegTotal: string
    /** `sound`: the celebration tag on screen, if any. */
    var sound: Option<Tier>

    /** The first render, with `saved` in device storage. */
    constructor (saved: Option<Data>)
      ensures data == InitialData && storage == saved && kegTotal == "" && sound == None
      ensures Valid(data) && AmountLeft(data) == Int(82)
    {
      data := InitialData;
      storage := saved;
      kegTotal := "";
      sound := None;
    }

    /** `resetCount`: every player is removed and the whole keg is left. */
    method ResetCount()
      modifies `data
      ensures data == Reset(old(data))
      ensures Valid(data) && AmountLeft(data) == old(data).total
    {
      data := Reset(data);
      ResetKeepsValid(old(data));
      AmountLeftAfterReset(old(data));
    }

    /** `upPlayersCount(name)` for a tap at `msSinceMidnight`, with
        `randomIndex` standing for `Math.floor(Math.random() * 46)`:
        plays the sound for the new amount, then counts the tap. */
    method UpPlayersCount(name: string, msSinceMidnight: int, randomIndex: nat) returns (played: SoundChoice)
      requires name in data.players
      requires randomIndex < |RandomSounds|
      modifies `data, `sound
      ensures played == ChooseSound(old(data).players[name].amount + 1, randomIndex)
      ensures played.PresetSound? <==> old(data).players[name].amount + 1 in Milestones
      ensures sound == (if played.RandomSound? && played.tier.Some? then played.tier else old(sound))
      ensures data == Increment(old(data), name, msSinceMidnight)
      ensures Valid(old(data)) ==> Valid(data) && AmountLeft(data) == Sub(AmountLeft(old(data)), Int(1))
    {
      played := PlaySound(data.players[name].amount + 1, randomIndex);
      CountTap(name, msSinceMidnight);
    }

    /** The second half of `upPlayersCount`: the `setData` call that
        raises the player's amount and logs the tap time. */
    method CountTap(name: string, msSinceMidnight: int)
      requires name in data.players
      modifies `data
      ensures data == Increment(old(data), name, msSinceMidnight)
      ensures Valid(old(data)) ==> Valid(data) && AmountLeft(data) == Sub(AmountLeft(old(data)), Int(1))
    {
      if Valid(data) {
        IncrementKeepsValid(data, name, msSinceMidnight);
        AmountLeftAfterIncrement(data, name, msSinceMidnight);
      }
      data := Increment(data, name, msSinceMidnight);
    }

    /** The first half of `upPlayersCount`: the milestone sound for
        `newAmount` if there is one, otherwise the pool entry at
        `randomIndex`, raising the celebration tag when that entry is rare
        or epic. */
    method PlaySound(newAmount: int, randomIndex: nat) returns (played: SoundChoice)
      requires randomIndex < |RandomSounds|
      modifies `sound
      ensures played == ChooseSound(newAmount, randomIndex)
      ensures played.PresetSound? <==> newAmount in Milestones
      ensures sound == (if played.RandomSound? && played.tier.Some? then played.tier else old(sound))
    {
      played := ChooseSound(newAmount, randomIndex);
      ChooseSoundPreset(newAmount, randomIndex);
      if played.RandomSound? && played.tier.Some? {
        sound := played.tier;
      }
    }

    /** The `onAdd` handler given to the header. */
    method OnAdd(player: string, color: string)
      modifies `data
      ensures data == AddPlayer(old(data), player, color)
      ensures Valid(old(data)) ==> Valid(data)
    {
      if Valid(data) {
        AddPlayerKeepsValid(data, player, color);
      }
      data := AddPlayer(data, player, color);
    }

    /** `setKegTotal`, the keg-total field's `onChangeText`. */
    method ChangeKegTotal(text: string)
      modifies `kegTotal
      ensures kegTotal == text
    {
      kegTotal := text;
    }

    /** `updateKegTotal`: the total becomes `parseInt` of the field. */
    method UpdateKegTotal()
      modifies `data
      ensures data == SetTotal(old(data), kegTotal)
      ensures Valid(old(data)) ==> Valid(data)
    {
      data := SetTotal(data, kegTotal);
    }

    /** One run of the persistence effect, which React runs after every
        commit of a new `data`. */
    method PersistData()
      modifies `data, `storage
      ensures Stores(data, storage) == PersistEffect(old(data), old(storage))
      ensures old(data).stored || old(storage).None? ==> data == old(data) && storage == Some(data)
      ensures Valid(old(data)) && (old(storage).Some? ==> Valid(old(storage).value)) ==> Valid(data)
    {
      var r := PersistEffect(data, storage);
      data, storage := r.data, r.storage;
    }
  }
}
