/** The state record of `src/App.tsx` and the pure updaters that the
    handlers pass to `setData`: reset, increment a player, add a player,
    set the keg total; the derived amount left; and the persistence effect
    that loads the record from device storage or writes it back. */
module Session {
  import opened Optional
  import opened JsNumber

  /** A player record: its tally `amount`, its colour scheme name and the
      time of each tap in milliseconds since local midnight. */
  datatype Player = Player(name: string, amount: int, color: string, activity: seq<int>)

  /** The state record `{players, total, stored}`. A JavaScript object
      enumerates its keys in insertion order, and the chart and the sum of
      tallies depend on that order, so `order` lists the keys of
      `players` in the order `Object.keys` gives them. */
  datatype Data = Data(players: map<string, Player>, order: seq<string>, total: Num, stored: bool)

  /** `initialData`: no players, a keg of 82, not yet loaded. */
  const InitialData: Data := Data(map[], [], Int(82), false)

  /** What every record the app builds satisfies: `order` lists each key
      exactly once, every player is stored under its own name, and a
      player's tally is the number of taps recorded for it. */
  ghost predicate Valid(d: Data)
  {
    (forall k :: k in d.players <==> k in d.order)
    && (forall i, j :: 0 <= i < j < |d.order| ==> d.order[i] != d.order[j])
    && (forall k :: k in d.players ==> d.players[k].name == k && d.players[k].amount == |d.players[k].activity|)
  }

  /** `Object.values(players)` for keys listed in `order`. */
  function ValuesOf(order: seq<string>, players: map<string, Player>): (ps: seq<Player>)
    ensures |ps| <= |order|
    ensures forall p :: p in ps ==> exists k :: k in players && players[k] == p
  {
    if order == [] then []
    else
      var last := order[|order| - 1];
      ValuesOf(order[..|order| - 1], players) + (if last in players then [players[last]] else [])
  }

  /** `Object.values(data.players)`. */
  function Values(d: Data): seq<Player>
  {
    ValuesOf(d.order, d.players)
  }

  /** With every listed key present, `Object.values` has one entry per
      key, in key order. */
  lemma {:induction false} ValuesOfListed(order: seq<string>, players: map<string, Player>)
    requires forall i :: 0 <= i < |order| ==> order[i] in players
    ensures |ValuesOf(order, players)| == |order|
    ensures forall i :: 0 <= i < |order| ==> ValuesOf(order, players)[i] == players[order[i]]
  {
    if order != [] {
      ValuesOfListed(order[..|order| - 1], players);
    }
  }

  /** `Object.keys(data.players)`, the names the header checks against. */
  function PlayerNames(d: Data): (names: seq<string>)
    ensures Valid(d) ==> forall k :: k in names <==> k in d.players
  {
    d.order
  }

  /** The sum of the players' tallies, added from the left as `reduce`
      does. */
  function SumAmounts(ps: seq<Player>): (sum: int)
    ensures (forall p :: p in ps ==> p.amount >= 0) ==> sum >= 0
  {
    if ps == [] then 0 else SumAmounts(ps[..|ps| - 1]) + ps[|ps| - 1].amount
  }

  /** `playersCountTotal`: never negative for a well-formed record, and 0
      without players. */
  function PlayersCountTotal(d: Data): (total: int)
    ensures Valid(d) ==> total >= 0
    ensures d.order == [] ==> total == 0
  {
    SumAmounts(Values(d))
  }

  /** "Amount Left": `data.total - playersCountTotal`, NaN when the total
      is NaN and negative when the players drank more than the keg. */
  function AmountLeft(d: Data): (left: Num)
    ensures left.NaN? <==> d.total.NaN?
    ensures Valid(d) && left.Int? ==> left.value <= d.total.value
  {
    Sub(d.total, Int(PlayersCountTotal(d)))
  }

  /** The `resetCount` updater. */
  function Reset(d: Data): (r: Data)
    ensures r.players == map[] && r.order == []
    ensures r.total == d.total && r.stored == d.stored
  {
    d.(players := map[], order := [])
  }

  /** The `upPlayersCount` updater for a tap at `msSinceMidnight`. */
  function Increment(d: Data, name: string, msSinceMidnight: int): (r: Data)
    requires name in d.players
    ensures name in r.players
    ensures r.players[name].amount == d.players[name].amount + 1
    ensures r.players[name].activity == d.players[name].activity + [msSinceMidnight]
    ensures r.players[name].name == d.players[name].name && r.players[name].color == d.players[name].color
    ensures forall k :: k != name ==> (k in r.players <==> k in d.players)
    ensures forall k :: k != name && k in d.players ==> r.players[k] == d.players[k]
    ensures r.order == d.order && r.total == d.total && r.stored == d.stored
  {
    var p := d.players[name];
    d.(players := d.players[name := p.(amount := p.amount + 1, activity := p.activity + [msSinceMidnight])])
  }

  /** The `onAdd` updater: a fresh record under `player`, overwriting any
      player of that name; a new key goes to the end of the key order, an
      existing key keeps its place. */
  function AddPlayer(d: Data, player: string, color: string): (r: Data)
    ensures r.players == d.players[player := Player(player, 0, color, [])]
    ensures player in d.players ==> r.order == d.order
    ensures player !in d.players ==> r.order == d.order + [player]
    ensures r.total == d.total && r.stored == d.stored
  {
    d.(players := d.players[player := Player(player, 0, color, [])],
       order := if player in d.players then d.order else d.order + [player])
  }

  /** The `updateKegTotal` updater: the total becomes `parseInt` of the
      text typed into the keg-total field. */
  function SetTotal(d: Data, text: string): (r: Data)
    ensures r.players == d.players && r.order == d.order && r.stored == d.stored
    ensures r.total == ParseInt(text)
  {
    d.(total := ParseInt(text))
  }

  // ---------------------------------------------------------------------
  // Invariants the updaters preserve

  lemma ResetKeepsValid(d: Data)
    ensures Valid(Reset(d))
  {
  }

  lemma IncrementKeepsValid(d: Data, name: string, msSinceMidnight: int)
    requires Valid(d) && name in d.players
    ensures Valid(Increment(d, name, msSinceMidnight))
  {
  }

  lemma AddPlayerKeepsValid(d: Data, player: string, color: string)
    requires Valid(d)
    ensures Valid(AddPlayer(d, player, color))
  {
    var r := AddPlayer(d, player, color);
    if player !in d.players {
      forall i, j | 0 <= i < j < |r.order| ensures r.order[i] != r.order[j] {
        if j == |d.order| {
          assert r.order[i] == d.order[i] && d.order[i] in d.players;
        }
      }
    }
  }

  // ---------------------------------------------------------------------
  // The sum of tallies

  lemma SumAmountsAppend(ps: seq<Player>, p: Player)
    ensures SumAmounts(ps + [p]) == SumAmounts(ps) + p.amount
  {
    assert (ps + [p])[..|ps|] == ps;
  }

  /** Updating a key that is not listed leaves the values unchanged. */
  lemma {:induction false} ValuesOfUnlisted(order: seq<string>, players: map<string, Player>, k: string, p: Player)
    requires k !in order
    ensures ValuesOf(order, players[k := p]) == ValuesOf(order, players)
  {
    if order != [] {
      ValuesOfUnlisted(order[..|order| - 1], players, k, p);
    }
  }

  /** Replacing the player under a key listed once changes the sum by the
      difference of the two tallies. */
  lemma {:induction false} SumAfterReplace(order: seq<string>, players: map<string, Player>, k: string, p: Player)
    requires k in players && k in order
    requires forall i, j :: 0 <= i < j < |order| ==> order[i] != order[j]
    ensures SumAmounts(ValuesOf(order, players[k := p]))
         == SumAmounts(ValuesOf(order, players)) - players[k].amount + p.amount
  {
    var m := players[k := p];
    var front, last := order[..|order| - 1], order[|order| - 1];
    assert order == front + [last];
    if last == k {
      assert k !in front;
      ValuesOfUnlisted(front, players, k, p);
      SumAmountsAppend(ValuesOf(front, m), p);
      SumAmountsAppend(ValuesOf(front, players), players[k]);
    } else {
      assert k in front;
      SumAfterReplace(front, players, k, p);
      if last in players {
        SumAmountsAppend(ValuesOf(front, m), m[last]);
        SumAmountsAppend(ValuesOf(front, players), players[last]);
      } else {
        assert last !in m;
        assert ValuesOf(order, m) == ValuesOf(front, m) + [] == ValuesOf(front, m);
        assert ValuesOf(order, players) == ValuesOf(front, players) + [] == ValuesOf(front, players);
      }
    }
  }

  // ---------------------------------------------------------------------
  // Amount left after each updater

  /** After a reset the whole keg is left. */
  lemma AmountLeftAfterReset(d: Data)
    ensures AmountLeft(Reset(d)) == d.total
  {
  }

  /** Every tap takes exactly one from the amount left. */
  lemma AmountLeftAfterIncrement(d: Data, name: string, msSinceMidnight: int)
    requires Valid(d) && name in d.players
    ensures AmountLeft(Increment(d, name, msSinceMidnight)) == Sub(AmountLeft(d), Int(1))
  {
    var p := d.players[name];
    SumAfterReplace(d.order, d.players, name, p.(amount := p.amount + 1, activity := p.activity + [msSinceMidnight]));
  }

  /** Adding a new player leaves the amount left unchanged; adding one
      under an existing name gives back that player's tally. */
  lemma AmountLeftAfterAdd(d: Data, player: string, color: string)
    requires Valid(d)
    ensures player !in d.players ==> AmountLeft(AddPlayer(d, player, color)) == AmountLeft(d)
    ensures player in d.players ==>
      AmountLeft(AddPlayer(d, player, color)) == Sub(AmountLeft(d), Int(-d.players[player].amount))
  {
    var newcomer := Player(player, 0, color, []);
    if player in d.players {
      SumAfterReplace(d.order, d.players, player, newcomer);
    } else {
      ValuesOfUnlisted(d.order, d.players, player, newcomer);
      assert ValuesOf(d.order + [player], d.players[player := newcomer])
          == ValuesOf(d.order, d.players[player := newcomer]) + [newcomer] by {
        ValuesOfAppend(d.order, d.players[player := newcomer], player);
      }
      SumAmountsAppend(ValuesOf(d.order, d.players), newcomer);
    }
  }

  lemma ValuesOfAppend(order: seq<string>, players: map<string, Player>, k: string)
    requires k in players
    ensures ValuesOf(order + [k], players) == ValuesOf(order, players) + [players[k]]
  {
    assert (order + [k])[..|order|] == order;
  }

  /** Saving the decimal text of `n` as the keg total leaves
      `n - Σ amount` to drink. */
  lemma AmountLeftAfterSetTotal(d: Data, n: nat)
    ensures AmountLeft(SetTotal(d, NatToString(n))) == Int(n - PlayersCountTotal(d))
  {
    var text := NatToString(n);
    ParseIntOfNatToString(n, "");
    assert text + "" == text;
    assert Values(SetTotal(d, text)) == Values(d);
  }

  /** Text that does not start with a number, such as an empty field,
      makes the total NaN, and then the amount left is NaN too. */
  lemma AmountLeftAfterSetTotalNaN(d: Data, text: string)
    requires text == [] || (DigitValue(text[0]) >= 10 && !IsStrWhiteSpace(text[0]) && text[0] != '-' && text[0] != '+')
    ensures SetTotal(d, text).total == NaN && AmountLeft(SetTotal(d, text)) == NaN
  {
    assert TrimStart(text) == text;
  }

  // ---------------------------------------------------------------------
  // Repeated taps

  /** The record after one tap of `name` at each time of `times`, in order. */
  function IncrementAll(d: Data, name: string, times: seq<int>): Data
    requires name in d.players
    decreases times
  {
    if times == [] then d
    else IncrementAll(Increment(d, name, times[0]), name, times[1..])
  }

  /** However many taps a player gets, its tally grows by their number
      and its activity by their times; nobody else changes. */
  lemma {:induction false} IncrementAllTally(d: Data, name: string, times: seq<int>)
    requires name in d.players
    ensures name in IncrementAll(d, name, times).players
    ensures IncrementAll(d, name, times).players[name].amount == d.players[name].amount + |times|
    ensures IncrementAll(d, name, times).players[name].activity == d.players[name].activity + times
    ensures forall k :: k != name && k in d.players ==>
      k in IncrementAll(d, name, times).players && IncrementAll(d, name, times).players[k] == d.players[k]
    ensures IncrementAll(d, name, times).order == d.order && IncrementAll(d, name, times).total == d.total
    decreases times
  {
    if times != [] {
      IncrementAllTally(Increment(d, name, times[0]), name, times[1..]);
      assert d.players[name].activity + [times[0]] + times[1..] == d.players[name].activity + times;
    }
  }

  /** Repeated taps keep the record valid and take one from the amount
      left per tap. */
  lemma {:induction false} IncrementAllAmountLeft(d: Data, name: string, times: seq<int>)
    requires Valid(d) && name in d.players
    ensures Valid(IncrementAll(d, name, times))
    ensures AmountLeft(IncrementAll(d, name, times)) == Sub(AmountLeft(d), Int(|times|))
    decreases times
  {
    if times != [] {
      IncrementKeepsValid(d, name, times[0]);
      AmountLeftAfterIncrement(d, name, times[0]);
      IncrementAllAmountLeft(Increment(d, name, times[0]), name, times[1..]);
    }
  }

  // Taps across players

  /** The record after each tap of `taps` in order, a tap being the
      player's name and the tap time. Every tap is on a card of the
      screen, so on a player of the record. */
  function TapAll(d: Data, taps: seq<(string, int)>): Data
    requires forall i :: 0 <= i < |taps| ==> taps[i].0 in d.players
    decreases taps
  {
    if taps == [] then d
    else TapAll(Increment(d, taps[0].0, taps[0].1), taps[1..])
  }

  /** The times of the taps on `k`, in order. */
  function TapsOf(taps: seq<(string, int)>, k: string): (times: seq<int>)
    ensures |times| <= |taps|
  {
    if taps == [] then []
    else (if taps[0].0 == k then [taps[0].1] else []) + TapsOf(taps[1..], k)
  }

  /** Taps change no key, no name, no colour, nor the key order, the
      total or the loaded flag. */
  lemma {:induction false} TapAllKeeps(d: Data, taps: seq<(string, int)>)
    requires forall i :: 0 <= i < |taps| ==> taps[i].0 in d.players
    ensures forall k :: k in TapAll(d, taps).players <==> k in d.players
    ensures forall k :: k in d.players ==>
      TapAll(d, taps).players[k].name == d.players[k].name
      && TapAll(d, taps).players[k].color == d.players[k].color
    ensures TapAll(d, taps).order == d.order && TapAll(d, taps).total == d.total
    ensures TapAll(d, taps).stored == d.stored
    decreases taps
  {
    if taps != [] {
      TapAllKeeps(Increment(d, taps[0].0, taps[0].1), taps[1..]);
    }
  }

  /** Whatever the order of the taps, every player's tally grows by the
      number of taps on that player and its activity by their times, in
      order. */
  lemma {:induction false} TapAllTally(d: Data, taps: seq<(string, int)>)
    requires forall i :: 0 <= i < |taps| ==> taps[i].0 in d.players
    ensures forall k :: k in d.players ==>
      k in TapAll(d, taps).players
      && TapAll(d, taps).players[k].amount == d.players[k].amount + |TapsOf(taps, k)|
      && TapAll(d, taps).players[k].activity == d.players[k].activity + TapsOf(taps, k)
    decreases taps
  {
    TapAllKeeps(d, taps);
    if taps != [] {
      var (name, t) := taps[0];
      var next := Increment(d, name, t);
      TapAllTally(next, taps[1..]);
      assert TapAll(d, taps) == TapAll(next, taps[1..]);
      forall k | k in d.players
        ensures TapAll(d, taps).players[k].amount == d.players[k].amount + |TapsOf(taps, k)|
        ensures TapAll(d, taps).players[k].activity == d.players[k].activity + TapsOf(taps, k)
      {
        TapStep(d, name, t, k, taps[1..]);
      }
    }
  }

  /** One tap in front of the rest, seen from player `k`. */
  lemma TapStep(d: Data, name: string, t: int, k: string, rest: seq<(string, int)>)
    requires name in d.players && k in d.players
    ensures TapsOf([(name, t)] + rest, k) == (if k == name then [t] else []) + TapsOf(rest, k)
    ensures Increment(d, name, t).players[k].activity + TapsOf(rest, k)
         == d.players[k].activity + TapsOf([(name, t)] + rest, k)
    ensures Increment(d, name, t).players[k].amount + |TapsOf(rest, k)|
         == d.players[k].amount + |TapsOf([(name, t)] + rest, k)|
  {
    assert ([(name, t)] + rest)[1..] == rest;
    if k == name {
      assert d.players[k].activity + [t] + TapsOf(rest, k) == d.players[k].activity + ([t] + TapsOf(rest, k));
    }
  }

  /** Any sequence of taps keeps the record well formed and takes one
      from the amount left per tap. */
  lemma {:induction false} TapAllAmountLeft(d: Data, taps: seq<(string, int)>)
    requires Valid(d)
    requires forall i :: 0 <= i < |taps| ==> taps[i].0 in d.players
    ensures Valid(TapAll(d, taps))
    ensures AmountLeft(TapAll(d, taps)) == Sub(AmountLeft(d), Int(|taps|))
    decreases taps
  {
    if taps != [] {
      IncrementKeepsValid(d, taps[0].0, taps[0].1);
      AmountLeftAfterIncrement(d, taps[0].0, taps[0].1);
      TapAllAmountLeft(Increment(d, taps[0].0, taps[0].1), taps[1..]);
    }
  }

  /** From the defaults, add Alice and tap her five times: her tally is
      5 and 77 of 82 are left. */
  lemma ExampleAlice(t: seq<int>)
    requires |t| == 5
    ensures var afterAlice := IncrementAll(AddPlayer(InitialData, "Alice", "blue"), "Alice", t);
            && Valid(afterAlice)
            && "Alice" in afterAlice.players && afterAlice.players["Alice"].amount == 5
            && AmountLeft(afterAlice) == Int(77)
  {
    var added := AddPlayer(InitialData, "Alice", "blue");
    AddPlayerKeepsValid(InitialData, "Alice", "blue");
    AmountLeftAfterAdd(InitialData, "Alice", "blue");
    IncrementAllTally(added, "Alice", t);
    IncrementAllAmountLeft(added, "Alice", t);
  }

  /** Then add Bob and tap him once: 76 are left. */
  lemma ExampleBob(t: seq<int>, u: int)
    requires |t| == 5
    ensures var afterAlice := IncrementAll(AddPlayer(InitialData, "Alice", "blue"), "Alice", t);
            AmountLeft(Increment(AddPlayer(afterAlice, "Bob", "red"), "Bob", u)) == Int(76)
  {
    var added := AddPlayer(InitialData, "Alice", "blue");
    var afterAlice := IncrementAll(added, "Alice", t);
    ExampleAlice(t);
    IncrementAllTally(added, "Alice", t);
    assert afterAlice.order == ["Alice"];
    assert "Bob" !in afterAlice.players;
    AmountLeftAfterAdd(afterAlice, "Bob", "red");
    var withBob := AddPlayer(afterAlice, "Bob", "red");
    assert AmountLeft(withBob) == Int(77);
    AddPlayerKeepsValid(afterAlice, "Bob", "red");
    AmountLeftAfterIncrement(withBob, "Bob", u);
  }

  // ---------------------------------------------------------------------
  // Persistence

  /** The record and the stored copy after the persistence effect. */
  datatype Stores = Stores(data: Data, storage: Option<Data>)

  /** One run of the effect on `data` with device storage `storage`:
      a loaded record is written back; a record not yet loaded is written
      when storage is empty and is otherwise replaced by the stored one,
      marked as loaded. */
  function PersistEffect(data: Data, storage: Option<Data>): (r: Stores)
    ensures data.stored ==> r == Stores(data, Some(data))
    ensures !data.stored && storage.None? ==> r == Stores(data, Some(data))
    ensures !data.stored && storage.Some? ==> r == Stores(storage.value.(stored := true), storage)
  {
    if data.stored then Stores(data, Some(data))
    else if storage.None? then Stores(data, Some(data))
    else Stores(storage.value.(stored := true), storage)
  }

  /** What follows a commit of `data`: the effect runs, and runs once
      more when it replaced the record (the record changed). */
  function AfterCommit(data: Data, storage: Option<Data>): Stores
  {
    var r := PersistEffect(data, storage);
    if !data.stored && storage.Some? then PersistEffect(r.data, r.storage) else r
  }

  /** Once the effects have settled, a loaded record is in storage, and
      a record is replaced only by a stored one. */
  lemma AfterCommitSettles(data: Data, storage: Option<Data>)
    ensures AfterCommit(data, storage).data.stored ==>
      AfterCommit(data, storage).storage == Some(AfterCommit(data, storage).data)
    ensures AfterCommit(data, storage).data == data
      || (storage.Some? && AfterCommit(data, storage).data == storage.value.(stored := true))
  {
  }

  /** Round trip through storage: a loaded record with a numeric total
      that was written is exactly what the next launch loads. */
  lemma RelaunchRestores(d: Data, storage: Option<Data>)
    requires d.stored && d.total.Int?
    ensures AfterCommit(InitialData, AfterCommit(d, storage).storage).data == d
  {
  }

  /** As written, a first launch (empty storage) writes the initial record
      but leaves it marked as not loaded; the next commit, whatever the
      user changed, loads that stored initial record over the change. */
  lemma FirstLaunchDropsFirstChange(changed: Data)
    requires !changed.stored
    ensures AfterCommit(InitialData, None) == Stores(InitialData, Some(InitialData))
    ensures AfterCommit(changed, AfterCommit(InitialData, None).storage).data == InitialData.(stored := true)
  {
  }

  /** The effect as evidently intended: after writing to empty storage the
      record is marked as loaded, as after reading a stored one. */
  function PersistEffectFixed(data: Data, storage: Option<Data>): (r: Stores)
    ensures r.data.stored
    ensures storage.None? || data.stored ==> r.data == data.(stored := true)
  {
    if data.stored then Stores(data, Some(data))
    else if storage.None? then Stores(data.(stored := true), Some(data))
    else Stores(storage.value.(stored := true), storage)
  }

  /** The corrected commit: the effect runs again whenever it changed the
      record. */
  function AfterCommitFixed(data: Data, storage: Option<Data>): Stores
  {
    var r := PersistEffectFixed(data, storage);
    if r.data != data then PersistEffectFixed(r.data, r.storage) else r
  }

  /** With the correction, after any launch the record is loaded, and every
      later change is kept and written to storage. */
  lemma FixedKeepsChanges(saved: Option<Data>, changed: Data)
    requires changed.stored
    ensures AfterCommitFixed(InitialData, saved).data.stored
    ensures AfterCommitFixed(InitialData, saved).storage == Some(AfterCommitFixed(InitialData, saved).data)
    ensures AfterCommitFixed(changed, AfterCommitFixed(InitialData, saved).storage) == Stores(changed, Some(changed))
  {
  }
}
