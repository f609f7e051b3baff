/** The sound tables of `src/App.tsx` and the choice made on every tap:
    an exact-match milestone sound, otherwise one entry of a weighted pool
    in which each regular sound appears four times, each rare sound twice
    and each epic sound once. Playback itself is not modelled: only which
    sound object is chosen and which celebration tag it sets. */
module Sounds {
  import opened Optional

  /** The files under `./sounds/` that the app loads, one constructor per
      distinct file. */
  datatype SoundFile =
    | TocoYMeVoy | ETetra | EPenta | Garotao
    | NeymarEONomeDele | VaiRomario | AiComplica | HajaCoracao
    | EssaVouTeContarAmigoQSufoco | EBomGanharDaArgentinaEMelhor | ErgueOBraco | KanuPerigoso
    | MasEMuitoBomDemaisOGoleiroAlemao | OlhoGol | SaoMarcos | VaiBebeto
    | OlhaOQueAconteceu | QuemEQSobe | SaiQESuaTaffarel | NaoVale
    | NaRedePeloLadoDeFora | NinguemSabeOQFaz | Fisica | EDoBrasil

  /** A `new Sound(file, ...)` object. `includes` compares objects by
      identity, so every constructed object carries its own `id`; two
      objects loading the same file are still different objects. */
  datatype SoundObj = SoundObj(id: nat, file: SoundFile)

  /** An entry of `presetSounds`. */
  datatype Preset = Preset(amount: int, sound: SoundObj)

  /** The celebration tag shown for a rare or epic random sound. */
  datatype Tier = Rare | Epic

  /** What a tap plays: the milestone sound for the new amount, or the
      pool entry at `index` together with the tag it sets (none for a
      regular sound). */
  datatype SoundChoice =
    | PresetSound(sound: SoundObj)
    | RandomSound(index: nat, sound: SoundObj, tier: Option<Tier>)

  /** The amounts of `presetSounds`, in table order. */
  const PresetAmounts: seq<int> := [1, 4, 5, 7, 10, 11, 12, 15, 20]

  /** `presetSounds`: one new sound object per milestone amount. */
  const PresetSounds: seq<Preset> := Presets(PresetAmounts, [
    TocoYMeVoy,
    ETetra,
    EPenta,
    Garotao,
    NeymarEONomeDele,
    VaiRomario,
    AiComplica,
    HajaCoracao,
    EssaVouTeContarAmigoQSufoco
  ])

  /** Presets pairing `amounts[i]` with a new sound object for `files[i]`,
      with ids from 0. */
  function Presets(amounts: seq<int>, files: seq<SoundFile>): (r: seq<Preset>)
    requires |amounts| == |files|
    ensures |r| == |amounts|
    ensures forall i :: 0 <= i < |r| ==> r[i].amount == amounts[i] && r[i].sound.id == i
  {
    seq(|files|, i requires 0 <= i < |files| => Preset(amounts[i], SoundObj(i, files[i])))
  }

  /** The amounts that have a milestone sound. */
  const Milestones: set<int> := {1, 4, 5, 7, 10, 11, 12, 15, 20}

  /** One `new Sound(file, ...)` object per file, with consecutive ids
      from `firstId`. */
  function Objects(firstId: nat, files: seq<SoundFile>): (r: seq<SoundObj>)
    ensures |r| == |files|
    ensures forall i :: 0 <= i < |r| ==> r[i].id == firstId + i
    ensures forall x :: x in r ==> firstId <= x.id < firstId + |files|
  {
    seq(|files|, i requires 0 <= i < |files| => SoundObj(firstId + i, files[i]))
  }

  /** The eight regular sound objects, before repetition. */
  const RegularBase: seq<SoundObj> := Objects(9, [
    EBomGanharDaArgentinaEMelhor,
    EssaVouTeContarAmigoQSufoco,
    ErgueOBraco,
    KanuPerigoso,
    MasEMuitoBomDemaisOGoleiroAlemao,
    OlhoGol,
    SaoMarcos,
    VaiBebeto
  ])

  /** The five rare sound objects, before repetition. */
  const RareBase: seq<SoundObj> := Objects(17, [
    OlhaOQueAconteceu,
    QuemEQSobe,
    SaiQESuaTaffarel,
    NaoVale,
    NaRedePeloLadoDeFora
  ])

  const EpicSounds: seq<SoundObj> := Objects(22, [
    NinguemSabeOQFaz,
    Fisica,
    HajaCoracao,
    EDoBrasil
  ])

  /** `[x, ..., x]` with `k` copies of `x`. */
  function Copies(x: SoundObj, k: nat): (r: seq<SoundObj>)
    ensures |r| == k
    ensures forall y :: y in r <==> k > 0 && y == x
    ensures forall y :: multiset(r)[y] == if y == x then k else 0
  {
    if k == 0 then [] else [x] + Copies(x, k - 1)
  }

  /** `s.flatMap(x => [x, ..., x])` with `k` copies of each element. */
  function FlatRepeat(s: seq<SoundObj>, k: nat): (r: seq<SoundObj>)
    ensures |r| == |s| * k
    ensures forall x :: x in r <==> k > 0 && x in s
  {
    if s == [] then []
    else
      assert s == [s[0]] + s[1..];
      Copies(s[0], k) + FlatRepeat(s[1..], k)
  }

  /** Every element occurs `k` times as often in the repeated sequence as
      in `s`. */
  lemma {:induction false} FlatRepeatCounts(s: seq<SoundObj>, k: nat)
    ensures forall x :: multiset(FlatRepeat(s, k))[x] == k * multiset(s)[x]
  {
    if s != [] {
      FlatRepeatCounts(s[1..], k);
      assert s == [s[0]] + s[1..];
      forall x
        ensures multiset(FlatRepeat(s, k))[x] == k * multiset(s)[x]
      {
        RepeatStep(s[0], s[1..], Copies(s[0], k), FlatRepeat(s[1..], k), k, x);
      }
    }
  }

  /** One step of the count: `k` copies of `x0` in front of a sequence
      that repeats `t` `k`-fold repeat `[x0] + t` `k`-fold. */
  lemma RepeatStep(x0: SoundObj, t: seq<SoundObj>, c: seq<SoundObj>, tr: seq<SoundObj>, k: nat, y: SoundObj)
    requires multiset(c)[y] == if y == x0 then k else 0
    requires multiset(tr)[y] == k * multiset(t)[y]
    ensures multiset(c + tr)[y] == k * multiset([x0] + t)[y]
  {
    var here := if y == x0 then 1 else 0;
    assert multiset([x0] + t)[y] == here + multiset(t)[y];
    assert k * (here + multiset(t)[y]) == k * here + k * multiset(t)[y];
  }

  /** Objects with pairwise different ids occur once each. */
  lemma {:induction false} DistinctIdsOnce(s: seq<SoundObj>)
    requires forall i, j :: 0 <= i < j < |s| ==> s[i].id != s[j].id
    ensures forall x :: x in s ==> multiset(s)[x] == 1
  {
    if s != [] {
      assert s == [s[0]] + s[1..];
      DistinctIdsOnce(s[1..]);
      assert s[0] !in s[1..];
    }
  }

  const NormalSounds: seq<SoundObj> := FlatRepeat(RegularBase, 4)
  const RareSounds: seq<SoundObj> := FlatRepeat(RareBase, 2)

  /** `[...normalSounds, ...rareSounds, ...epicSounds]`. */
  const RandomSounds: seq<SoundObj> := NormalSounds + RareSounds + EpicSounds

  /** `presets.find(p => p.amount === amount)`: the sound of the first
      entry whose amount equals `amount`, if any. */
  function FindPreset(presets: seq<Preset>, amount: int): (r: Option<SoundObj>)
    ensures r.None? <==> forall i :: 0 <= i < |presets| ==> presets[i].amount != amount
    ensures r.Some? ==> exists i :: 0 <= i < |presets| && presets[i].amount == amount && presets[i].sound == r.value
                                 && forall j :: 0 <= j < i ==> presets[j].amount != amount
  {
    if presets == [] then None
    else if presets[0].amount == amount then Some(presets[0].sound)
    else
      var r := FindPreset(presets[1..], amount);
      assert forall i :: 1 <= i < |presets| ==> presets[i] == presets[1..][i - 1];
      r
  }

  /** The sound a tap plays when the player's new amount is `newAmount`
      and `Math.floor(Math.random() * randomSounds.length)` is `index`. */
  function ChooseSound(newAmount: int, index: nat): (r: SoundChoice)
    requires index < |RandomSounds|
    ensures r.PresetSound? <==> FindPreset(PresetSounds, newAmount).Some?
    ensures r.RandomSound? ==> r.index == index && r.sound == RandomSounds[index]
    ensures r.RandomSound? ==> (r.tier.Some? <==> r.sound in RareSounds || r.sound in EpicSounds)
  {
    match FindPreset(PresetSounds, newAmount)
    case Some(s) => PresetSound(s)
    case None =>
      var s := RandomSounds[index];
      var isRare := s in RareSounds;
      var isEpic := s in EpicSounds;
      RandomSound(index, s, if isRare || isEpic then Some(if isEpic then Epic else Rare) else None)
  }

  /** The amounts of a preset table, in order. */
  function AmountsOf(presets: seq<Preset>): (amounts: seq<int>)
    ensures |amounts| == |presets|
    ensures forall i :: 0 <= i < |presets| ==> amounts[i] == presets[i].amount
  {
    seq(|presets|, i requires 0 <= i < |presets| => presets[i].amount)
  }

  /** `find` succeeds exactly when some entry has the amount. */
  lemma {:induction false} FindPresetIff(presets: seq<Preset>, amount: int)
    ensures FindPreset(presets, amount).Some? <==> amount in AmountsOf(presets)
  {
    if presets != [] {
      FindPresetIff(presets[1..], amount);
      assert AmountsOf(presets) == [presets[0].amount] + AmountsOf(presets[1..]);
    }
  }

  /** A milestone sound is found exactly for the milestone amounts. */
  lemma PresetFoundIffMilestone(amount: int)
    ensures FindPreset(PresetSounds, amount).Some? <==> amount in Milestones
  {
    FindPresetIff(PresetSounds, amount);
    PresetTableAmounts();
    MilestonesListed(amount);
  }

  /** The amounts column of `presetSounds`. */
  lemma PresetTableAmounts()
    ensures AmountsOf(PresetSounds) == PresetAmounts
  {
  }

  /** The milestone set holds exactly the listed amounts. */
  lemma MilestonesListed(amount: int)
    ensures amount in PresetAmounts <==> amount in Milestones
  {
  }

  /** The weights of the pool: each regular sound has four of the 46
      entries, each rare sound two and each epic sound one. */
  lemma PoolWeights()
    ensures forall x :: x in RegularBase ==> multiset(RandomSounds)[x] == 4
    ensures forall x :: x in RareBase ==> multiset(RandomSounds)[x] == 2
    ensures forall x :: x in EpicSounds ==> multiset(RandomSounds)[x] == 1
  {
    forall x | x in RegularBase
      ensures multiset(RandomSounds)[x] == 4
    {
      RegularWeight(x);
    }
    forall x | x in RareBase
      ensures multiset(RandomSounds)[x] == 2
    {
      RareWeight(x);
    }
    forall x | x in EpicSounds
      ensures multiset(RandomSounds)[x] == 1
    {
      EpicWeight(x);
    }
  }

  lemma RegularWeight(x: SoundObj)
    requires x in RegularBase
    ensures multiset(RandomSounds)[x] == 4
  {
    DistinctIdsOnce(RegularBase);
    FlatRepeatCounts(RegularBase, 4);
    TierIds();
    PoolCount(NormalSounds, RareSounds, EpicSounds, x);
  }

  lemma RareWeight(x: SoundObj)
    requires x in RareBase
    ensures multiset(RandomSounds)[x] == 2
  {
    DistinctIdsOnce(RareBase);
    FlatRepeatCounts(RareBase, 2);
    TierIds();
    PoolCount(NormalSounds, RareSounds, EpicSounds, x);
  }

  lemma EpicWeight(x: SoundObj)
    requires x in EpicSounds
    ensures multiset(RandomSounds)[x] == 1
  {
    DistinctIdsOnce(EpicSounds);
    TierIds();
    PoolCount(NormalSounds, RareSounds, EpicSounds, x);
  }

  /** Occurrences in a concatenation of three tiers add up. */
  lemma PoolCount(a: seq<SoundObj>, b: seq<SoundObj>, c: seq<SoundObj>, x: SoundObj)
    ensures multiset(a + b + c)[x] == multiset(a)[x] + multiset(b)[x] + multiset(c)[x]
  {
  }

  /** The pool holds 46 entries: indices 0 to 31 are regular sounds,
      32 to 41 rare ones and 42 to 45 epic ones. */
  lemma RandomPoolTiers(index: nat)
    requires index < |RandomSounds|
    ensures |RandomSounds| == 46 && |NormalSounds| == 32 && |RareSounds| == 10 && |EpicSounds| == 4
    ensures RandomSounds[index] in RareSounds <==> 32 <= index < 42
    ensures RandomSounds[index] in EpicSounds <==> 42 <= index
  {
    var s := RandomSounds[index];
    TierIds();
    if index < 32 {
      assert s == NormalSounds[index];
    } else if index < 42 {
      assert s == RareSounds[index - 32];
    } else {
      assert s == EpicSounds[index - 42];
    }
  }

  /** The three tiers use disjoint ranges of object ids. */
  lemma TierIds()
    ensures forall x :: x in NormalSounds ==> 9 <= x.id <= 16
    ensures forall x :: x in RareSounds ==> 17 <= x.id <= 21
    ensures forall x :: x in EpicSounds ==> 22 <= x.id <= 25
  {
  }

  /** The milestone half of the choice: a milestone sound is played
      exactly when the new amount is a milestone, and it is the sound of
      a preset entry for that amount. */
  lemma ChooseSoundPreset(newAmount: int, index: nat)
    requires index < |RandomSounds|
    ensures ChooseSound(newAmount, index).PresetSound? <==> newAmount in Milestones
    ensures ChooseSound(newAmount, index).PresetSound? ==>
      exists i :: 0 <= i < |PresetSounds| && PresetSounds[i].amount == newAmount
        && PresetSounds[i].sound == ChooseSound(newAmount, index).sound
  {
    PresetFoundIffMilestone(newAmount);
  }

  /** The random half of the choice: away from the milestones the pool
      entry at `index` is played, tagged Epic for the last four indices,
      Rare for the ten before them and untagged for the 32 regular ones. */
  lemma ChooseSoundRandom(newAmount: int, index: nat)
    requires index < |RandomSounds|
    requires newAmount !in Milestones
    ensures ChooseSound(newAmount, index) == RandomSound(index, RandomSounds[index],
      if index >= 42 then Some(Epic) else if index >= 32 then Some(Rare) else None)
  {
    PresetFoundIffMilestone(newAmount);
    RandomPoolTiers(index);
  }
}
