/**
 * `HeroStateType`: the seven animation/sound kinds of the hero, each with the
 * path of the sound played when a state of that kind is entered.
 */
module HeroStateTypes {
  import opened Wrappers

  datatype HeroStateType = IDLE | DEAD | FALL | SLIDE | JUMP | RUN | ATTACK

  /** A loaded sound asset. */
  datatype Sound = Sound(id: nat)

  /** `ordinal()`: the position of a constant in the declaration. */
  function Ordinal(t: HeroStateType): (r: nat)
    ensures r < 7
  {
    match t
    case IDLE => 0
    case DEAD => 1
    case FALL => 2
    case SLIDE => 3
    case JUMP => 4
    case RUN => 5
    case ATTACK => 6
  }

  /** `values()`: every constant exactly once, each at its ordinal. */
  function Values(): (r: seq<HeroStateType>)
    ensures |r| == 7
    ensures forall t: HeroStateType :: r[Ordinal(t)] == t
    ensures forall i, j :: 0 <= i < j < |r| ==> r[i] != r[j]
  {
    [IDLE, DEAD, FALL, SLIDE, JUMP, RUN, ATTACK]
  }

  /** The sound path each constant is declared with. */
  function SoundPath(t: HeroStateType): (path: string)
    ensures path != "" <==> t == DEAD || t == SLIDE || t == JUMP
  {
    match t
    case IDLE => ""
    case DEAD => "sounds/music/playerDiedMusic.mp3"
    case FALL => ""
    case SLIDE => "sounds/effects/heroSlide.mp3"
    case JUMP => "sounds/effects/heroJump.mp3"
    case RUN => ""
    case ATTACK => ""
  }

  /** What `SoundUtils.getSound(path)` did: returned a sound or threw IllegalArgumentException. */
  datatype SoundLoad = Loaded(sound: Sound) | LoadRejected

  /** The two fields each enum constant holds. */
  datatype StateTypeEntry = StateTypeEntry(soundPath: string, sound: Option<Sound>)

  /**
   * The enum constructor: keeps the declared path, and stores the loaded sound,
   * or `null` when loading threw (the exception does not escape).
   */
  function Entry(t: HeroStateType, load: SoundLoad): (e: StateTypeEntry)
    ensures e.soundPath == SoundPath(t)
    ensures e.sound.None? <==> load.LoadRejected?
    ensures load.Loaded? ==> e.sound == Some(load.sound)
  {
    StateTypeEntry(SoundPath(t), if load.Loaded? then Some(load.sound) else None)
  }

  /**
   * A map keyed by state types with as many entries as there are types has an
   * entry for every type: for maps without a null key, the size check of
   * `HeroMoveState` is a completeness check.
   */
  lemma {:induction false} CompleteMapHasEveryType<V>(m: map<HeroStateType, V>)
    requires |m| == |Values()|
    ensures forall t: HeroStateType :: t in m
  {
    var all := set t: HeroStateType | t in Values();
    assert all == {IDLE, DEAD, FALL, SLIDE, JUMP, RUN, ATTACK};
    assert |all| == 7;
    forall t: HeroStateType ensures t in m {
      if t !in m {
        assert t in all by { assert Values()[Ordinal(t)] == t; }
        var rest := all - {t};
        assert |rest| == 6;
        forall k | k in m.Keys ensures k in rest {
          assert Values()[Ordinal(k)] == k;
        }
        SubsetCardinality(m.Keys, rest);
        assert false;
      }
    }
  }

  lemma {:induction false} SubsetCardinality<T>(a: set<T>, b: set<T>)
    requires a <= b
    ensures |a| <= |b|
  {
    if a != {} {
      var x :| x in a;
      SubsetCardinality(a - {x}, b - {x});
    }
  }
}
