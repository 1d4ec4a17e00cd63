/**
 * The `CalculationStage` flag set: a `[Flags]` enum over `ushort`, modelled as `bv16`,
 * so every flag value fits the 16-bit base type by construction.
 */
module Stages {

  type CalculationStage = bv16

  const Initialized: CalculationStage := 0x00
  const GrrCalcQueued: CalculationStage := 0x01
  const LftCalcQueued: CalculationStage := 0x02
  const IncCalcQueued: CalculationStage := 0x04
  const AvgCalculated: CalculationStage := 0x08
  const TwrCalcQueued: CalculationStage := 0x10
  const StdCalcQueued: CalculationStage := 0x20
  /** Used by the configurer but missing from the enum declaration; given its own bit. */
  const HasBenchmarks: CalculationStage := 0x40

  /** The stages the enum names, one per flag. */
  datatype Stage = Grr | Lft | Inc | Avg | Twr | Std | Bench

  const AllStages: set<Stage> := {Grr, Lft, Inc, Avg, Twr, Std, Bench}

  /** The flag of a stage. */
  function Bit(st: Stage): CalculationStage {
    match st
    case Grr => GrrCalcQueued
    case Lft => LftCalcQueued
    case Inc => IncCalcQueued
    case Avg => AvgCalculated
    case Twr => TwrCalcQueued
    case Std => StdCalcQueued
    case Bench => HasBenchmarks
  }

  /** Each stage's flag is a single bit. */
  lemma BitIsSingle(st: Stage)
    ensures Bit(st) != 0 && Bit(st) & (Bit(st) - 1) == 0
  {
  }

  /** Two stages share no bit unless they are the same stage. */
  lemma BitsDisjoint(x: Stage, y: Stage)
    ensures x != y <==> Bit(x) & Bit(y) == 0
  {
  }

  /** `Enum.HasFlag`: every bit of `flag` is set in `s`. */
  predicate HasFlag(s: CalculationStage, flag: CalculationStage) {
    s & flag == flag
  }

  /** `Initialized` is the empty flag set: every stage set contains it. */
  lemma InitializedIsEmpty(s: CalculationStage)
    ensures HasFlag(s, Initialized)
    ensures StagesOf(Initialized) == {}
  {
    forall st | st in AllStages ensures st !in StagesOf(Initialized) {
      BitIsSingle(st);
    }
  }

  /** The stages recorded in a flag set. */
  function StagesOf(s: CalculationStage): set<Stage> {
    set st <- AllStages | HasFlag(s, Bit(st))
  }

  lemma InStagesOf(s: CalculationStage, st: Stage)
    ensures st in StagesOf(s) <==> HasFlag(s, Bit(st))
  {
    assert st in AllStages;
  }

  /** `s` is `t` with possibly more bits set: flags are only ever added. */
  predicate Grows(t: CalculationStage, s: CalculationStage) {
    HasFlag(s, t)
  }

  /** `HasFlag(A | B)` holds exactly when both `A` and `B` are present. */
  lemma HasFlagOfUnion(s: CalculationStage, a: CalculationStage, b: CalculationStage)
    ensures HasFlag(s, a | b) ==> HasFlag(s, a) && HasFlag(s, b)
    ensures HasFlag(s, a) && HasFlag(s, b) ==> HasFlag(s, a | b)
  {
    assert s & (a | b) == (s & a) | (s & b);
  }

  lemma SingleBitOfUnion(a: CalculationStage, b: CalculationStage, x: CalculationStage)
    requires x != 0 && x & (x - 1) == 0
    ensures HasFlag(a | b, x) ==> HasFlag(a, x) || HasFlag(b, x)
    ensures HasFlag(a, x) || HasFlag(b, x) ==> HasFlag(a | b, x)
  {
    assert (a | b) & x == (a & x) | (b & x);
    assert a & x == 0 || a & x == x;
    assert b & x == 0 || b & x == x;
  }

  /** Because the flags are disjoint single bits, `|` is the union of stage sets. */
  lemma StagesOfUnion(a: CalculationStage, b: CalculationStage)
    ensures StagesOf(a | b) == StagesOf(a) + StagesOf(b)
  {
    forall st | st in AllStages
      ensures st in StagesOf(a | b) <==> st in StagesOf(a) || st in StagesOf(b)
    {
      BitIsSingle(st);
      SingleBitOfUnion(a, b, Bit(st));
    }
  }

  /** A flag set built from declared flags is determined by the stages it records. */
  lemma StagesOfBit(st: Stage)
    ensures StagesOf(Bit(st)) == {st}
  {
  }
}
