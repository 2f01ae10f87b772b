/** Per-entity emotion intensities and their rate-limited convergence
    (Assets/Scripts/Emotions/EmotionState.cs). */
module EmotionStates {
  import opened Types

  function Abs(v: real): real {
    if v < 0.0 then -v else v
  }

  function Max(a: real, b: real): real {
    if a >= b then a else b
  }

  /** `v` lies on the closed segment between `a` and `b`. */
  predicate Between(a: real, v: real, b: real) {
    (a <= v <= b) || (b <= v <= a)
  }

  /** Mathf.Clamp01: the point of [0, 1] nearest to `v`. */
  function Clamp01(v: real): (r: real)
    ensures 0.0 <= r <= 1.0
    ensures 0.0 <= v <= 1.0 ==> r == v
    ensures v < 0.0 ==> r == 0.0
    ensures v > 1.0 ==> r == 1.0
  {
    if v < 0.0 then 0.0 else if v > 1.0 then 1.0 else v
  }

  /** Mathf.Sign: 1 for zero and positive values, -1 otherwise. */
  function Sign(v: real): real {
    if v >= 0.0 then 1.0 else -1.0
  }

  /** Mathf.MoveTowards: go from `current` towards `target` by at most `maxDelta`.
      With a non-negative step the result moves at most `maxDelta`, stays between the two
      points (never overshoots) and closes the gap by exactly `maxDelta` or entirely. */
  function MoveTowards(current: real, target: real, maxDelta: real): (r: real)
    ensures maxDelta >= 0.0 ==> Abs(r - current) <= maxDelta
    ensures maxDelta >= 0.0 ==> Between(current, r, target)
    ensures maxDelta >= 0.0 ==> Abs(target - r) == Max(0.0, Abs(target - current) - maxDelta)
  {
    if Abs(target - current) <= maxDelta then target
    else current + Sign(target - current) * maxDelta
  }

  /** One Lerp* step: towards the clamped target at `speed * dt` per call. For a
      non-negative step, an intensity inside [0, 1] stays inside it, and a value already
      at the clamped target stays put. */
  function Step(current: real, target: real, speed: real, dt: real): (r: real)
    ensures speed * dt >= 0.0 ==> Abs(r - current) <= speed * dt
    ensures speed * dt >= 0.0 ==> Between(current, r, Clamp01(target))
    ensures speed * dt >= 0.0 && 0.0 <= current <= 1.0 ==> 0.0 <= r <= 1.0
    ensures speed * dt >= 0.0 && current == Clamp01(target) ==> r == current
  {
    MoveTowards(current, Clamp01(target), speed * dt)
  }

  /** `n` successive MoveTowards calls with the same target and step. */
  function Iterate(current: real, target: real, maxDelta: real, n: nat): real
    decreases n
  {
    if n == 0 then current else Iterate(MoveTowards(current, target, maxDelta), target, maxDelta, n - 1)
  }

  /** The distance covered by `n` steps of `d`. */
  function Steps(n: nat, d: real): (r: real)
    ensures d >= 0.0 ==> r >= 0.0
    decreases n
  {
    if n == 0 then 0.0 else Steps(n - 1, d) + d
  }

  /** `n` steps of `d` cover `n * d`. */
  lemma {:induction false} StepsIsProduct(n: nat, d: real)
    ensures Steps(n, d) == (n as real) * d
    decreases n
  {
    if n > 0 {
      StepsIsProduct(n - 1, d);
      assert ((n - 1) as real) * d + d == (n as real) * d;
    }
  }

  /** Once the steps cover the distance, the value has reached the target exactly,
      and every further step leaves it there. */
  lemma {:induction false} IterateReaches(current: real, target: real, maxDelta: real, n: nat)
    requires maxDelta >= 0.0 && Steps(n, maxDelta) >= Abs(target - current)
    ensures Iterate(current, target, maxDelta, n) == target
    decreases n
  {
    if n > 0 {
      var next := MoveTowards(current, target, maxDelta);
      assert Abs(target - next) == Max(0.0, Abs(target - current) - maxDelta);
      IterateReaches(next, target, maxDelta, n - 1);
    }
  }

  /** Before the distance is covered, each step advances by exactly `maxDelta` towards the
      target, from either side: rising values rise by the steps, falling values fall by
      them, and the remaining gap shrinks by the steps. */
  lemma {:induction false} IterateApproaches(current: real, target: real, maxDelta: real, n: nat)
    requires maxDelta >= 0.0 && Steps(n, maxDelta) <= Abs(target - current)
    ensures current <= target ==> Iterate(current, target, maxDelta, n) == current + Steps(n, maxDelta)
    ensures current >= target ==> Iterate(current, target, maxDelta, n) == current - Steps(n, maxDelta)
    ensures Abs(target - Iterate(current, target, maxDelta, n)) == Abs(target - current) - Steps(n, maxDelta)
    decreases n
  {
    if n > 0 {
      var next := MoveTowards(current, target, maxDelta);
      assert Steps(n, maxDelta) == Steps(n - 1, maxDelta) + maxDelta;
      if current <= target {
        assert next == current + maxDelta;
      } else {
        assert next == current - maxDelta;
      }
      IterateApproaches(next, target, maxDelta, n - 1);
    }
  }

  /** Rising from 0 towards 0.8 at speed 1 with ticks of 0.1 s: 0.7 after seven ticks,
      the target after eight, and still the target after nine. */
  lemma ConvergenceScenario()
    ensures Iterate(0.0, Clamp01(0.8), 1.0 * 0.1, 7) == 0.7
    ensures Iterate(0.0, Clamp01(0.8), 1.0 * 0.1, 8) == 0.8
    ensures Iterate(0.0, Clamp01(0.8), 1.0 * 0.1, 9) == 0.8
  {
    IterateApproaches(0.0, 0.8, 0.1, 7);
    IterateReaches(0.0, 0.8, 0.1, 8);
    IterateReaches(0.0, 0.8, 0.1, 9);
  }

  predicate OfKind(d: Option<EmotionDefinition>, kind: EmotionType) {
    d.Some? && d.value.emotionType == kind
  }

  /** The definition cached for `kind` after the spawn loop walks `defs`,
      starting from `prior`: null entries are skipped and a later entry overwrites. */
  function CachedDef(defs: seq<Option<EmotionDefinition>>, kind: EmotionType,
                     prior: Option<EmotionDefinition>): Option<EmotionDefinition>
    decreases |defs|
  {
    if |defs| == 0 then prior
    else if OfKind(defs[|defs| - 1], kind) then defs[|defs| - 1]
    else CachedDef(defs[..|defs| - 1], kind, prior)
  }

  /** The last entry of the requested kind wins. */
  lemma {:induction false} CachedDefIsLast(defs: seq<Option<EmotionDefinition>>, kind: EmotionType,
                                           prior: Option<EmotionDefinition>, i: nat)
    requires i < |defs| && OfKind(defs[i], kind)
    requires forall j :: i < j < |defs| ==> !OfKind(defs[j], kind)
    ensures CachedDef(defs, kind, prior) == defs[i]
    decreases |defs|
  {
    if i < |defs| - 1 {
      var init := defs[..|defs| - 1];
      assert forall j :: i < j < |init| ==> init[j] == defs[j];
      CachedDefIsLast(init, kind, prior, i);
    }
  }

  /** Without an entry of the requested kind, the prior value is kept. */
  lemma {:induction false} CachedDefWhenAbsent(defs: seq<Option<EmotionDefinition>>, kind: EmotionType,
                                               prior: Option<EmotionDefinition>)
    requires forall j :: 0 <= j < |defs| ==> !OfKind(defs[j], kind)
    ensures CachedDef(defs, kind, prior) == prior
    decreases |defs|
  {
    if |defs| > 0 {
      var init := defs[..|defs| - 1];
      assert forall j :: 0 <= j < |init| ==> init[j] == defs[j];
      CachedDefWhenAbsent(init, kind, prior);
    }
  }

  /** A cached definition is always one of the entries and of the requested kind. */
  lemma {:induction false} CachedDefFromList(defs: seq<Option<EmotionDefinition>>, kind: EmotionType,
                                             prior: Option<EmotionDefinition>)
    ensures CachedDef(defs, kind, prior) == prior
         || (OfKind(CachedDef(defs, kind, prior), kind) && CachedDef(defs, kind, prior) in defs)
    decreases |defs|
  {
    if |defs| > 0 && !OfKind(defs[|defs| - 1], kind) {
      var init := defs[..|defs| - 1];
      CachedDefFromList(init, kind, prior);
      assert forall d :: d in init ==> d in defs;
    }
  }

  /** The emotion state of one entity: four intensities written by the server and the
      definitions cached when the entity spawns. */
  class EmotionState {
    const emotionDefinitions: seq<Option<EmotionDefinition>>

    var fearIntensity: real
    var abandonmentIntensity: real
    var denialIntensity: real
    var angerIntensity: real

    var fearDef: Option<EmotionDefinition>
    var abandonDef: Option<EmotionDefinition>
    var denialDef: Option<EmotionDefinition>
    var angerDef: Option<EmotionDefinition>

    /** The four network variables start at 0 and nothing is cached yet. */
    constructor (defs: seq<Option<EmotionDefinition>>)
      ensures emotionDefinitions == defs
      ensures forall k :: GetIntensity(k) == 0.0 && Def(k) == None
      ensures InUnitRange()
    {
      emotionDefinitions := defs;
      fearIntensity, abandonmentIntensity, denialIntensity, angerIntensity := 0.0, 0.0, 0.0, 0.0;
      fearDef, abandonDef, denialDef, angerDef := None, None, None, None;
    }

    /** The cached definition of a kind (FearDef, AbandonmentDef, DenialDef, AngerDef). */
    function Def(kind: EmotionType): Option<EmotionDefinition>
      reads this
    {
      match kind
      case Fear => fearDef
      case Abandonment => abandonDef
      case Denial => denialDef
      case Anger => angerDef
    }

    /** Every intensity lies in [0, 1]. */
    predicate InUnitRange()
      reads this
    {
      && 0.0 <= fearIntensity <= 1.0 && 0.0 <= abandonmentIntensity <= 1.0
      && 0.0 <= denialIntensity <= 1.0 && 0.0 <= angerIntensity <= 1.0
    }

    /** GetIntensity: the network variable of the requested kind, a value in [0, 1] as long
        as every intensity is. */
    function GetIntensity(kind: EmotionType): (r: real)
      reads this
      ensures InUnitRange() ==> 0.0 <= r <= 1.0
    {
      match kind
      case Fear => fearIntensity
      case Abandonment => abandonmentIntensity
      case Denial => denialIntensity
      case Anger => angerIntensity
    }

    /** OnNetworkSpawn: cache each listed definition under its kind. */
    method OnNetworkSpawn()
      modifies this`fearDef, this`abandonDef, this`denialDef, this`angerDef
      ensures forall k :: Def(k) == CachedDef(emotionDefinitions, k, old(Def(k)))
      ensures InUnitRange() == old(InUnitRange())
    {
      for i := 0 to |emotionDefinitions|
        invariant forall k :: Def(k) == CachedDef(emotionDefinitions[..i], k, old(Def(k)))
      {
        var d := emotionDefinitions[i];
        if d.Some? {
          match d.value.emotionType
          case Fear => fearDef := d;
          case Abandonment => abandonDef := d;
          case Denial => denialDef := d;
          case Anger => angerDef := d;
        }
        assert emotionDefinitions[..i + 1][..i] == emotionDefinitions[..i];
      }
      assert emotionDefinitions[..|emotionDefinitions|] == emotionDefinitions;
    }

    /** LerpFear, LerpAbandonment, LerpDenial and LerpAnger: on the server, and only when
        the kind has a definition, one Step of that kind's intensity; the other three
        intensities and the cached definitions never change. */
    method Lerp(kind: EmotionType, target: real, dt: real, isServer: bool)
      modifies this`fearIntensity, this`abandonmentIntensity, this`denialIntensity, this`angerIntensity
      ensures forall k :: k != kind ==> GetIntensity(k) == old(GetIntensity(k))
      ensures !isServer || Def(kind).None? ==> GetIntensity(kind) == old(GetIntensity(kind))
      ensures isServer && Def(kind).Some? ==>
        GetIntensity(kind) == Step(old(GetIntensity(kind)), target, Def(kind).value.intensityLerpSpeed, dt)
      ensures old(InUnitRange()) && (Def(kind).Some? ==> Def(kind).value.intensityLerpSpeed * dt >= 0.0)
              ==> InUnitRange()
    {
      if !isServer || Def(kind).None? {
        return;
      }
      var speed := Def(kind).value.intensityLerpSpeed;
      match kind
      case Fear => fearIntensity := Step(fearIntensity, target, speed, dt);
      case Abandonment => abandonmentIntensity := Step(abandonmentIntensity, target, speed, dt);
      case Denial => denialIntensity := Step(denialIntensity, target, speed, dt);
      case Anger => angerIntensity := Step(angerIntensity, target, speed, dt);
    }
  }
}
