/** The server-side emotion effects on the box: abandonment drift, denial phasing and
    anger jolts (Assets/Scripts/BoxEmotionApplier.cs). */
module BoxEmotion {
  import opened Types
  import opened Geometry
  import opened EmotionStates
  import opened AttachPoints
  import opened Magnets

  /** The abandonment target with no magnet attached. */
  const BaseAbandonment: real := 0.3

  /** One case of the switch over an attached magnet's word: Stay and DontLeave scale the
      target by 0.3, Safe by 0.6, and every other word leaves it alone. */
  function Scaled(t: real, w: MagnetWordId): real {
    match w
    case Stay => t * 0.3
    case DontLeave => t * 0.3
    case Safe => t * 0.6
    case _ => t
  }

  /** The abandonment target: the base scaled by every attached word, in list order.
      It never exceeds the base and never reaches 0. */
  function AbandonTarget(ws: seq<MagnetWordId>): (r: real)
    ensures 0.0 < r <= BaseAbandonment
    decreases |ws|
  {
    if |ws| == 0 then BaseAbandonment
    else Scaled(AbandonTarget(ws[..|ws| - 1]), ws[|ws| - 1])
  }

  /** How many of the words are Stay or DontLeave. */
  function StayCount(ws: seq<MagnetWordId>): nat {
    Occurrences(ws, Stay) + Occurrences(ws, DontLeave)
  }

  /** The reference value 0.3 * 0.3^stays * 0.6^safes, one factor at a time. */
  function CountForm(stays: nat, safes: nat): real
    decreases stays, safes
  {
    if stays > 0 then CountForm(stays - 1, safes) * 0.3
    else if safes > 0 then CountForm(0, safes - 1) * 0.6
    else BaseAbandonment
  }

  /** One more Safe word scales the reference value by 0.6, whatever the Stay count. */
  lemma {:induction false} CountFormSafeStep(stays: nat, safes: nat)
    ensures CountForm(stays, safes + 1) == CountForm(stays, safes) * 0.6
    decreases stays
  {
    if stays > 0 {
      CountFormSafeStep(stays - 1, safes);
    }
  }

  /** The target is the reference value of the word counts. */
  lemma {:induction false} AbandonTargetClosedForm(ws: seq<MagnetWordId>)
    ensures AbandonTarget(ws) == CountForm(StayCount(ws), Occurrences(ws, Safe))
    decreases |ws|
  {
    if |ws| > 0 {
      var init, w := ws[..|ws| - 1], ws[|ws| - 1];
      AbandonTargetClosedForm(init);
      if w == Safe {
        CountFormSafeStep(StayCount(init), Occurrences(init, Safe));
      }
    }
  }

  /** The order of the attached magnets does not matter: the same multiset of words gives
      the same target. */
  lemma AbandonTargetOrderIndependent(a: seq<MagnetWordId>, b: seq<MagnetWordId>)
    requires multiset(a) == multiset(b)
    ensures AbandonTarget(a) == AbandonTarget(b)
  {
    OccurrencesIsMultiplicity(a, Stay);
    OccurrencesIsMultiplicity(b, Stay);
    OccurrencesIsMultiplicity(a, DontLeave);
    OccurrencesIsMultiplicity(b, DontLeave);
    OccurrencesIsMultiplicity(a, Safe);
    OccurrencesIsMultiplicity(b, Safe);
    AbandonTargetClosedForm(a);
    AbandonTargetClosedForm(b);
  }

  /** One Stay magnet on the box brings the target from 0.3 to 0.09. */
  lemma StayScenario()
    ensures AbandonTarget([Stay]) == 0.09
  {
    assert [Stay][..0] == [];
  }

  /** The denial phasing interval: the definition's interval divided by the intensity
      (at least 0.01), and never below half a second. */
  function DenialInterval(phaseIntervalSeconds: real, denial: real): (r: real)
    ensures r >= 0.5
    ensures r >= phaseIntervalSeconds / Max(denial, 0.01)
    ensures r == 0.5 || r == phaseIntervalSeconds / Max(denial, 0.01)
  {
    Max(0.5, phaseIntervalSeconds / Max(denial, 0.01))
  }

  /** A stronger denial never lengthens the interval. */
  lemma DenialIntervalAntitone(phaseIntervalSeconds: real, d1: real, d2: real)
    requires phaseIntervalSeconds >= 0.0 && d1 <= d2
    ensures DenialInterval(phaseIntervalSeconds, d2) <= DenialInterval(phaseIntervalSeconds, d1)
  {
    DivAntitone(phaseIntervalSeconds, Max(d1, 0.01), Max(d2, 0.01));
  }

  /** Dividing a non-negative amount by a larger positive divisor gives no more. */
  lemma DivAntitone(p: real, a: real, b: real)
    requires p >= 0.0 && 0.0 < a <= b
    ensures p / b <= p / a
  {
    var qa, qb := p / a, p / b;
    assert qb >= 0.0;
    assert qb * a <= qb * b;
    assert qb * a <= qa * a;
  }

  /** Denial 0.5 with a 3 s phase interval toggles every 6 s. */
  lemma DenialScenario()
    ensures DenialInterval(3.0, 0.5) == 6.0
  {
  }

  /** The enabled state every collider and renderer gets from one toggle: the opposite of
      the first collider's, or disabled when there is no collider. */
  function ToggledEnabled(colliders: seq<bool>): bool {
    !(|colliders| == 0 || colliders[0])
  }

  function Uniform(n: nat, v: bool): (r: seq<bool>)
    ensures |r| == n && forall i :: 0 <= i < n ==> r[i] == v
  {
    seq(n, _ => v)
  }

  /** ToggleDenialPhase on the enabled flags of the colliders and the renderers. */
  function Toggle(colliders: seq<bool>, renderers: seq<bool>): (seq<bool>, seq<bool>) {
    var v := ToggledEnabled(colliders);
    (Uniform(|colliders|, v), Uniform(|renderers|, v))
  }

  /** From a state where everything is enabled alike, two toggles restore it. */
  lemma ToggleTwiceRestores(colliders: seq<bool>, renderers: seq<bool>)
    requires |colliders| > 0
    requires forall i :: 0 <= i < |colliders| ==> colliders[i] == colliders[0]
    requires forall i :: 0 <= i < |renderers| ==> renderers[i] == colliders[0]
    ensures var (c1, r1) := Toggle(colliders, renderers); Toggle(c1, r1) == (colliders, renderers)
  {
    var (c1, r1) := Toggle(colliders, renderers);
    assert Uniform(|c1|, ToggledEnabled(c1)) == colliders;
    assert Uniform(|r1|, ToggledEnabled(c1)) == renderers;
  }

  /** With no collider to toggle, every toggle disables the renderers: once denial phases
      the box, its renderers never come back. */
  lemma NoCollidersStayHidden(renderers: seq<bool>)
    ensures Toggle([], renderers).1 == Uniform(|renderers|, false)
    ensures Toggle([], Toggle([], renderers).1) == Toggle([], renderers)
  {
  }

  /** The abandonment drift: with an abandonment definition and abandonment above 0.01, an
      acceleration along `driftDir` of baseDriftStrength times the intensity. */
  function DriftEffects(def: Option<EmotionDefinition>, abandon: real, baseDriftStrength: real,
                        driftDir: Vec3): (r: seq<Effect>)
    ensures |r| <= 1
    ensures |r| == 1 <==> def.Some? && abandon > 0.01
    ensures |r| == 1 ==> r[0] == AddForce(Scale(driftDir, baseDriftStrength * abandon), Acceleration)
  {
    if def.Some? && abandon > 0.01
    then [AddForce(Scale(driftDir, baseDriftStrength * abandon), Acceleration)]
    else []
  }

  /** The anger jolt: with an anger definition and anger above 0.1, a Random.value draw
      below 0.3 * anger * dt gives one impulse of the definition's strength along the
      normalised random direction `joltDir`. */
  function JoltEffects(def: Option<EmotionDefinition>, anger: real, dt: real, roll: real,
                       joltDir: Vec3): (r: seq<Effect>)
    ensures |r| <= 1
    ensures |r| == 1 <==> def.Some? && anger > 0.1 && roll < 0.3 * anger * dt
    ensures |r| == 1 ==> r[0] == AddForce(Scale(joltDir, def.value.randomImpulseStrength), Impulse)
  {
    if def.Some? && anger > 0.1 && roll < 0.3 * anger * dt
    then [AddForce(Scale(joltDir, def.value.randomImpulseStrength), Impulse)]
    else []
  }

  class BoxEmotionApplier {
    const baseDriftStrength: real
    const emotionState: EmotionState?
    const magnetAttach: AttachPoint?<Magnet>
    /** The `enabled` flags of collidersToToggle and of renderersToHide. */
    const collidersEnabled: array<bool>
    const renderersEnabled: array<bool>
    var denialTimer: real

    /** Colliders and renderers are different components, so their arrays are distinct. */
    ghost predicate Valid()
      reads this
    {
      collidersEnabled != renderersEnabled
    }

    constructor (baseDriftStrength: real, emotionState: EmotionState?, magnetAttach: AttachPoint?<Magnet>,
                 collidersEnabled: array<bool>, renderersEnabled: array<bool>)
      requires collidersEnabled != renderersEnabled
      ensures Valid() && denialTimer == 0.0
      ensures this.baseDriftStrength == baseDriftStrength && this.emotionState == emotionState
      ensures this.magnetAttach == magnetAttach
      ensures this.collidersEnabled == collidersEnabled && this.renderersEnabled == renderersEnabled
    {
      this.baseDriftStrength := baseDriftStrength;
      this.emotionState := emotionState;
      this.magnetAttach := magnetAttach;
      this.collidersEnabled := collidersEnabled;
      this.renderersEnabled := renderersEnabled;
      denialTimer := 0.0;
    }

    /** ToggleDenialPhase: every collider and renderer gets the same new enabled state. */
    method ToggleDenialPhase()
      requires Valid()
      modifies collidersEnabled, renderersEnabled
      ensures (collidersEnabled[..], renderersEnabled[..])
           == Toggle(old(collidersEnabled[..]), old(renderersEnabled[..]))
    {
      var newEnabled := !(collidersEnabled.Length == 0 || collidersEnabled[0]);
      assert newEnabled == ToggledEnabled(old(collidersEnabled[..]));
      for i := 0 to collidersEnabled.Length
        invariant forall k :: 0 <= k < i ==> collidersEnabled[k] == newEnabled
        invariant renderersEnabled[..] == old(renderersEnabled[..])
      {
        collidersEnabled[i] := newEnabled;
      }
      for i := 0 to renderersEnabled.Length
        invariant forall k :: 0 <= k < i ==> renderersEnabled[k] == newEnabled
        invariant forall k :: 0 <= k < collidersEnabled.Length ==> collidersEnabled[k] == newEnabled
      {
        renderersEnabled[i] := newEnabled;
      }
      assert collidersEnabled[..] == Uniform(collidersEnabled.Length, newEnabled);
      assert renderersEnabled[..] == Uniform(renderersEnabled.Length, newEnabled);
    }

    /** The denial part of FixedUpdate: with a denial definition and denial above 0.05 the
        timer advances by `dt`; when it reaches the interval it restarts at 0 and exactly
        one toggle happens. Otherwise nothing changes. */
    method AdvanceDenial(denialDef: Option<EmotionDefinition>, denial: real, dt: real) returns (toggled: bool)
      requires Valid()
      modifies this`denialTimer, collidersEnabled, renderersEnabled
      ensures !(denialDef.Some? && denial > 0.05) ==>
        !toggled && denialTimer == old(denialTimer)
      ensures denialDef.Some? && denial > 0.05 ==>
        var t := old(denialTimer) + dt;
        && toggled == (t >= DenialInterval(denialDef.value.phaseIntervalSeconds, denial))
        && denialTimer == (if toggled then 0.0 else t)
      ensures toggled ==> (collidersEnabled[..], renderersEnabled[..])
                          == Toggle(old(collidersEnabled[..]), old(renderersEnabled[..]))
      ensures !toggled ==> unchanged(collidersEnabled, renderersEnabled)
    {
      toggled := false;
      if denialDef.Some? {
        if denial > 0.05 {
          denialTimer := denialTimer + dt;
          var interval := DenialInterval(denialDef.value.phaseIntervalSeconds, denial);
          if denialTimer >= interval {
            denialTimer := 0.0;
            ToggleDenialPhase();
            toggled := true;
          }
        }
      }
    }

    /** The objects a FixedUpdate may change. */
    function UpdateFrame(): set<object>
      reads this
    {
      (if emotionState == null then {} else {emotionState}) + {collidersEnabled, renderersEnabled}
    }

    /** FixedUpdate on the server: converge abandonment towards the target the attached
        words give, then emit the drift force, advance the denial timer, and emit the anger
        jolt. `driftDir` is the direction away from the players, `angerRoll` the
        Random.value draw and `joltDir` the normalised random horizontal direction. */
    method FixedUpdate(isServer: bool, dt: real, driftDir: Vec3, angerRoll: real, joltDir: Vec3)
      returns (effects: seq<Effect>, toggled: bool)
      requires Valid()
      modifies this`denialTimer, UpdateFrame()
      ensures !isServer || emotionState == null ==>
        effects == [] && !toggled && denialTimer == old(denialTimer)
        && unchanged(collidersEnabled, renderersEnabled)
        && (emotionState != null ==> unchanged(emotionState))
      ensures isServer && emotionState != null ==>
        var es := emotionState;
        && (es.Def(Abandonment).Some? ==>
              es.GetIntensity(Abandonment)
              == Step(old(es.GetIntensity(Abandonment)), AbandonTarget(AttachedWords(magnetAttach)),
                      es.Def(Abandonment).value.intensityLerpSpeed, dt))
        && (es.Def(Abandonment).None? ==> es.GetIntensity(Abandonment) == old(es.GetIntensity(Abandonment)))
        && (forall k :: k != Abandonment ==> es.GetIntensity(k) == old(es.GetIntensity(k)))
        && (forall k :: es.Def(k) == old(es.Def(k)))
        && effects == DriftEffects(es.Def(Abandonment), es.GetIntensity(Abandonment), baseDriftStrength, driftDir)
                      + JoltEffects(es.Def(Anger), es.GetIntensity(Anger), dt, angerRoll, joltDir)
      ensures isServer && emotionState != null ==>
        var es := emotionState;
        && (!(es.Def(Denial).Some? && es.GetIntensity(Denial) > 0.05) ==>
              !toggled && denialTimer == old(denialTimer))
        && (es.Def(Denial).Some? && es.GetIntensity(Denial) > 0.05 ==>
              var t := old(denialTimer) + dt;
              && toggled == (t >= DenialInterval(es.Def(Denial).value.phaseIntervalSeconds,
                                                 es.GetIntensity(Denial)))
              && denialTimer == (if toggled then 0.0 else t))
      ensures toggled ==> (collidersEnabled[..], renderersEnabled[..])
                          == Toggle(old(collidersEnabled[..]), old(renderersEnabled[..]))
      ensures !toggled ==> unchanged(collidersEnabled, renderersEnabled)
    {
      effects, toggled := [], false;
      if !isServer || emotionState == null {
        return;
      }
      var es := emotionState;

      // Abandonment drift.
      var targetAbandon := BaseAbandonment;
      if magnetAttach != null {
        targetAbandon := TargetAbandonment(magnetAttach.magnets);
      }
      es.Lerp(Abandonment, targetAbandon, dt, isServer);
      effects := DriftEffects(es.abandonDef, es.abandonmentIntensity, baseDriftStrength, driftDir);

      // Denial phasing.
      toggled := AdvanceDenial(es.denialDef, es.denialIntensity, dt);

      // Anger jolt.
      effects := effects + JoltEffects(es.angerDef, es.angerIntensity, dt, angerRoll, joltDir);
    }
  }

  /** The abandonment loop of FixedUpdate: scale the base by each attached magnet's word. */
  method TargetAbandonment(magnets: seq<Magnet>) returns (target: real)
    ensures target == AbandonTarget(WordsOf(magnets))
    ensures 0.0 < target <= BaseAbandonment
  {
    target := BaseAbandonment;
    for i := 0 to |magnets|
      invariant target == AbandonTarget(WordsOf(magnets[..i]))
    {
      target := Scaled(target, magnets[i].wordId);
      assert WordsOf(magnets[..i + 1])[..i] == WordsOf(magnets[..i]);
    }
    assert magnets[..|magnets|] == magnets;
  }
}
