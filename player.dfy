/** The server-side fear and anger effects on a player body
    (Assets/Scripts/PlayerEmotionApplier.cs). */
module PlayerEmotion {
  import opened Types
  import opened Geometry
  import opened EmotionStates
  import opened AttachPoints
  import opened Magnets

  /** The fear target before magnets: 0.8 when the nearest other player is farther than
      the radius, 0.25 otherwise. */
  function BaseFear(nearest: real, nearOtherPlayerRadius: real): (r: real)
    ensures r == 0.8 <==> nearest > nearOtherPlayerRadius
    ensures r == 0.25 <==> nearest <= nearOtherPlayerRadius
  {
    if nearest > nearOtherPlayerRadius then 0.8 else 0.25
  }

  /** One case of the switch over a magnet's word: Warmth scales fear by 0.4, Help by
      0.7, Sorry by 0.9, and every other word leaves it alone. */
  function Calmed(t: real, w: MagnetWordId): real {
    match w
    case Warmth => t * 0.4
    case Help => t * 0.7
    case Sorry => t * 0.9
    case _ => t
  }

  /** The fear target: the base scaled by every attached word, in list order. A positive
      base gives a positive target no larger than the base. */
  function FearTarget(base: real, ws: seq<MagnetWordId>): (r: real)
    ensures base > 0.0 ==> 0.0 < r <= base
    decreases |ws|
  {
    if |ws| == 0 then base
    else Calmed(FearTarget(base, ws[..|ws| - 1]), ws[|ws| - 1])
  }

  /** The reference value base * 0.4^warmths * 0.7^helps * 0.9^sorrys, one factor at a
      time. */
  function FearForm(base: real, warmths: nat, helps: nat, sorrys: nat): real
    decreases warmths, helps, sorrys
  {
    if warmths > 0 then FearForm(base, warmths - 1, helps, sorrys) * 0.4
    else if helps > 0 then FearForm(base, 0, helps - 1, sorrys) * 0.7
    else if sorrys > 0 then FearForm(base, 0, 0, sorrys - 1) * 0.9
    else base
  }

  /** One more Help word scales the reference value by 0.7, whatever the Warmth count. */
  lemma {:induction false} FearFormHelpStep(base: real, warmths: nat, helps: nat, sorrys: nat)
    ensures FearForm(base, warmths, helps + 1, sorrys) == FearForm(base, warmths, helps, sorrys) * 0.7
    decreases warmths
  {
    if warmths > 0 {
      FearFormHelpStep(base, warmths - 1, helps, sorrys);
    }
  }

  /** One more Sorry word scales the reference value by 0.9, whatever the other counts. */
  lemma {:induction false} FearFormSorryStep(base: real, warmths: nat, helps: nat, sorrys: nat)
    ensures FearForm(base, warmths, helps, sorrys + 1) == FearForm(base, warmths, helps, sorrys) * 0.9
    decreases warmths, helps
  {
    if warmths > 0 {
      FearFormSorryStep(base, warmths - 1, helps, sorrys);
    } else if helps > 0 {
      FearFormSorryStep(base, 0, helps - 1, sorrys);
    }
  }

  /** The target is the reference value of the word counts. */
  lemma {:induction false} FearTargetClosedForm(base: real, ws: seq<MagnetWordId>)
    ensures FearTarget(base, ws)
         == FearForm(base, Occurrences(ws, Warmth), Occurrences(ws, Help), Occurrences(ws, Sorry))
    decreases |ws|
  {
    if |ws| > 0 {
      var init, w := ws[..|ws| - 1], ws[|ws| - 1];
      FearTargetClosedForm(base, init);
      var a, h, s := Occurrences(init, Warmth), Occurrences(init, Help), Occurrences(init, Sorry);
      if w == Help {
        FearFormHelpStep(base, a, h, s);
      } else if w == Sorry {
        FearFormSorryStep(base, a, h, s);
      }
    }
  }

  /** The order of the attached magnets does not matter. */
  lemma FearTargetOrderIndependent(base: real, a: seq<MagnetWordId>, b: seq<MagnetWordId>)
    requires multiset(a) == multiset(b)
    ensures FearTarget(base, a) == FearTarget(base, b)
  {
    OccurrencesIsMultiplicity(a, Warmth);
    OccurrencesIsMultiplicity(b, Warmth);
    OccurrencesIsMultiplicity(a, Help);
    OccurrencesIsMultiplicity(b, Help);
    OccurrencesIsMultiplicity(a, Sorry);
    OccurrencesIsMultiplicity(b, Sorry);
    FearTargetClosedForm(base, a);
    FearTargetClosedForm(base, b);
  }

  /** A lone player far from everyone with one Warmth magnet: 0.8 * 0.4. */
  lemma WarmthScenario()
    ensures FearTarget(BaseFear(FloatMax, 4.0), [Warmth]) == 0.32
  {
    assert [Warmth][..0] == [];
  }

  /** A player as FindObjectsOfType returns it: its identity and its distance from this
      player's avatar (Vector3.Distance, computed by the engine). */
  datatype PlayerSighting = PlayerSighting(id: nat, distance: real)

  /** The distance to the nearest player other than `self`: float.MaxValue when there is
      none, otherwise the least distance, capped at float.MaxValue. */
  function Nearest(players: seq<PlayerSighting>, self: nat): (r: real)
    ensures r <= FloatMax
    ensures forall i :: 0 <= i < |players| && players[i].id != self ==> r <= players[i].distance
    ensures r == FloatMax || exists i :: 0 <= i < |players| && players[i].id != self && r == players[i].distance
    decreases |players|
  {
    if |players| == 0 then FloatMax
    else
      var init, p := players[..|players| - 1], players[|players| - 1];
      var n := Nearest(init, self);
      assert forall i :: 0 <= i < |init| ==> init[i] == players[i];
      if p.id != self && p.distance < n then p.distance else n
  }

  /** Without another player the nearest distance is float.MaxValue, so with any smaller
      radius the player is "far away" and the base fear target is 0.8. */
  lemma AloneIsFar(players: seq<PlayerSighting>, self: nat, nearOtherPlayerRadius: real)
    requires forall i :: 0 <= i < |players| ==> players[i].id == self
    requires nearOtherPlayerRadius < FloatMax
    ensures Nearest(players, self) == FloatMax
    ensures BaseFear(Nearest(players, self), nearOtherPlayerRadius) == 0.8
  {
  }

  /** GetNearestOtherPlayerDistance: the minimum over the other players, kept in a loop. */
  method GetNearestOtherPlayerDistance(players: seq<PlayerSighting>, self: nat) returns (nearest: real)
    ensures nearest == Nearest(players, self)
  {
    nearest := FloatMax;
    for i := 0 to |players|
      invariant nearest == Nearest(players[..i], self)
    {
      assert players[..i + 1][..i] == players[..i];
      var other := players[i];
      if other.id == self {
        continue;
      }
      var d := other.distance;
      if d < nearest {
        nearest := d;
      }
    }
    assert players[..|players|] == players;
  }

  /** The magnet loop of FixedUpdate: scale the base by each attached magnet's word. */
  method TargetFear(base: real, magnets: seq<Magnet>) returns (target: real)
    ensures target == FearTarget(base, WordsOf(magnets))
  {
    target := base;
    for i := 0 to |magnets|
      invariant target == FearTarget(base, WordsOf(magnets[..i]))
    {
      target := Calmed(target, magnets[i].wordId);
      assert WordsOf(magnets[..i + 1])[..i] == WordsOf(magnets[..i]);
    }
    assert magnets[..|magnets|] == magnets;
  }

  /** The fear sway: with a fear definition and fear above 0.01, a torque about the
      z axis scaled by the Random.Range draw `swayRoll`, swayTorque and the fear. */
  function SwayEffects(def: Option<EmotionDefinition>, fear: real, swayTorque: real,
                       swayRoll: real): (r: seq<Effect>)
    ensures |r| <= 1
    ensures |r| == 1 <==> def.Some? && fear > 0.01
    ensures |r| == 1 ==> r[0] == AddTorque(Vec3(0.0, 0.0, swayRoll * swayTorque * fear), Acceleration)
  {
    if def.Some? && fear > 0.01
    then
      assert 0.0 * swayTorque == 0.0 && 0.0 * fear == 0.0;
      assert Scale(Scale(Vec3(0.0, 0.0, swayRoll), swayTorque), fear)
          == Vec3(0.0, 0.0, swayRoll * swayTorque * fear);
      [AddTorque(Scale(Scale(Vec3(0.0, 0.0, swayRoll), swayTorque), fear), Acceleration)]
    else []
  }

  /** The stumble: with a fear definition and fear above 0.4, a Random.value draw below
      stumbleChancePerSecond * fear * dt gives one velocity change of stumbleImpulse along
      the normalised sideways direction. */
  function StumbleEffects(def: Option<EmotionDefinition>, fear: real, dt: real, roll: real,
                          sidewaysDir: Vec3, stumbleImpulse: real): (r: seq<Effect>)
    ensures |r| <= 1
    ensures |r| == 1 <==> def.Some? && fear > 0.4 && roll < def.value.stumbleChancePerSecond * fear * dt
    ensures |r| == 1 ==> r[0] == AddForce(Scale(sidewaysDir, stumbleImpulse), VelocityChange)
  {
    if def.Some? && fear > 0.4 && roll < def.value.stumbleChancePerSecond * fear * dt
    then [AddForce(Scale(sidewaysDir, stumbleImpulse), VelocityChange)]
    else []
  }

  /** The anger push: with an anger definition and anger above 0.1, an acceleration along
      the normalised random direction of randomImpulseStrength * anger * dt, every tick. */
  function PushEffects(def: Option<EmotionDefinition>, anger: real, dt: real,
                       angerDir: Vec3): (r: seq<Effect>)
    ensures |r| <= 1
    ensures |r| == 1 <==> def.Some? && anger > 0.1
    ensures |r| == 1 ==> r[0] == AddForce(Scale(angerDir, def.value.randomImpulseStrength * anger * dt), Acceleration)
  {
    if def.Some? && anger > 0.1
    then [AddForce(Scale(angerDir, def.value.randomImpulseStrength * anger * dt), Acceleration)]
    else []
  }

  class PlayerEmotionApplier {
    /** Identity of this player's avatar among the sightings. */
    const avatarId: nat
    const swayTorque: real
    const stumbleImpulse: real
    const nearOtherPlayerRadius: real
    const emotionState: EmotionState?
    const magnetAttach: AttachPoint?<Magnet>

    /** The inspector defaults are 5, 2 and 4. */
    constructor (avatarId: nat, emotionState: EmotionState?, magnetAttach: AttachPoint?<Magnet>)
      ensures this.avatarId == avatarId && this.emotionState == emotionState
      ensures this.magnetAttach == magnetAttach
      ensures swayTorque == 5.0 && stumbleImpulse == 2.0 && nearOtherPlayerRadius == 4.0
    {
      this.avatarId := avatarId;
      this.emotionState := emotionState;
      this.magnetAttach := magnetAttach;
      swayTorque, stumbleImpulse, nearOtherPlayerRadius := 5.0, 2.0, 4.0;
    }

    function StateFrame(): set<object>
      reads this
    {
      if emotionState == null then {} else {emotionState}
    }

    /** FixedUpdate on the server: converge fear, and only fear, towards the target the
        nearest player and the attached words give, then emit the sway, the stumble and
        the anger push. `swayRoll` and `stumbleRoll` are the random draws, `sidewaysDir`
        and `angerDir` the normalised random directions. */
    method FixedUpdate(isServer: bool, dt: real, players: seq<PlayerSighting>, swayRoll: real,
                       stumbleRoll: real, sidewaysDir: Vec3, angerDir: Vec3)
      returns (effects: seq<Effect>)
      modifies StateFrame()
      ensures !isServer || emotionState == null ==> effects == [] && unchanged(StateFrame())
      ensures isServer && emotionState != null ==>
        var es := emotionState;
        var target := FearTarget(BaseFear(Nearest(players, avatarId), nearOtherPlayerRadius),
                                 AttachedWords(magnetAttach));
        && (es.Def(Fear).Some? ==>
              es.GetIntensity(Fear) == Step(old(es.GetIntensity(Fear)), target,
                                            es.Def(Fear).value.intensityLerpSpeed, dt))
        && (es.Def(Fear).None? ==> es.GetIntensity(Fear) == old(es.GetIntensity(Fear)))
        && (forall k :: k != Fear ==> es.GetIntensity(k) == old(es.GetIntensity(k)))
        && (forall k :: es.Def(k) == old(es.Def(k)))
        && effects == SwayEffects(es.Def(Fear), es.GetIntensity(Fear), swayTorque, swayRoll)
                      + StumbleEffects(es.Def(Fear), es.GetIntensity(Fear), dt, stumbleRoll,
                                       sidewaysDir, stumbleImpulse)
                      + PushEffects(es.Def(Anger), es.GetIntensity(Anger), dt, angerDir)
    {
      effects := [];
      if !isServer || emotionState == null {
        return;
      }
      var es := emotionState;

      var nearest := GetNearestOtherPlayerDistance(players, avatarId);
      var targetFear := BaseFear(nearest, nearOtherPlayerRadius);
      if magnetAttach != null {
        targetFear := TargetFear(targetFear, magnetAttach.magnets);
      }
      es.Lerp(Fear, targetFear, dt, isServer);

      var fear := es.fearIntensity;
      var anger := es.angerIntensity;
      effects := SwayEffects(es.fearDef, fear, swayTorque, swayRoll)
                 + StumbleEffects(es.fearDef, fear, dt, stumbleRoll, sidewaysDir, stumbleImpulse)
                 + PushEffects(es.angerDef, anger, dt, angerDir);
    }
  }
}
