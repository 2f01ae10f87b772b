/** Shared enumerations and tuning records of the emotion core
    (Assets/Scripts/EB_Types.cs and Assets/Scripts/Emotions/EmotionDefinition.cs). */
module Types {

  /** A C# reference that may be null, or a value that may be absent. */
  datatype Option<+T> = None | Some(value: T)

  /** The four core emotions. */
  datatype EmotionType = Fear | Abandonment | Denial | Anger

  /** The words printed on magnet tiles, in declaration order. */
  datatype MagnetWordId =
    | Warmth | Help | Sorry | Stay | Safe | Together | Quiet | Please | HoldMe | DontLeave

  datatype HandSide = Left | Right

  function Other(side: HandSide): (r: HandSide)
    ensures r != side
  {
    if side == Left then Right else Left
  }

  /** The fields of an EmotionDefinition asset that the simulation reads.
      The colour, the "affects" flags, the jitter/tilt limits used only by visuals
      and baseDriftStrength (the box uses its own field) are not part of the model. */
  datatype EmotionDefinition = EmotionDefinition(
    emotionType: EmotionType,
    stumbleChancePerSecond: real,
    randomImpulseStrength: real,
    phaseIntervalSeconds: real,
    intensityLerpSpeed: real)

  /** How many times the word `w` occurs in `ws`. */
  function Occurrences(ws: seq<MagnetWordId>, w: MagnetWordId): nat
    decreases |ws|
  {
    if |ws| == 0 then 0
    else Occurrences(ws[..|ws| - 1], w) + (if ws[|ws| - 1] == w then 1 else 0)
  }

  /** The count agrees with the multiplicity in the multiset of the words, so it does not
      depend on their order. */
  lemma {:induction false} OccurrencesIsMultiplicity(ws: seq<MagnetWordId>, w: MagnetWordId)
    ensures Occurrences(ws, w) == multiset(ws)[w]
    decreases |ws|
  {
    if |ws| > 0 {
      var init := ws[..|ws| - 1];
      assert ws == init + [ws[|ws| - 1]];
      OccurrencesIsMultiplicity(init, w);
    }
  }

  /** The largest finite single-precision float (C# float.MaxValue). */
  const FloatMax: real := 340282346638528859811704183484516925440.0

  /** The text C#'s Enum.ToString() gives for a magnet word. */
  function WordName(w: MagnetWordId): (s: string)
    ensures |s| > 0 && forall i :: 0 <= i < |s| ==> IsLetter(s[i])
  {
    match w
    case Warmth => "Warmth"
    case Help => "Help"
    case Sorry => "Sorry"
    case Stay => "Stay"
    case Safe => "Safe"
    case Together => "Together"
    case Quiet => "Quiet"
    case Please => "Please"
    case HoldMe => "HoldMe"
    case DontLeave => "DontLeave"
  }

  predicate IsLetter(c: char) {
    ('A' <= c <= 'Z') || ('a' <= c <= 'z')
  }

  /** Every magnet word, in declaration order. */
  const AllWords: seq<MagnetWordId> :=
    [Warmth, Help, Sorry, Stay, Safe, Together, Quiet, Please, HoldMe, DontLeave]

  /** The first word of `words` whose name is exactly `s`, if any. */
  function FindWord(words: seq<MagnetWordId>, s: string): (r: Option<MagnetWordId>)
    ensures r.Some? ==> WordName(r.value) == s && r.value in words
    ensures r.None? ==> forall w :: w in words ==> WordName(w) != s
    decreases |words|
  {
    if |words| == 0 then None
    else if WordName(words[0]) == s then Some(words[0])
    else FindWord(words[1..], s)
  }

  /** Inverse of WordName (Enum.Parse): the word whose name is exactly `s`, if any. */
  function WordFromName(s: string): (r: Option<MagnetWordId>)
    ensures r.Some? ==> WordName(r.value) == s
  {
    FindWord(AllWords, s)
  }

  /** Different words have different names. */
  lemma WordNameInjective(v: MagnetWordId, w: MagnetWordId)
    requires WordName(v) == WordName(w)
    ensures v == w
  {
  }

  lemma WordNameRoundTrip(w: MagnetWordId)
    ensures WordFromName(WordName(w)) == Some(w)
  {
    assert w in AllWords;
    var r := FindWord(AllWords, WordName(w));
    WordNameInjective(r.value, w);
  }
}
