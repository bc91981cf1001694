/** The per-agent psychological state that the prompts describe and the
    state-update route rebuilds: the record types of app/lib/personalities.ts.
    Every number of the source is a JavaScript number; the model keeps them
    as integers, which is what `parseInt` produces. */
module PersonalityModel {
  import opened Common

  /** The five archetypes. */
  datatype Personality = Diplomat | Opportunist | Skeptic | Altruist | Pragmatist

  /** A move: "C" (cooperate) or "D" (defect). */
  datatype Move = C | D

  /** Who wrote a chat line: "L" (left player) or "R" (right player). */
  datatype Speaker = L | R

  /** The twelve emotion intensities. */
  datatype EmotionalState = EmotionalState(
    trust: int, grudge: int, hope: int, anxiety: int, frustration: int, optimism: int,
    guilt: int, shame: int, pride: int, empathy: int, regret: int, vindication: int)

  /** Names for the twelve fields of an emotional state, in the order the
      source lists them. */
  datatype Emotion =
    | Trust | Grudge | Hope | Anxiety | Frustration | Optimism
    | Guilt | Shame | Pride | Empathy | Regret | Vindication

  function Intensity(es: EmotionalState, e: Emotion): int {
    match e
    case Trust => es.trust
    case Grudge => es.grudge
    case Hope => es.hope
    case Anxiety => es.anxiety
    case Frustration => es.frustration
    case Optimism => es.optimism
    case Guilt => es.guilt
    case Shame => es.shame
    case Pride => es.pride
    case Empathy => es.empathy
    case Regret => es.regret
    case Vindication => es.vindication
  }

  /** The emotional state whose every intensity is given by `f`. */
  function EmotionsFrom(f: Emotion -> int): (es: EmotionalState)
    ensures forall e :: Intensity(es, e) == f(e)
  {
    EmotionalState(f(Trust), f(Grudge), f(Hope), f(Anxiety), f(Frustration), f(Optimism),
                   f(Guilt), f(Shame), f(Pride), f(Empathy), f(Regret), f(Vindication))
  }

  /** Two emotional states are equal exactly when all twelve intensities are. */
  lemma EmotionsEqual(a: EmotionalState, b: EmotionalState)
    ensures a == b <==> forall e :: Intensity(a, e) == Intensity(b, e)
  {
    if forall e :: Intensity(a, e) == Intensity(b, e) {
      assert Intensity(a, Trust) == Intensity(b, Trust);
      assert Intensity(a, Grudge) == Intensity(b, Grudge);
      assert Intensity(a, Hope) == Intensity(b, Hope);
      assert Intensity(a, Anxiety) == Intensity(b, Anxiety);
      assert Intensity(a, Frustration) == Intensity(b, Frustration);
      assert Intensity(a, Optimism) == Intensity(b, Optimism);
      assert Intensity(a, Guilt) == Intensity(b, Guilt);
      assert Intensity(a, Shame) == Intensity(b, Shame);
      assert Intensity(a, Pride) == Intensity(b, Pride);
      assert Intensity(a, Empathy) == Intensity(b, Empathy);
      assert Intensity(a, Regret) == Intensity(b, Regret);
      assert Intensity(a, Vindication) == Intensity(b, Vindication);
    }
  }

  datatype CulturalContext = CulturalContext(
    collectivismScore: int,
    powerDistanceComfort: int,
    uncertaintyAvoidance: int,
    competitivenessOrientation: int,
    timeOrientation: int,
    socialNorms: seq<string>,
    roleExpectations: string)

  datatype ObservedStrategy = ObservedStrategy(
    strategy: string, effectiveness: int, contextSimilarity: int, trustworthiness: int)

  datatype SocialLearning = SocialLearning(
    observedStrategies: seq<ObservedStrategy>,
    adaptationTendency: int,
    innovationTendency: int,
    socialProofSensitivity: int,
    authorityInfluence: int,
    lastSuccessfulStrategy: string,
    strategicRepertoire: seq<string>)

  datatype Experience = Experience(
    round: int, event: string, traitChanges: map<string, int>, permanence: int)

  datatype PersonalityEvolution = PersonalityEvolution(
    baselineTraits: map<string, int>,
    currentTraits: map<string, int>,
    traitFlexibility: map<string, int>,
    experienceImpact: seq<Experience>,
    coreStability: int,
    adaptiveCapacity: int,
    stressThreshold: int,
    recoveryRate: int)

  /** The emotion-versus-logic split, in percent. */
  datatype Weighting = Weighting(emotion: int, logic: int)

  datatype MoralCompass = MoralCompass(strength: int, flexibility: int, primaryValues: seq<string>)

  datatype SocialIdentity = SocialIdentity(
    inGroupLoyalty: int, outGroupSuspicion: int, statusConcern: int, reputationWeight: int)

  datatype DynamicPersonalityState = DynamicPersonalityState(
    emotionalState: EmotionalState,
    culturalContext: CulturalContext,
    socialLearning: SocialLearning,
    personalityEvolution: PersonalityEvolution,
    memoryNarrative: string,
    moodInfluence: string,
    personalityFluctuation: string,
    cognitiveBiases: seq<string>,
    pastEventInfluence: string,
    cooperationCount: int,
    defectionCount: int,
    lastMove: Option<Move>,
    emotionVsLogicWeight: Weighting,
    moralCompass: MoralCompass,
    socialIdentity: SocialIdentity)
}
