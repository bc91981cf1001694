/** The request handler of app/api/llm-decision/route.ts, with the completion
    text of the language-model call taken as an input: the decoder that turns
    a `KEY: value` decision into a decision record, the merge that folds a
    state-update reply into a personality state, and the POST dispatch. */
module Route {
  import opened Common
  import opened Text
  import opened Numbers
  import opened FieldParser
  import opened PersonalityModel

  /** The protocol key of each emotion, as the system prompts spell it. */
  function EmotionKey(e: Emotion): string {
    match e
    case Trust => "TRUST"
    case Grudge => "GRUDGE"
    case Hope => "HOPE"
    case Anxiety => "ANXIETY"
    case Frustration => "FRUSTRATION"
    case Optimism => "OPTIMISM"
    case Guilt => "GUILT"
    case Shame => "SHAME"
    case Pride => "PRIDE"
    case Empathy => "EMPATHY"
    case Regret => "REGRET"
    case Vindication => "VINDICATION"
  }

  /** `parsed.KEY` is truthy: present and not the empty text. */
  predicate Filled(parsed: FieldMap, k: string) {
    k in parsed && parsed[k] != ""
  }

  /** `parseInt(parsed.KEY)`, with `None` for NaN (an absent key reads as
      `undefined`, which parses to NaN). */
  function ParsedNumber(parsed: FieldMap, k: string): Option<int> {
    if k in parsed then ParseInt(parsed[k]) else None
  }

  /** `parseInt(parsed.KEY) || d`: the parsed number unless it is NaN or 0,
      both of which are falsy. */
  function NumberOr(parsed: FieldMap, k: string, d: int): (r: int)
    ensures r != d ==> ParsedNumber(parsed, k) == Some(r) && r != 0
    ensures ParsedNumber(parsed, k).Some? && ParsedNumber(parsed, k).value != 0
            ==> r == ParsedNumber(parsed, k).value
  {
    match ParsedNumber(parsed, k)
    case Some(n) => if n != 0 then n else d
    case None => d
  }

  /** `parsed.KEY || ""`. */
  function TextOf(parsed: FieldMap, k: string): (r: string)
    ensures Filled(parsed, k) <==> r != ""
    ensures r != "" ==> r == parsed[k]
  {
    if k in parsed then parsed[k] else ""
  }

  /** The twelve intensities of a reply, each falling back to the matching
      intensity of `prev` when the reply gives no non-zero number for it. */
  function ReadEmotions(parsed: FieldMap, prev: EmotionalState): (r: EmotionalState)
    ensures forall e :: Intensity(r, e) == NumberOr(parsed, EmotionKey(e), Intensity(prev, e))
  {
    EmotionsFrom(e => NumberOr(parsed, EmotionKey(e), Intensity(prev, e)))
  }

  /** The emotional state whose every intensity is 0. */
  function ZeroEmotions(): (r: EmotionalState)
    ensures forall e :: Intensity(r, e) == 0
  {
    EmotionalState(0, 0, 0, 0, 0, 0, 0, 0, 0, 0, 0, 0)
  }

  // ---------------------------------------------------------------------
  // The decision decoder of handleDynamicDecision
  // ---------------------------------------------------------------------

  /** The decoded decision of route.ts, every field filled. */
  datatype Decision = Decision(
    choice: Move,
    reasoning: string,
    naturalReflection: string,
    emotionalState: EmotionalState,
    cognitiveBiases: seq<string>,
    memoryNarrative: string,
    moodInfluence: string,
    pastEventInfluence: string,
    emotionVsLogicWeight: Weighting,
    culturalInfluence: string,
    socialLearningInsight: string,
    personalityEvolution: string,
    moralReflection: string)

  /** The upper-cased `DECISION` value when it is exactly "C" or "D". */
  function ChoiceOf(parsed: FieldMap): (r: Option<Move>)
    ensures r.Some? ==> "DECISION" in parsed && |parsed["DECISION"]| == 1
  {
    if "DECISION" !in parsed then None
    else
      var u := ToUpper(parsed["DECISION"]);
      if u == "C" then Some(C) else if u == "D" then Some(D) else None
  }

  /** A choice is accepted exactly for the four one-letter spellings, and
      the letter decides the move. */
  lemma ChoiceAccepted(parsed: FieldMap)
    ensures ChoiceOf(parsed) == Some(C) <==> "DECISION" in parsed && parsed["DECISION"] in {"C", "c"}
    ensures ChoiceOf(parsed) == Some(D) <==> "DECISION" in parsed && parsed["DECISION"] in {"D", "d"}
  {
    if "DECISION" in parsed {
      UpperIsLetter(parsed["DECISION"], 'C');
      UpperIsLetter(parsed["DECISION"], 'D');
    }
  }

  /** A value longer than one character, such as "Cooperate", is refused. */
  lemma LongChoiceRefused(parsed: FieldMap)
    requires "DECISION" in parsed && |parsed["DECISION"]| != 1
    ensures ChoiceOf(parsed) == None
  {
    assert |ToUpper(parsed["DECISION"])| != 1;
  }

  /** `parsed.BIASES ? parsed.BIASES.split(",").map((b) => b.trim()) : []`:
      the i-th bias is the i-th comma-separated piece without its
      surrounding whitespace. */
  function Biases(parsed: FieldMap): (r: seq<string>)
    ensures !Filled(parsed, "BIASES") ==> r == []
    ensures Filled(parsed, "BIASES") ==> |r| == Count(parsed["BIASES"], ',') + 1
    ensures Filled(parsed, "BIASES") ==> forall i :: 0 <= i < |r| ==>
      && r[i] == Trim(Split(parsed["BIASES"], ',')[i])
      && StrippedOf(Split(parsed["BIASES"], ',')[i], r[i])
    ensures forall i :: 0 <= i < |r| ==> ',' !in r[i]
    ensures forall i :: 0 <= i < |r| ==> r[i] == [] || (!IsWhitespace(r[i][0]) && !IsWhitespace(r[i][|r[i]| - 1]))
  {
    if Filled(parsed, "BIASES") then
      var pieces := Split(parsed["BIASES"], ',');
      PiecesKeepCharacters(pieces);
      seq(|pieces|, i requires 0 <= i < |pieces| => Trim(pieces[i]))
    else []
  }

  /** Trimming each piece keeps only characters of that piece. */
  lemma PiecesKeepCharacters(pieces: seq<string>)
    ensures forall i :: 0 <= i < |pieces| ==> forall c | c in Trim(pieces[i]) :: c in pieces[i]
  {
    forall i | 0 <= i < |pieces| {
      TrimKeepsCharacters(pieces[i]);
    }
  }

  /** The emotion-versus-logic split: `EMOTION_WEIGHT` or 50, and
      `LOGIC_WEIGHT` or what is left of 100. */
  function Weights(parsed: FieldMap): (r: Weighting)
    ensures r.emotion != 0
    ensures ParsedNumber(parsed, "EMOTION_WEIGHT") in {None, Some(0)} ==> r.emotion == 50
    ensures ParsedNumber(parsed, "EMOTION_WEIGHT") !in {None, Some(0)}
            ==> Some(r.emotion) == ParsedNumber(parsed, "EMOTION_WEIGHT")
    ensures ParsedNumber(parsed, "LOGIC_WEIGHT") in {None, Some(0)} ==> r.logic == 100 - r.emotion
    ensures ParsedNumber(parsed, "LOGIC_WEIGHT") !in {None, Some(0)}
            ==> Some(r.logic) == ParsedNumber(parsed, "LOGIC_WEIGHT")
  {
    var emotion := NumberOr(parsed, "EMOTION_WEIGHT", 50);
    Weighting(emotion, NumberOr(parsed, "LOGIC_WEIGHT", 100 - emotion))
  }

  /** Unless the reply gives a non-zero logic weight of its own, the two
      weights add up to 100. */
  lemma WeightsComplement(parsed: FieldMap)
    requires ParsedNumber(parsed, "LOGIC_WEIGHT") in {None, Some(0)}
    ensures Weights(parsed).emotion + Weights(parsed).logic == 100
  {
  }

  /** The decision of a parsed reply, or `None` where route.ts throws
      "Invalid decision format". */
  function DecodeDecision(parsed: FieldMap): (r: Option<Decision>)
    ensures r.Some? <==> ChoiceOf(parsed).Some?
    ensures r.Some? ==> r.value.choice == ChoiceOf(parsed).value
    ensures r.Some? ==> forall e :: Intensity(r.value.emotionalState, e) == NumberOr(parsed, EmotionKey(e), 0)
    ensures r.Some? ==>
      && r.value.reasoning == TextOf(parsed, "REASONING")
      && r.value.naturalReflection == TextOf(parsed, "REFLECTION")
      && r.value.memoryNarrative == TextOf(parsed, "MEMORY_NARRATIVE")
      && r.value.moodInfluence == TextOf(parsed, "MOOD_INFLUENCE")
      && r.value.pastEventInfluence == TextOf(parsed, "PAST_EVENT_INFLUENCE")
      && r.value.culturalInfluence == TextOf(parsed, "CULTURAL_INFLUENCE")
      && r.value.socialLearningInsight == TextOf(parsed, "SOCIAL_LEARNING_INSIGHT")
      && r.value.personalityEvolution == TextOf(parsed, "PERSONALITY_EVOLUTION")
      && r.value.moralReflection == TextOf(parsed, "MORAL_REFLECTION")
    ensures r.Some? ==> r.value.cognitiveBiases == Biases(parsed) && r.value.emotionVsLogicWeight == Weights(parsed)
  {
    match ChoiceOf(parsed)
    case None => None
    case Some(choice) =>
      Some(Decision(
        choice,
        TextOf(parsed, "REASONING"),
        TextOf(parsed, "REFLECTION"),
        ReadEmotions(parsed, ZeroEmotions()),
        Biases(parsed),
        TextOf(parsed, "MEMORY_NARRATIVE"),
        TextOf(parsed, "MOOD_INFLUENCE"),
        TextOf(parsed, "PAST_EVENT_INFLUENCE"),
        Weights(parsed),
        TextOf(parsed, "CULTURAL_INFLUENCE"),
        TextOf(parsed, "SOCIAL_LEARNING_INSIGHT"),
        TextOf(parsed, "PERSONALITY_EVOLUTION"),
        TextOf(parsed, "MORAL_REFLECTION")))
  }

  /** The defaults of an accepted decision: an absent or unusable number is
      0, an absent text is "", absent biases are no biases and an absent
      emotion weight is 50 with a logic weight of 50. */
  lemma DecisionDefaults(parsed: FieldMap, e: Emotion)
    requires ChoiceOf(parsed).Some?
    ensures var d := DecodeDecision(parsed).value;
      && (ParsedNumber(parsed, EmotionKey(e)).None? ==> Intensity(d.emotionalState, e) == 0)
      && ("REASONING" !in parsed ==> d.reasoning == "")
      && ("REFLECTION" !in parsed ==> d.naturalReflection == "")
      && ("MEMORY_NARRATIVE" !in parsed ==> d.memoryNarrative == "")
      && ("MOOD_INFLUENCE" !in parsed ==> d.moodInfluence == "")
      && ("PAST_EVENT_INFLUENCE" !in parsed ==> d.pastEventInfluence == "")
      && ("CULTURAL_INFLUENCE" !in parsed ==> d.culturalInfluence == "")
      && ("SOCIAL_LEARNING_INSIGHT" !in parsed ==> d.socialLearningInsight == "")
      && ("PERSONALITY_EVOLUTION" !in parsed ==> d.personalityEvolution == "")
      && ("MORAL_REFLECTION" !in parsed ==> d.moralReflection == "")
      && ("BIASES" !in parsed ==> d.cognitiveBiases == [])
      && (("EMOTION_WEIGHT" !in parsed && "LOGIC_WEIGHT" !in parsed)
            ==> d.emotionVsLogicWeight == Weighting(50, 50))
  {
  }

  // ---------------------------------------------------------------------
  // The state merge of processStateUpdate
  // ---------------------------------------------------------------------

  /** The one-entry list a filled shift key appends, or nothing. */
  function Added<T>(parsed: FieldMap, k: string, entry: string -> T): (r: seq<T>)
    ensures |r| == if Filled(parsed, k) then 1 else 0
    ensures Filled(parsed, k) ==> r == [entry(parsed[k])]
  {
    if Filled(parsed, k) then [entry(parsed[k])] else []
  }

  /** A filled key replaces a text, an absent or empty one keeps it. */
  function Overwrite(parsed: FieldMap, k: string, old_: string): (r: string)
    ensures Filled(parsed, k) ==> r == parsed[k]
    ensures !Filled(parsed, k) ==> r == old_
  {
    if Filled(parsed, k) then parsed[k] else old_
  }

  /** The strategy a `SOCIAL_LEARNING_UPDATE` records, with the default
      scores of 5. */
  function NewStrategy(text: string): ObservedStrategy {
    ObservedStrategy(text, 5, 5, 5)
  }

  /** The experience a `PERSONALITY_EVOLUTION_UPDATE` records in round
      `round`: no trait changes and the default permanence of 5. */
  function NewExperience(round: int, text: string): Experience {
    Experience(round, text, map[], 5)
  }

  /** The cultural context after a reply: a filled `CULTURAL_CONTEXT_SHIFT`
      joins the social norms. */
  function MergeCulture(cc: CulturalContext, parsed: FieldMap): (r: CulturalContext)
    ensures r.socialNorms == cc.socialNorms + Added(parsed, "CULTURAL_CONTEXT_SHIFT", t => t)
    ensures r == cc.(socialNorms := r.socialNorms)
  {
    if Filled(parsed, "CULTURAL_CONTEXT_SHIFT")
    then cc.(socialNorms := cc.socialNorms + [parsed["CULTURAL_CONTEXT_SHIFT"]])
    else cc
  }

  /** The social learning after a reply: a filled `SOCIAL_LEARNING_UPDATE`
      becomes an observed strategy, joins the repertoire and becomes the
      last successful strategy. */
  function MergeLearning(sl: SocialLearning, parsed: FieldMap): (r: SocialLearning)
    ensures r.observedStrategies == sl.observedStrategies + Added(parsed, "SOCIAL_LEARNING_UPDATE", NewStrategy)
    ensures r.strategicRepertoire == sl.strategicRepertoire + Added(parsed, "SOCIAL_LEARNING_UPDATE", t => t)
    ensures r.lastSuccessfulStrategy == Overwrite(parsed, "SOCIAL_LEARNING_UPDATE", sl.lastSuccessfulStrategy)
    ensures r == sl.(observedStrategies := r.observedStrategies,
                     strategicRepertoire := r.strategicRepertoire,
                     lastSuccessfulStrategy := r.lastSuccessfulStrategy)
  {
    if Filled(parsed, "SOCIAL_LEARNING_UPDATE")
    then
      var text := parsed["SOCIAL_LEARNING_UPDATE"];
      sl.(observedStrategies := sl.observedStrategies + [NewStrategy(text)],
          strategicRepertoire := sl.strategicRepertoire + [text],
          lastSuccessfulStrategy := text)
    else sl
  }

  /** The personality evolution after a reply in round `round`: a filled
      `PERSONALITY_EVOLUTION_UPDATE` becomes an experience. */
  function MergeEvolution(pe: PersonalityEvolution, round: int, parsed: FieldMap): (r: PersonalityEvolution)
    ensures r.experienceImpact
         == pe.experienceImpact + Added(parsed, "PERSONALITY_EVOLUTION_UPDATE", t => NewExperience(round, t))
    ensures r == pe.(experienceImpact := r.experienceImpact)
  {
    if Filled(parsed, "PERSONALITY_EVOLUTION_UPDATE")
    then pe.(experienceImpact := pe.experienceImpact
               + [NewExperience(round, parsed["PERSONALITY_EVOLUTION_UPDATE"])])
    else pe
  }

  /** The moral compass after a reply: a filled `MORAL_COMPASS_SHIFT` joins
      the primary values. */
  function MergeMoral(mc: MoralCompass, parsed: FieldMap): (r: MoralCompass)
    ensures r.primaryValues == mc.primaryValues + Added(parsed, "MORAL_COMPASS_SHIFT", t => t)
    ensures r == mc.(primaryValues := r.primaryValues)
  {
    if Filled(parsed, "MORAL_COMPASS_SHIFT")
    then mc.(primaryValues := mc.primaryValues + [parsed["MORAL_COMPASS_SHIFT"]])
    else mc
  }

  /** `processStateUpdate` on an already parsed reply; `MergeEffects`,
      `MergeAppends` and `MergeKeepsRest` state what it does to each field. */
  function Merge(s: DynamicPersonalityState, parsed: FieldMap): (r: DynamicPersonalityState)
    ensures forall e :: Intensity(r.emotionalState, e) == NumberOr(parsed, EmotionKey(e), Intensity(s.emotionalState, e))
  {
    MergeLists(MergeScalars(s, parsed), parsed)
  }

  /** The first half of a merge: the emotions and the three narrative
      texts. */
  function MergeScalars(s: DynamicPersonalityState, parsed: FieldMap): DynamicPersonalityState
  {
    s.(
      emotionalState := ReadEmotions(parsed, s.emotionalState),
      memoryNarrative := Overwrite(parsed, "MEMORY_NARRATIVE", s.memoryNarrative),
      moodInfluence := Overwrite(parsed, "MOOD_SHIFT", s.moodInfluence),
      personalityFluctuation := Overwrite(parsed, "PERSONALITY_FLUCTUATION", s.personalityFluctuation))
  }

  /** The second half of a merge: the four list-bearing groups, an
      experience dated by the rounds played so far. */
  function MergeLists(s: DynamicPersonalityState, parsed: FieldMap): DynamicPersonalityState
  {
    s.(
      culturalContext := MergeCulture(s.culturalContext, parsed),
      socialLearning := MergeLearning(s.socialLearning, parsed),
      personalityEvolution := MergeEvolution(s.personalityEvolution, s.cooperationCount + s.defectionCount, parsed),
      moralCompass := MergeMoral(s.moralCompass, parsed))
  }

  /** What a merge does to the scalar fields: each emotion takes the
      reply's non-zero number or keeps its value, and a filled narrative key
      replaces its text. */
  lemma MergeEffects(s: DynamicPersonalityState, parsed: FieldMap)
    ensures forall e :: Intensity(Merge(s, parsed).emotionalState, e) == NumberOr(parsed, EmotionKey(e), Intensity(s.emotionalState, e))
    ensures Merge(s, parsed).memoryNarrative == Overwrite(parsed, "MEMORY_NARRATIVE", s.memoryNarrative)
    ensures Merge(s, parsed).moodInfluence == Overwrite(parsed, "MOOD_SHIFT", s.moodInfluence)
    ensures Merge(s, parsed).personalityFluctuation == Overwrite(parsed, "PERSONALITY_FLUCTUATION", s.personalityFluctuation)
    ensures Merge(s, parsed).socialLearning.lastSuccessfulStrategy
         == Overwrite(parsed, "SOCIAL_LEARNING_UPDATE", s.socialLearning.lastSuccessfulStrategy)
  {
  }

  /** What a merge does to the lists: each filled shift key appends one
      entry, strategies with the default scores of 5 and experiences dated
      by the number of rounds played. */
  lemma MergeAppends(s: DynamicPersonalityState, parsed: FieldMap)
    ensures Merge(s, parsed).culturalContext.socialNorms
         == s.culturalContext.socialNorms + Added(parsed, "CULTURAL_CONTEXT_SHIFT", t => t)
    ensures Merge(s, parsed).socialLearning.observedStrategies
         == s.socialLearning.observedStrategies + Added(parsed, "SOCIAL_LEARNING_UPDATE", NewStrategy)
    ensures Merge(s, parsed).socialLearning.strategicRepertoire
         == s.socialLearning.strategicRepertoire + Added(parsed, "SOCIAL_LEARNING_UPDATE", t => t)
    ensures Merge(s, parsed).personalityEvolution.experienceImpact
         == s.personalityEvolution.experienceImpact
            + Added(parsed, "PERSONALITY_EVOLUTION_UPDATE",
                    t => NewExperience(s.cooperationCount + s.defectionCount, t))
    ensures Merge(s, parsed).moralCompass.primaryValues
         == s.moralCompass.primaryValues + Added(parsed, "MORAL_COMPASS_SHIFT", t => t)
  {
  }

  /** A merge touches nothing else. */
  lemma MergeKeepsRest(s: DynamicPersonalityState, parsed: FieldMap)
    ensures SameOutsideUpdate(s, Merge(s, parsed))
  {
  }

  /** Everything the merge does not touch is the same in `s` and `r`. */
  predicate SameOutsideUpdate(s: DynamicPersonalityState, r: DynamicPersonalityState) {
    && r.cognitiveBiases == s.cognitiveBiases
    && r.pastEventInfluence == s.pastEventInfluence
    && r.cooperationCount == s.cooperationCount
    && r.defectionCount == s.defectionCount
    && r.lastMove == s.lastMove
    && r.emotionVsLogicWeight == s.emotionVsLogicWeight
    && r.socialIdentity == s.socialIdentity
    && r.moralCompass.strength == s.moralCompass.strength
    && r.moralCompass.flexibility == s.moralCompass.flexibility
    && r.culturalContext.collectivismScore == s.culturalContext.collectivismScore
    && r.culturalContext.powerDistanceComfort == s.culturalContext.powerDistanceComfort
    && r.culturalContext.uncertaintyAvoidance == s.culturalContext.uncertaintyAvoidance
    && r.culturalContext.competitivenessOrientation == s.culturalContext.competitivenessOrientation
    && r.culturalContext.timeOrientation == s.culturalContext.timeOrientation
    && r.culturalContext.roleExpectations == s.culturalContext.roleExpectations
    && r.socialLearning.adaptationTendency == s.socialLearning.adaptationTendency
    && r.socialLearning.innovationTendency == s.socialLearning.innovationTendency
    && r.socialLearning.socialProofSensitivity == s.socialLearning.socialProofSensitivity
    && r.socialLearning.authorityInfluence == s.socialLearning.authorityInfluence
    && r.personalityEvolution.baselineTraits == s.personalityEvolution.baselineTraits
    && r.personalityEvolution.currentTraits == s.personalityEvolution.currentTraits
    && r.personalityEvolution.traitFlexibility == s.personalityEvolution.traitFlexibility
    && r.personalityEvolution.coreStability == s.personalityEvolution.coreStability
    && r.personalityEvolution.adaptiveCapacity == s.personalityEvolution.adaptiveCapacity
    && r.personalityEvolution.stressThreshold == s.personalityEvolution.stressThreshold
    && r.personalityEvolution.recoveryRate == s.personalityEvolution.recoveryRate
  }

  /** An emotion takes the reply's number exactly when that number parses
      and is not 0; an explicit 0, a missing key or text that is not a
      number all keep the previous intensity. */
  lemma MergeTakesNonZero(s: DynamicPersonalityState, parsed: FieldMap, e: Emotion)
    ensures var n := ParsedNumber(parsed, EmotionKey(e));
      && (n.Some? && n.value != 0 ==> Intensity(Merge(s, parsed).emotionalState, e) == n.value)
      && (n.None? || n.value == 0 ==> Intensity(Merge(s, parsed).emotionalState, e) == Intensity(s.emotionalState, e))
  {
  }

  /** A reply that repeats the current intensities, or gives 0 or no
      usable number for them, leaves the emotional state as it was. */
  lemma MergeSameEmotions(s: DynamicPersonalityState, parsed: FieldMap)
    requires forall e :: ParsedNumber(parsed, EmotionKey(e)) in {None, Some(0), Some(Intensity(s.emotionalState, e))}
    ensures Merge(s, parsed).emotionalState == s.emotionalState
  {
    EmotionsEqual(Merge(s, parsed).emotionalState, s.emotionalState);
  }

  /** Merging the same reply twice gives the emotions and narrative texts
      of merging it once. */
  lemma MergeTwiceScalars(s: DynamicPersonalityState, parsed: FieldMap)
    ensures var once := Merge(s, parsed);
      var twice := Merge(once, parsed);
      && twice.emotionalState == once.emotionalState
      && twice.memoryNarrative == once.memoryNarrative
      && twice.moodInfluence == once.moodInfluence
      && twice.personalityFluctuation == once.personalityFluctuation
  {
    var once := Merge(s, parsed);
    forall e ensures ParsedNumber(parsed, EmotionKey(e)) in {None, Some(0), Some(Intensity(once.emotionalState, e))} {
      MergeTakesNonZero(s, parsed, e);
    }
    MergeSameEmotions(once, parsed);
  }

  /** The five lists only grow, by at most one entry each, and the earlier
      entries stay in place. */
  lemma MergeListsGrow(s: DynamicPersonalityState, parsed: FieldMap)
    ensures var r := Merge(s, parsed);
      && s.culturalContext.socialNorms <= r.culturalContext.socialNorms
      && |r.culturalContext.socialNorms| <= |s.culturalContext.socialNorms| + 1
      && s.socialLearning.observedStrategies <= r.socialLearning.observedStrategies
      && |r.socialLearning.observedStrategies| <= |s.socialLearning.observedStrategies| + 1
      && s.socialLearning.strategicRepertoire <= r.socialLearning.strategicRepertoire
      && |r.socialLearning.strategicRepertoire| <= |s.socialLearning.strategicRepertoire| + 1
      && s.personalityEvolution.experienceImpact <= r.personalityEvolution.experienceImpact
      && |r.personalityEvolution.experienceImpact| <= |s.personalityEvolution.experienceImpact| + 1
      && s.moralCompass.primaryValues <= r.moralCompass.primaryValues
      && |r.moralCompass.primaryValues| <= |s.moralCompass.primaryValues| + 1
  {
  }

  /** A reply with none of the update keys filled and no usable numbers
      changes nothing at all. */
  lemma MergeNothingNew(s: DynamicPersonalityState, parsed: FieldMap)
    requires forall e :: ParsedNumber(parsed, EmotionKey(e)) in {None, Some(0)}
    requires !Filled(parsed, "MEMORY_NARRATIVE") && !Filled(parsed, "MOOD_SHIFT")
    requires !Filled(parsed, "PERSONALITY_FLUCTUATION") && !Filled(parsed, "CULTURAL_CONTEXT_SHIFT")
    requires !Filled(parsed, "SOCIAL_LEARNING_UPDATE") && !Filled(parsed, "PERSONALITY_EVOLUTION_UPDATE")
    requires !Filled(parsed, "MORAL_COMPASS_SHIFT")
    ensures Merge(s, parsed) == s
  {
    MergeSameEmotions(s, parsed);
  }

  /** `processStateUpdate`: parse the reply, then update a copy of the
      state. The input state is a value, so it is left as it was. */
  method ProcessStateUpdate(response: string, current: DynamicPersonalityState)
    returns (updated: DynamicPersonalityState)
    ensures updated == Merge(current, FieldsOf(response))
  {
    var parsed := ParseFields(response);
    updated := ApplyUpdate(parsed, current);
  }

  /** The updates of `processStateUpdate` after parsing, made one after the
      other on a copy of the state. */
  method ApplyUpdate(parsed: FieldMap, current: DynamicPersonalityState)
    returns (updated: DynamicPersonalityState)
    ensures updated == Merge(current, parsed)
  {
    updated := UpdateScalars(parsed, current);
    updated := UpdateLists(parsed, updated);
  }

  /** The emotions and the three narrative texts of a merge, assigned on a
      copy of the state. */
  method UpdateScalars(parsed: FieldMap, current: DynamicPersonalityState)
    returns (updated: DynamicPersonalityState)
    ensures updated == MergeScalars(current, parsed)
  {
    updated := current;
    updated := updated.(emotionalState := ReadEmotions(parsed, updated.emotionalState));
    if Filled(parsed, "MEMORY_NARRATIVE") {
      updated := updated.(memoryNarrative := parsed["MEMORY_NARRATIVE"]);
    }
    if Filled(parsed, "MOOD_SHIFT") {
      updated := updated.(moodInfluence := parsed["MOOD_SHIFT"]);
    }
    if Filled(parsed, "PERSONALITY_FLUCTUATION") {
      updated := updated.(personalityFluctuation := parsed["PERSONALITY_FLUCTUATION"]);
    }
  }

  /** The four list-bearing groups of a merge, appended to on a copy of the
      state. */
  method UpdateLists(parsed: FieldMap, current: DynamicPersonalityState)
    returns (updated: DynamicPersonalityState)
    ensures updated == MergeLists(current, parsed)
  {
    updated := current;
    if Filled(parsed, "CULTURAL_CONTEXT_SHIFT") {
      var cc := updated.culturalContext;
      updated := updated.(culturalContext :=
        cc.(socialNorms := cc.socialNorms + [parsed["CULTURAL_CONTEXT_SHIFT"]]));
    }
    if Filled(parsed, "SOCIAL_LEARNING_UPDATE") {
      var text := parsed["SOCIAL_LEARNING_UPDATE"];
      var sl := updated.socialLearning;
      updated := updated.(socialLearning := sl.(
        observedStrategies := sl.observedStrategies + [NewStrategy(text)],
        strategicRepertoire := sl.strategicRepertoire + [text],
        lastSuccessfulStrategy := text));
    }
    if Filled(parsed, "PERSONALITY_EVOLUTION_UPDATE") {
      var round := updated.cooperationCount + updated.defectionCount;
      var pe := updated.personalityEvolution;
      updated := updated.(personalityEvolution := pe.(experienceImpact :=
        pe.experienceImpact + [NewExperience(round, parsed["PERSONALITY_EVOLUTION_UPDATE"])]));
    }
    if Filled(parsed, "MORAL_COMPASS_SHIFT") {
      var mc := updated.moralCompass;
      updated := updated.(moralCompass :=
        mc.(primaryValues := mc.primaryValues + [parsed["MORAL_COMPASS_SHIFT"]]));
    }
  }

  /** The all-zero, all-empty state that `handleStateUpdate` merges every
      reply into. */
  function Seed(): (r: DynamicPersonalityState)
    ensures forall e :: Intensity(r.emotionalState, e) == 0
    ensures r.cooperationCount == 0 && r.defectionCount == 0 && r.lastMove == None
    ensures r.culturalContext.socialNorms == [] && r.moralCompass.primaryValues == []
    ensures r.socialLearning.observedStrategies == [] && r.socialLearning.strategicRepertoire == []
    ensures r.personalityEvolution.experienceImpact == []
  {
    DynamicPersonalityState(
      ZeroEmotions(),
      CulturalContext(0, 0, 0, 0, 0, [], ""),
      SocialLearning([], 0, 0, 0, 0, "", []),
      PersonalityEvolution(map[], map[], map[], [], 0, 0, 0, 0),
      "", "", "", [], "", 0, 0, None, Weighting(0, 0),
      MoralCompass(0, 0, []),
      SocialIdentity(0, 0, 0, 0))
  }

  /** Because every update starts from the seed, a state update never
      carries anything over: each list has at most one entry, a recorded
      experience is always round 0, and every emotion is the reply's
      non-zero number or 0. */
  lemma SeedUpdateForgets(parsed: FieldMap, e: Emotion)
    ensures var r := Merge(Seed(), parsed);
      && |r.culturalContext.socialNorms| <= 1
      && |r.socialLearning.observedStrategies| <= 1
      && |r.socialLearning.strategicRepertoire| <= 1
      && |r.personalityEvolution.experienceImpact| <= 1
      && |r.moralCompass.primaryValues| <= 1
      && (forall x | x in r.personalityEvolution.experienceImpact :: x.round == 0 && x.permanence == 5)
      && Intensity(r.emotionalState, e) == NumberOr(parsed, EmotionKey(e), 0)
  {
    var s := Seed();
    MergeAppends(s, parsed);
    var added := Added(parsed, "PERSONALITY_EVOLUTION_UPDATE", t => NewExperience(0, t));
    assert Merge(s, parsed).personalityEvolution.experienceImpact == added;
  }

  // ---------------------------------------------------------------------
  // The POST handler
  // ---------------------------------------------------------------------

  /** The JSON body of a request; an absent flag is `false` and an absent
      prompt is the empty text. */
  datatype RequestBody = RequestBody(
    prompt: string, isStateUpdate: bool, isNarrative: bool, isMetaReflection: bool)

  /** Which handler a request goes to. */
  datatype Handler = Rejected | Narrative | MetaReflection | StateUpdate | DecisionHandler

  /** The dispatch of POST: an empty prompt is refused, then the narrative
      flag wins over the meta-reflection flag, which wins over the
      state-update flag; with no flag the request asks for a decision. */
  function HandlerFor(b: RequestBody): (h: Handler)
    ensures h == Rejected <==> b.prompt == ""
    ensures h == Narrative <==> b.prompt != "" && b.isNarrative
    ensures h == MetaReflection <==> b.prompt != "" && !b.isNarrative && b.isMetaReflection
    ensures h == StateUpdate <==> b.prompt != "" && !b.isNarrative && !b.isMetaReflection && b.isStateUpdate
    ensures h == DecisionHandler
        <==> b.prompt != "" && !b.isNarrative && !b.isMetaReflection && !b.isStateUpdate
  {
    if b.prompt == "" then Rejected
    else if b.isNarrative then Narrative
    else if b.isMetaReflection then MetaReflection
    else if b.isStateUpdate then StateUpdate
    else DecisionHandler
  }

  /** What the route answers: a payload, an error with its status, or, for
      a failure nothing catches, no JSON answer of the route's own. */
  datatype Response =
    | DecisionOk(decision: Decision)
    | StateOk(state: DynamicPersonalityState)
    | NarrativeOk(narrative: string)
    | ReflectionOk(reflection: string)
    | Error(failure: Failure)
    | Unhandled

  /** The route's three error answers. */
  datatype Failure = PromptRequired | AiCallFailed | ParseFailed

  /** The HTTP status of an error answer. */
  function Status(f: Failure): int {
    if f == PromptRequired then 400 else 500
  }

  /** The `error` text of an error answer. */
  function ErrorText(f: Failure): string {
    match f
    case PromptRequired => "Prompt is required"
    case AiCallFailed => "Failed to get decision from AI"
    case ParseFailed => "Failed to parse AI response"
  }

  /** `completion.choices[0]?.message?.content?.trim() || ""`, with an absent
      content standing for the empty text. */
  function ReplyText(content: string): string {
    Trim(content)
  }

  /** The answer of a handler to a completion text that arrived. */
  function Answer(h: Handler, content: string): (r: Response)
    requires h != Rejected
  {
    var text := ReplyText(content);
    match h
    case Narrative => NarrativeOk(text)
    case MetaReflection => ReflectionOk(text)
    case StateUpdate => StateOk(Merge(Seed(), FieldsOf(text)))
    case DecisionHandler => DecisionAnswer(FieldsOf(text))
  }

  /** The decision handler's answer to a parsed reply: the decision, or the
      parse error its `catch` returns. */
  function DecisionAnswer(parsed: FieldMap): (r: Response)
    ensures r.DecisionOk? <==> ChoiceOf(parsed).Some?
    ensures r.DecisionOk? ==> r.decision.choice == ChoiceOf(parsed).value
    ensures !r.DecisionOk? ==> r == Error(ParseFailed)
  {
    match DecodeDecision(parsed)
    case None => Error(ParseFailed)
    case Some(d) => DecisionOk(d)
  }

  /** POST as written: `body` is `None` when the request is not JSON, and
      `completion` is `None` when the language-model call fails. The
      handlers' promises are returned without `await` inside the `try`, so
      a failed call escapes the `catch`. */
  function PostAsWritten(body: Option<RequestBody>, completion: Option<string>): (r: Response)
    ensures body.None? ==> r == Error(AiCallFailed)
    ensures body.Some? && body.value.prompt == "" ==> r == Error(PromptRequired)
    ensures body.Some? && body.value.prompt != "" && completion.None? ==> r == Unhandled
  {
    match body
    case None => Error(AiCallFailed)
    case Some(b) =>
      var h := HandlerFor(b);
      if h == Rejected then Error(PromptRequired)
      else match completion
        case None => Unhandled
        case Some(content) => Answer(h, content)
  }

  /** POST as the `catch` evidently means it: a failed language-model call
      is answered like any other failure of the handler. */
  function Post(body: Option<RequestBody>, completion: Option<string>): (r: Response)
    ensures r != Unhandled
    ensures body.None? ==> r == Error(AiCallFailed)
    ensures body.Some? && body.value.prompt == "" ==> r == Error(PromptRequired)
    ensures body.Some? && body.value.prompt != "" && completion.None?
            ==> r == Error(AiCallFailed)
    ensures completion.Some? ==> r == PostAsWritten(body, completion)
  {
    match completion
    case None =>
      if body.Some? && body.value.prompt != "" then Error(AiCallFailed)
      else PostAsWritten(body, completion)
    case Some(_) => PostAsWritten(body, completion)
  }

  /** A failing language-model call leaves the written handler without an
      answer of its own for every request that passes the prompt check. */
  lemma FailedCallEscapes(b: RequestBody)
    requires b.prompt != ""
    ensures PostAsWritten(Some(b), None) == Unhandled
    ensures Post(Some(b), None) == Error(AiCallFailed)
  {
  }

  /** A decision request is answered by the decision handler on the parsed
      reply. */
  lemma DecisionRequestAnswers(b: RequestBody, content: string)
    requires HandlerFor(b) == DecisionHandler
    ensures Post(Some(b), Some(content)) == DecisionAnswer(FieldsOf(ReplyText(content)))
  {
  }

  /** A state-update request answers with the seed merged with the reply. */
  lemma StateRequestAnswers(b: RequestBody, content: string)
    requires HandlerFor(b) == StateUpdate
    ensures Post(Some(b), Some(content)) == StateOk(Merge(Seed(), FieldsOf(ReplyText(content))))
  {
  }
}
