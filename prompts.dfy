/** The values that the prompt builders of app/lib/personalities.ts compute
    from the game so far and splice into their fixed prose: the outcome of a
    round, the numbered interaction history, each side's moves and rates,
    the threshold labels of emotions and cultural scores, the "last few"
    windows over the state's lists, the key events of the closing narrative
    and the counts of the meta-reflection. The prose itself is left out. */
module Prompts {
  import opened Common
  import opened Text
  import opened Numbers
  import opened PersonalityModel

  // ---------------------------------------------------------------------
  // generateStateUpdatePrompt: the outcome of a round
  // ---------------------------------------------------------------------

  /** The four outcomes a round can have, seen from the prompted player. */
  datatype Outcome = MutualCooperation | MutualDefection | YouWereBetrayed | YouBetrayedThem

  /** The outcome chain of `generateStateUpdatePrompt`: two tests for the
      mutual outcomes, one for being betrayed, and the rest. */
  function OutcomeOf(yourMove: Move, otherMove: Move): (o: Outcome)
    ensures o == MutualCooperation <==> yourMove == C && otherMove == C
    ensures o == MutualDefection <==> yourMove == D && otherMove == D
    ensures o == YouWereBetrayed <==> yourMove == C && otherMove == D
    ensures o == YouBetrayedThem <==> yourMove == D && otherMove == C
  {
    if yourMove == C && otherMove == C then MutualCooperation
    else if yourMove == D && otherMove == D then MutualDefection
    else if yourMove == C && otherMove == D then YouWereBetrayed
    else assert yourMove.D? && otherMove.C?; YouBetrayedThem
  }

  /** The outcome as the prompt words it. */
  function OutcomeText(o: Outcome): string {
    match o
    case MutualCooperation => "mutual cooperation"
    case MutualDefection => "mutual defection"
    case YouWereBetrayed => "you were betrayed"
    case YouBetrayedThem => "you betrayed them"
  }

  /** Seen from the other side, a mutual outcome stays and a betrayal
      turns around. */
  lemma OutcomeSwap(yourMove: Move, otherMove: Move)
    ensures OutcomeOf(otherMove, yourMove)
         == match OutcomeOf(yourMove, otherMove)
            case YouWereBetrayed => YouBetrayedThem
            case YouBetrayedThem => YouWereBetrayed
            case same => same
  {
  }

  /** The wording tells the four outcomes apart, so the prompt's outcome
      line names the pair of moves. */
  lemma OutcomeTextDistinct(a: Outcome, b: Outcome)
    ensures OutcomeText(a) == OutcomeText(b) <==> a == b
  {
    if a != b {
      assert |OutcomeText(a)| != |OutcomeText(b)| || OutcomeText(a)[0] != OutcomeText(b)[0]
          || OutcomeText(a)[9] != OutcomeText(b)[9];
    }
  }

  /** "cooperate" or "defect", as the prompt reports each choice. */
  function MoveWord(m: Move): string {
    if m == C then "cooperate" else "defect"
  }

  // ---------------------------------------------------------------------
  // generateDynamicPersonalityPrompt: the interaction history
  // ---------------------------------------------------------------------

  /** One chat line: who wrote it, its text and an optional reflection. */
  datatype ChatEntry = ChatEntry(speaker: Speaker, text: string, naturalReflection: Option<string>)

  /** A reflection is shown when it is present and not empty. */
  predicate HasReflection(msg: ChatEntry) {
    msg.naturalReflection.Some? && msg.naturalReflection.value != ""
  }

  /** A move counts as cooperation when its text contains "cooperat". */
  predicate Cooperated(msg: ChatEntry) {
    Contains(msg.text, "cooperat")
  }

  /** "Round n: " for the entry at `index`; the chat holds two entries per
      round. */
  function RoundLabel(index: nat): string {
    "Round " + ShowNat(index / 2 + 1) + ": "
  }

  /** "You " for the prompted (left) player's entries, "Other Player " for
      the other's. */
  function SpeakerWord(msg: ChatEntry): string {
    if msg.speaker == L then "You " else "Other Player "
  }

  /** "cooperated" when the entry's text contains "cooperat", else
      "defected". */
  function ActionWord(msg: ChatEntry): string {
    if Cooperated(msg) then "cooperated" else "defected"
  }

  /** The reflection on a line of its own, when there is one. */
  function ReflectionText(msg: ChatEntry): string {
    if HasReflection(msg) then "\nReflection: " + msg.naturalReflection.value else ""
  }

  /** "Round n: You cooperated", with the reflection on a line of its own
      when there is one. */
  function HistoryLine(index: nat, msg: ChatEntry): string {
    RoundLabel(index) + SpeakerWord(msg) + ActionWord(msg) + ReflectionText(msg)
  }

  /** A history line breaks exactly when its entry carries a reflection: only
      the reflection brings a line break into it. */
  lemma HistoryLineBreak(index: nat, msg: ChatEntry)
    ensures '\n' in HistoryLine(index, msg) <==> HasReflection(msg)
  {
    ShowNatNoBreak(index / 2 + 1);
    assert '\n' !in RoundLabel(index) && '\n' !in SpeakerWord(msg) && '\n' !in ActionWord(msg);
    if HasReflection(msg) {
      assert ReflectionText(msg)[0] == '\n';
    }
  }

  /** The number of a round has no line break in it. */
  lemma ShowNatNoBreak(n: nat)
    ensures '\n' !in ShowNat(n)
  {
    var s := ShowNat(n);
    ShowNatDigits(n);
    forall i | 0 <= i < |s| ensures s[i] != '\n' {
      assert IsDigit(s[i]);
    }
  }

  /** The middle part of a concatenation is found at its offset. */
  lemma InfixAt(x: string, y: string, z: string)
    ensures |x| + |y| <= |x + y + z| && (x + y + z)[|x|..|x| + |y|] == y
  {
  }

  /** The first and last parts of a concatenation are its prefix and its
      suffix. */
  lemma OuterParts(x: string, y: string, z: string)
    ensures |x| <= |x + y + z| && (x + y + z)[..|x|] == x
    ensures |z| <= |x + y + z| && (x + y + z)[|x + y + z| - |z|..] == z
  {
  }

  /** After its round label a line names the speaker: "You" exactly for the
      left player's entries, "Other Player" for the right player's. */
  lemma HistoryLineSpeaker(index: nat, msg: ChatEntry)
    ensures var p := |RoundLabel(index)|;
      var line := HistoryLine(index, msg);
      && (msg.speaker == L ==> p + 4 <= |line| && line[p..p + 4] == "You ")
      && (msg.speaker == R ==> p + 13 <= |line| && line[p..p + 13] == "Other Player ")
  {
    var head, who := RoundLabel(index), SpeakerWord(msg);
    InfixAt(head, who, ActionWord(msg));
    assert HistoryLine(index, msg)[..|head + who + ActionWord(msg)|] == head + who + ActionWord(msg);
  }

  /** After the speaker a line names the action: "cooperated" exactly when
      the entry's text contains "cooperat", else "defected". */
  lemma HistoryLineAction(index: nat, msg: ChatEntry)
    ensures var a := |RoundLabel(index)| + (if msg.speaker == L then 4 else 13);
      var line := HistoryLine(index, msg);
      && (Cooperated(msg) ==> a + 10 <= |line| && line[a..a + 10] == "cooperated")
      && (!Cooperated(msg) ==> a + 8 <= |line| && line[a..a + 8] == "defected")
  {
    InfixAt(RoundLabel(index) + SpeakerWord(msg), ActionWord(msg), ReflectionText(msg));
  }

  /** The lines of a history, in order: line k describes entry k. */
  function HistoryLines(history: seq<ChatEntry>): (lines: seq<string>)
    ensures |lines| == |history|
    ensures forall k :: 0 <= k < |lines| ==> lines[k] == HistoryLine(k, history[k])
  {
    seq(|history|, i requires 0 <= i < |history| => HistoryLine(i, history[i]))
  }

  /** The history block of the decision prompt: "No previous interactions"
      for an empty history, else the lines joined, starting with the first
      round. */
  function InteractionNarrative(history: seq<ChatEntry>): (r: string)
    ensures history == [] ==> r == "No previous interactions"
    ensures history != [] ==> |r| >= 9 && r[..9] == "Round 1: "
  {
    if |history| > 0 then
      var lines := HistoryLines(history);
      JoinHead(lines, "\n");
      assert ShowNat(0 / 2 + 1) == "1";
      assert lines[0][..9] == "Round 1: ";
      Join(lines, "\n")
    else "No previous interactions"
  }

  /** The two entries of a round carry its number: entries 2k and 2k+1
      are labelled round k+1. */
  lemma HistoryRoundNumbers(k: nat, a: ChatEntry, b: ChatEntry)
    ensures HistoryLine(2 * k, a)[..|"Round " + ShowNat(k + 1) + ": "|] == "Round " + ShowNat(k + 1) + ": "
    ensures HistoryLine(2 * k + 1, b)[..|"Round " + ShowNat(k + 1) + ": "|] == "Round " + ShowNat(k + 1) + ": "
  {
    assert RoundLabel(2 * k) == RoundLabel(2 * k + 1) == "Round " + ShowNat(k + 1) + ": ";
    LineStartsWithRound(2 * k, a);
    LineStartsWithRound(2 * k + 1, b);
  }

  /** A history line opens with its round label. */
  lemma LineStartsWithRound(index: nat, msg: ChatEntry)
    ensures |RoundLabel(index)| <= |HistoryLine(index, msg)|
    ensures HistoryLine(index, msg)[..|RoundLabel(index)|] == RoundLabel(index)
  {
    var head := RoundLabel(index) + SpeakerWord(msg) + ActionWord(msg);
    assert HistoryLine(index, msg)[..|head|] == head;
    assert head[..|RoundLabel(index)|] == RoundLabel(index);
  }

  /** Without reflections, the narrative splits back into one line per chat
      entry, so it holds exactly as many lines as the history has entries. */
  lemma NarrativeLines(history: seq<ChatEntry>)
    requires |history| > 0
    requires forall i :: 0 <= i < |history| ==> !HasReflection(history[i])
    ensures Split(InteractionNarrative(history), '\n') == HistoryLines(history)
    ensures |Split(InteractionNarrative(history), '\n')| == |history|
  {
    var lines := HistoryLines(history);
    forall p | p in lines ensures '\n' !in p {
      var i :| 0 <= i < |lines| && lines[i] == p;
      HistoryLineBreak(i, history[i]);
    }
    SplitJoin(lines, '\n');
  }

  // ---------------------------------------------------------------------
  // Own and other moves, rates and rounds played
  // ---------------------------------------------------------------------

  /** The entries at even positions: the prompted player's own moves. */
  function Evens<T>(s: seq<T>): (r: seq<T>)
    ensures |r| == (|s| + 1) / 2
    ensures forall i :: 0 <= i < |r| ==> r[i] == s[2 * i]
    decreases |s|, 1
  {
    if s == [] then [] else [s[0]] + Odds(s[1..])
  }

  /** The entries at odd positions: the other player's moves. */
  function Odds<T>(s: seq<T>): (r: seq<T>)
    ensures |r| == |s| / 2
    ensures forall i :: 0 <= i < |r| ==> r[i] == s[2 * i + 1]
    decreases |s|, 0
  {
    if s == [] then [] else Evens(s[1..])
  }

  /** Taking turns from `a` and `b`, starting with `a`. */
  function Interleave<T>(a: seq<T>, b: seq<T>): seq<T>
    decreases |a| + |b|
  {
    if a == [] then b else [a[0]] + Interleave(b, a[1..])
  }

  /** The two sides together are the whole history, each entry on exactly
      one side and in its place. */
  lemma {:induction false} InterleaveSides<T>(s: seq<T>)
    ensures Interleave(Evens(s), Odds(s)) == s
  {
    if s != [] {
      InterleaveSides(s[1..]);
      assert Evens(s)[1..] == Odds(s[1..]);
      assert Odds(s) == Evens(s[1..]);
      assert s == [s[0]] + s[1..];
    }
  }

  /** The number of entries whose move is a cooperation. */
  function Cooperations(moves: seq<ChatEntry>): (n: nat)
    ensures n <= |moves|
  {
    if moves == [] then 0
    else Cooperations(moves[..|moves| - 1]) + (if Cooperated(moves[|moves| - 1]) then 1 else 0)
  }

  lemma {:induction false} CooperationsAppend(a: seq<ChatEntry>, b: seq<ChatEntry>)
    ensures Cooperations(a + b) == Cooperations(a) + Cooperations(b)
  {
    if b != [] {
      CooperationsAppend(a, b[..|b| - 1]);
      assert (a + b)[..|a + b| - 1] == a + b[..|b| - 1];
    } else {
      assert a + b == a;
    }
  }

  /** Every cooperation of the history is counted on exactly one side. */
  lemma {:induction false} SidesShareCooperations(s: seq<ChatEntry>)
    ensures Cooperations(Evens(s)) + Cooperations(Odds(s)) == Cooperations(s)
  {
    if s != [] {
      SidesShareCooperations(s[1..]);
      assert Evens(s) == [s[0]] + Odds(s[1..]);
      assert Odds(s) == Evens(s[1..]);
      CooperationsAppend([s[0]], Odds(s[1..]));
      CooperationsAppend([s[0]], s[1..]);
      assert [s[0]] + s[1..] == s;
      assert Cooperations([s[0]]) == (if Cooperated(s[0]) then 1 else 0) by {
        assert [s[0]][..0] == [];
      }
    }
  }

  /** A cooperation rate before its `toFixed(0)` rendering: "N/A" for a side
      without moves, else the cooperations out of the moves. */
  datatype Rate = NotAvailable | Rate(cooperated: nat, total: nat)

  function RateOf(moves: seq<ChatEntry>): (r: Rate)
    ensures r == NotAvailable <==> moves == []
    ensures r.Rate? ==> r.cooperated == Cooperations(moves) && r.total == |moves|
    ensures r.Rate? ==> r.cooperated <= r.total
  {
    if |moves| > 0 then Rate(Cooperations(moves), |moves|) else NotAvailable
  }

  /** The player's own rate is "N/A" only before the first message; the
      other player's until the second. */
  lemma RatesAvailable(history: seq<ChatEntry>)
    ensures RateOf(Evens(history)) == NotAvailable <==> |history| == 0
    ensures RateOf(Odds(history)) == NotAvailable <==> |history| <= 1
  {
  }

  /** "Total Rounds Played": the number of complete rounds, which is the
      number of moves the other player has made. */
  function TotalRoundsPlayed(history: seq<ChatEntry>): (n: nat)
    ensures n == |Odds(history)|
    ensures 2 * n <= |history| <= 2 * n + 1
  {
    |history| / 2
  }

  // ---------------------------------------------------------------------
  // Threshold labels
  // ---------------------------------------------------------------------

  /** The three bands a value can fall in. */
  datatype Band = High | Middle | Low

  /** Trust: above 5, below -5, or in between. */
  function TrustBand(v: int): (b: Band)
    ensures b == High <==> v > 5
    ensures b == Low <==> v < -5
    ensures b == Middle <==> -5 <= v <= 5
  {
    if v > 5 then High else if v < -5 then Low else Middle
  }

  /** The moral emotions and grudge: above 7, above 3, or at most 3. */
  function RisingBand(v: int): (b: Band)
    ensures b == High <==> v > 7
    ensures b == Middle <==> 3 < v <= 7
    ensures b == Low <==> v <= 3
  {
    if v > 7 then High else if v > 3 then Middle else Low
  }

  /** Hope, anxiety, frustration, optimism and the two cultural scores:
      above 7, below 3, or in between. */
  function SpreadBand(v: int): (b: Band)
    ensures b == High <==> v > 7
    ensures b == Low <==> v < 3
    ensures b == Middle <==> 3 <= v <= 7
  {
    if v > 7 then High else if v < 3 then Low else Middle
  }

  /** The band rule each emotion's label uses. */
  function EmotionBand(e: Emotion, v: int): Band {
    match e
    case Trust => TrustBand(v)
    case Hope | Anxiety | Frustration | Optimism => SpreadBand(v)
    case Grudge | Guilt | Shame | Pride | Empathy | Regret | Vindication => RisingBand(v)
  }

  /** The label words of each emotion, high band first; the three differ
      from each other. */
  function EmotionWords(e: Emotion): (w: (string, string, string))
    ensures w.0 != w.1 && w.0 != w.2 && w.1 != w.2
  {
    match e
    case Trust => ("Generally trusting", "Cautiously neutral", "Deeply suspicious")
    case Grudge => ("Holding strong resentment", "Some lingering resentment", "No significant grudges")
    case Hope => ("Very optimistic about cooperation", "Moderately hopeful", "Pessimistic about future cooperation")
    case Anxiety => ("Very anxious about being betrayed", "Some nervousness", "Relatively calm and secure")
    case Frustration => ("Highly frustrated with the other player", "Moderately frustrated", "Not particularly frustrated")
    case Optimism => ("Very positive outlook", "Balanced outlook", "Pessimistic outlook")
    case Guilt => ("Feeling very guilty about past actions", "Some guilt about past choices", "No significant guilt")
    case Shame => ("Deep shame about moral failures", "Some shame about past actions", "No significant shame")
    case Pride => ("Strong pride in moral choices", "Some satisfaction with moral behavior", "No particular pride")
    case Empathy => ("Deeply understanding other's perspective", "Some understanding of other's feelings", "Limited empathy")
    case Regret => ("Strong regret about past decisions", "Some regret about choices made", "No significant regret")
    case Vindication => ("Feeling very justified in past suspicions", "Some vindication about defensive choices", "No particular vindication")
  }

  function Pick(words: (string, string, string), b: Band): string {
    match b
    case High => words.0
    case Middle => words.1
    case Low => words.2
  }

  /** The parenthesised label after an emotion's level: each of the three
      words is shown exactly in its band. */
  function EmotionLabel(e: Emotion, v: int): (r: string)
    ensures r == EmotionWords(e).0 <==> EmotionBand(e, v) == High
    ensures r == EmotionWords(e).1 <==> EmotionBand(e, v) == Middle
    ensures r == EmotionWords(e).2 <==> EmotionBand(e, v) == Low
  {
    Pick(EmotionWords(e), EmotionBand(e, v))
  }

  /** The trust label partitions the scale: "Generally trusting" exactly
      above 5, "Deeply suspicious" exactly below -5, and "Cautiously
      neutral" in between. */
  lemma TrustLabelBands(v: int)
    ensures EmotionLabel(Trust, v) == "Generally trusting" <==> v > 5
    ensures EmotionLabel(Trust, v) == "Deeply suspicious" <==> v < -5
    ensures EmotionLabel(Trust, v) == "Cautiously neutral" <==> -5 <= v <= 5
  {
    assert "Generally trusting"[0] != "Deeply suspicious"[0];
    assert "Generally trusting"[0] != "Cautiously neutral"[0];
    assert "Deeply suspicious"[0] != "Cautiously neutral"[0];
  }

  /** The two cultural scores that carry a label. */
  datatype CulturalScore = Collectivism | TimeOrientation

  /** The label words of a cultural score, high band first. */
  function CulturalWords(c: CulturalScore): (string, string, string) {
    match c
    case Collectivism => ("Strongly group-oriented", "Balanced group/individual focus", "Strongly individualistic")
    case TimeOrientation => ("Long-term focused", "Balanced time perspective", "Short-term focused")
  }

  /** The label after a cultural score, on the 7 / 3 spread: each word is
      shown exactly in its band. */
  function CulturalLabel(c: CulturalScore, v: int): (r: string)
    ensures r == CulturalWords(c).0 <==> SpreadBand(v) == High
    ensures r == CulturalWords(c).1 <==> SpreadBand(v) == Middle
    ensures r == CulturalWords(c).2 <==> SpreadBand(v) == Low
  {
    assert "Strongly group-oriented"[9] != "Strongly individualistic"[9];
    Pick(CulturalWords(c), SpreadBand(v))
  }

  /** Every value gets exactly one of the three labels: high exactly above
      7, low exactly below 3, and the middle one otherwise. */
  lemma CulturalLabelBands(v: int)
    ensures CulturalLabel(Collectivism, v) == "Strongly group-oriented" <==> v > 7
    ensures CulturalLabel(Collectivism, v) == "Strongly individualistic" <==> v < 3
    ensures CulturalLabel(Collectivism, v) == "Balanced group/individual focus" <==> 3 <= v <= 7
    ensures CulturalLabel(TimeOrientation, v) == "Long-term focused" <==> v > 7
    ensures CulturalLabel(TimeOrientation, v) == "Short-term focused" <==> v < 3
    ensures CulturalLabel(TimeOrientation, v) == "Balanced time perspective" <==> 3 <= v <= 7
  {
    assert "Strongly group-oriented"[9] != "Strongly individualistic"[9];
    assert "Long-term focused"[0] != "Short-term focused"[0];
  }

  // ---------------------------------------------------------------------
  // Windows and placeholders
  // ---------------------------------------------------------------------

  /** "Recent Cultural Influences": the last two norms, or "None". */
  function RecentCulturalInfluences(norms: seq<string>): (r: string)
    ensures norms == [] || norms == [""] ==> r == "None"
    ensures !(norms == [] || norms == [""]) ==> r == Join(LastN(norms, 2), "; ") && r != ""
  {
    WindowBlank(norms, 2, "; ");
    OrPlaceholder(Join(LastN(norms, 2), "; "), "None")
  }

  /** "Primary Values": the last three values, or "Developing". */
  function PrimaryValuesShown(values: seq<string>): (r: string)
    ensures values == [] || values == [""] ==> r == "Developing"
    ensures !(values == [] || values == [""]) ==> r == Join(LastN(values, 3), ", ") && r != ""
  {
    WindowBlank(values, 3, ", ");
    OrPlaceholder(Join(LastN(values, 3), ", "), "Developing")
  }

  /** "Last Successful Strategy", or "None identified". */
  function LastStrategyShown(strategy: string): (r: string)
    ensures strategy == "" ==> r == "None identified"
    ensures strategy != "" ==> r == strategy
  {
    OrPlaceholder(strategy, "None identified")
  }

  /** "Current Fluctuation", or "Stable". */
  function FluctuationShown(fluctuation: string): (r: string)
    ensures fluctuation == "" ==> r == "Stable"
    ensures fluctuation != "" ==> r == fluctuation
  {
    OrPlaceholder(fluctuation, "Stable")
  }

  /** "Recent Cognitive Biases": all of them, or "None identified". */
  function BiasesShown(biases: seq<string>): (r: string)
    ensures biases == [] || biases == [""] ==> r == "None identified"
    ensures !(biases == [] || biases == [""]) ==> r == Join(biases, ", ") && r != ""
  {
    JoinEmptyIff(biases, ", ");
    OrPlaceholder(Join(biases, ", "), "None identified")
  }

  /** A window of two or more over a list joins to the empty text, and so
      shows its placeholder, exactly when the list is empty or is one empty
      entry. */
  lemma WindowBlank(s: seq<string>, n: nat, sep: string)
    requires n >= 2 && sep != ""
    ensures Join(LastN(s, n), sep) == "" <==> s == [] || s == [""]
  {
    JoinEmptyIff(LastN(s, n), sep);
    if |s| >= 2 {
      assert |LastN(s, n)| >= 2;
    } else {
      assert LastN(s, n) == s;
    }
  }

  /** The cultural window shows the newest norm last: it is the final piece
      of the joined text. */
  lemma NewestNormShownLast(norms: seq<string>, newest: string)
    ensures LastN(norms + [newest], 2)[|LastN(norms + [newest], 2)| - 1] == newest
  {
  }

  // ---------------------------------------------------------------------
  // generateContinuousNarrativePrompt: key events
  // ---------------------------------------------------------------------

  /** What the closing prompts know of one round. */
  datatype RoundData = RoundData(
    round: int,
    leftCooperation: bool,
    rightCooperation: bool,
    leftState: Option<DynamicPersonalityState>,
    rightState: Option<DynamicPersonalityState>)

  /** Index `i` of `n` rounds is a key event: every tenth round and the last. */
  predicate IsKey(i: nat, n: nat) {
    i % 10 == 9 || i == n - 1
  }

  /** The key indices below `k`, in increasing order. */
  function KeyIndicesBelow(k: nat, n: nat): (r: seq<nat>)
    ensures forall i: nat :: i in r <==> i < k && IsKey(i, n)
    ensures forall a, b :: 0 <= a < b < |r| ==> r[a] < r[b]
  {
    if k == 0 then []
    else
      var below := KeyIndicesBelow(k - 1, n);
      assert forall j :: 0 <= j < |below| ==> below[j] in below;
      below + (if IsKey(k - 1, n) then [k - 1] else [])
  }

  /** The indices the key-event filter keeps. */
  function KeyIndices(n: nat): seq<nat> {
    KeyIndicesBelow(n, n)
  }

  /** Below the last index only the tenth rounds are key: one per full ten. */
  lemma {:induction false} KeyIndicesBelowCount(k: nat, n: nat)
    requires k < n
    ensures |KeyIndicesBelow(k, n)| == k / 10
  {
    if k > 0 {
      KeyIndicesBelowCount(k - 1, n);
    }
  }

  /** There are ceil(n / 10) key events: one per ten rounds, the last
      round standing in for a final incomplete ten. */
  lemma KeyIndicesCount(n: nat)
    ensures |KeyIndices(n)| == (n + 9) / 10
  {
    if n > 0 {
      KeyIndicesBelowCount(n - 1, n);
    }
  }

  /** One line of the key-event timeline, before rendering. */
  datatype KeyEvent = KeyEvent(round: int, iCooperated: bool, theyCooperated: bool, trust: int)

  /** `state?.emotionalState.trust || 0`. */
  function TrustOf(state: Option<DynamicPersonalityState>): (t: int)
    ensures state.None? ==> t == 0
    ensures state.Some? ==> t == state.value.emotionalState.trust
  {
    match state
    case None => 0
    case Some(s) => s.emotionalState.trust
  }

  function EventOf(d: RoundData, isLeftPlayer: bool): KeyEvent {
    KeyEvent(
      d.round,
      if isLeftPlayer then d.leftCooperation else d.rightCooperation,
      if isLeftPlayer then d.rightCooperation else d.leftCooperation,
      TrustOf(if isLeftPlayer then d.leftState else d.rightState))
  }

  /** The key events of the closing narrative, in round order. */
  function KeyEvents(data: seq<RoundData>, isLeftPlayer: bool): (r: seq<KeyEvent>)
    ensures |r| == |KeyIndices(|data|)|
  {
    var ks := KeyIndices(|data|);
    seq(|ks|, j requires 0 <= j < |ks| => EventOf(data[ks[j]], isLeftPlayer))
  }

  /** Each key event is a tenth round or the last one; together they are
      ceil(n / 10) events in round order, and a round without a state shows
      trust 0. */
  lemma KeyEventsSelection(data: seq<RoundData>, isLeftPlayer: bool)
    ensures |KeyEvents(data, isLeftPlayer)| == (|data| + 9) / 10
    ensures forall j :: 0 <= j < |KeyEvents(data, isLeftPlayer)| ==>
      var i := KeyIndices(|data|)[j];
      && IsKey(i, |data|)
      && KeyEvents(data, isLeftPlayer)[j] == EventOf(data[i], isLeftPlayer)
    ensures forall i :: 0 <= i < |data| && IsKey(i, |data|) ==> i in KeyIndices(|data|)
  {
    KeyIndicesCount(|data|);
    forall j | 0 <= j < |KeyIndices(|data|)| ensures IsKey(KeyIndices(|data|)[j], |data|) {
      assert KeyIndices(|data|)[j] in KeyIndices(|data|);
    }
  }

  /** The other player's narrative sees the same rounds with the roles of
      "I" and "they" exchanged. */
  lemma KeyEventsSwap(data: seq<RoundData>, isLeftPlayer: bool)
    ensures |KeyEvents(data, isLeftPlayer)| == |KeyEvents(data, !isLeftPlayer)|
    ensures forall j :: 0 <= j < |KeyEvents(data, isLeftPlayer)| ==>
      && KeyEvents(data, isLeftPlayer)[j].iCooperated == KeyEvents(data, !isLeftPlayer)[j].theyCooperated
      && KeyEvents(data, isLeftPlayer)[j].theyCooperated == KeyEvents(data, !isLeftPlayer)[j].iCooperated
  {
  }

  /** "cooperated" or "defected", as an event line reports a move. */
  function Did(cooperated: bool): string {
    if cooperated then "cooperated" else "defected"
  }

  /** "Round r: I cooperated, they defected. Trust level: t/10". */
  function KeyEventLine(k: KeyEvent): (r: string)
    ensures var head := "Round " + ShowInt(k.round) + ": I ";
      |head| <= |r| && r[..|head|] == head
    ensures var tail := ". Trust level: " + ShowInt(k.trust) + "/10";
      |tail| <= |r| && r[|r| - |tail|..] == tail
  {
    var head := "Round " + ShowInt(k.round) + ": I ";
    var moves := Did(k.iCooperated) + ", they " + Did(k.theyCooperated);
    var tail := ". Trust level: " + ShowInt(k.trust) + "/10";
    OuterParts(head, moves, tail);
    head + moves + tail
  }

  /** After "Round r: I " an event line reports the prompted player's move,
      "cooperated" exactly when that player cooperated and "defected"
      otherwise, then ", they " and the other player's move in the same
      words. */
  lemma KeyEventMoves(k: KeyEvent)
    ensures var r := KeyEventLine(k);
      var p := |"Round " + ShowInt(k.round) + ": I "|;
      var q := p + (if k.iCooperated then 10 else 8) + 7;
      && q + (if k.theyCooperated then 10 else 8) <= |r|
      && (k.iCooperated ==> r[p..p + 10] == "cooperated")
      && (!k.iCooperated ==> r[p..p + 8] == "defected")
      && r[q - 7..q] == ", they "
      && (k.theyCooperated ==> r[q..q + 10] == "cooperated")
      && (!k.theyCooperated ==> r[q..q + 8] == "defected")
  {
    var head := "Round " + ShowInt(k.round) + ": I ";
    var mine, theirs := Did(k.iCooperated), Did(k.theyCooperated);
    var moves := mine + ", they " + theirs;
    var tail := ". Trust level: " + ShowInt(k.trust) + "/10";
    var r := KeyEventLine(k);
    InfixAt(head, moves, tail);
    InfixAt(mine, ", they ", theirs);
    var p, q := |head|, |head| + |mine| + 7;
    assert r[p..p + |moves|] == moves;
    assert r[p..p + |mine|] == moves[..|mine|] == mine;
    assert r[q - 7..q] == moves[|mine|..|mine| + 7] == ", they ";
    assert r[q..q + |theirs|] == moves[|mine| + 7..] == theirs;
  }

  // ---------------------------------------------------------------------
  // generateMetaReflectionPrompt: counts
  // ---------------------------------------------------------------------

  /** The prompted player's cooperation flags, round by round. */
  function MyMoves(data: seq<RoundData>, isLeftPlayer: bool): (r: seq<bool>)
    ensures |r| == |data|
  {
    seq(|data|, i requires 0 <= i < |data| =>
      if isLeftPlayer then data[i].leftCooperation else data[i].rightCooperation)
  }

  /** The other player's cooperation flags, round by round. */
  function TheirMoves(data: seq<RoundData>, isLeftPlayer: bool): (r: seq<bool>)
    ensures |r| == |data|
  {
    seq(|data|, i requires 0 <= i < |data| =>
      if isLeftPlayer then data[i].rightCooperation else data[i].leftCooperation)
  }

  /** Exchanging the players exchanges the two move sequences. */
  lemma MovesSwap(data: seq<RoundData>, isLeftPlayer: bool)
    ensures MyMoves(data, !isLeftPlayer) == TheirMoves(data, isLeftPlayer)
    ensures TheirMoves(data, !isLeftPlayer) == MyMoves(data, isLeftPlayer)
  {
  }

  /** `filter(Boolean).length`. */
  function CountTrue(s: seq<bool>): (n: nat)
    ensures n <= |s|
  {
    if s == [] then 0 else (if s[0] then 1 else 0) + CountTrue(s[1..])
  }

  lemma {:induction false} CountTrueAppend(a: seq<bool>, b: seq<bool>)
    ensures CountTrue(a + b) == CountTrue(a) + CountTrue(b)
  {
    if a != [] {
      assert (a + b)[1..] == a[1..] + b;
      CountTrueAppend(a[1..], b);
    } else {
      assert a + b == b;
    }
  }

  /** Rounds where both players cooperated. */
  function MutualCooperationRounds(data: seq<RoundData>): (n: nat)
    ensures n <= |data|
    ensures n == 0 <==> forall i :: 0 <= i < |data| ==> !(data[i].leftCooperation && data[i].rightCooperation)
  {
    if data == [] then 0
    else
      assert forall j :: 1 <= j < |data| ==> data[j] == data[1..][j - 1];
      (if data[0].leftCooperation && data[0].rightCooperation then 1 else 0)
      + MutualCooperationRounds(data[1..])
  }

  /** Mutual cooperation is counted from both sides at once, so it is at
      most either player's own count of cooperations. */
  lemma {:induction false} MutualAtMostEach(data: seq<RoundData>, isLeftPlayer: bool)
    ensures MutualCooperationRounds(data) <= CountTrue(MyMoves(data, isLeftPlayer))
    ensures MutualCooperationRounds(data) <= CountTrue(TheirMoves(data, isLeftPlayer))
  {
    if data != [] {
      MutualAtMostEach(data[1..], isLeftPlayer);
      assert MyMoves(data, isLeftPlayer)[1..] == MyMoves(data[1..], isLeftPlayer);
      assert TheirMoves(data, isLeftPlayer)[1..] == TheirMoves(data[1..], isLeftPlayer);
    }
  }

  /** The final score of the prompted player and of the other. */
  function MyFinalScore(left: int, right: int, isLeftPlayer: bool): int {
    if isLeftPlayer then left else right
  }

  function TheirFinalScore(left: int, right: int, isLeftPlayer: bool): int {
    if isLeftPlayer then right else left
  }

  /** Exchanging the players exchanges the two final scores. */
  lemma ScoresSwap(left: int, right: int, isLeftPlayer: bool)
    ensures MyFinalScore(left, right, !isLeftPlayer) == TheirFinalScore(left, right, isLeftPlayer)
    ensures TheirFinalScore(left, right, !isLeftPlayer) == MyFinalScore(left, right, isLeftPlayer)
  {
  }

  /** Cooperations among the first ten rounds. */
  function EarlyCooperation(myMoves: seq<bool>): (n: nat)
    ensures n <= 10 && n <= |myMoves|
  {
    CountTrue(FirstN(myMoves, 10))
  }

  /** Cooperations among the last ten rounds. */
  function LateCooperation(myMoves: seq<bool>): (n: nat)
    ensures n <= 10 && n <= |myMoves|
  {
    CountTrue(LastN(myMoves, 10))
  }

  /** With at most ten rounds both windows cover the whole game and count
      every cooperation. */
  lemma ShortGameWindows(myMoves: seq<bool>)
    requires |myMoves| <= 10
    ensures EarlyCooperation(myMoves) == CountTrue(myMoves)
    ensures LateCooperation(myMoves) == CountTrue(myMoves)
  {
    assert FirstN(myMoves, 10) == myMoves;
    assert LastN(myMoves, 10) == myMoves;
  }

  /** The early window counts the cooperations of the first ten rounds,
      whatever follows them. */
  lemma EarlyWindow(first: seq<bool>, rest: seq<bool>)
    requires |first| == 10
    ensures EarlyCooperation(first + rest) == CountTrue(first)
  {
    assert FirstN(first + rest, 10) == first;
  }

  /** The late window counts the cooperations of the last ten rounds,
      whatever precedes them. */
  lemma LateWindow(rest: seq<bool>, last: seq<bool>)
    requires |last| == 10
    ensures LateCooperation(rest + last) == CountTrue(last)
  {
    assert LastN(rest + last, 10) == last;
  }

  /** A prefix counts no more cooperations than the whole. */
  lemma PrefixCount(s: seq<bool>, k: nat)
    requires k <= |s|
    ensures CountTrue(s[..k]) <= CountTrue(s)
  {
    assert s == s[..k] + s[k..];
    CountTrueAppend(s[..k], s[k..]);
  }

  /** A suffix counts no more cooperations than the whole. */
  lemma SuffixCount(s: seq<bool>, k: nat)
    requires k <= |s|
    ensures CountTrue(s[k..]) <= CountTrue(s)
  {
    assert s == s[..k] + s[k..];
    CountTrueAppend(s[..k], s[k..]);
  }

  /** Each window counts part of the whole: neither exceeds the player's
      total cooperations. */
  lemma WindowsWithinTotal(myMoves: seq<bool>)
    ensures EarlyCooperation(myMoves) <= CountTrue(myMoves)
    ensures LateCooperation(myMoves) <= CountTrue(myMoves)
  {
    PrefixCount(myMoves, |FirstN(myMoves, 10)|);
    SuffixCount(myMoves, |myMoves| - |LastN(myMoves, 10)|);
  }

  /** With twenty rounds or more the two windows are disjoint, so together
      they count at most the player's total cooperations; at exactly twenty
      rounds they split the game and count every cooperation. */
  lemma WindowsDisjoint(myMoves: seq<bool>)
    requires |myMoves| >= 20
    ensures EarlyCooperation(myMoves) + LateCooperation(myMoves) <= CountTrue(myMoves)
    ensures |myMoves| == 20 ==> EarlyCooperation(myMoves) + LateCooperation(myMoves) == CountTrue(myMoves)
  {
    var rest := myMoves[10..];
    assert myMoves == myMoves[..10] + rest;
    CountTrueAppend(myMoves[..10], rest);
    assert FirstN(myMoves, 10) == myMoves[..10];
    assert LastN(myMoves, 10) == rest[|rest| - 10..];
    SuffixCount(rest, |rest| - 10);
  }
}
