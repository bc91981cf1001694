/** The simulator page of app/page.tsx: the prisoner's dilemma payoff table
    and the fifty-round loop that plays it, scores it and writes the chat.
    The page draws each move with `Math.random`; here the moves of the
    fifty rounds are an input. */
module Simulation {
  import opened Numbers
  import opened PersonalityModel

  /** The two players' points. */
  datatype Scores = Scores(left: int, right: int)

  /** `payoffMatrix[leftChoice + rightChoice]`: (left points, right points). */
  function Payoff(left: Move, right: Move): (r: Scores)
    ensures 0 <= r.left <= 5 && 0 <= r.right <= 5 && 2 <= r.left + r.right <= 6
    ensures r.left + r.right == 5 <==> left != right
    ensures r.left == r.right <==> left == right
  {
    match (left, right)
    case (C, C) => Scores(3, 3)
    case (C, D) => Scores(0, 5)
    case (D, C) => Scores(5, 0)
    case (D, D) => Scores(1, 1)
  }

  /** The table treats the players alike: exchanging the moves exchanges
      the points. */
  lemma PayoffSwap(left: Move, right: Move)
    ensures Payoff(right, left) == Scores(Payoff(left, right).right, Payoff(left, right).left)
  {
  }

  /** The table is a prisoner's dilemma: whatever the other does, defecting
      earns strictly more, yet both cooperating earns each more than both
      defecting, and alternating betrayals earn less than steady
      cooperation. */
  lemma PayoffIsDilemma(other: Move)
    ensures Payoff(D, other).left > Payoff(C, other).left
    ensures Payoff(other, D).right > Payoff(other, C).right
    ensures Payoff(C, C).left > Payoff(D, D).left && Payoff(C, C).right > Payoff(D, D).right
    ensures 2 * Payoff(C, C).left > Payoff(D, C).left + Payoff(C, D).left
  {
  }

  /** What a personality says when it cooperates. */
  function CooperationMessage(p: Personality): string {
    match p
    case Diplomat => "I believe cooperation serves our mutual interests."
    case Opportunist => "Cooperation might benefit me this round."
    case Skeptic => "I'll cooperate, but I'm watching you closely."
    case Altruist => "I choose to cooperate for the greater good."
    case Pragmatist => "Cooperation seems like the logical choice here."
  }

  /** What a personality says when it defects. */
  function DefectionMessage(p: Personality): string {
    match p
    case Diplomat => "I must reluctantly choose to defect this time."
    case Opportunist => "I see an opportunity to gain an advantage."
    case Skeptic => "I don't trust you - I'm defecting."
    case Altruist => "Sometimes defection is necessary for the greater good."
    case Pragmatist => "The data suggests defection is optimal."
  }

  /** The message of personality `p` for move `m`, looked up in the given
      cooperation and defection tables. */
  function Said(cooperation: Personality -> string, defection: Personality -> string, p: Personality, m: Move): string {
    if m == C then cooperation(p) else defection(p)
  }

  /** One chat line of the page. */
  datatype ChatMessage = ChatMessage(speaker: Speaker, text: string)

  /** `Round ${i}: ${message}`. */
  function RoundText(i: nat, message: string): string {
    "Round " + ShowNat(i) + ": " + message
  }

  /** The chat line of one player in round `i`. */
  function Line(who: Speaker, i: nat, message: string): ChatMessage {
    ChatMessage(who, RoundText(i, message))
  }

  /** The points of all the rounds in `choices`, added up round by round.
      Each round hands out between 2 and 6 points in all and at most 5 to
      either player, so after n rounds each total is between 0 and 5n and
      their sum between 2n and 6n. */
  function TotalScores(choices: seq<(Move, Move)>): (t: Scores)
    ensures 0 <= t.left <= 5 * |choices| && 0 <= t.right <= 5 * |choices|
    ensures 2 * |choices| <= t.left + t.right <= 6 * |choices|
  {
    if choices == [] then Scores(0, 0)
    else
      var before := TotalScores(choices[..|choices| - 1]);
      var last := choices[|choices| - 1];
      var p := Payoff(last.0, last.1);
      Scores(before.left + p.left, before.right + p.right)
  }

  /** The chat after the rounds in `choices`: two lines per round, the left
      player's first. */
  function Chat(cooperation: Personality -> string, defection: Personality -> string, left: Personality, right: Personality, choices: seq<(Move, Move)>): (r: seq<ChatMessage>)
    ensures |r| == 2 * |choices|
  {
    if choices == [] then []
    else
      var n := |choices|;
      Chat(cooperation, defection, left, right, choices[..n - 1])
      + [Line(L, n, Said(cooperation, defection, left, choices[n - 1].0)), Line(R, n, Said(cooperation, defection, right, choices[n - 1].1))]
  }

  /** The chat of the page, with its own two message tables. */
  function Transcript(left: Personality, right: Personality, choices: seq<(Move, Move)>): (r: seq<ChatMessage>)
    ensures |r| == 2 * |choices|
    ensures forall k :: 0 <= k < |choices| ==>
      && r[2 * k] == Line(L, k + 1, if choices[k].0 == C then CooperationMessage(left) else DefectionMessage(left))
      && r[2 * k + 1] == Line(R, k + 1, if choices[k].1 == C then CooperationMessage(right) else DefectionMessage(right))
  {
    ChatShape(CooperationMessage, DefectionMessage, left, right, choices);
    Chat(CooperationMessage, DefectionMessage, left, right, choices)
  }

  /** The chat holds two lines per round: in round k+1 the left player's
      line and then the right player's, each "Round k+1: " and what the tables
      gives for that player's personality and move. */
  lemma {:induction false} ChatShape(cooperation: Personality -> string, defection: Personality -> string, left: Personality, right: Personality, choices: seq<(Move, Move)>)
    ensures |Chat(cooperation, defection, left, right, choices)| == 2 * |choices|
    ensures forall k :: 0 <= k < |choices| ==>
      && Chat(cooperation, defection, left, right, choices)[2 * k] == Line(L, k + 1, Said(cooperation, defection, left, choices[k].0))
      && Chat(cooperation, defection, left, right, choices)[2 * k + 1] == Line(R, k + 1, Said(cooperation, defection, right, choices[k].1))
  {
    if choices != [] {
      var n := |choices|;
      var front := choices[..n - 1];
      ChatShape(cooperation, defection, left, right, front);
      var before := Chat(cooperation, defection, left, right, front);
      var added := [Line(L, n, Said(cooperation, defection, left, choices[n - 1].0)), Line(R, n, Said(cooperation, defection, right, choices[n - 1].1))];
      var t := Chat(cooperation, defection, left, right, choices);
      assert t == before + added;
      forall k | 0 <= k < n
        ensures t[2 * k] == Line(L, k + 1, Said(cooperation, defection, left, choices[k].0))
        ensures t[2 * k + 1] == Line(R, k + 1, Said(cooperation, defection, right, choices[k].1))
      {
        if k < n - 1 {
          assert front[k] == choices[k];
          assert t[2 * k] == before[2 * k] && t[2 * k + 1] == before[2 * k + 1];
        } else {
          assert t[2 * k] == added[0] && t[2 * k + 1] == added[1];
        }
      }
    }
  }

  /** One more round adds its payoff to the totals and its two lines to
      the chat. */
  lemma RoundStep(cooperation: Personality -> string, defection: Personality -> string, left: Personality, right: Personality, choices: seq<(Move, Move)>, i: nat)
    requires 1 <= i <= |choices|
    ensures var p := Payoff(choices[i - 1].0, choices[i - 1].1);
      TotalScores(choices[..i])
      == Scores(TotalScores(choices[..i - 1]).left + p.left, TotalScores(choices[..i - 1]).right + p.right)
    ensures Chat(cooperation, defection, left, right, choices[..i])
         == Chat(cooperation, defection, left, right, choices[..i - 1])
            + [Line(L, i, Said(cooperation, defection, left, choices[i - 1].0)), Line(R, i, Said(cooperation, defection, right, choices[i - 1].1))]
  {
    assert choices[..i][..i - 1] == choices[..i - 1];
  }

  /** The players' points swap when their moves do. */
  function SwapRoles(choices: seq<(Move, Move)>): (r: seq<(Move, Move)>)
    ensures |r| == |choices|
    ensures forall k :: 0 <= k < |r| ==> r[k] == (choices[k].1, choices[k].0)
  {
    seq(|choices|, k requires 0 <= k < |choices| => (choices[k].1, choices[k].0))
  }

  /** Because the table is symmetric, playing the mirrored game swaps the
      totals. */
  lemma {:induction false} TotalScoresSwap(choices: seq<(Move, Move)>)
    ensures TotalScores(SwapRoles(choices)) == Scores(TotalScores(choices).right, TotalScores(choices).left)
  {
    if choices != [] {
      var n := |choices|;
      assert SwapRoles(choices)[..n - 1] == SwapRoles(choices[..n - 1]);
      TotalScoresSwap(choices[..n - 1]);
      PayoffSwap(choices[n - 1].0, choices[n - 1].1);
    }
  }

  /** The page's state: the two chosen personalities, the topic, the chat,
      the scores, the round counter and the running flag. */
  class Simulator {
    var leftPersonality: Personality
    var rightPersonality: Personality
    var topic: string
    var chatHistory: seq<ChatMessage>
    var scores: Scores
    var round: int
    var isRunning: bool

    /** The initial state of the page's hooks. */
    constructor ()
      ensures leftPersonality == Diplomat && rightPersonality == Opportunist
      ensures topic == "" && chatHistory == [] && scores == Scores(0, 0)
      ensures round == 0 && !isRunning
    {
      leftPersonality := Diplomat;
      rightPersonality := Opportunist;
      topic := "";
      chatHistory := [];
      scores := Scores(0, 0);
      round := 0;
      isRunning := false;
    }

    /** The left player's selector. */
    method SetLeftPersonality(p: Personality)
      modifies this
      ensures leftPersonality == p
      ensures rightPersonality == old(rightPersonality) && topic == old(topic)
      ensures chatHistory == old(chatHistory) && scores == old(scores)
      ensures round == old(round) && isRunning == old(isRunning)
    {
      leftPersonality := p;
    }

    /** The right player's selector. */
    method SetRightPersonality(p: Personality)
      modifies this
      ensures rightPersonality == p
      ensures leftPersonality == old(leftPersonality) && topic == old(topic)
      ensures chatHistory == old(chatHistory) && scores == old(scores)
      ensures round == old(round) && isRunning == old(isRunning)
    {
      rightPersonality := p;
    }

    /** `runSimulation` with the fifty rounds' moves given: reset, then for
        each round score the moves, append the two chat lines and advance
        the counter, and finally clear the running flag. */
    method RunSimulation(choices: seq<(Move, Move)>)
      requires |choices| == 50
      modifies this
      ensures chatHistory == Transcript(leftPersonality, rightPersonality, choices)
      ensures scores == TotalScores(choices)
      ensures round == 50 && !isRunning
      ensures leftPersonality == old(leftPersonality) && rightPersonality == old(rightPersonality)
      ensures topic == old(topic)
    {
      Play(choices, CooperationMessage, DefectionMessage);
    }

    /** The loop of `runSimulation`, with the message of each personality
        and move looked up in the tables `cooperation` and `defection`. */
    method Play(choices: seq<(Move, Move)>, cooperation: Personality -> string, defection: Personality -> string)
      requires |choices| == 50
      modifies this
      ensures chatHistory == Chat(cooperation, defection, leftPersonality, rightPersonality, choices)
      ensures scores == TotalScores(choices)
      ensures round == 50 && !isRunning
      ensures leftPersonality == old(leftPersonality) && rightPersonality == old(rightPersonality)
      ensures topic == old(topic)
    {
      var left, right := leftPersonality, rightPersonality;
      isRunning := true;
      chatHistory := [];
      scores := Scores(0, 0);
      round := 0;
      var current := Scores(0, 0);
      for i := 1 to 51
        invariant leftPersonality == left && rightPersonality == right && topic == old(topic) && isRunning
        invariant round == i - 1 && scores == current == TotalScores(choices[..i - 1])
        invariant chatHistory == Chat(cooperation, defection, left, right, choices[..i - 1])
      {
        RoundStep(cooperation, defection, left, right, choices, i);
        var (leftChoice, rightChoice) := choices[i - 1];
        var points := Payoff(leftChoice, rightChoice);
        current := Scores(current.left + points.left, current.right + points.right);
        var leftMessage := if leftChoice == C then cooperation(left) else defection(left);
        var rightMessage := if rightChoice == C then cooperation(right) else defection(right);
        chatHistory := chatHistory + [Line(L, i, leftMessage), Line(R, i, rightMessage)];
        scores := current;
        round := i;
      }
      assert choices[..50] == choices;
      isRunning := false;
    }
  }
}
