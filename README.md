# Game theory simulator: a verified model of its core

The simulator pits two AI personalities (diplomat, opportunist, skeptic,
altruist, pragmatist) against each other in fifty rounds of the prisoner's
dilemma. This project models in Dafny the parts of the program that compute
something, and proves what they promise:

- **The simulator page** (`app/page.tsx`). It holds the payoff table and the
  fifty-round loop of `runSimulation`. The loop scores each pair of moves,
  appends the two chat lines and advances the round counter. The page's
  React state becomes the class `Simulation.Simulator`. Its method
  `RunSimulation` is proved to leave the chat, scores and counter equal to
  specification functions of the moves (`Transcript`, `TotalScores`).
- **The decision route** (`app/api/llm-decision/route.ts`). It has three
  parts:
  - the `KEY: value` line reader that both handlers run over a completion
    text (`FieldParser`);
  - the decoder that turns a reply into a decision record
    (`Route.DecodeDecision`);
  - the merge of `processStateUpdate`, which folds a state-update reply into
    a personality state (`Route.Merge`, computed step by step by
    `Route.ProcessStateUpdate`);
  - the POST dispatch, with its error answers.
- **The prompt builders** (`app/lib/personalities.ts`). The model keeps the
  values these builders compute and splice into fixed prose:
  - the outcome of a round;
  - the numbered interaction history;
  - each side's moves and cooperation rates;
  - the threshold labels of emotions and cultural scores;
  - the "last few" windows over the state's lists;
  - the key events of the closing narrative;
  - the counts of the meta-reflection.

The JavaScript library functions the code relies on are modelled as they
behave, in `Text` and `Numbers`:

- `trim` with the full ECMAScript whitespace set;
- `split` on one character and `join`;
- `includes`, `slice`, `toUpperCase` for ASCII letters;
- `parseInt` in base ten, with `NaN` as `None`;
- the falsiness of `0`, `NaN` and `""` behind `x || default`;
- the decimal text of `${n}`.

The language-model call is not modelled. Its completion text, or its
failure, is an input. The page's `Math.random` moves are an input too.

Modules, one per file:

- `Common` (common.dfy): the `Option` type.
- `Text` (text.dfy): trim, split, join, substring search and upper case.
- `Numbers` (numbers.dfy): `parseInt` and the decimal text of integers.
- `PersonalityModel` (personality_model.dfy): the record types of
  personalities.ts.
- `FieldParser` (field_parser.dfy): the line reader.
- `Route` (route.dfy): the decoder, the merge and POST.
- `Prompts` (prompts.dfy): the derived prompt values.
- `Simulation` (simulation.dfy): the payoff table and the simulator class.

## Model

| member | source | states |
|---|---|---|
| Simulation.Payoff | app/page.tsx:30-35 | each player gets between 0 and 5 points and the two together between 2 and 6; they get 5 together exactly when the moves differ, and equal points exactly when the moves agree |
| Simulation.PayoffSwap | app/page.tsx:30-35 | the payoff table is symmetric: exchanging the two moves exchanges the two players' points |
| Simulation.PayoffIsDilemma | app/page.tsx:30-35 | the table is a prisoner's dilemma: defecting strictly dominates, mutual cooperation beats mutual defection for both, and steady cooperation beats alternating betrayal |
| Simulation.ChatShape | app/page.tsx:84-94 | the chat holds exactly two lines per round; in round k+1 the left player's line comes first, then the right player's, each "Round k+1: " and that personality's message for its move |
| Simulation.RoundStep | app/page.tsx:71-98 | one more round adds its payoff to both totals and appends its two lines to the chat |
| Simulation.TotalScoresSwap | app/page.tsx:77-81 | playing the mirrored game swaps the two totals |
| Simulation.TotalScores | app/page.tsx:69-81 | after n rounds each total lies in [0, 5n] and their sum in [2n, 6n] |
| Simulation.Chat | app/page.tsx:84-94 | the chat holds two lines per round played |
| Simulation.Transcript | app/page.tsx:84-94 | with the page's own tables, line 2k is the left player's "Round k+1: " line with the cooperation or defection message of its move in round k+1, and line 2k+1 the right player's |
| Simulation.Simulator.constructor | app/page.tsx:38-44 | the initial state: diplomat against opportunist, empty topic and chat, zero scores, round 0, not running |
| Simulation.Simulator.SetLeftPersonality | app/page.tsx:121 | the left selector sets the left personality and nothing else |
| Simulation.Simulator.SetRightPersonality | app/page.tsx:136 | the right selector sets the right personality and nothing else |
| Simulation.Simulator.RunSimulation | app/page.tsx:47-105 | after the fifty rounds the chat is the transcript of the moves under the page's own message tables, the scores are the moves' total payoffs, the round is 50, the flag is cleared, and the personalities and topic are unchanged |
| Simulation.Simulator.Play | app/page.tsx:48-104 | the same loop for any message tables: the chat is `Chat` of the moves, the scores are `TotalScores`, the round is 50 and the flag is cleared |
| Text.Trim | app/api/llm-decision/route.ts:229 | `trim` is the text with a whitespace-only prefix and suffix removed; it is empty exactly when the text is all whitespace, and otherwise begins and ends with a non-whitespace character |
| Text.TrimKeepsCharacters | app/api/llm-decision/route.ts:263 | trimming keeps only characters of the text |
| Text.Split | app/api/llm-decision/route.ts:223 | `split(c)` gives one more piece than there are separators, no piece contains the separator, and joining the pieces back gives the text |
| Text.SplitJoin | app/api/llm-decision/route.ts:227-229 | splitting a join of separator-free pieces gives the pieces back |
| Text.SplitAtFirst | app/api/llm-decision/route.ts:227-229 | the first piece is the text before the first separator, and the rest rejoined is the text after it |
| Text.CountAbsent | app/api/llm-decision/route.ts:227-228 | a separator occurs zero times exactly when it is not in the text |
| Text.ContainsIff | app/lib/personalities.ts:431 | `includes` holds exactly when the substring occurs at some position |
| Text.UpperIsLetter | app/api/llm-decision/route.ts:233 | the upper-cased text is one capital letter exactly when the text is that letter in either case |
| Text.JoinEmptyIff | app/lib/personalities.ts:597 | a join with a non-empty separator is empty exactly when there are no pieces or one empty piece |
| Text.LastN | app/lib/personalities.ts:597 | `slice(-n)` keeps the last min(n, length) entries |
| Text.FirstN | app/lib/personalities.ts:841 | `slice(0, n)` keeps the first min(n, length) entries |
| Text.OrPlaceholder | app/lib/personalities.ts:610 | the text falls back to its placeholder exactly when it is empty |
| Numbers.ShowNat | app/page.tsx:92 | the text of `${n}` is a non-empty run of digits with no leading zero |
| Numbers.ShowNatDigits | app/page.tsx:92 | the text of `${n}` holds only decimal digits |
| Numbers.DigitsOfShowNat | app/page.tsx:92 | the digits of `${n}` are worth n |
| Numbers.ParseInt | app/api/llm-decision/route.ts:240-260 | `parseInt` gives a number only for a text that holds a decimal digit |
| Numbers.ParseIntSign | app/api/llm-decision/route.ts:240-260 | a non-zero number read by `parseInt` is negative exactly when the first non-blank character is a minus sign |
| Numbers.ParseShowInt | app/api/llm-decision/route.ts:240-260 | `parseInt` reads back the decimal text of any integer, also when non-digit text follows it |
| Numbers.DigitRun | app/api/llm-decision/route.ts:248 | the run of digits `parseInt` reads stops at the first non-digit |
| PersonalityModel.EmotionsEqual | app/lib/personalities.ts:10-25 | two emotional states are equal exactly when all twelve intensities are |
| FieldParser.LineEntry | app/api/llm-decision/route.ts:226-230 | a line yields an entry only when it holds a colon, and the key then holds none |
| FieldParser.LineEntryAtFirstColon | app/api/llm-decision/route.ts:226-230 | a line yields an entry exactly when it has a colon that is not its first character; the key is the trimmed text before the first colon and the value the trimmed text after it, later colons included |
| FieldParser.BlankLineHasNoEntry | app/api/llm-decision/route.ts:223 | a whitespace-only line yields no entry |
| FieldParser.BlankLinesDoNotMatter | app/api/llm-decision/route.ts:223-231 | filtering out the blank lines before reading does not change the resulting map |
| FieldParser.RecordLastWins | app/api/llm-decision/route.ts:226-231 | a key is in the map exactly when some line yields it, and it maps to the value of the last such line |
| FieldParser.LastWithKey | app/api/llm-decision/route.ts:229 | the last entry with a given key, and no later entry has that key |
| FieldParser.RecordLines | app/api/llm-decision/route.ts:226-231 | the `forEach` loop leaves the map that records each line's entry in order |
| FieldParser.FieldsOf | app/api/llm-decision/route.ts:223-231 | reading the non-blank lines gives the map of reading every line, blank ones included |
| FieldParser.ParseFields | app/api/llm-decision/route.ts:442-450 | the parse step gives the fields of the completion text |
| Route.NumberOr | app/api/llm-decision/route.ts:240-260 | the parsed number with fallback d differs from d only when x parses to a non-zero number, which it then is |
| Route.TextOf | app/api/llm-decision/route.ts:245-276 | a text field with fallback "" is non-empty exactly when the key is present with non-empty text, which it then is |
| Route.ReadEmotions | app/api/llm-decision/route.ts:453-468 | each of the twelve intensities is the reply's non-zero number, or the previous intensity |
| Route.ChoiceOf | app/api/llm-decision/route.ts:233-238 | a choice is read only from a `DECISION` field of exactly one character |
| Route.ChoiceAccepted | app/api/llm-decision/route.ts:233-238 | the decision is C exactly for "C" or "c" and D exactly for "D" or "d" |
| Route.LongChoiceRefused | app/api/llm-decision/route.ts:236-238 | a `DECISION` value longer or shorter than one character is refused |
| Route.Biases | app/api/llm-decision/route.ts:262-264 | no biases without a filled `BIASES`; else one bias per comma-separated piece, the i-th being the i-th piece with its blank margins removed, none holding a comma |
| Route.Weights | app/api/llm-decision/route.ts:240-241 | the emotion weight is the given non-zero `EMOTION_WEIGHT`, else 50, and never 0; the logic weight is the given non-zero `LOGIC_WEIGHT`, else 100 minus the emotion weight |
| Route.WeightsComplement | app/api/llm-decision/route.ts:240-241 | without a usable logic weight the two weights add up to 100 |
| Route.DecodeDecision | app/api/llm-decision/route.ts:233-277 | a decision exists exactly when the choice is C or D; it carries that choice, each intensity is the reply's non-zero number or 0, each of the nine texts is its field or "", the biases are the split `BIASES` and the weights those of `Weights` |
| Route.DecisionDefaults | app/api/llm-decision/route.ts:245-276 | absent numbers read 0, each of the nine absent texts "", absent biases none, and absent weights 50/50 |
| Route.DecisionAnswer | app/api/llm-decision/route.ts:233-286 | the decision handler answers a decision exactly when the choice is valid, and otherwise the parse error |
| Route.Added | app/api/llm-decision/route.ts:484-544 | a filled shift key gives exactly one new entry, an absent or empty one none |
| Route.Overwrite | app/api/llm-decision/route.ts:471-481 | a filled key replaces the text, an absent or empty one keeps it |
| Route.MergeCulture | app/api/llm-decision/route.ts:484-492 | a filled `CULTURAL_CONTEXT_SHIFT` is appended to the social norms, and nothing else changes |
| Route.MergeLearning | app/api/llm-decision/route.ts:495-515 | a filled `SOCIAL_LEARNING_UPDATE` appends a strategy scored 5/5/5 and a repertoire entry and becomes the last successful strategy; nothing else changes |
| Route.MergeEvolution | app/api/llm-decision/route.ts:518-533 | a filled `PERSONALITY_EVOLUTION_UPDATE` appends an experience of the given round with no trait changes and permanence 5, and nothing else changes |
| Route.MergeMoral | app/api/llm-decision/route.ts:536-544 | a filled `MORAL_COMPASS_SHIFT` is appended to the primary values, and nothing else changes |
| Route.Merge | app/api/llm-decision/route.ts:435-547 | each of the twelve intensities becomes the reply's non-zero number for it, or keeps its old value |
| Route.MergeEffects | app/api/llm-decision/route.ts:452-481 | what the merge does to the emotions, the three narrative texts and the last successful strategy |
| Route.MergeAppends | app/api/llm-decision/route.ts:484-544 | what the merge does to the five lists; an experience is dated by the rounds played, cooperations plus defections |
| Route.MergeKeepsRest | app/api/llm-decision/route.ts:439 | every field the reply cannot update keeps its value |
| Route.MergeTakesNonZero | app/api/llm-decision/route.ts:453-468 | an emotion takes the reply's number exactly when it parses and is not 0; an explicit 0 keeps the old value |
| Route.MergeSameEmotions | app/api/llm-decision/route.ts:453-468 | a reply that repeats the intensities, or gives 0 or nothing usable, leaves the emotions unchanged |
| Route.MergeTwiceScalars | app/api/llm-decision/route.ts:452-481 | merging the same reply twice gives the emotions and narrative texts of merging it once |
| Route.MergeListsGrow | app/api/llm-decision/route.ts:484-544 | each list only grows, by at most one entry, and keeps its earlier entries as a prefix |
| Route.MergeNothingNew | app/api/llm-decision/route.ts:435-547 | a reply with no filled update key and no usable number changes nothing |
| Route.ProcessStateUpdate | app/api/llm-decision/route.ts:435-547 | `processStateUpdate` returns the merge of the state with the fields of the reply |
| Route.ApplyUpdate | app/api/llm-decision/route.ts:452-544 | the updates made one after the other give the merge |
| Route.UpdateScalars | app/api/llm-decision/route.ts:452-481 | the emotion and narrative updates give the first half of the merge |
| Route.UpdateLists | app/api/llm-decision/route.ts:483-544 | the four group updates give the second half of the merge |
| Route.Seed | app/api/llm-decision/route.ts:357-423 | the seed state has every intensity 0, no cooperations, defections or last move, and empty norm, value, strategy, repertoire and experience lists |
| Route.SeedUpdateForgets | app/api/llm-decision/route.ts:357-423 | a state update starts from the all-zero seed, so each list of its answer has at most one entry, any experience is dated round 0, and every emotion is the reply's non-zero number or 0 |
| Route.HandlerFor | app/api/llm-decision/route.ts:100-119 | an empty prompt is refused; otherwise the narrative flag wins over the meta-reflection flag, which wins over the state-update flag, and with no flag the request asks for a decision |
| Route.PostAsWritten | app/api/llm-decision/route.ts:90-127 | a body that is not JSON answers the 500 error and an empty prompt the 400 error; a failed model call on a valid request gets no answer from the route |
| Route.Post | app/api/llm-decision/route.ts:90-127 | as written, except that a failed model call is answered with the 500 error, so every request gets an answer of the route's own |
| Route.FailedCallEscapes | app/api/llm-decision/route.ts:107-124 | for every request that passes the prompt check, a failed call is unanswered as written and answered with the 500 error when corrected |
| Route.DecisionRequestAnswers | app/api/llm-decision/route.ts:116-119 | a decision request is answered by the decision handler on the fields of the trimmed reply |
| Route.StateRequestAnswers | app/api/llm-decision/route.ts:113-115 | a state-update request is answered with the seed merged with the fields of the trimmed reply |
| Prompts.OutcomeOf | app/lib/personalities.ts:678-685 | each of the four outcomes matches exactly one pair of moves |
| Prompts.OutcomeSwap | app/lib/personalities.ts:678-685 | seen from the other side, a mutual outcome stays the same and a betrayal turns around |
| Prompts.OutcomeTextDistinct | app/lib/personalities.ts:678-685 | the four outcome phrases are pairwise different |
| Prompts.HistoryLineSpeaker | app/lib/personalities.ts:429-437 | after its round label a line reads "You " exactly for the left player's entries and "Other Player " for the right player's |
| Prompts.HistoryLineAction | app/lib/personalities.ts:430-437 | after the speaker a line reads "cooperated" when the entry's text contains "cooperat", and "defected" otherwise |
| Prompts.HistoryLineBreak | app/lib/personalities.ts:434-437 | a history line holds a line break exactly when its entry has a non-empty reflection |
| Prompts.LineStartsWithRound | app/lib/personalities.ts:429-437 | a history line opens with its "Round n: " label |
| Prompts.HistoryLines | app/lib/personalities.ts:426-440 | the history has one line per chat message, line k describing message k |
| Prompts.HistoryRoundNumbers | app/lib/personalities.ts:429 | messages 2k and 2k+1 are both labelled round k+1 |
| Prompts.InteractionNarrative | app/lib/personalities.ts:425-440 | an empty history reads "No previous interactions", and any other starts with "Round 1: " |
| Prompts.NarrativeLines | app/lib/personalities.ts:426-440 | without reflections, the history splits back into exactly one line per message |
| Prompts.Evens | app/lib/personalities.ts:443 | the player's own moves are the messages at even positions |
| Prompts.Odds | app/lib/personalities.ts:444 | the other player's moves are the messages at odd positions |
| Prompts.InterleaveSides | app/lib/personalities.ts:443-444 | the two sides taken in turn give back the whole history |
| Prompts.Cooperations | app/lib/personalities.ts:448 | a side has at most as many cooperations as moves |
| Prompts.SidesShareCooperations | app/lib/personalities.ts:443-460 | the cooperations of the two sides add up to the cooperations of the history |
| Prompts.RateOf | app/lib/personalities.ts:445-460 | a rate is "N/A" exactly for a side with no moves, and otherwise counts that side's cooperations out of its moves |
| Prompts.RatesAvailable | app/lib/personalities.ts:445-460 | the player's own rate is "N/A" only for an empty history, the other player's while there is at most one message |
| Prompts.TotalRoundsPlayed | app/lib/personalities.ts:642 | the rounds played are the other player's moves, and half the messages rounded down |
| Prompts.TrustBand | app/lib/personalities.ts:490-494 | trust is high exactly above 5, low exactly below -5, and neutral in between |
| Prompts.RisingBand | app/lib/personalities.ts:497-573 | grudge and the moral emotions are high above 7, middle in (3, 7], and low at or below 3 |
| Prompts.SpreadBand | app/lib/personalities.ts:504-594 | hope, anxiety, frustration, optimism and the two cultural scores are high above 7, low below 3, and middle in between |
| Prompts.EmotionWords | app/lib/personalities.ts:489-573 | the three label words of each emotion differ from each other |
| Prompts.EmotionLabel | app/lib/personalities.ts:489-573 | each of an emotion's three label words is shown exactly in its band |
| Prompts.TrustLabelBands | app/lib/personalities.ts:489-495 | each trust label is shown exactly in its band |
| Prompts.CulturalLabel | app/lib/personalities.ts:577-595 | each of a cultural score's three label words is shown exactly in its band of the 7 / 3 spread |
| Prompts.CulturalLabelBands | app/lib/personalities.ts:577-595 | each collectivism and time-orientation label is shown exactly in its band |
| Prompts.WindowBlank | app/lib/personalities.ts:596-626 | a window over a list shows its placeholder exactly when the list is empty or one empty entry |
| Prompts.RecentCulturalInfluences | app/lib/personalities.ts:596-598 | "None" exactly when there are no norms or one empty norm; otherwise the last two norms joined by "; " |
| Prompts.LastStrategyShown | app/lib/personalities.ts:609-611 | "None identified" for an empty strategy, otherwise the strategy |
| Prompts.FluctuationShown | app/lib/personalities.ts:619 | "Stable" for an empty fluctuation, otherwise the fluctuation |
| Prompts.PrimaryValuesShown | app/lib/personalities.ts:624-626 | "Developing" exactly when there are no values or one empty value; otherwise the last three values joined by ", " |
| Prompts.BiasesShown | app/lib/personalities.ts:631-633 | "None identified" exactly when there are no biases or one empty bias; otherwise all of them joined by ", " |
| Prompts.NewestNormShownLast | app/lib/personalities.ts:597 | the newest social norm is the last one shown |
| Prompts.KeyIndicesBelow | app/lib/personalities.ts:763 | the filter keeps exactly the indices of every tenth round and the last one, in increasing order |
| Prompts.KeyIndicesCount | app/lib/personalities.ts:763 | n rounds give ceil(n / 10) key events |
| Prompts.KeyEvents | app/lib/personalities.ts:762-779 | one event per kept index |
| Prompts.KeyEventsSelection | app/lib/personalities.ts:762-779 | each event is a tenth or final round, in round order; every such round is kept; there are ceil(n / 10) of them |
| Prompts.KeyEventsSwap | app/lib/personalities.ts:765-771 | the other player's timeline has the same rounds with "I" and "they" exchanged |
| Prompts.KeyEventLine | app/lib/personalities.ts:773-777 | an event line opens with "Round r: I " and ends with ". Trust level: t/10" for its round and trust |
| Prompts.KeyEventMoves | app/lib/personalities.ts:773-777 | after "Round r: I " the line reads "cooperated" exactly when the prompted player cooperated and "defected" otherwise, then ", they ", then the other player's move in the same words |
| Prompts.TrustOf | app/lib/personalities.ts:775-777 | a round without a state shows trust 0 |
| Prompts.MyMoves | app/lib/personalities.ts:818-820 | one cooperation flag per round for the prompted player |
| Prompts.TheirMoves | app/lib/personalities.ts:821-823 | one cooperation flag per round for the other player |
| Prompts.MovesSwap | app/lib/personalities.ts:818-823 | exchanging the players exchanges the two move lists |
| Prompts.CountTrue | app/lib/personalities.ts:826 | `filter(Boolean).length` is at most the length |
| Prompts.CountTrueAppend | app/lib/personalities.ts:826 | the count over two lists together is the sum of their counts |
| Prompts.MutualCooperationRounds | app/lib/personalities.ts:833-835 | at most one mutual-cooperation round per round, and none exactly when no round has both players cooperating |
| Prompts.MutualAtMostEach | app/lib/personalities.ts:833-835 | the mutual-cooperation rounds are at most each player's own cooperations |
| Prompts.ScoresSwap | app/lib/personalities.ts:837-838 | exchanging the players exchanges the two final scores |
| Prompts.EarlyCooperation | app/lib/personalities.ts:841 | early cooperation is at most 10 and at most the number of rounds |
| Prompts.LateCooperation | app/lib/personalities.ts:842 | late cooperation is at most 10 and at most the number of rounds |
| Prompts.ShortGameWindows | app/lib/personalities.ts:841-842 | with at most ten rounds both windows count every cooperation of the game |
| Prompts.EarlyWindow | app/lib/personalities.ts:841 | early cooperation counts the cooperations of the first ten rounds, whatever follows |
| Prompts.LateWindow | app/lib/personalities.ts:842 | late cooperation counts the cooperations of the last ten rounds, whatever precedes |
| Prompts.WindowsWithinTotal | app/lib/personalities.ts:841-842 | neither window counts more than the player's total cooperations |
| Prompts.WindowsDisjoint | app/lib/personalities.ts:841-842 | with twenty rounds or more the windows are disjoint, so early plus late is at most the total, and exactly the total at twenty rounds |

## Left out

- The language-model calls (`openai.chat.completions.create`) and their prompt prose are not modelled. The completion text is a parameter. A failed call is `None`.
- The prose of the four prompt builders in personalities.ts and the `dynamicPersonalityDetails` table are not modelled. The model keeps only the values that are spliced into the prose.
- The narrative and meta-reflection handlers are modelled only as far as their answer, which is the trimmed completion. They compute nothing else.
- Next.js plumbing is left out. `request.json()` failing is `None` for the body. An absent prompt or flag is "" or `false`. A non-string prompt or a non-boolean flag is left out, and truthiness is taken only for those two cases.
- The `try`/`catch` in `handleStateUpdate` and its "Failed to process state update" answer are left out. `processStateUpdate` cannot throw on a string reply, so that branch is unreachable.
- `completion.choices[0]?.message?.content` being absent is modelled as the empty text, which gives the same `|| ""` result.
- `Route.ChoiceOf`: `toUpperCase` is modelled for ASCII letters only. A non-ASCII letter is left as it is. This matters only for characters whose upper case is "C" or "D", and none are outside ASCII.
- `Numbers.ParseInt`: the `0x` hexadecimal prefix that `parseInt` accepts without a radix is not modelled, and an overflow to `Infinity` is not modelled either. Replies use decimal numbers.
- The `toFixed(0)` percentages in personalities.ts:445-460 and 825-832 are kept as counts out of a total (`Prompts.Rate`, `CountTrue`). Floating point is not modelled.
- The meta-reflection rates at personalities.ts:825-832 have no empty-list guard and would print `NaN` for no rounds. The model keeps their counts and totals only.
- JavaScript numbers are integers here. Every number the code parses comes from `parseInt`. Fractional state values are outside the modelled code.
- `Simulation.Simulator.RunSimulation`: `Math.random` is replaced by the fifty rounds' moves as a parameter.
- `Simulation.Simulator.RunSimulation`: React's asynchronous state updates, the 50 ms `setTimeout` between rounds and the rendering are left out. The state is updated in place at each step, which is the state React holds once each round's updates have been applied.
- `Simulation.Simulator.Play`: the page's message tables are passed to the loop as parameters, and `RunSimulation` passes the page's own tables. This keeps the long texts out of the loop's proof.
- The emotion and score ranges in the source's comments, such as -10 to 10, are not enforced by the code and are not assumed.
- The source's description of `handleStateUpdate` suggests that state accumulates across updates. The code merges every reply into a fresh all-zero seed (route.ts:357-423). The model follows the code (`Route.SeedUpdateForgets`).

## Findings

| source | as written | input that shows it | evidently intended | confidence | as-written member | corrected member |
|---|---|---|---|---|---|---|
| app/api/llm-decision/route.ts:107-124 | the handlers' promises are returned without `await` inside the `try`, so a rejected language-model call is not caught and the route gives no JSON error of its own | a request with prompt "x" and no flags, while the model call fails | the `catch` answers every handler failure with the 500 error "Failed to get decision from AI" | not executed | Route.PostAsWritten (Route.FailedCallEscapes) | Route.Post |
