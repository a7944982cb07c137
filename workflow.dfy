/**
 * What the two recommendation workflows (app/fixed_graph.py and the older
 * app/graph.py) have in common: the rating gate, the opaque language-model
 * reply, and the four-node state machine that the graph library wires up
 * (get weather -> generate outfit -> check rating -> generate outfit | result).
 */
module Workflow {
  import opened Text

  /** A rating at or above this is satisfactory. */
  const SatisfactoryRating := 7

  /** The two edges out of the rating check: back to generation, or on to the result. */
  datatype Decision = Retry | Finish

  /**
   * The rating gate, in its priority order: a satisfactory rating finishes,
   * else an exhausted attempt budget finishes, else the workflow retries.
   */
  function Decide(rating: int, attempts: int, maxAttempts: int): (d: Decision)
    ensures d == Finish <==> rating >= SatisfactoryRating || attempts >= maxAttempts
    ensures rating >= SatisfactoryRating ==> d == Finish
    ensures rating < SatisfactoryRating && attempts >= maxAttempts ==> d == Finish
    ensures rating < SatisfactoryRating && attempts < maxAttempts ==> d == Retry
  {
    if rating >= SatisfactoryRating then Finish
    else if attempts >= maxAttempts then Finish
    else Retry
  }

  /** The five scenarios of the repository's decision-logic script. */
  lemma DecisionScenarios()
    ensures Decide(8, 1, 5) == Finish
    ensures Decide(5, 2, 5) == Retry
    ensures Decide(4, 5, 5) == Finish
    ensures Decide(7, 3, 5) == Finish
    ensures Decide(6, 4, 5) == Retry
  {
  }

  /** One call of the language model: the text it returned (not yet stripped), or the message of the exception it raised. */
  datatype LlmReply = Completion(content: string) | LlmError(message: string)

  /**
   * The recommendation kept from one language-model call: the stripped reply
   * content, or the node's apology when the call raised.
   */
  function KeptRecommendation(reply: LlmReply, apology: string): (rec: string)
    ensures reply.LlmError? ==> rec == apology
    ensures reply.Completion? ==> rec == Strip(reply.content)
  {
    match reply
    case Completion(content) => Strip(content)
    case LlmError(_) => apology
  }

  /** The number of failed calls among the first `n` calls of `llm`. */
  function FailedCalls(llm: nat -> LlmReply, n: nat): (k: nat)
    ensures k <= n
  {
    if n == 0 then 0 else FailedCalls(llm, n - 1) + (if llm(n - 1).LlmError? then 1 else 0)
  }

  /** The node the state machine runs next (`Done` is the graph's END). */
  datatype Phase = FetchWeather | Generate | Check | BuildResult | Done

  /** Generations the budget still allows: zero once the gate would finish. */
  function Budget(rating: int, attempts: int, maxAttempts: int): nat {
    if Decide(rating, attempts, maxAttempts) == Finish then 0 else maxAttempts - attempts
  }

  /**
   * How many generations are still to come from `phase`, the rating staying
   * fixed: a pending generation always runs once, and then the gate lets the
   * loop go on while the budget lasts.
   */
  function GenerationsLeft(phase: Phase, rating: int, attempts: int, maxAttempts: int): nat {
    match phase
    case FetchWeather | Generate =>
      if rating >= SatisfactoryRating then 1
      else if maxAttempts - attempts > 1 then maxAttempts - attempts else 1
    case Check => Budget(rating, attempts, maxAttempts)
    case BuildResult | Done => 0
  }

  /** The number of generations a whole run performs, from the attempt count it starts with. */
  function ExpectedGenerations(rating: int, attempts0: int, maxAttempts: int): (g: nat)
    ensures g >= 1
    ensures rating >= SatisfactoryRating ==> g == 1
    ensures rating < SatisfactoryRating ==> g == if maxAttempts - attempts0 > 1 then maxAttempts - attempts0 else 1
  {
    GenerationsLeft(FetchWeather, rating, attempts0, maxAttempts)
  }

  /**
   * The log lines a run has added, apart from those reporting failed
   * language-model calls, when it is about to run `phase` after `g`
   * generations: one for the weather, four per generation (two from the
   * generation, two from the rating check), one for the result.
   */
  function LogGrowth(phase: Phase, g: nat): int {
    match phase
    case FetchWeather => 0
    case Generate => 1 + 4 * g
    case Check => 4 * g - 1
    case BuildResult => 1 + 4 * g
    case Done => 2 + 4 * g
  }

  /** Node executions still to come from `phase`; every transition lowers it. */
  function StepsLeft(phase: Phase, rating: int, attempts: int, maxAttempts: int): nat {
    var b := Budget(rating, attempts, maxAttempts);
    match phase
    case Done => 0
    case BuildResult => 1
    case Check => 2 + 2 * b
    case Generate => 3 + 2 * (if b > 0 then b - 1 else 0)
    case FetchWeather => 4 + 2 * (if b > 0 then b - 1 else 0)
  }

  /** Generating an outfit (one more attempt) and then checking the rating takes the machine closer to the end. */
  lemma {:induction false} GenerateThenCheck(rating: int, attempts: int, maxAttempts: int)
    ensures StepsLeft(Check, rating, attempts + 1, maxAttempts) < StepsLeft(Generate, rating, attempts, maxAttempts)
    ensures GenerationsLeft(Generate, rating, attempts, maxAttempts)
         == 1 + GenerationsLeft(Check, rating, attempts + 1, maxAttempts)
  {
    var b := Budget(rating, attempts, maxAttempts);
    var b' := Budget(rating, attempts + 1, maxAttempts);
    assert b' == if b > 0 then b - 1 else 0;
  }

  /** A retry from the check costs fewer steps than the check itself, and keeps the generations to come. */
  lemma {:induction false} CheckThenRetry(rating: int, attempts: int, maxAttempts: int)
    requires Decide(rating, attempts, maxAttempts) == Retry
    ensures StepsLeft(Generate, rating, attempts, maxAttempts) < StepsLeft(Check, rating, attempts, maxAttempts)
    ensures GenerationsLeft(Generate, rating, attempts, maxAttempts)
         == GenerationsLeft(Check, rating, attempts, maxAttempts)
  {
  }
}
