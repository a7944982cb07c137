/**
 * The user interface's session record (app/ui.py): the fields the page keeps
 * between reruns, the reset performed by the "Get Outfit Recommendation"
 * button, and how each streamed node output is folded into the graph state
 * and copied into the convenience fields.
 */
module Session {
  import opened Wrappers

  /** A value stored under a key of the graph state dictionary. */
  datatype Value =
    | Str(str: string)
    | Int(number: int)
    | Real(quantity: real)
    | Strs(strs: seq<string>)
    | Dict(dict: map<string, Value>)

  /** The budget the page hands to the graph. */
  const MaxAttempts := 5

  const WelcomeLine := "Welcome! Fill in your details to get started."
  const StartLine := "Starting new recommendation process..."

  /**
   * `dict.update`: every key of `output` now holds the output's value, every
   * other key keeps its old value, and no other key appears.
   */
  function Merge(state: map<string, Value>, output: map<string, Value>): (r: map<string, Value>)
    ensures r.Keys == state.Keys + output.Keys
    ensures forall k :: k in output ==> r[k] == output[k]
    ensures forall k :: k in state && k !in output ==> r[k] == state[k]
  {
    state + output
  }

  /** Two outputs folded in one after the other act as their own merge folded in once. */
  lemma MergeTwice(state: map<string, Value>, first: map<string, Value>, second: map<string, Value>)
    ensures Merge(Merge(state, first), second) == Merge(state, Merge(first, second))
  {
    var l := Merge(Merge(state, first), second);
    var r := Merge(state, Merge(first, second));
    assert l.Keys == r.Keys;
    forall k | k in l.Keys ensures l[k] == r[k] {
    }
  }

  /** The graph input the button builds from the form: fixed rating, attempts and budget, and the fresh log. */
  function InitialInput(height: string, gender: string, location: string, occasion: string, mood: string,
                        log: seq<string>): map<string, Value>
  {
    map["height" := Str(height), "gender" := Str(gender), "location" := Str(location),
        "occasion" := Str(occasion), "mood" := Str(mood), "rating" := Int(0), "attempts" := Int(0),
        "max_attempts" := Int(MaxAttempts), "log" := Strs(log), "weather" := Dict(map[]),
        "recommendation" := Str(""), "result_message" := Str("")]
  }

  /** The keys of the workflow's state record, with `result_message` as the fixed graph names it. */
  const StateKeys := {"height", "gender", "location", "occasion", "mood", "weather", "recommendation", "rating",
                      "attempts", "max_attempts", "result_message", "log"}

  /**
   * The input sets exactly the keys of the workflow's state record (so not
   * the older graph's `final_message`); it starts the loop with rating 0, no
   * attempts and a budget of 5, and carries the location and log unchanged.
   */
  lemma InitialInputShape(height: string, gender: string, location: string, occasion: string, mood: string,
                          log: seq<string>)
    ensures var m := InitialInput(height, gender, location, occasion, mood, log);
      m.Keys == StateKeys && "final_message" !in m &&
      m["rating"] == Int(0) && m["attempts"] == Int(0) && m["max_attempts"] == Int(5) &&
      m["location"] == Str(location) && m["log"] == Strs(log)
  {
    assert "final_message" != "result_message";
  }

  /** A node output the convenience copies can read: each copied key holds the kind of value the nodes return. */
  predicate OutputWellTyped(output: map<string, Value>) {
    ("log" in output ==> output["log"].Strs?) &&
    ("recommendation" in output ==> output["recommendation"].Str?) &&
    ("attempts" in output ==> output["attempts"].Int?) &&
    ("result_message" in output ==> output["result_message"].Str?)
  }

  /** The session fields a streamed event can change: the graph state and its four convenience copies. */
  datatype Shown = Shown(graphState: map<string, Value>, recommendation: Option<string>,
                         resultMessage: Option<string>, log: seq<string>, attempts: int)

  /** One event's effect on those fields: the merge, then each copy its output carries. */
  function Apply(f: Shown, output: map<string, Value>): Shown {
    Shown(Merge(f.graphState, output),
          if "recommendation" in output && output["recommendation"].Str? then Some(output["recommendation"].str) else f.recommendation,
          if "result_message" in output && output["result_message"].Str? then Some(output["result_message"].str) else f.resultMessage,
          if "log" in output && output["log"].Strs? then output["log"].strs else f.log,
          if "attempts" in output && output["attempts"].Int? then output["attempts"].number else f.attempts)
  }

  /** The fields after each output of `outputs` in order. */
  function ApplyAll(f: Shown, outputs: seq<map<string, Value>>): Shown {
    if outputs == [] then f else Apply(ApplyAll(f, outputs[..|outputs| - 1]), outputs[|outputs| - 1])
  }

  class Session {
    var processing: bool
    var recommendation: Option<string>
    var rating: int
    var ratingSubmitted: bool
    var attempts: int
    var log: seq<string>
    var resultMessage: Option<string>
    var graphState: map<string, Value>
    var runKey: int
    var waitingForRating: bool

    /** A new browser session: nothing running, nothing rated, the welcome line in the log. */
    constructor ()
      ensures !processing && recommendation.None? && rating == 0 && !ratingSubmitted && attempts == 0
      ensures log == [WelcomeLine] && resultMessage.None? && graphState == map[] && runKey == 0
      ensures !waitingForRating
    {
      processing := false;
      recommendation := None;
      rating := 0;
      ratingSubmitted := false;
      attempts := 0;
      log := [WelcomeLine];
      resultMessage := None;
      graphState := map[];
      runKey := 0;
      waitingForRating := false;
    }

    /** The fields a streamed event can change, as one value. */
    function Fields(): Shown
      reads this
    {
      Shown(graphState, recommendation, resultMessage, log, attempts)
    }

    /** Whether the start button is enabled: nothing is running and no result is showing. */
    predicate CanStart()
      reads this
    {
      !processing && resultMessage.None?
    }

    /**
     * The start button: the run is reset (no recommendation, no result,
     * rating and attempts 0, nothing submitted or awaited), the log restarts,
     * the run key moves on by exactly one, and the graph state becomes the
     * input built from the form.
     */
    method StartButton(height: string, gender: string, location: string, occasion: string, mood: string)
      requires CanStart()
      modifies this
      ensures processing && recommendation.None? && resultMessage.None?
      ensures rating == 0 && attempts == 0 && !ratingSubmitted && !waitingForRating
      ensures log == [StartLine]
      ensures runKey == old(runKey) + 1
      ensures graphState == InitialInput(height, gender, location, occasion, mood, log)
    {
      processing := true;
      recommendation := None;
      resultMessage := None;
      rating := 0;
      ratingSubmitted := false;
      waitingForRating := false;
      attempts := 0;
      log := [StartLine];
      graphState := map[];
      runKey := runKey + 1;
      graphState := InitialInput(height, gender, location, occasion, mood, log);
    }

    /**
     * One streamed event: the node's output is merged into the graph state,
     * and its log, recommendation, attempts and result message, when
     * present, replace the session's copies; nothing else changes.
     */
    method ApplyNodeOutput(output: map<string, Value>)
      requires OutputWellTyped(output)
      modifies this
      ensures graphState == Merge(old(graphState), output)
      ensures log == if "log" in output then output["log"].strs else old(log)
      ensures recommendation == if "recommendation" in output then Some(output["recommendation"].str) else old(recommendation)
      ensures attempts == if "attempts" in output then output["attempts"].number else old(attempts)
      ensures resultMessage == if "result_message" in output then Some(output["result_message"].str) else old(resultMessage)
      ensures processing == old(processing) && rating == old(rating) && ratingSubmitted == old(ratingSubmitted)
      ensures runKey == old(runKey) && waitingForRating == old(waitingForRating)
      ensures Fields() == Apply(old(Fields()), output)
    {
      graphState := graphState + output;
      if "log" in output {
        log := output["log"].strs;
      }
      if "recommendation" in output {
        recommendation := Some(output["recommendation"].str);
      }
      if "attempts" in output {
        attempts := output["attempts"].number;
      }
      if "result_message" in output {
        resultMessage := Some(output["result_message"].str);
      }
    }

    /**
     * One pass of the page's stream loop: the event is applied, then a
     * recommendation from `generate_outfit` makes the page wait for a rating,
     * and otherwise a result message ends processing; either way the page
     * leaves the stream (`halt`).
     */
    method HandleEvent(event: Event) returns (halt: bool)
      requires OutputWellTyped(event.output)
      modifies this
      ensures Fields() == Apply(old(Fields()), event.output)
      ensures var waits := event.node == "generate_outfit" && Truthy(recommendation);
        halt == (waits || Truthy(resultMessage)) &&
        waitingForRating == (waits || old(waitingForRating)) &&
        processing == (if halt && !waits then false else old(processing))
      ensures runKey == old(runKey) && rating == old(rating) && ratingSubmitted == old(ratingSubmitted)
    {
      ApplyNodeOutput(event.output);
      halt := false;
      if event.node == "generate_outfit" && Truthy(recommendation) {
        waitingForRating := true;
        halt := true;
      } else if Truthy(resultMessage) {
        processing := false;
        halt := true;
      }
    }
  }

  /** One streamed event: the node that ran and the update it returned. */
  datatype Event = Event(node: string, output: map<string, Value>)

  /** The updates carried by `events`, in order. */
  function Outputs(events: seq<Event>): seq<map<string, Value>> {
    seq(|events|, i requires 0 <= i < |events| => events[i].output)
  }

  /** Python truthiness of an optional string: neither `None` nor empty. */
  predicate Truthy(s: Option<string>) {
    s.Some? && s.value != ""
  }

  /** The value the last output holding `key` gave it, if any output did. */
  function LastWrite(outputs: seq<map<string, Value>>, key: string): Option<Value> {
    if outputs == [] then None
    else if key in outputs[|outputs| - 1] then Some(outputs[|outputs| - 1][key])
    else LastWrite(outputs[..|outputs| - 1], key)
  }

  /**
   * Whether the page leaves the stream right after event `j`: a
   * `generate_outfit` event once a recommendation is showing (the page then
   * waits for a rating), or any event once a result message is showing.
   */
  predicate Halts(f0: Shown, events: seq<Event>, j: nat)
    requires j < |events|
  {
    var f := ApplyAll(f0, Outputs(events)[..j + 1]);
    (events[j].node == "generate_outfit" && Truthy(f.recommendation)) || Truthy(f.resultMessage)
  }

  /**
   * The processing loop over the streamed events of one graph invocation.
   * The page handles events in order and leaves at the first one after which
   * `Halts` holds (`halted`), or at the end of the stream; the `handled`
   * events have then been merged into the graph state and copied into the
   * convenience fields. Leaving on a recommendation sets the wait for a
   * rating; leaving on a result message, or reaching the end of the stream
   * without one, clears the processing flag. The run key, the rating and its
   * submission are left alone.
   */
  method StreamOutputs(session: Session, events: seq<Event>) returns (handled: nat, halted: bool)
    requires forall i :: 0 <= i < |events| ==> OutputWellTyped(events[i].output)
    modifies session
    ensures handled <= |events| && (halted ==> 0 < handled) && (!halted ==> handled == |events|)
    ensures forall j :: 0 <= j < handled ==> (Halts(old(session.Fields()), events, j) <==> halted && j == handled - 1)
    ensures session.Fields() == ApplyAll(old(session.Fields()), Outputs(events)[..handled])
    ensures var waits := halted && events[handled - 1].node == "generate_outfit" && Truthy(session.recommendation);
      session.waitingForRating == (waits || old(session.waitingForRating)) &&
      session.processing == (if waits || (!halted && Truthy(session.resultMessage)) then old(session.processing) else false)
    ensures session.runKey == old(session.runKey) && session.rating == old(session.rating)
    ensures session.ratingSubmitted == old(session.ratingSubmitted)
  {
    ghost var f0 := session.Fields();
    ghost var outs := Outputs(events);
    handled, halted := 0, false;
    while handled < |events| && !halted
      invariant handled <= |events| && (halted ==> 0 < handled)
      invariant forall j :: 0 <= j < handled ==> (Halts(f0, events, j) <==> halted && j == handled - 1)
      invariant session.Fields() == ApplyAll(f0, outs[..handled])
      invariant !halted ==>
        session.waitingForRating == old(session.waitingForRating) && session.processing == old(session.processing)
      invariant halted ==>
        var waits := events[handled - 1].node == "generate_outfit" && Truthy(session.recommendation);
        session.waitingForRating == (waits || old(session.waitingForRating)) &&
        session.processing == (if waits then old(session.processing) else false)
      invariant session.runKey == old(session.runKey) && session.rating == old(session.rating)
      invariant session.ratingSubmitted == old(session.ratingSubmitted)
      decreases |events| - handled
    {
      ApplyAllStep(f0, outs, handled);
      halted := session.HandleEvent(events[handled]);
      handled := handled + 1;
      assert Halts(f0, events, handled - 1) == halted;
    }
    if !halted && !Truthy(session.resultMessage) {
      session.processing := false;
    }
  }

  /**
   * A run whose first node only fetches weather and whose second generates a
   * recommendation is left after that second event, before any rating gate
   * or result node runs, whatever the rest of the stream holds.
   */
  lemma LeavesAtFirstRecommendation(f0: Shown, events: seq<Event>)
    requires 2 <= |events| && !Truthy(f0.resultMessage)
    requires events[0].node == "get_weather" && events[1].node == "generate_outfit"
    requires "result_message" !in events[0].output && "result_message" !in events[1].output
    requires "recommendation" in events[1].output && events[1].output["recommendation"].Str?
    requires events[1].output["recommendation"].str != ""
    ensures !Halts(f0, events, 0) && Halts(f0, events, 1)
  {
    var outs := Outputs(events);
    ApplyAllStep(f0, outs, 0);
    ApplyAllStep(f0, outs, 1);
  }

  lemma ApplyAllStep(f: Shown, outputs: seq<map<string, Value>>, i: nat)
    requires i < |outputs|
    ensures ApplyAll(f, outputs[..i + 1]) == Apply(ApplyAll(f, outputs[..i]), outputs[i])
  {
    assert outputs[..i + 1][..i] == outputs[..i];
  }

  /**
   * What the fold leaves in each field: the graph state is every output
   * merged in turn, and each convenience copy holds the value its last
   * writer gave it, or its old value when no output wrote it.
   */
  lemma {:induction false} ApplyAllFields(f: Shown, outputs: seq<map<string, Value>>)
    requires forall i :: 0 <= i < |outputs| ==> OutputWellTyped(outputs[i])
    ensures var r := ApplyAll(f, outputs);
      var rec, msg := LastWrite(outputs, "recommendation"), LastWrite(outputs, "result_message");
      var log, att := LastWrite(outputs, "log"), LastWrite(outputs, "attempts");
      r.graphState == MergeAll(f.graphState, outputs) &&
      r.recommendation == (if rec.Some? && rec.value.Str? then Some(rec.value.str) else f.recommendation) &&
      r.resultMessage == (if msg.Some? && msg.value.Str? then Some(msg.value.str) else f.resultMessage) &&
      r.log == (if log.Some? && log.value.Strs? then log.value.strs else f.log) &&
      r.attempts == (if att.Some? && att.value.Int? then att.value.number else f.attempts)
  {
    if outputs != [] {
      ApplyAllFields(f, outputs[..|outputs| - 1]);
    }
  }

  /**
   * The convenience copies agree with the graph state: a key some output
   * wrote holds, after the fold, the value its last writer gave it.
   */
  lemma {:induction false} LastWriteMerged(state: map<string, Value>, outputs: seq<map<string, Value>>, key: string)
    requires LastWrite(outputs, key).Some?
    ensures key in MergeAll(state, outputs) && MergeAll(state, outputs)[key] == LastWrite(outputs, key).value
  {
    var last := outputs[|outputs| - 1];
    if key !in last {
      LastWriteMerged(state, outputs[..|outputs| - 1], key);
    }
  }

  /** The state after folding in each output of `outputs` in order. */
  function MergeAll(state: map<string, Value>, outputs: seq<map<string, Value>>): map<string, Value> {
    if outputs == [] then state else Merge(MergeAll(state, outputs[..|outputs| - 1]), outputs[|outputs| - 1])
  }

  /** A key no output writes keeps the value it had before the run. */
  lemma {:induction false} MergeAllKeeps(state: map<string, Value>, outputs: seq<map<string, Value>>, k: string)
    requires k in state && forall i :: 0 <= i < |outputs| ==> k !in outputs[i]
    ensures k in MergeAll(state, outputs) && MergeAll(state, outputs)[k] == state[k]
  {
    if outputs != [] {
      MergeAllKeeps(state, outputs[..|outputs| - 1], k);
    }
  }

  /** The value under a key is the one from the last output that wrote it. */
  lemma {:induction false} MergeAllLastWriter(state: map<string, Value>, outputs: seq<map<string, Value>>, k: string, j: nat)
    requires j < |outputs| && k in outputs[j]
    requires forall i :: j < i < |outputs| ==> k !in outputs[i]
    ensures k in MergeAll(state, outputs) && MergeAll(state, outputs)[k] == outputs[j][k]
  {
    if j < |outputs| - 1 {
      MergeAllLastWriter(state, outputs[..|outputs| - 1], k, j);
    }
  }
}
