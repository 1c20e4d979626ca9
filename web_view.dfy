/**
 * `web_view.py`: the progress endpoint of the root web view. It reads the
 * content item, its latest prompt log and its latest generation output, and
 * reports four fixed steps whose statuses follow the item's status.
 *
 * The three Supabase reads are inputs: the item (`JNull` when not found),
 * the prompt logs and the outputs, newest first, and whether a read raised.
 */
module WebView {
  import opened Wrappers
  import opened StrUtil
  import Json

  /** A progress step as the endpoint reports it. */
  datatype Step = Step(name: string, description: string, status: string, error: Option<Json.Json>)

  const StepNames: seq<string> := ["Content Generation", "Source Generation", "Content Integration", "Content Storage"]
  const StepDescriptions: seq<string> := ["Generating main content", "Generating sources", "Integrating sources into content", "Storing content in database"]

  const Pending := "pending"
  const InProgress := "in-progress"
  const Complete := "complete"
  const Error := "error"

  const DefaultModel := "Unknown"
  const DefaultTemperature := "0.7"

  /**
   * The reply: `{}`, the progress record, or an exception the endpoint
   * does not catch.
   */
  datatype Reply =
    | NoProgress
    | Progress(contentId: string, status: Option<Json.Json>, model: Json.Json, temperature: Json.Json,
               startTime: Option<Json.Json>, steps: seq<Step>)
    | Crash

  /** The fixed steps, all pending. */
  function InitialSteps(): (r: seq<Step>)
    ensures |r| == 4
    ensures forall k :: 0 <= k < 4 ==> r[k] == Step(StepNames[k], StepDescriptions[k], Pending, None)
  {
    [Step(StepNames[0], StepDescriptions[0], Pending, None), Step(StepNames[1], StepDescriptions[1], Pending, None),
     Step(StepNames[2], StepDescriptions[2], Pending, None), Step(StepNames[3], StepDescriptions[3], Pending, None)]
  }

  /** The statuses of a list of steps. */
  function Statuses(steps: seq<Step>): (r: seq<string>)
    ensures |r| == |steps| && forall k :: 0 <= k < |steps| ==> r[k] == steps[k].status
  {
    if steps == [] then [] else [steps[0].status] + Statuses(steps[1..])
  }

  /** `'source' in error_message.lower() if error_message else False`: `None` when `.lower()` raises. */
  function SourceError(error: Json.Json): (r: Option<bool>)
    ensures !Json.Truthy(error) ==> r == Some(false)
    ensures error.JStr? && error.s != [] ==> r == Some(Contains(Lower(error.s), "source"))
  {
    if !Json.Truthy(error) then Some(false)
    else if error.JStr? then Some(Contains(Lower(error.s), "source"))
    else None
  }

  /**
   * The steps for an item status and the latest output's error: "In
   * Progress" starts the first step, "Completed" completes them all,
   * "Failed" marks the failing step with the error (the source step when
   * the error mentions a source, after a completed first step), and any
   * other status leaves every step pending. `None` when the error has no
   * `.lower()`.
   */
  function ExpectedSteps(status: Option<Json.Json>, error: Json.Json): (r: Option<seq<Step>>)
    ensures r.Some? ==> |r.value| == 4
    ensures r.Some? ==> forall k :: 0 <= k < 4 ==> r.value[k].name == StepNames[k] && r.value[k].description == StepDescriptions[k]
    ensures status == Some(Json.JStr("In Progress")) ==> r == Some(InitialSteps()[0 := InitialSteps()[0].(status := InProgress)])
    ensures status == Some(Json.JStr("Completed")) ==> r.Some? && Statuses(r.value) == [Complete, Complete, Complete, Complete]
    ensures status == Some(Json.JStr("Failed")) && SourceError(error) == Some(true) ==>
              r.Some? && Statuses(r.value) == [Complete, Error, Pending, Pending] && r.value[1].error == Some(error)
    ensures status == Some(Json.JStr("Failed")) && SourceError(error) == Some(false) ==>
              r.Some? && Statuses(r.value) == [Error, Pending, Pending, Pending] && r.value[0].error == Some(error)
    ensures status !in {Some(Json.JStr("In Progress")), Some(Json.JStr("Completed")), Some(Json.JStr("Failed"))} ==>
              r == Some(InitialSteps())
    ensures r.None? <==> status == Some(Json.JStr("Failed")) && SourceError(error).None?
  {
    var steps := InitialSteps();
    if status == Some(Json.JStr("In Progress")) then Some(steps[0 := steps[0].(status := InProgress)])
    else if status == Some(Json.JStr("Completed")) then Some(AllComplete(steps))
    else if status == Some(Json.JStr("Failed")) then
      match SourceError(error)
      case None => None
      case Some(true) => Some(steps[0 := steps[0].(status := Complete)][1 := steps[1].(status := Error, error := Some(error))])
      case Some(false) => Some(steps[0 := steps[0].(status := Error, error := Some(error))])
    else Some(steps)
  }

  /** Every step marked complete, nothing else changed. */
  function AllComplete(steps: seq<Step>): (r: seq<Step>)
    ensures |r| == |steps|
    ensures forall k :: 0 <= k < |steps| ==> r[k] == steps[k].(status := Complete)
  {
    if steps == [] then [] else [steps[0].(status := Complete)] + AllComplete(steps[1..])
  }

  /** Exactly one step is in error exactly when the item failed. */
  lemma {:induction false} OneErrorWhenFailed(status: Option<Json.Json>, error: Json.Json)
    requires ExpectedSteps(status, error).Some?
    ensures var steps := ExpectedSteps(status, error).value;
            (exists k :: 0 <= k < 4 && steps[k].status == Error) <==> status == Some(Json.JStr("Failed"))
  {
    var steps := ExpectedSteps(status, error).value;
    var ss := Statuses(steps);
    if status == Some(Json.JStr("Failed")) {
      var k := if SourceError(error) == Some(true) then 1 else 0;
      assert ss[k] == Error;
    } else if status == Some(Json.JStr("Completed")) {
      assert ss == [Complete, Complete, Complete, Complete];
      forall k | 0 <= k < 4 ensures steps[k].status != Error {
        assert ss[k] == Complete;
      }
    } else {
      forall k | 0 <= k < 4 ensures steps[k].status != Error {
        if k == 0 {
          assert steps[0].status in {Pending, InProgress};
        } else {
          assert steps[k] == InitialSteps()[k];
        }
      }
    }
  }

  /** `output.get('metadata', {}).get('error')`: `None` when either lookup raises. */
  function OutputError(output: Json.Json): (r: Option<Json.Json>)
    ensures r.Some? <==> output.JObj? && Json.DictGet(output, "metadata", Json.JObj([])).value.JObj?
    ensures r.Some? && Json.Get(output.props, "metadata").None? ==> r == Some(Json.JNull)
  {
    var meta := Json.DictGet(output, "metadata", Json.JObj([]));
    if meta.Some? && meta.value.JObj? then Json.DictGet(meta.value, "error", Json.JNull) else None
  }

  /** The loop of `content_progress` that marks every step complete. */
  method CompleteAll(steps: seq<Step>) returns (r: seq<Step>)
    ensures r == AllComplete(steps)
  {
    r := steps;
    var i := 0;
    while i < |r|
      invariant 0 <= i <= |r| == |steps|
      invariant forall k :: 0 <= k < i ==> r[k] == steps[k].(status := Complete)
      invariant forall k :: i <= k < |r| ==> r[k] == steps[k]
    {
      r := r[i := r[i].(status := Complete)];
      i := i + 1;
    }
    assert forall k :: 0 <= k < |r| ==> r[k] == AllComplete(steps)[k];
  }

  /**
   * The step loop of `content_progress` for one item status; `None` where
   * the endpoint raises on the latest output.
   */
  method ComputeSteps(status: Option<Json.Json>, output: Json.Json) returns (r: Option<seq<Step>>)
    ensures status == Some(Json.JStr("Failed")) && OutputError(output).None? ==> r.None?
    ensures status != Some(Json.JStr("Failed")) || OutputError(output).Some? ==>
              r == ExpectedSteps(status, OutputError(output).GetOr(Json.JNull))
  {
    var steps := InitialSteps();
    if status == Some(Json.JStr("In Progress")) {
      steps := steps[0 := steps[0].(status := InProgress)];
    } else if status == Some(Json.JStr("Completed")) {
      steps := CompleteAll(steps);
    } else if status == Some(Json.JStr("Failed")) {
      var error := OutputError(output);
      if error.None? {
        return None;
      }
      var mentionsSource := SourceError(error.value);
      if mentionsSource.None? {
        return None;
      }
      if mentionsSource.value {
        steps := steps[0 := steps[0].(status := Complete)];
        steps := steps[1 := steps[1].(status := Error, error := Some(error.value))];
      } else {
        steps := steps[0 := steps[0].(status := Error, error := Some(error.value))];
      }
    }
    return Some(steps);
  }

  /**
   * `content_progress`: `{}` when a read raised, the item is not found or
   * there are no prompt logs or no outputs; otherwise the record with the
   * latest log's model and temperature (defaults "Unknown" and 0.7) and the
   * steps set by branch from the item's status.
   */
  method ContentProgress(contentId: string, content: Json.Json, prompts: seq<Json.Json>, outputs: seq<Json.Json>, readFailed: bool)
    returns (r: Reply)
    ensures readFailed || !Json.Truthy(content) || prompts == [] || outputs == [] ==> r == NoProgress
    ensures r.Progress? ==> && !readFailed && Json.Truthy(content) && prompts != [] && outputs != []
                            && content.JObj? && r.contentId == contentId
                            && r.status == Json.Get(content.props, "status")
                            && ExpectedSteps(r.status, OutputError(outputs[0]).GetOr(Json.JNull)) == Some(r.steps)
    ensures r.Progress? ==> && Json.DictGet(prompts[0], "metadata", Json.JObj([])).Some?
                            && var meta := Json.DictGet(prompts[0], "metadata", Json.JObj([])).value;
                            && Json.DictGet(meta, "model", Json.JStr(DefaultModel)) == Some(r.model)
                            && Json.DictGet(meta, "temperature", Json.JFloat(DefaultTemperature)) == Some(r.temperature)
                            && Json.Get(prompts[0].props, "created_at") == r.startTime
    ensures r.Progress? && r.status == Some(Json.JStr("Failed")) ==> OutputError(outputs[0]).Some?
    ensures && !readFailed && Json.Truthy(content) && prompts != [] && outputs != [] && content.JObj?
            && Json.DictGet(prompts[0], "metadata", Json.JObj([])).Some?
            && Json.DictGet(prompts[0], "metadata", Json.JObj([])).value.JObj?
            && (Json.Get(content.props, "status") == Some(Json.JStr("Failed")) ==> OutputError(outputs[0]).Some?)
            && ExpectedSteps(Json.Get(content.props, "status"), OutputError(outputs[0]).GetOr(Json.JNull)).Some?
            ==> r.Progress?
  {
    if readFailed || !Json.Truthy(content) || prompts == [] || outputs == [] {
      return NoProgress;
    }
    var meta := Json.DictGet(prompts[0], "metadata", Json.JObj([]));
    if meta.None? || !meta.value.JObj? {
      return Crash;
    }
    var model := Json.DictGet(meta.value, "model", Json.JStr(DefaultModel)).value;
    var temperature := Json.DictGet(meta.value, "temperature", Json.JFloat(DefaultTemperature)).value;
    var startTime := Json.Get(prompts[0].props, "created_at");
    if !content.JObj? {
      return Crash;
    }
    var status := Json.Get(content.props, "status");
    var steps := ComputeSteps(status, outputs[0]);
    if steps.None? {
      return Crash;
    }
    r := Progress(contentId, status, model, temperature, startTime, steps.value);
  }
}
