/**
 * `cloud_function/main.py`: the three handlers of the content-creation
 * workflow. `initialize_content_creation` validates an HTTP request, stores a
 * new content document and publishes `select_template`; `select_template` and
 * `generate_content_plan` each read the document an event names, move it one
 * stage on and publish the next event.
 *
 * The Firestore collection `content-items` and the Pub/Sub topic are the
 * fields of `ContentStore`. The uuid, the clock, the template query, the
 * Vertex AI call, the JSON decoder and encoder are parameters; a `Some`
 * failure text stands for an exception where the source can raise one.
 */
module CloudFunction {
  import opened Wrappers
  import opened StrUtil
  import Json

  const Topic := "content-creation-events"

  const Initialized := "initialized"
  const TemplateSelected := "template_selected"
  const PlanGenerated := "plan_generated"
  const ErrorStatus := "error"

  const TemplateSelection := "template_selection"
  const ContentPlanning := "content_planning"
  const SectionPopulation := "section_population"
  const SelectionFailed := "template_selection_failed"

  const SelectTemplateAction := "select_template"
  const GeneratePlanAction := "generate_content_plan"
  const PopulateSectionsAction := "populate_sections"

  const NoData := "No request data provided"
  const MissingParameters := "Missing required parameters: content_type, title"
  const InitializedMessage := "Content creation initialized"
  const InitializeError := "Error initializing content creation: "

  /** The settings `generate_content_plan` passes to Vertex AI. */
  const PlanTemperature := "0.2"
  const PlanMaxTokens := 2048

  // ------------------------------------------------------------- documents

  /** The `metadata` map of a content document. */
  datatype Metadata = Metadata(
    title: Json.Json,
    contentType: string,
    status: string,
    created: string,
    updated: string,
    audience: Json.Json,
    missionPillars: Json.Json)

  /** The `workflow` map of a content document. */
  datatype Workflow = Workflow(currentStage: string, stagesCompleted: seq<string>, assignedReviewers: seq<Json.Json>)

  /** A content document; `template` and `plan` are absent until their stage writes them. */
  datatype Doc = Doc(metadata: Metadata, workflow: Workflow, template: Option<Json.Json>, plan: Option<Json.Json>)

  /** A published message: its topic and the `content_id` and `action` it carries. */
  datatype Event = Event(topic: string, contentId: string, action: string)

  /** An HTTP reply: the code, the `status` and `message` fields, and `content_id` on success. */
  datatype Response = Response(code: nat, status: string, message: string, contentId: Option<string>)

  /** The status each stage is entered with. */
  predicate StageMatchesStatus(status: string, stage: string)
  {
    || (status == Initialized && stage == TemplateSelection)
    || (status == TemplateSelected && stage == ContentPlanning)
    || (status == PlanGenerated && stage == SectionPopulation)
    || (status == ErrorStatus && stage == SelectionFailed)
  }

  predicate Distinct(s: seq<string>)
  {
    forall i, j :: 0 <= i < j < |s| ==> s[i] != s[j]
  }

  /**
   * The workflow invariant: status and stage agree, the completed stages are
   * distinct workflow stages, a fresh document has completed none, and a
   * document past a stage holds what that stage wrote.
   */
  predicate WellFormed(d: Doc)
  {
    var w := d.workflow;
    && StageMatchesStatus(d.metadata.status, w.currentStage)
    && Distinct(w.stagesCompleted)
    && (forall k :: 0 <= k < |w.stagesCompleted| ==> w.stagesCompleted[k] in [TemplateSelection, ContentPlanning])
    && (w.currentStage == TemplateSelection ==> w.stagesCompleted == [] && d.template.None? && d.plan.None?)
    && (w.currentStage == ContentPlanning ==> TemplateSelection in w.stagesCompleted && d.template.Some?)
    && (w.currentStage == SectionPopulation ==> ContentPlanning in w.stagesCompleted && d.plan.Some?)
  }

  predicate AllWellFormed(docs: map<string, Doc>)
  {
    forall id :: id in docs ==> WellFormed(docs[id])
  }

  /** `firestore.ArrayUnion([x])`: `x` is appended unless already present. */
  function ArrayUnion(s: seq<string>, x: string): (r: seq<string>)
    ensures x in r
    ensures forall y :: y in r <==> y in s || y == x
    ensures |s| <= |r| <= |s| + 1 && r[..|s|] == s
    ensures Distinct(s) ==> Distinct(r)
  {
    if x in s then s else s + [x]
  }

  // ---------------------------------------------------------------- Python

  /** The name Python gives the type of a decoded value. */
  function TypeName(j: Json.Json): string
  {
    match j
    case JNull => "NoneType"
    case JBool(_) => "bool"
    case JInt(_) => "int"
    case JFloat(_) => "float"
    case JStr(_) => "str"
    case JArr(_) => "list"
    case JObj(_) => "dict"
  }

  /** `str()` of the `AttributeError` raised by `j.attr`. */
  function AttributeError(j: Json.Json, attr: string): string
  {
    "'" + TypeName(j) + "' object has no attribute '" + attr + "'"
  }

  /** A `.get` result that is present and truthy. */
  predicate Present(v: Option<Json.Json>)
  {
    v.Some? && Json.Truthy(v.value)
  }

  // ------------------------------------------------------ initialize_content_creation

  /** The fields `initialize_content_creation` reads from a valid request. */
  datatype Request = Request(contentType: string, title: Json.Json, audience: Json.Json, missionPillars: Json.Json)

  /** The 500 reply to an exception with text `e`. */
  function Failure(e: string): (r: Response)
    ensures r.code == 500 && r.contentId.None? && StartsWith(r.message, InitializeError)
    ensures r.message[|InitializeError|..] == e
  {
    Response(500, "error", InitializeError + e, None)
  }

  /**
   * The request checks: no body or a falsy one is a 400 "No request data
   * provided"; a falsy `content_type` or `title` is a 400 naming both; a body
   * that is no object, or a `content_type` that is no text, fails on the
   * attribute it lacks.
   */
  function Validate(body: Option<Json.Json>): (r: Result<Request, Response>)
    ensures (body.None? || !Json.Truthy(body.value)) ==> r == Err(Response(400, "error", NoData, None))
    ensures (body.Some? && body.value.JObj? && Json.Truthy(body.value)
             && !(Present(Json.Get(body.value.props, "content_type")) && Present(Json.Get(body.value.props, "title"))))
            ==> r == Err(Response(400, "error", MissingParameters, None))
    ensures r.Err? ==> r.error.code in {400, 500} && r.error.contentId.None?
    ensures r.Ok? <==> (body.Some? && body.value.JObj?
                        && Present(Json.Get(body.value.props, "content_type")) && Present(Json.Get(body.value.props, "title"))
                        && Json.Get(body.value.props, "content_type").value.JStr?)
    ensures r.Ok? ==> (var props := body.value.props;
                       && Json.Get(props, "content_type") == Some(Json.JStr(r.value.contentType)) && r.value.contentType != []
                       && Json.Get(props, "title") == Some(r.value.title) && Json.Truthy(r.value.title)
                       && r.value.audience == Json.Get(props, "audience_level").GetOr(Json.JNull)
                       && r.value.missionPillars == Json.Get(props, "mission_pillars").GetOr(Json.JArr([])))
  {
    if body.None? || !Json.Truthy(body.value) then Err(Response(400, "error", NoData, None))
    else if !body.value.JObj? then Err(Failure(AttributeError(body.value, "get")))
    else
      var props := body.value.props;
      var contentType := Json.Get(props, "content_type");
      var title := Json.Get(props, "title");
      if !(Present(contentType) && Present(title)) then Err(Response(400, "error", MissingParameters, None))
      else if !contentType.value.JStr? then Err(Failure(AttributeError(contentType.value, "lower")))
      else
        Ok(Request(contentType.value.s, title.value,
                   Json.Get(props, "audience_level").GetOr(Json.JNull),
                   Json.Get(props, "mission_pillars").GetOr(Json.JArr([]))))
  }

  /** `f"{content_type.lower()}-{str(uuid.uuid4())[:8]}"`, for the uuid text `uuid`. */
  function ContentId(contentType: string, uuid: string): string
  {
    Lower(contentType) + "-" + Prefix(uuid, 8)
  }

  /** The id is the lowered type, a '-', and the first eight characters of the uuid. */
  lemma ContentIdParts(contentType: string, uuid: string)
    ensures var id := ContentId(contentType, uuid);
      && |id| == |contentType| + 1 + (if |uuid| < 8 then |uuid| else 8)
      && id[..|contentType|] == Lower(contentType)
      && id[|contentType|] == '-'
      && id[|contentType| + 1..] == Prefix(uuid, 8)
  {
  }

  /** Two uuids that differ in their first eight characters give two ids for the same type. */
  lemma ContentIdsDiffer(contentType: string, u: string, v: string)
    requires Prefix(u, 8) != Prefix(v, 8)
    ensures ContentId(contentType, u) != ContentId(contentType, v)
  {
    ContentIdParts(contentType, u);
    ContentIdParts(contentType, v);
  }

  /** The document a valid request creates, at time `now`. */
  function InitialDoc(req: Request, now: string): (d: Doc)
    ensures WellFormed(d)
    ensures d.metadata.status == Initialized && d.workflow.currentStage == TemplateSelection
    ensures d.workflow.stagesCompleted == [] && d.workflow.assignedReviewers == []
    ensures d.metadata.title == req.title && d.metadata.contentType == req.contentType
    ensures d.metadata.audience == req.audience && d.metadata.missionPillars == req.missionPillars
  {
    Doc(Metadata(req.title, req.contentType, Initialized, now, now, req.audience, req.missionPillars),
        Workflow(TemplateSelection, [], []), None, None)
  }

  /**
   * What one handler run does to the store: at most one document write and
   * at most one published event.
   */
  datatype Effect = Effect(write: Option<(string, Doc)>, event: Option<Event>)

  const NoEffect := Effect(None, None)

  /**
   * `initialize_content_creation`: the reply and its effect. Nothing is
   * stored or published for a 400; the event is published only after the
   * document is stored, and names it; the reply is a success exactly when
   * the event went out.
   */
  function Initialize(body: Option<Json.Json>, uuid: string, now: string, storeError: Option<string>, publishError: Option<string>): (r: (Response, Effect))
    ensures r.0.code in {200, 400, 500}
    ensures r.0.code == 400 ==> r.1 == NoEffect
    ensures Validate(body).Err? ==> r == (Validate(body).error, NoEffect)
    ensures r.1.event.Some? ==> r.1.write.Some? && r.1.event.value == Event(Topic, r.1.write.value.0, SelectTemplateAction)
    ensures r.1.write.Some? <==> Validate(body).Ok? && storeError.None?
    ensures r.1.write.Some? ==> r.1.write.value == (ContentId(Validate(body).value.contentType, uuid), InitialDoc(Validate(body).value, now))
    ensures r.0.code == 200 <==> r.1.event.Some?
    ensures r.0.code == 200 <==> Validate(body).Ok? && storeError.None? && publishError.None?
    ensures r.0.code == 200 ==> r.0 == Response(200, "success", InitializedMessage, Some(r.1.write.value.0))
    ensures r.0.code == 500 ==> StartsWith(r.0.message, InitializeError)
  {
    match Validate(body)
    case Err(resp) => (resp, NoEffect)
    case Ok(req) =>
      var id := ContentId(req.contentType, uuid);
      if storeError.Some? then (Failure(storeError.value), NoEffect)
      else
        var stored := Some((id, InitialDoc(req, now)));
        if publishError.Some? then (Failure(publishError.value), Effect(stored, None))
        else (Response(200, "success", InitializedMessage, Some(id)), Effect(stored, Some(Event(Topic, id, SelectTemplateAction))))
  }

  // ------------------------------------------------------- the event handlers

  /** The decoded message a published event carries: `{"content_id": id, "action": action}`. */
  function Message(e: Event): Json.Json
  {
    Json.JObj([("content_id", Json.JStr(e.contentId)), ("action", Json.JStr(e.action))])
  }

  /**
   * The document id a handler acts on: the message's `content_id` when it is
   * a non-empty text. A message that did not decode (`None`), one that is no
   * object, and an id that is no text raise, and the handler catches it.
   */
  function TargetId(message: Option<Json.Json>): (r: Option<string>)
    ensures r.Some? <==> (message.Some? && message.value.JObj? && Present(Json.Get(message.value.props, "content_id"))
                          && Json.Get(message.value.props, "content_id").value.JStr?)
    ensures r.Some? ==> r.value != [] && Json.Get(message.value.props, "content_id") == Some(Json.JStr(r.value))
  {
    if message.None? || !message.value.JObj? then None
    else
      var id := Json.Get(message.value.props, "content_id");
      if Present(id) && id.value.JStr? then Some(id.value.s) else None
  }

  /** Every message an event carries names its document. */
  lemma MessageTargets(e: Event)
    requires e.contentId != []
    ensures TargetId(Some(Message(e))) == Some(e.contentId)
  {
    Json.GetAt(Message(e).props, "content_id", 0);
  }

  /** The update when no template is found: status "error", stage "template_selection_failed". */
  function SelectionFailure(d: Doc): (r: Doc)
    ensures WellFormed(d) ==> WellFormed(r)
    ensures r.metadata.status == ErrorStatus && r.workflow.currentStage == SelectionFailed
    ensures r.workflow.stagesCompleted == d.workflow.stagesCompleted && r.metadata.updated == d.metadata.updated
    ensures r.template == d.template && r.plan == d.plan
  {
    d.(metadata := d.metadata.(status := ErrorStatus), workflow := d.workflow.(currentStage := SelectionFailed))
  }

  /**
   * The update when a template is found: the template is stored, the status
   * becomes "template_selected", the stage "content_planning", and
   * "template_selection" joins the completed stages.
   */
  function WithTemplate(d: Doc, template: Json.Json, now: string): (r: Doc)
    requires WellFormed(d)
    ensures WellFormed(r)
    ensures r.template == Some(template) && r.plan == d.plan
    ensures r.metadata.status == TemplateSelected && r.workflow.currentStage == ContentPlanning
    ensures r.workflow.stagesCompleted == ArrayUnion(d.workflow.stagesCompleted, TemplateSelection)
    ensures r.metadata.updated == now
  {
    d.(template := Some(template),
       metadata := d.metadata.(status := TemplateSelected, updated := now),
       workflow := d.workflow.(currentStage := ContentPlanning,
                               stagesCompleted := ArrayUnion(d.workflow.stagesCompleted, TemplateSelection)))
  }

  /** A stage update keeps the title, type, creation time, audience, pillars and reviewers. */
  predicate SameContent(d: Doc, e: Doc)
  {
    && e.metadata.title == d.metadata.title && e.metadata.contentType == d.metadata.contentType
    && e.metadata.created == d.metadata.created && e.metadata.audience == d.metadata.audience
    && e.metadata.missionPillars == d.metadata.missionPillars
    && e.workflow.assignedReviewers == d.workflow.assignedReviewers
  }

  /**
   * `select_template`, given the documents and the template query `templates`
   * (type and audience to the first matching template, if any). No valid id
   * or no document: no effect. A falsy template: the failure update and no
   * event. Otherwise the template update, then `generate_content_plan`
   * unless publishing fails.
   */
  function SelectTemplate(docs: map<string, Doc>, message: Option<Json.Json>, templates: (string, Json.Json) -> Option<Json.Json>, now: string, publishError: bool): (r: Effect)
    requires AllWellFormed(docs)
    ensures r.write.None? <==> TargetId(message).None? || TargetId(message).value !in docs
    ensures r.write.None? ==> r.event.None?
    ensures r.write.Some? ==> (var (id, d) := r.write.value; id in docs && var old_d := docs[id];
      var t := templates(old_d.metadata.contentType, old_d.metadata.audience);
      && TargetId(message) == Some(id) && WellFormed(d) && SameContent(old_d, d)
      && (t.Some? && Json.Truthy(t.value) ==> d == WithTemplate(old_d, t.value, now))
      && (!(t.Some? && Json.Truthy(t.value)) ==> d == SelectionFailure(old_d) && r.event.None?)
      && (r.event.Some? <==> t.Some? && Json.Truthy(t.value) && !publishError)
      && (r.event.Some? ==> r.event.value == Event(Topic, id, GeneratePlanAction)))
  {
    match TargetId(message)
    case None => NoEffect
    case Some(id) =>
      if id !in docs then NoEffect
      else
        var d := docs[id];
        var t := templates(d.metadata.contentType, d.metadata.audience);
        if !(t.Some? && Json.Truthy(t.value)) then Effect(Some((id, SelectionFailure(d))), None)
        else Effect(Some((id, WithTemplate(d, t.value, now))), if publishError then None else Some(Event(Topic, id, GeneratePlanAction)))
  }

  /** `audience_level if audience_level else 'General'`. */
  function AudienceText(audience: Json.Json): string
  {
    if Json.Truthy(audience) then Json.PyStr(audience) else "General"
  }

  /** A text as the sequence of its one-character texts, as `join` iterates it. */
  function Chars(s: string): (r: seq<string>)
    ensures |r| == |s| && forall k :: 0 <= k < |s| ==> r[k] == [s[k]]
  {
    if s == [] then [] else Chars(s[..|s| - 1]) + [[s[|s| - 1]]]
  }

  /** The texts of an array whose elements are all texts. */
  function Texts(items: seq<Json.Json>): (r: Option<seq<string>>)
    ensures r.Some? <==> forall k :: 0 <= k < |items| ==> items[k].JStr?
    ensures r.Some? ==> |r.value| == |items| && forall k :: 0 <= k < |items| ==> r.value[k] == items[k].s
  {
    if items == [] then Some([])
    else
      match Texts(items[..|items| - 1])
      case None => None
      case Some(init) => if items[|items| - 1].JStr? then Some(init + [items[|items| - 1].s]) else None
  }

  /**
   * `', '.join(mission_pillars) if mission_pillars else 'None specified'`: a
   * falsy value gives the default, a text is joined character by character,
   * an array of texts element by element, a dict by its keys; anything else
   * makes `join` raise.
   */
  function PillarsText(pillars: Json.Json): (r: Option<string>)
    ensures !Json.Truthy(pillars) ==> r == Some("None specified")
    ensures (Json.Truthy(pillars) && pillars.JArr?) ==> (r.Some? <==> forall k :: 0 <= k < |pillars.items| ==> pillars.items[k].JStr?)
    ensures (Json.Truthy(pillars) && pillars.JArr? && r.Some?) ==>
              r == Some(Join(seq(|pillars.items|, k requires 0 <= k < |pillars.items| && pillars.items[k].JStr? => pillars.items[k].s), ", "))
    ensures (Json.Truthy(pillars) && pillars.JStr?) ==> r == Some(Join(seq(|pillars.s|, k requires 0 <= k < |pillars.s| => [pillars.s[k]]), ", "))
    ensures (Json.Truthy(pillars) && pillars.JObj?) ==> r == Some(Join(Json.DictKeys(pillars.props), ", "))
    ensures (Json.Truthy(pillars) && !pillars.JArr? && !pillars.JStr? && !pillars.JObj?) ==> r.None?
  {
    if !Json.Truthy(pillars) then Some("None specified")
    else match pillars
      case JStr(s) =>
        assert Chars(s) == seq(|s|, k requires 0 <= k < |s| => [s[k]]);
        Some(Join(Chars(s), ", "))
      case JArr(items) =>
        (match Texts(items)
         case None => None
         case Some(ts) =>
           assert ts == seq(|items|, k requires 0 <= k < |items| && items[k].JStr? => items[k].s);
           Some(Join(ts, ", ")))
      case JObj(props) => Some(Join(Json.DictKeys(props), ", "))
      case _ => None
  }

  /**
   * The plan prompt around its five fields; `frame` holds the fixed text
   * between them.
   */
  function PlanPromptWith(frame: seq<string>, contentType: string, title: string, audience: string, pillars: string, template: string): string
    requires |frame| == 6
  {
    frame[0] + contentType + frame[1] + title + frame[2] + audience + frame[3] + pillars + frame[4] + template + frame[5]
  }

  const PlanFrame: seq<string> := [
    "\n        You are an expert content planner for the AI Community & Sustainability Hub.\n        Create a detailed content plan for a ",
    " titled '",
    "'.\n\n        Audience level: ",
    "\n        Primary mission pillars: ",
    "\n\n        The content should follow this template structure:\n        ",
    "\n\n        Generate a comprehensive content plan that includes:\n        1. Specific learning objectives (SMART goals)\n        2. Key concepts to cover in each section\n        3. Practical examples and applications\n        4. Visual elements to include\n        5. Source requirements (types of sources needed)\n        6. Mission pillar integration points\n\n        Format the response as a structured JSON object.\n        "
  ]

  /** The plan prompt, with the fixed text `frame`; `dumps` is `json.dumps(·, indent=2)`. */
  function PlanPrompt(frame: seq<string>, d: Doc, pillars: string, dumps: Json.Json -> string): string
    requires |frame| == 6
  {
    PlanPromptWith(frame, d.metadata.contentType, Json.PyStr(d.metadata.title), AudienceText(d.metadata.audience),
                   pillars, dumps(d.template.GetOr(Json.JObj([]))))
  }

  /** The stored plan: the decoded answer, or `{"raw_plan": text}` when it does not decode. */
  function PlanOf(text: string, parse: Json.Parser): (r: Json.Json)
    ensures parse(text).Some? ==> r == parse(text).value
    ensures parse(text).None? ==> Json.Member(r, "raw_plan") == Some(Json.JStr(text))
  {
    match parse(text)
    case Some(j) => j
    case None => Json.JObj([("raw_plan", Json.JStr(text))])
  }

  /**
   * The update once a plan exists: the plan is stored, the status becomes
   * "plan_generated", the stage "section_population", and
   * "content_planning" joins the completed stages.
   */
  function WithPlan(d: Doc, plan: Json.Json, now: string): (r: Doc)
    requires WellFormed(d)
    ensures WellFormed(r)
    ensures r.plan == Some(plan) && r.template == d.template
    ensures r.metadata.status == PlanGenerated && r.workflow.currentStage == SectionPopulation
    ensures r.workflow.stagesCompleted == ArrayUnion(d.workflow.stagesCompleted, ContentPlanning)
    ensures r.metadata.updated == now
  {
    d.(plan := Some(plan),
       metadata := d.metadata.(status := PlanGenerated, updated := now),
       workflow := d.workflow.(currentStage := SectionPopulation,
                               stagesCompleted := ArrayUnion(d.workflow.stagesCompleted, ContentPlanning)))
  }

  /**
   * `generate_content_plan`, given the Vertex AI call `vertex` (prompt,
   * temperature, token limit; `None` when it raises), the decoder and the
   * encoder. No valid id, no document, pillars `join` cannot take, or a
   * failed call: no effect. Otherwise the plan update, then
   * `populate_sections` unless publishing fails.
   */
  function GenerateContentPlan(frame: seq<string>, docs: map<string, Doc>, message: Option<Json.Json>, vertex: (string, string, int) -> Option<string>,
                               parse: Json.Parser, dumps: Json.Json -> string, now: string, publishError: bool): (r: Effect)
    requires |frame| == 6 && AllWellFormed(docs)
    ensures r.write.None? ==> r.event.None?
    ensures (TargetId(message).None? || TargetId(message).value !in docs) ==> r == NoEffect
    ensures r.write.Some? ==> (var (id, d) := r.write.value; id in docs && var old_d := docs[id];
      var pillars := PillarsText(old_d.metadata.missionPillars);
      && TargetId(message) == Some(id) && WellFormed(d) && SameContent(old_d, d)
      && pillars.Some?
      && vertex(PlanPrompt(frame, old_d, pillars.value, dumps), PlanTemperature, PlanMaxTokens).Some?
      && d == WithPlan(old_d, PlanOf(vertex(PlanPrompt(frame, old_d, pillars.value, dumps), PlanTemperature, PlanMaxTokens).value, parse), now)
      && (r.event.Some? <==> !publishError)
      && (r.event.Some? ==> r.event.value == Event(Topic, id, PopulateSectionsAction)))
  {
    match TargetId(message)
    case None => NoEffect
    case Some(id) =>
      if id !in docs then NoEffect
      else
        var d := docs[id];
        match PillarsText(d.metadata.missionPillars)
        case None => NoEffect
        case Some(pillars) =>
          match vertex(PlanPrompt(frame, d, pillars, dumps), PlanTemperature, PlanMaxTokens)
          case None => NoEffect
          case Some(text) =>
            Effect(Some((id, WithPlan(d, PlanOf(text, parse), now))), if publishError then None else Some(Event(Topic, id, PopulateSectionsAction)))
  }

  // ------------------------------------------------------------------ store

  /** The documents after an effect's write. */
  function Written(docs: map<string, Doc>, e: Effect): map<string, Doc>
  {
    if e.write.Some? then docs[e.write.value.0 := e.write.value.1] else docs
  }

  /** The published events after an effect's event. */
  function Published(events: seq<Event>, e: Effect): seq<Event>
  {
    if e.event.Some? then events + [e.event.value] else events
  }

  /** The collection `content-items` and the events published on the topic. */
  class ContentStore {
    var docs: map<string, Doc>
    var events: seq<Event>

    /**
     * Every document keeps the workflow invariant, and every event went out
     * on the topic after the document it names was stored.
     */
    predicate Valid()
      reads this
    {
      && AllWellFormed(docs)
      && (forall k :: 0 <= k < |events| ==> events[k].topic == Topic && events[k].contentId in docs)
    }

    constructor ()
      ensures Valid() && docs == map[] && events == []
    {
      docs := map[];
      events := [];
    }

    /** Applies a handler's effect: the write first, then the event. */
    method Apply(e: Effect)
      requires Valid()
      requires e.write.Some? ==> WellFormed(e.write.value.1)
      requires e.event.Some? ==> e.event.value.topic == Topic && e.event.value.contentId in Written(docs, e)
      modifies this
      ensures Valid()
      ensures docs == Written(old(docs), e) && events == Published(old(events), e)
    {
      if e.write.Some? {
        docs := docs[e.write.value.0 := e.write.value.1];
      }
      if e.event.Some? {
        events := events + [e.event.value];
      }
    }

    /** The HTTP handler: stores the new document, then publishes `select_template`. */
    method InitializeContentCreation(body: Option<Json.Json>, uuid: string, now: string, storeError: Option<string>, publishError: Option<string>)
      returns (resp: Response)
      requires Valid()
      modifies this
      ensures Valid()
      ensures var (reply, e) := Initialize(body, uuid, now, storeError, publishError);
        resp == reply && docs == Written(old(docs), e) && events == Published(old(events), e)
    {
      var r := Initialize(body, uuid, now, storeError, publishError);
      resp := r.0;
      Apply(r.1);
    }

    /** The `select_template` handler. */
    method SelectTemplateHandler(message: Option<Json.Json>, templates: (string, Json.Json) -> Option<Json.Json>, now: string, publishError: bool)
      requires Valid()
      modifies this
      ensures Valid()
      ensures var e := SelectTemplate(old(docs), message, templates, now, publishError);
        docs == Written(old(docs), e) && events == Published(old(events), e)
    {
      var e := SelectTemplate(docs, message, templates, now, publishError);
      Apply(e);
    }

    /** The `generate_content_plan` handler. */
    method GenerateContentPlanHandler(message: Option<Json.Json>, vertex: (string, string, int) -> Option<string>,
                                      parse: Json.Parser, dumps: Json.Json -> string, now: string, publishError: bool)
      requires Valid()
      modifies this
      ensures Valid()
      ensures var e := GenerateContentPlan(PlanFrame, old(docs), message, vertex, parse, dumps, now, publishError);
        docs == Written(old(docs), e) && events == Published(old(events), e)
    {
      var e := GenerateContentPlan(PlanFrame, docs, message, vertex, parse, dumps, now, publishError);
      Apply(e);
    }
  }

  // -------------------------------------------------------------- the chain

  /** A write of a well-formed document keeps every document well-formed. */
  lemma WrittenWellFormed(docs: map<string, Doc>, e: Effect)
    requires AllWellFormed(docs)
    requires e.write.Some? ==> WellFormed(e.write.value.1)
    ensures AllWellFormed(Written(docs, e))
  {
  }

  /** `select_template` on the message naming a document whose template is found. */
  lemma SelectStep(docs: map<string, Doc>, id: string, templates: (string, Json.Json) -> Option<Json.Json>, now: string)
    requires AllWellFormed(docs) && id in docs && id != []
    requires var t := templates(docs[id].metadata.contentType, docs[id].metadata.audience); t.Some? && Json.Truthy(t.value)
    ensures var e := SelectTemplate(docs, Some(Message(Event(Topic, id, SelectTemplateAction))), templates, now, false);
      && e.event == Some(Event(Topic, id, GeneratePlanAction))
      && e.write == Some((id, WithTemplate(docs[id], templates(docs[id].metadata.contentType, docs[id].metadata.audience).value, now)))
  {
    MessageTargets(Event(Topic, id, SelectTemplateAction));
  }

  /** `generate_content_plan` on the message naming a document whose plan call succeeds. */
  lemma PlanStep(frame: seq<string>, docs: map<string, Doc>, id: string, vertex: (string, string, int) -> Option<string>,
                 parse: Json.Parser, dumps: Json.Json -> string, now: string)
    requires |frame| == 6 && AllWellFormed(docs) && id in docs && id != []
    requires PillarsText(docs[id].metadata.missionPillars).Some?
    requires forall p :: vertex(p, PlanTemperature, PlanMaxTokens).Some?
    ensures var e := GenerateContentPlan(frame, docs, Some(Message(Event(Topic, id, GeneratePlanAction))), vertex, parse, dumps, now, false);
      && e.event == Some(Event(Topic, id, PopulateSectionsAction))
      && e.write.Some? && e.write.value.0 == id
      && e.write.value.1.metadata.status == PlanGenerated && e.write.value.1.workflow.currentStage == SectionPopulation
      && e.write.value.1.workflow.stagesCompleted == ArrayUnion(docs[id].workflow.stagesCompleted, ContentPlanning)
  {
    MessageTargets(Event(Topic, id, GeneratePlanAction));
  }

  /** `initialize_content_creation` on a valid request, when nothing fails: one document, at "template_selection", and its event. */
  lemma InitializeStep(body: Option<Json.Json>, uuid: string, now: string) returns (id: string, e1: Effect)
    requires Validate(body).Ok?
    ensures id == ContentId(Validate(body).value.contentType, uuid) && id != []
    ensures Initialize(body, uuid, now, None, None) == (Response(200, "success", InitializedMessage, Some(id)), e1)
    ensures e1.event == Some(Event(Topic, id, SelectTemplateAction))
    ensures Written(map[], e1) == map[id := InitialDoc(Validate(body).value, now)] && AllWellFormed(Written(map[], e1))
  {
    var req := Validate(body).value;
    e1 := Initialize(body, uuid, now, None, None).1;
    id := ContentId(req.contentType, uuid);
    ContentIdParts(req.contentType, uuid);
  }

  /**
   * The first two handlers in a row, the second fed the message the first
   * published, when nothing fails and a template is found: one document,
   * at "content_planning", and two events naming it.
   */
  lemma InitializeThenSelect(body: Option<Json.Json>, uuid: string, now: string, templates: (string, Json.Json) -> Option<Json.Json>)
      returns (id: string, e1: Effect, e2: Effect)
    requires Validate(body).Ok?
    requires var req := Validate(body).value;
      var t := templates(req.contentType, req.audience);
      t.Some? && Json.Truthy(t.value)
    ensures Initialize(body, uuid, now, None, None) == (Response(200, "success", InitializedMessage, Some(id)), e1)
    ensures e1.event == Some(Event(Topic, id, SelectTemplateAction)) && AllWellFormed(Written(map[], e1))
    ensures e2 == SelectTemplate(Written(map[], e1), Some(Message(e1.event.value)), templates, now, false)
    ensures e2.event == Some(Event(Topic, id, GeneratePlanAction))
    ensures var req := Validate(body).value;
      Written(Written(map[], e1), e2) == map[id := WithTemplate(InitialDoc(req, now), templates(req.contentType, req.audience).value, now)]
  {
    var req := Validate(body).value;
    id, e1 := InitializeStep(body, uuid, now);
    var docs1 := Written(map[], e1);
    SelectStep(docs1, id, templates, now);
    e2 := SelectTemplate(docs1, Some(Message(e1.event.value)), templates, now, false);
    var templated := WithTemplate(InitialDoc(req, now), templates(req.contentType, req.audience).value, now);
    assert e2.write == Some((id, templated));
    assert Written(docs1, e2) == map[id := templated];
  }

  /** Planning after template selection completes both, in that order. */
  lemma StagesInOrder()
    ensures ArrayUnion(ArrayUnion([], TemplateSelection), ContentPlanning) == [TemplateSelection, ContentPlanning]
  {
    assert TemplateSelection[0] != ContentPlanning[0];
  }

  /**
   * The three handlers in a row, each fed the message the previous one
   * published, when nothing fails, a template is found and the plan call
   * answers: the document ends at "section_population" with both earlier
   * stages completed, in order, and the three events went out in order, all
   * naming it.
   */
  lemma WorkflowRuns(frame: seq<string>, body: Option<Json.Json>, uuid: string, now: string,
                     templates: (string, Json.Json) -> Option<Json.Json>,
                     vertex: (string, string, int) -> Option<string>, parse: Json.Parser, dumps: Json.Json -> string)
      returns (id: string, e1: Effect, e2: Effect, e3: Effect)
    requires |frame| == 6 && Validate(body).Ok?
    requires var req := Validate(body).value;
      var t := templates(req.contentType, req.audience);
      t.Some? && Json.Truthy(t.value)
    requires PillarsText(Validate(body).value.missionPillars).Some?
    requires forall p :: vertex(p, PlanTemperature, PlanMaxTokens).Some?
    ensures Initialize(body, uuid, now, None, None) == (Response(200, "success", InitializedMessage, Some(id)), e1)
    ensures e1.event == Some(Event(Topic, id, SelectTemplateAction)) && AllWellFormed(Written(map[], e1))
    ensures e2 == SelectTemplate(Written(map[], e1), Some(Message(e1.event.value)), templates, now, false)
    ensures e2.event == Some(Event(Topic, id, GeneratePlanAction)) && AllWellFormed(Written(Written(map[], e1), e2))
    ensures e3 == GenerateContentPlan(frame, Written(Written(map[], e1), e2), Some(Message(e2.event.value)), vertex, parse, dumps, now, false)
    ensures e3.event == Some(Event(Topic, id, PopulateSectionsAction))
    ensures var docs := Written(Written(Written(map[], e1), e2), e3);
      && id in docs && docs[id].workflow.currentStage == SectionPopulation && docs[id].metadata.status == PlanGenerated
      && docs[id].workflow.stagesCompleted == [TemplateSelection, ContentPlanning]
  {
    id, e1, e2 := InitializeThenSelect(body, uuid, now, templates);
    var docs2 := Written(Written(map[], e1), e2);
    assert docs2[id].workflow.stagesCompleted == [TemplateSelection];
    assert docs2[id].metadata.missionPillars == Validate(body).value.missionPillars;
    e3 := PlanAfterSelect(frame, docs2, id, vertex, parse, dumps, now);
  }

  /** `generate_content_plan` fed the message naming a document just past template selection. */
  lemma PlanAfterSelect(frame: seq<string>, docs2: map<string, Doc>, id: string, vertex: (string, string, int) -> Option<string>,
                        parse: Json.Parser, dumps: Json.Json -> string, now: string) returns (e3: Effect)
    requires |frame| == 6 && AllWellFormed(docs2) && id in docs2 && id != []
    requires docs2[id].workflow.stagesCompleted == [TemplateSelection]
    requires PillarsText(docs2[id].metadata.missionPillars).Some?
    requires forall p :: vertex(p, PlanTemperature, PlanMaxTokens).Some?
    ensures e3 == GenerateContentPlan(frame, docs2, Some(Message(Event(Topic, id, GeneratePlanAction))), vertex, parse, dumps, now, false)
    ensures e3.event == Some(Event(Topic, id, PopulateSectionsAction))
    ensures var docs := Written(docs2, e3);
      && id in docs && docs[id].workflow.currentStage == SectionPopulation && docs[id].metadata.status == PlanGenerated
      && docs[id].workflow.stagesCompleted == [TemplateSelection, ContentPlanning]
  {
    PlanStep(frame, docs2, id, vertex, parse, dumps, now);
    e3 := GenerateContentPlan(frame, docs2, Some(Message(Event(Topic, id, GeneratePlanAction))), vertex, parse, dumps, now, false);
    StagesInOrder();
    assert Written(docs2, e3) == docs2[id := e3.write.value.1];
  }
}
