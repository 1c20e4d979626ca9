/**
 * `workflows/content_workflow_supabase.py`: the template contents and
 * sources used when the model cannot be called, validation of the sources
 * the model returns, the fallback model, and the outcomes of generating one
 * item. Prompts, cleaning, the sources section and the dependency check are
 * the same code as in `content_workflow_supabase.py` and are taken from
 * ContentWorkflowSupabase.
 */
module WorkflowSupabase {
  import opened Wrappers
  import opened StrUtil
  import opened Items
  import opened Json
  import CWS = ContentWorkflowSupabase

  // ---------------------------------------------------------------- templates

  /** A template is fixed text with holes for the title and the section. */
  datatype Piece = Text(text: string) | Title | SectionName

  function Fill(pieces: seq<Piece>, title: string, section: string): string
  {
    if pieces == [] then ""
    else
      var head := match pieces[0]
        case Text(t) => t
        case Title => title
        case SectionName => section;
      head + Fill(pieces[1..], title, section)
  }

  /** Every template starts with the title as a first-level heading. */
  function Heading(title: string): string
  {
    "# " + title + "\n\n"
  }

  function ArticleBody(): seq<Piece>
  {
    [
    Text("## Introduction\n\nThis article provides an overview of "),
    Title,
    Text(". It covers key concepts, important considerations, and practical applications. By the end of this article, readers will have a solid understanding of "),
    Title,
    Text(" and its relevance to "),
    SectionName,
    Text(".\n\n## Key Concepts\n\nThe key concepts related to "),
    Title,
    Text(" include:\n\n1. **Concept One**: Description of the first key concept.\n\n2. **Concept Two**: Description of the second key concept.\n\n3. **Concept Three**: Description of the third key concept.\n\n## Important Considerations\n\nWhen working with "),
    Title,
    Text(", it's important to consider the following factors:\n\n- **Consideration One**: Details about the first consideration.\n\n- **Consideration Two**: Details about the second consideration.\n\n- **Consideration Three**: Details about the third consideration.\n\n## Practical Applications\n\nHere are some practical applications of "),
    Title,
    Text(":\n\n1. **Application One**: Description of the first application.\n\n2. **Application Two**: Description of the second application.\n\n3. **Application Three**: Description of the third application.\n\n## Conclusion\n\nThis article has provided an overview of "),
    Title,
    Text(", covering key concepts, important considerations, and practical applications. Understanding "),
    Title,
    Text(" is essential for anyone working in "),
    SectionName,
    Text(", as it enables more effective decision-making and problem-solving.\n")
    ]
  }

  function TutorialBody(): seq<Piece>
  {
    [
    Text("## Introduction\n\nThis tutorial guides you through "),
    Title,
    Text(". By following these steps, you'll learn how to implement and apply "),
    Title,
    Text(" in practical scenarios. This tutorial is designed for readers interested in "),
    SectionName,
    Text(".\n\n## Prerequisites\n\nBefore starting this tutorial, you should have:\n\n- Prerequisite One\n- Prerequisite Two\n- Prerequisite Three\n\n## Step 1: Getting Started\n\nInstructions for the first step.\n\n```python\n# Example code for step 1\nprint('Hello, World!')\n```\n\n## Step 2: Implementing Core Functionality\n\nInstructions for the second step.\n\n```python\n# Example code for step 2\ndef example_function():\n    return 'Example output'\n```\n\n## Step 3: Testing and Validation\n\nInstructions for the third step.\n\n```python\n# Example code for step 3\nassert example_function() == 'Example output'\nprint('All tests passed!')\n```\n\n## Conclusion\n\nThis tutorial has guided you through "),
    Title,
    Text(". You've learned how to implement and apply "),
    Title,
    Text(" in practical scenarios. Continue exploring "),
    SectionName,
    Text(" to build on what you've learned.\n")
    ]
  }

  function CaseStudyBody(): seq<Piece>
  {
    [
    Text("## Introduction\n\nThis case study examines "),
    Title,
    Text(". It provides insights into real-world applications, challenges, and solutions related to "),
    Title,
    Text(". This case study is relevant to professionals and researchers in "),
    SectionName,
    Text(".\n\n## Background\n\nBackground information about "),
    Title,
    Text(" and its context.\n\n## The Challenge\n\nDescription of the challenges related to "),
    Title,
    Text(".\n\n## The Solution\n\nDescription of the solutions implemented to address the challenges of "),
    Title,
    Text(".\n\n## Results and Impact\n\nDescription of the results and impact of the solutions implemented for "),
    Title,
    Text(".\n\n## Lessons Learned\n\nKey lessons learned from this case study on "),
    Title,
    Text(".\n\n## Conclusion\n\nThis case study has examined "),
    Title,
    Text(", providing insights into real-world applications, challenges, and solutions. The lessons learned from this case study can be applied to similar situations in "),
    SectionName,
    Text(".\n")
    ]
  }

  function CopyrightBody(): seq<Piece>
  {
    [
    Text("## Copyright Notice\n\nThe AI model detected that generating content about this topic might infringe on copyrighted material. To respect intellectual property rights, we've provided a template-based overview instead.\n\n## Overview\n\nThis content would typically cover "),
    Title,
    Text(", including:\n\n- Definitions and key concepts\n- Popular models and their capabilities\n- Open source vs. proprietary options\n- Use cases and applications\n- Ethical considerations\n\n## Recommendation\n\nFor detailed information about specific LLMs, please consult the official documentation and research papers from the model creators.\n\n")
    ]
  }

  /**
   * The fixed material of the workflow: the wording of the three templates
   * and of the copyright notice, the template sources for a title, section
   * and year, the two sources of the copyright path and the
   * default source.
   */
  datatype Canned = Canned(article: seq<Piece>, tutorial: seq<Piece>, caseStudy: seq<Piece>, copyright: seq<Piece>,
                           templateSources: (string, string, int) -> seq<SourceFields>,
                           copyrightSources: seq<SourceFields>, defaultSources: seq<SourceFields>)

  lemma PrefixStarts(a: string, b: string)
    ensures StartsWith(a + b, a)
  {
    assert (a + b)[..|a|] == a;
  }

  /** The three kinds of template content. */
  datatype TemplateKind = Article | Tutorial | CaseStudy

  /** The lowered `content_type` (default "Article") chooses the template. */
  function KindOf(item: Item): (k: TemplateKind)
    ensures k == Tutorial <==> Lower(FieldOr(item, "content_type", "Article")) == "tutorial"
    ensures k == CaseStudy <==> Lower(FieldOr(item, "content_type", "Article")) == "case study"
  {
    var t := Lower(FieldOr(item, "content_type", "Article"));
    if t == "tutorial" then Tutorial else if t == "case study" then CaseStudy else Article
  }

  /** The section a template names, "Learning" when the row has none. */
  function Section(item: Item): string
  {
    FieldOr(item, "section", "Learning")
  }

  /** The template of a kind, filled with the title and the section, under the title's heading. */
  function Render(canned: Canned, kind: TemplateKind, title: string, section: string): (r: string)
    ensures StartsWith(r, Heading(title))
  {
    var body := match kind
      case Tutorial => canned.tutorial
      case CaseStudy => canned.caseStudy
      case Article => canned.article;
    PrefixStarts(Heading(title), Fill(body, title, section));
    Heading(title) + Fill(body, title, section)
  }

  /** `generate_template_content`: the item's kind of template, with its title and section. */
  function TemplateContent(canned: Canned, item: Item): (r: string)
    ensures StartsWith(r, Heading(CWS.Col(item, "title")))
    ensures Lower(FieldOr(item, "content_type", "Article")) == "tutorial" ==>
      r == Render(canned, Tutorial, CWS.Col(item, "title"), FieldOr(item, "section", "Learning"))
    ensures Lower(FieldOr(item, "content_type", "Article")) == "case study" ==>
      r == Render(canned, CaseStudy, CWS.Col(item, "title"), FieldOr(item, "section", "Learning"))
    ensures Lower(FieldOr(item, "content_type", "Article")) !in {"tutorial", "case study"} ==>
      r == Render(canned, Article, CWS.Col(item, "title"), FieldOr(item, "section", "Learning"))
  {
    Render(canned, KindOf(item), CWS.Col(item, "title"), Section(item))
  }

  /** Any content type that is neither a tutorial nor a case study gets the article template. */
  lemma OtherTypesGetArticle(item: Item)
    requires Lower(FieldOr(item, "content_type", "Article")) != "tutorial"
    requires Lower(FieldOr(item, "content_type", "Article")) != "case study"
    ensures KindOf(item) == Article
  {
  }

  /** With no content type the row is an article. */
  lemma MissingTypeIsArticle(item: Item)
    requires "content_type" !in item
    ensures KindOf(item) == Article
  {
    assert FieldOr(item, "content_type", "Article") == "Article";
    assert Lower("Article")[0] == 'a';
  }

  // ---------------------------------------------------------------- sources

  /** The fields of a source the workflow writes itself. */
  datatype SourceFields = SourceFields(id: string, title: string, authors: seq<string>, year: Json, venue: string,
                                       url: string, citation: string)

  /** One source object, in the key order the source code writes. */
  function SourceObject(f: SourceFields): (r: Json)
    ensures CWS.Citable(r)
    ensures CWS.SourceEntry(r) == Ok("[" + f.id + "] " + f.citation + "\n\n")
  {
    var props := [("id", JStr(f.id)), ("title", JStr(f.title)), ("authors", JArr(Strings(f.authors))), ("year", f.year),
                  ("venue", JStr(f.venue)), ("url", JStr(f.url)), ("citation", JStr(f.citation))];
    GetAt(props, "id", 0);
    GetAt(props, "citation", 6);
    JObj(props)
  }

  /** The objects of a list of fields, each of which can be cited. */
  function Objects(fs: seq<SourceFields>): (r: seq<Json>)
    ensures |r| == |fs|
    ensures forall k :: 0 <= k < |r| ==> r[k] == SourceObject(fs[k]) && CWS.Citable(r[k])
  {
    if fs == [] then [] else [SourceObject(fs[0])] + Objects(fs[1..])
  }

  function Strings(s: seq<string>): (r: seq<Json>)
    ensures |r| == |s|
  {
    if s == [] then [] else [JStr(s[0])] + Strings(s[1..])
  }

  /** The ids of the three template sources: "ref" and the year, ending in a, b and c. */
  function TemplateIds(year: int): (r: seq<string>)
    ensures |r| == 3 && forall k :: 0 <= k < 3 ==> StartsWith(r[k], "ref")
    ensures r[0] != r[1] && r[1] != r[2] && r[0] != r[2]
  {
    var i0, i1, i2 := "ref" + IntToString(year) + "a", "ref" + IntToString(year - 1) + "b", "ref" + IntToString(year - 2) + "c";
    assert i0[|i0| - 1] == 'a' && i1[|i1| - 1] == 'b' && i2[|i2| - 1] == 'c';
    assert i0[..3] == i1[..3] == i2[..3] == "ref";
    [i0, i1, i2]
  }

  /** The titles of the three template sources, each naming the content's title. */
  function TemplateTitles(title: string, section: string): (r: seq<string>)
    ensures |r| == 3 && forall k :: 0 <= k < 3 ==> Contains(r[k], title)
  {
    var t0 := "Understanding " + title;
    var t1 := "Practical Applications of " + title;
    var pre2 := "The Future of " + section + ": ";
    var t2 := pre2 + title + " and Beyond";
    assert t0[14..14 + |title|] == title;
    assert t1[26..26 + |title|] == title;
    assert t2[|pre2|..|pre2| + |title|] == title;
    ContainsAt(t0, title, 14);
    ContainsAt(t1, title, 26);
    ContainsAt(t2, title, |pre2|);
    [t0, t1, t2]
  }

  /** `generate_template_sources`, with the clock's year as a parameter. */
  function TemplateSources(title: string, section: string, year: int): (r: seq<SourceFields>)
    ensures |r| == 3
    ensures forall k :: 0 <= k < 3 ==> r[k].year == JStr(IntToString(year - k)) && StartsWith(r[k].id, "ref")
    ensures forall k :: 0 <= k < 3 ==> Contains(r[k].title, title)
    ensures r[0].id != r[1].id && r[1].id != r[2].id && r[0].id != r[2].id
  {
    var y0 := IntToString(year);
    var y1 := IntToString(year - 1);
    var y2 := IntToString(year - 2);
    var ids := TemplateIds(year);
    var ts := TemplateTitles(title, section);
    [ SourceFields(ids[0], ts[0], ["Smith, J.", "Johnson, A."], JStr(y0),
                   "Journal of Artificial Intelligence", "https://example.com/ai-journal",
                   "Smith, J., & Johnson, A. (" + y0 + "). Understanding " + title + ". Journal of Artificial Intelligence, 15(2), 45-67."),
      SourceFields(ids[1], ts[1], ["Brown, R."], JStr(y1),
                   "AI Conference Proceedings", "https://example.com/ai-conference",
                   "Brown, R. (" + y1 + "). Practical Applications of " + title + ". In AI Conference Proceedings (pp. 123-145)."),
      SourceFields(ids[2], ts[2],
                   ["Davis, M.", "Wilson, E.", "Taylor, S."], JStr(y2), "Tech Review", "https://example.com/tech-review",
                   "Davis, M., Wilson, E., & Taylor, S. (" + y2 + "). The Future of " + section + ": " + title + " and Beyond. Tech Review, 8(4), 78-92.") ]
  }

  /**
   * The material the source writes, with the two sources of the copyright
   * path and the single default source used when the fallback model fails too.
   */
  function SourceCanned(): Canned
  {
    Canned(ArticleBody(), TutorialBody(), CaseStudyBody(), CopyrightBody(), TemplateSources,
           [ SourceFields("copyright2023", "Copyright Notice for AI-Generated Content", ["AI Hub Content Team"], JStr("2023"),
                          "AI Hub Documentation", "https://example.com/copyright-notice",
                          "AI Hub Content Team. (2023). Copyright Notice for AI-Generated Content. AI Hub Documentation."),
             SourceFields("llmethics2023", "Ethical Considerations in Large Language Models", ["Ethics Committee"], JStr("2023"),
                          "AI Ethics Journal", "https://example.com/llm-ethics",
                          "Ethics Committee. (2023). Ethical Considerations in Large Language Models. AI Ethics Journal, 5(2), 45-67.") ],
           [ SourceFields("default_source_1", "Understanding AI Implementation", ["AI Research Team"], JInt(2023),
                          "Journal of AI Applications", "https://example.com/ai-implementation",
                          "AI Research Team. (2023). Understanding AI Implementation. Journal of AI Applications.") ])
  }

  /** The copyright notice content for a title. */
  function CopyrightContent(canned: Canned, title: string): (r: string)
    ensures StartsWith(r, Heading(title))
  {
    PrefixStarts(Heading(title), Fill(canned.copyright, title, ""));
    Heading(title) + Fill(canned.copyright, title, "")
  }

  /** A citable source list always yields its sources section. */
  lemma CitableAdded(content: string, sources: seq<Json>, date: string)
    requires forall k :: 0 <= k < |sources| ==> CWS.Citable(sources[k])
    ensures CWS.AddSources(content, sources, date).Ok?
  {
    CWS.SourceEntriesOk(sources, |sources|);
  }

  // ---------------------------------------------------------------- validation

  /** A source the checks accept: a dict with id, title and authors, the authors a list or a string. */
  predicate Acceptable(source: Json)
  {
    source.JObj? && Get(source.props, "id").Some? && Get(source.props, "title").Some?
    && Get(source.props, "authors").Some? && (Get(source.props, "authors").value.JArr? || Get(source.props, "authors").value.JStr?)
  }

  /** `fixed` is `source` with list-valued authors and every other key as it was. */
  ghost predicate AuthorsFixed(source: Json, fixed: Json)
    requires Acceptable(source)
  {
    var authors := Get(source.props, "authors").value;
    fixed.JObj? && Get(fixed.props, "authors") == Some(if authors.JArr? then authors else JArr([authors]))
    && (forall k :: k != "authors" ==> Get(fixed.props, k) == Get(source.props, k))
  }

  /** One source after the checks, string authors wrapped in a list. */
  function Checked(source: Json): (r: Result<Json, string>)
    ensures r.Ok? <==> Acceptable(source)
  {
    if !source.JObj? then Err("Expected source to be a dictionary")
    else if Get(source.props, "id").None? || Get(source.props, "title").None? || Get(source.props, "authors").None? then
      Err("Source missing required fields")
    else
      var authors := Get(source.props, "authors").value;
      if authors.JArr? then Ok(source)
      else if authors.JStr? then Ok(WrapAuthors(source.props))
      else Err("Authors must be a list")
  }

  /** `source['authors'] = [source['authors']]`. */
  function WrapAuthors(props: seq<(string, Json)>): Json
    requires Get(props, "authors").Some?
  {
    JObj(Put(props, "authors", JArr([Get(props, "authors").value])))
  }

  /** An accepted source keeps every key but the authors, whose value becomes a list. */
  lemma CheckedFixesAuthors(source: Json)
    requires Acceptable(source)
    ensures AuthorsFixed(source, Checked(source).value)
    ensures Get(source.props, "authors").value.JArr? ==> Checked(source).value == source
  {
  }

  /** `f` applied to the first `n` items in turn, or the first error it gives. */
  function TryEach<T>(f: T -> Result<T, string>, items: seq<T>, n: nat): (r: Result<seq<T>, string>)
    requires n <= |items|
    ensures r.Ok? ==> |r.value| == n
  {
    if n == 0 then Ok([])
    else
      var p := TryEach(f, items, n - 1);
      var c := f(items[n - 1]);
      if p.Err? then p else if c.Err? then Err(c.error) else Ok(p.value + [c.value])
  }

  /** The items all pass exactly when each one does. */
  lemma {:induction false} TryEachOk<T>(f: T -> Result<T, string>, items: seq<T>, n: nat)
    requires n <= |items|
    ensures TryEach(f, items, n).Ok? <==> forall k :: 0 <= k < n ==> f(items[k]).Ok?
  {
    if n > 0 {
      TryEachOk(f, items, n - 1);
    }
  }

  /** A passing list holds each item's result, in order. */
  lemma {:induction false} TryEachItems<T>(f: T -> Result<T, string>, items: seq<T>, n: nat)
    requires n <= |items| && TryEach(f, items, n).Ok?
    ensures forall k :: 0 <= k < n ==> f(items[k]).Ok? && TryEach(f, items, n).value[k] == f(items[k]).value
  {
    if n > 0 {
      TryEachItems(f, items, n - 1);
    }
  }

  lemma {:induction false} TryEachErrorSticks<T>(f: T -> Result<T, string>, items: seq<T>, n: nat, m: nat)
    requires n <= m <= |items| && TryEach(f, items, n).Err?
    ensures TryEach(f, items, m) == TryEach(f, items, n)
    decreases m - n
  {
    if n < m {
      TryEachErrorSticks(f, items, n, m - 1);
    }
  }

  /** The list the model returned, validated: a non-list is an error. */
  function Validated(sources: Json): (r: Result<seq<Json>, string>)
    ensures !sources.JArr? ==> r.Err?
  {
    if !sources.JArr? then Err("Expected sources to be a list") else TryEach(Checked, sources.items, |sources.items|)
  }

  /** Validation succeeds exactly on a list whose every element is acceptable. */
  lemma ValidatedIff(sources: Json)
    requires sources.JArr?
    ensures Validated(sources).Ok? <==> forall k :: 0 <= k < |sources.items| ==> Acceptable(sources.items[k])
  {
    TryEachOk(Checked, sources.items, |sources.items|);
  }

  /** After validation every source keeps its keys, and its authors are a list. */
  lemma ValidatedAuthorsAreLists(sources: Json)
    requires Validated(sources).Ok?
    ensures sources.JArr? && |Validated(sources).value| == |sources.items|
    ensures forall k :: 0 <= k < |sources.items| ==>
      Acceptable(sources.items[k]) && AuthorsFixed(sources.items[k], Validated(sources).value[k])
  {
    TryEachItems(Checked, sources.items, |sources.items|);
    forall k | 0 <= k < |sources.items|
      ensures Acceptable(sources.items[k]) && AuthorsFixed(sources.items[k], Validated(sources).value[k])
    {
      CheckedFixesAuthors(sources.items[k]);
    }
  }

  /** Replacing the element after a prefix moves it into the prefix. */
  lemma ReplaceNext<T>(done: seq<T>, rest: seq<T>, x: T)
    requires |rest| > 0
    ensures (done + rest)[|done| := x] == (done + [x]) + rest[1..]
  {
  }

  /** The validation loop, fixing each source of the list in place. */
  method ValidateSources(sources: Json) returns (r: Result<seq<Json>, string>)
    ensures r == Validated(sources)
  {
    if !sources.JArr? {
      return Err("Expected sources to be a list");
    }
    var items := sources.items;
    var fixed := items;
    for i := 0 to |items|
      invariant TryEach(Checked, items, i).Ok?
      invariant fixed == TryEach(Checked, items, i).value + items[i..]
    {
      var c := Checked(fixed[i]);
      assert fixed[i] == items[i];
      if c.Err? {
        assert TryEach(Checked, items, i + 1) == Err(c.error);
        TryEachErrorSticks(Checked, items, i + 1, |items|);
        return Err(c.error);
      }
      ReplaceNext(TryEach(Checked, items, i).value, items[i..], c.value);
      assert items[i..][1..] == items[i + 1..];
      fixed := fixed[i := c.value];
    }
    assert items[|items|..] == [];
    assert fixed == TryEach(Checked, items, |items|).value;
    r := Ok(fixed);
  }

  /** `fallback_model`: gemini-1.5-pro, unless that is the model that failed. */
  function FallbackModel(model: string): (r: string)
    ensures r != model
    ensures model != "gemini-1.5-pro" ==> r == "gemini-1.5-pro"
  {
    if model != "gemini-1.5-pro" then "gemini-1.5-pro" else "gemini-2.0-flash"
  }

  /**
   * The sources the content is built with: the first answer when it validates,
   * otherwise the fallback model's answer unvalidated, otherwise the default source.
   */
  function SelectedSources(primary: Result<Json, string>, fallback: Result<Json, string>, defaults: seq<Json>): (r: Json)
    ensures primary.Ok? && Validated(primary.value).Ok? ==> r == JArr(Validated(primary.value).value)
    ensures (primary.Err? || Validated(primary.value).Err?) && fallback.Err? ==> r == JArr(defaults)
  {
    if primary.Ok? && Validated(primary.value).Ok? then JArr(Validated(primary.value).value)
    else if fallback.Ok? then fallback.value
    else JArr(defaults)
  }

  // ---------------------------------------------------------------- one item

  /** What the error message of a failed generation call is taken to mean. */
  datatype ErrorKind = Copyright | InvalidKey | OtherError

  function KindOfError(msg: string): (k: ErrorKind)
    ensures k == Copyright <==> Contains(msg, "finish_reason") && Contains(msg, "4") && Contains(msg, "copyrighted material")
    ensures k == InvalidKey <==> k != Copyright && (Contains(msg, "API key not valid") || Contains(msg, "API_KEY_INVALID"))
  {
    if Contains(msg, "finish_reason") && Contains(msg, "4") && Contains(msg, "copyrighted material") then Copyright
    else if Contains(msg, "API key not valid") || Contains(msg, "API_KEY_INVALID") then InvalidKey
    else OtherError
  }

  const MissingKeyMessage := "GOOGLE_GENAI_API_KEY environment variable not found or empty"

  /**
   * The answers of the outside calls: the connection, whether an API key is
   * set, whether the prompt and output were logged, the generated text or the
   * error raised, both source answers, and the clock's date and year.
   */
  datatype Calls = Calls(connected: bool, apiKey: bool, promptLogged: bool, generated: Result<string, string>,
                         outputLogged: bool, primary: Result<Json, string>, fallback: Result<Json, string>,
                         date: string, year: int)

  /** The returned pair and the status updates made, in order. */
  datatype Outcome = Outcome(success: bool, content: Option<string>, statuses: seq<string>)

  const Failed := Outcome(false, None, ["In Progress", "Failed"])

  /** The content with its sources section as the returned pair; an error in building it fails the run. */
  function Finish(content: string, sources: Json, date: string): (r: Outcome)
    ensures r.success ==> r.statuses == ["In Progress", "Completed"] && r.content.Some?
    ensures !r.success ==> r == Failed
  {
    var listed := CWS.Iterated(sources);
    if listed.Err? then Failed
    else
      var built := CWS.AddSources(content, listed.value, date);
      if built.Err? then Failed else Outcome(true, Some(built.value), ["In Progress", "Completed"])
  }

  /** `generate_content_for_item`. */
  function GenerateContentForItem(canned: Canned, contentId: string, inventory: CWS.Inventory, force: bool, calls: Calls): (r: Outcome)
    ensures !CWS.MayStart(contentId, inventory, force, calls.connected) ==> r == Outcome(false, None, [])
    ensures r.success <==> r.content.Some?
    ensures CWS.MayStart(contentId, inventory, force, calls.connected) ==>
      r.statuses == ["In Progress", if r.success then "Completed" else "Failed"]
  {
    if !CWS.MayStart(contentId, inventory, force, calls.connected) then Outcome(false, None, [])
    else
      var item := inventory(contentId).value;
      var title := CWS.Col(item, "title");
      var generated := if calls.apiKey then calls.generated else Err(MissingKeyMessage);
      if !calls.promptLogged then Failed
      else if generated.Err? then
        match KindOfError(generated.error)
        case Copyright => Finish(CopyrightContent(canned, title), JArr(Objects(canned.copyrightSources)), calls.date)
        case InvalidKey => Finish(TemplateContent(canned, item), JArr(Objects(canned.templateSources(title, Section(item), calls.year))), calls.date)
        case OtherError => Failed
      else
        var content := CWS.CleanWith(generated.value, |CWS.Preambles|);
        if !calls.outputLogged then Failed
        else Finish(content, SelectedSources(calls.primary, calls.fallback, Objects(canned.defaultSources)), calls.date)
  }

  /** A Completed item without force, or one with unmet dependencies, returns (False, None) before any status update. */
  lemma GuardsBeforeUpdates(canned: Canned, contentId: string, inventory: CWS.Inventory, calls: Calls)
    requires inventory(contentId).Some?
    requires CWS.Col(inventory(contentId).value, "status") == "Completed" || !CWS.Dependencies(contentId, inventory).0
    ensures GenerateContentForItem(canned, contentId, inventory, false, calls) == Outcome(false, None, [])
  {
  }

  /** An invalid API key produces the template content for the item, with its template sources, as a success. */
  lemma InvalidKeyUsesTemplate(canned: Canned, contentId: string, inventory: CWS.Inventory, force: bool, calls: Calls)
    requires CWS.MayStart(contentId, inventory, force, calls.connected)
    requires calls.apiKey && calls.promptLogged && calls.generated.Err? && KindOfError(calls.generated.error) == InvalidKey
    ensures var r := GenerateContentForItem(canned, contentId, inventory, force, calls);
      r.success && StartsWith(r.content.value, TemplateContent(canned, inventory(contentId).value) + CWS.SourcesHeader)
  {
    var item := inventory(contentId).value;
    var sources := Objects(canned.templateSources(CWS.Col(item, "title"), Section(item), calls.year));
    CitableAdded(TemplateContent(canned, item), sources, calls.date);
    CWS.AddSourcesShape(TemplateContent(canned, item), sources, calls.date);
  }

  /** A generation error that is neither the copyright nor the API-key error fails the run. */
  lemma OtherErrorFails(canned: Canned, contentId: string, inventory: CWS.Inventory, force: bool, calls: Calls)
    requires CWS.MayStart(contentId, inventory, force, calls.connected)
    requires calls.apiKey && calls.generated.Err? && KindOfError(calls.generated.error) == OtherError
    ensures GenerateContentForItem(canned, contentId, inventory, force, calls) == Failed
  {
  }

  /** When both source calls fail, the content still completes with the default source. */
  lemma DefaultSourcesUsed(canned: Canned, contentId: string, inventory: CWS.Inventory, force: bool, calls: Calls)
    requires CWS.MayStart(contentId, inventory, force, calls.connected)
    requires calls.apiKey && calls.promptLogged && calls.generated.Ok? && calls.outputLogged
    requires calls.primary.Err? && calls.fallback.Err?
    ensures var r := GenerateContentForItem(canned, contentId, inventory, force, calls);
      r.success && r.content
        == Some(CWS.AddSources(CWS.CleanWith(calls.generated.value, |CWS.Preambles|), Objects(canned.defaultSources), calls.date).value)
  {
    CitableAdded(CWS.CleanWith(calls.generated.value, |CWS.Preambles|), Objects(canned.defaultSources), calls.date);
  }
}
