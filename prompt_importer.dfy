/**
 * `prompt_management/prompt_importer.py`: turns the prompts found in the
 * prompt logs into prompt templates. A log is kept when its text has at least
 * ten characters and is not already the text of a template; logs with the same
 * text collapse into the first one; each kept text becomes a template named
 * after its first non-blank line, with the `{{...}}` placeholders as
 * variables.
 *
 * The logs and the existing templates' texts are inputs (what
 * `get_prompt_logs` and `get_prompt_templates` return), and so is the answer
 * of `create_prompt_template` for each call.
 */
module PromptImporter {
  import opened Wrappers
  import opened StrUtil
  import Json

  /* ------------------------------------------------------------- variables */

  /**
   * Where the lazy group of `{{(.*?)}}` started at `k` ends: the first `}}`
   * at or after `k` reached without crossing a newline, or -1.
   */
  function LazyClose(s: string, k: nat): (r: int)
    ensures r == -1 || (k <= r && r + 2 <= |s| && s[r] == '}' && s[r + 1] == '}')
    ensures r >= 0 ==> forall m :: k <= m < r ==> s[m] != '\n'
    decreases |s| - k
  {
    if k + 2 > |s| then -1
    else if s[k] == '}' && s[k + 1] == '}' then k
    else if s[k] == '\n' then -1
    else LazyClose(s, k + 1)
  }

  /** The groups of `re.finditer(r'{{(.*?)}}', s)` from position `i` on, left to right. */
  function LazyGroupsFrom(s: string, i: nat): (r: seq<string>)
    requires i <= |s|
    decreases |s| - i
  {
    if i + 2 > |s| then []
    else if s[i] == '{' && s[i + 1] == '{' && LazyClose(s, i + 2) >= 0 then
      var j := LazyClose(s, i + 2);
      [s[i + 2..j]] + LazyGroupsFrom(s, j + 2)
    else LazyGroupsFrom(s, i + 1)
  }

  /** Every group stands between `{{` and `}}` in the text and holds no newline. */
  lemma {:induction false} GroupsOccur(s: string, i: nat)
    requires i <= |s|
    ensures forall g :: g in LazyGroupsFrom(s, i) ==> '\n' !in g && Contains(s, "{{" + g + "}}")
    decreases |s| - i
  {
    if i + 2 <= |s| {
      if s[i] == '{' && s[i + 1] == '{' && LazyClose(s, i + 2) >= 0 {
        var j := LazyClose(s, i + 2);
        GroupsOccur(s, j + 2);
        var g := s[i + 2..j];
        assert forall m :: 0 <= m < |g| ==> g[m] == s[i + 2 + m];
        assert s[i..j + 2] == "{{" + g + "}}";
        ContainsAt(s, "{{" + g + "}}", i);
      } else {
        GroupsOccur(s, i + 1);
      }
    }
  }

  /** The lazy group runs to the first `}}` when none of the characters before it is a newline or a brace. */
  lemma {:induction false} LazyCloseAt(s: string, k: nat, j: nat)
    requires k <= j && j + 2 <= |s| && s[j] == '}' && s[j + 1] == '}'
    requires forall m :: k <= m < j ==> s[m] != '\n' && s[m] != '}'
    ensures LazyClose(s, k) == j
    decreases j - k
  {
    if k < j {
      LazyCloseAt(s, k + 1, j);
    }
  }

  /** A text that is one placeholder around a name free of braces and newlines yields that name. */
  lemma LonePlaceholder(x: string)
    requires forall m :: 0 <= m < |x| ==> x[m] != '\n' && x[m] != '}'
    ensures LazyGroupsFrom("{{" + x + "}}", 0) == [x]
  {
    var s := "{{" + x + "}}";
    var j := 2 + |x|;
    assert s[0] == '{' && s[1] == '{' && s[j] == '}' && s[j + 1] == '}';
    forall m | 2 <= m < j
      ensures s[m] != '\n' && s[m] != '}'
    {
      assert s[m] == x[m - 2];
    }
    LazyCloseAt(s, 2, j);
    assert s[2..j] == x;
    assert LazyGroupsFrom(s, 0) == [s[2..j]] + LazyGroupsFrom(s, j + 2);
  }

  /** The distinct non-empty stripped names of the groups, in order of first occurrence. */
  function Names(groups: seq<string>): (r: seq<string>)
    ensures forall a, b :: 0 <= a < b < |r| ==> r[a] != r[b]
    ensures forall x :: x in r ==> x != ""
  {
    if groups == [] then []
    else
      var d := Names(groups[..|groups| - 1]);
      var x := Strip(groups[|groups| - 1]);
      if x == "" || x in d then d else d + [x]
  }

  /** A name is listed exactly when it is the non-empty stripped text of some group. */
  lemma {:induction false} NamesExactly(groups: seq<string>)
    ensures forall x :: x in Names(groups) <==> x != "" && exists i :: 0 <= i < |groups| && Strip(groups[i]) == x
    decreases |groups|
  {
    if groups != [] {
      var front := groups[..|groups| - 1];
      NamesExactly(front);
      assert forall i :: 0 <= i < |front| ==> front[i] == groups[i];
      forall x | x != "" && (exists i :: 0 <= i < |groups| && Strip(groups[i]) == x)
        ensures x in Names(groups)
      {
        var i :| 0 <= i < |groups| && Strip(groups[i]) == x;
        if i < |front| {
          assert Strip(front[i]) == x;
        }
      }
    }
  }

  /** A variable of an imported template. */
  datatype Variable = Variable(name: string, description: string, kind: string)

  function VariableFor(name: string): Variable
  {
    Variable(name, "Variable for " + name, "string")
  }

  function VariablesOf(names: seq<string>): (r: seq<Variable>)
    ensures |r| == |names| && forall k :: 0 <= k < |names| ==> r[k] == VariableFor(names[k])
  {
    seq(|names|, k requires 0 <= k < |names| => VariableFor(names[k]))
  }

  /** `[v['name'] for v in variables]`. */
  function NamesOf(vars: seq<Variable>): (r: seq<string>)
    ensures |r| == |vars| && forall k :: 0 <= k < |vars| ==> r[k] == vars[k].name
  {
    seq(|vars|, k requires 0 <= k < |vars| => vars[k].name)
  }

  /**
   * `extract_variables_from_prompt`: one variable per distinct non-empty
   * stripped group, in order of first occurrence.
   */
  method ExtractVariablesFromPrompt(text: string) returns (vars: seq<Variable>)
    ensures vars == VariablesOf(Names(LazyGroupsFrom(text, 0)))
  {
    var groups := LazyGroupsFrom(text, 0);
    vars := [];
    var i := 0;
    while i < |groups|
      invariant 0 <= i <= |groups|
      invariant vars == VariablesOf(Names(groups[..i]))
    {
      assert groups[..i + 1][..i] == groups[..i];
      var name := Strip(groups[i]);
      assert NamesOf(vars) == Names(groups[..i]);
      if name != "" && name !in NamesOf(vars) {
        vars := vars + [VariableFor(name)];
      }
      i := i + 1;
    }
    assert groups[..i] == groups;
  }

  /* ---------------------------------------------------------------- import */

  /** A prompt log row. */
  type Row = seq<(string, Json.Json)>

  const MinPromptLength := 10
  const NameLimit := 50
  const DefaultType := "General"

  /** What the import makes of a log's `prompt_text`. */
  datatype LogText = Skipped | Text(s: string) | Container(v: Json.Json) | Raises

  /**
   * `log.get('prompt_text', '')` read by `not prompt_text or len(prompt_text) < 10`:
   * a falsy value, or a string, list or dict with fewer than ten
   * characters, items or keys, is skipped; a long string is a text; a long
   * list or dict goes on to the membership tests; a truthy number or
   * boolean has no `len` and makes the import raise.
   */
  function LogTextOf(log: Row): (r: LogText)
    ensures r.Text? ==> |r.s| >= MinPromptLength && Json.Get(log, "prompt_text") == Some(Json.JStr(r.s))
    ensures r.Container? ==> (r.v.JArr? || r.v.JObj?) && Json.Len(r.v).value >= MinPromptLength && Json.Get(log, "prompt_text") == Some(r.v)
    ensures r.Skipped? <==> Json.Get(log, "prompt_text").None? || !Json.Truthy(Json.Get(log, "prompt_text").value)
                            || (Json.Len(Json.Get(log, "prompt_text").value).Some? && Json.Len(Json.Get(log, "prompt_text").value).value < MinPromptLength)
    ensures r.Raises? <==> Json.Get(log, "prompt_text").Some? && Json.Truthy(Json.Get(log, "prompt_text").value) && Json.Len(Json.Get(log, "prompt_text").value).None?
  {
    var v := Json.Get(log, "prompt_text").GetOr(Json.JStr(""));
    if !Json.Truthy(v) then Skipped
    else if Json.Len(v).None? then Raises
    else if Json.Len(v).value < MinPromptLength then Skipped
    else if v.JStr? then Text(v.s)
    else Container(v)
  }

  /**
   * The log makes the first loop raise: its text has no `len`, or it is a
   * long list or dict that is not among the existing texts, so hashing it
   * for `unique_prompts` fails.
   */
  predicate RaisesOn(log: Row, existing: seq<Json.Json>)
  {
    LogTextOf(log).Raises? || (LogTextOf(log).Container? && LogTextOf(log).v !in existing)
  }

  /** The entry `unique_prompts` keeps for a text. */
  datatype UniquePrompt = UniquePrompt(text: string, kind: Json.Json, contentId: Json.Json, model: Json.Json, createdAt: Json.Json)

  function EntryOf(log: Row, text: string): UniquePrompt
  {
    UniquePrompt(text, Json.Get(log, "prompt_type").GetOr(Json.JStr(DefaultType)), Json.Get(log, "content_id").GetOr(Json.JNull),
                 Json.Get(log, "model").GetOr(Json.JNull), Json.Get(log, "created_at").GetOr(Json.JNull))
  }

  function Texts(u: seq<UniquePrompt>): (r: seq<string>)
    ensures |r| == |u| && forall k :: 0 <= k < |u| ==> r[k] == u[k].text
  {
    seq(|u|, k requires 0 <= k < |u| => u[k].text)
  }

  /** A log whose text the import takes. */
  predicate Takes(log: Row, existing: seq<Json.Json>)
  {
    LogTextOf(log).Text? && Json.JStr(LogTextOf(log).s) !in existing
  }

  /** No two kept entries share a text. */
  predicate DistinctTexts(u: seq<UniquePrompt>)
  {
    forall a, b :: 0 <= a < b < |u| ==> u[a].text != u[b].text
  }

  /** The values of `unique_prompts` after the first loop, in insertion order; `None` when a log raises. */
  function Unique(logs: seq<Row>, existing: seq<Json.Json>): (r: Option<seq<UniquePrompt>>)
    ensures r.Some? ==> DistinctTexts(r.value) && |r.value| <= |logs|
    decreases |logs|
  {
    if logs == [] then Some([])
    else
      var front := Unique(logs[..|logs| - 1], existing);
      var log := logs[|logs| - 1];
      if front.None? || RaisesOn(log, existing) then None
      else if !Takes(log, existing) || LogTextOf(log).s in Texts(front.value) then front
      else Some(front.value + [EntryOf(log, LogTextOf(log).s)])
  }

  /** Some log has the text `t` and the import takes it. */
  ghost predicate Taken(logs: seq<Row>, existing: seq<Json.Json>, t: string)
  {
    exists i :: 0 <= i < |logs| && Takes(logs[i], existing) && LogTextOf(logs[i]).s == t
  }

  /** Log `i` is the first taken log with the text of `p`, and `p` holds its fields. */
  ghost predicate FirstTaker(logs: seq<Row>, existing: seq<Json.Json>, i: int, p: UniquePrompt)
  {
    && 0 <= i < |logs| && Takes(logs[i], existing) && p == EntryOf(logs[i], LogTextOf(logs[i]).s)
    && forall j :: 0 <= j < i ==> !(Takes(logs[j], existing) && LogTextOf(logs[j]).s == p.text)
  }

  /** Some log is the first taker of `p`. */
  ghost predicate HasFirstTaker(logs: seq<Row>, existing: seq<Json.Json>, p: UniquePrompt)
  {
    exists i :: FirstTaker(logs, existing, i, p)
  }

  /** The first loop raises exactly when some log's text raises on its own. */
  lemma {:induction false} UniqueRaisesExactly(logs: seq<Row>, existing: seq<Json.Json>)
    ensures Unique(logs, existing).None? <==> exists i :: 0 <= i < |logs| && RaisesOn(logs[i], existing)
    decreases |logs|
  {
    if logs != [] {
      var front := logs[..|logs| - 1];
      UniqueRaisesExactly(front, existing);
      assert forall i :: 0 <= i < |front| ==> front[i] == logs[i];
      if Unique(logs, existing).None? && Unique(front, existing).Some? {
        assert RaisesOn(logs[|logs| - 1], existing);
      }
      if Unique(front, existing).None? {
        var i :| 0 <= i < |front| && RaisesOn(front[i], existing);
        assert RaisesOn(logs[i], existing);
      }
    }
  }

  /** A text is kept exactly when some log has it and the import takes it. */
  lemma {:induction false} UniqueTexts(logs: seq<Row>, existing: seq<Json.Json>)
    requires Unique(logs, existing).Some?
    ensures forall t :: t in Texts(Unique(logs, existing).value) <==> Taken(logs, existing, t)
    decreases |logs|
  {
    if logs != [] {
      var front := logs[..|logs| - 1];
      var n := |logs| - 1;
      UniqueTexts(front, existing);
      var f := Unique(front, existing).value;
      var u := Unique(logs, existing).value;
      assert forall i :: 0 <= i < |front| ==> front[i] == logs[i];
      if Takes(logs[n], existing) && LogTextOf(logs[n]).s !in Texts(f) {
        assert Texts(u) == Texts(f) + [LogTextOf(logs[n]).s];
      } else {
        assert u == f;
      }
      forall t
        ensures t in Texts(u) <==> Taken(logs, existing, t)
      {
        if Taken(front, existing, t) {
          var i :| 0 <= i < |front| && Takes(front[i], existing) && LogTextOf(front[i]).s == t;
          assert logs[i] == front[i];
        }
        if Takes(logs[n], existing) && LogTextOf(logs[n]).s == t {
          assert 0 <= n < |logs| && Takes(logs[n], existing) && LogTextOf(logs[n]).s == t;
        }
        if Taken(logs, existing, t) {
          var i :| 0 <= i < |logs| && Takes(logs[i], existing) && LogTextOf(logs[i]).s == t;
          if i < n {
            assert Takes(front[i], existing) && LogTextOf(front[i]).s == t;
          }
        }
      }
    }
  }

  /** A taker of a log prefix is the taker in the whole sequence. */
  lemma FirstTakerExtends(logs: seq<Row>, existing: seq<Json.Json>, i: int, p: UniquePrompt)
    requires logs != [] && FirstTaker(logs[..|logs| - 1], existing, i, p)
    ensures FirstTaker(logs, existing, i, p)
  {
    var front := logs[..|logs| - 1];
    assert logs[i] == front[i];
    forall j | 0 <= j < i
      ensures !(Takes(logs[j], existing) && LogTextOf(logs[j]).s == p.text)
    {
      assert logs[j] == front[j];
    }
  }

  /** Each kept entry holds the fields of the first taken log with its text. */
  lemma {:induction false} UniqueFirst(logs: seq<Row>, existing: seq<Json.Json>)
    requires Unique(logs, existing).Some?
    ensures forall k :: 0 <= k < |Unique(logs, existing).value| ==> HasFirstTaker(logs, existing, Unique(logs, existing).value[k])
    decreases |logs|
  {
    if logs != [] {
      var front := logs[..|logs| - 1];
      var n := |logs| - 1;
      UniqueFirst(front, existing);
      UniqueTexts(front, existing);
      var f := Unique(front, existing).value;
      var u := Unique(logs, existing).value;
      forall k | 0 <= k < |u|
        ensures HasFirstTaker(logs, existing, u[k])
      {
        if k < |f| {
          assert u[k] == f[k];
          assert HasFirstTaker(front, existing, f[k]);
          var i :| FirstTaker(front, existing, i, f[k]);
          FirstTakerExtends(logs, existing, i, f[k]);
        } else {
          assert u == f + [EntryOf(logs[n], LogTextOf(logs[n]).s)];
          assert u[k].text !in Texts(f);
          assert !Taken(front, existing, u[k].text);
          forall j | 0 <= j < n
            ensures !(Takes(logs[j], existing) && LogTextOf(logs[j]).s == u[k].text)
          {
            assert logs[j] == front[j];
          }
          assert FirstTaker(logs, existing, n, u[k]);
        }
      }
    }
  }

  /** The name's source line: the first line stripped, else the second, else "<type> prompt for <content id>". */
  function NameLine(p: UniquePrompt): (r: string)
    ensures r != ""
    ensures Strip(Split(p.text, "\n")[0]) != "" ==> r == Strip(Split(p.text, "\n")[0])
  {
    var lines := Split(p.text, "\n");
    var first := Strip(lines[0]);
    var line := if first == "" && |lines| > 1 then Strip(lines[1]) else first;
    if line == "" then Json.PyStr(p.kind) + " prompt for " + Json.PyStr(p.contentId) else line
  }

  /** `first_line[:50] if len(first_line) <= 50 else first_line[:47] + '...'`. */
  function TemplateName(line: string): (r: string)
    ensures |r| <= NameLimit
    ensures r == line <==> |line| <= NameLimit
    ensures |line| > NameLimit ==> |r| == NameLimit && r[..47] == line[..47] && r[47..] == "..."
  {
    if |line| <= NameLimit then line else line[..47] + "..."
  }

  /** A derived name is never empty and never longer than 50 characters. */
  lemma NameBounded(p: UniquePrompt)
    ensures 0 < |TemplateName(NameLine(p))| <= NameLimit
  {
  }

  /** The template built for a unique prompt and its variables; it is created active. */
  datatype ImportedTemplate = ImportedTemplate(name: string, description: string, category: Json.Json, text: string,
                                               tags: seq<(string, Json.Json)>, variables: seq<Variable>, active: bool)

  function Build(p: UniquePrompt, variables: seq<Variable>): ImportedTemplate
  {
    ImportedTemplate(TemplateName(NameLine(p)), "Prompt used for " + Json.PyStr(p.contentId) + " with " + Json.PyStr(p.model),
                     p.kind, p.text, [("content_id", p.contentId), ("model", p.model), ("imported_from", Json.JStr("prompt_logs"))],
                     variables, true)
  }

  /** The template for a unique prompt: its text and type, its derived name, its placeholders as variables. */
  function TemplateFor(p: UniquePrompt): ImportedTemplate
  {
    Build(p, VariablesOf(Names(LazyGroupsFrom(p.text, 0))))
  }

  /**
   * Every extracted variable is the stripped text of a `{{...}}` placeholder
   * of the prompt, and no two share a name.
   */
  lemma ExtractedVariablesOccur(text: string)
    ensures var vs := VariablesOf(Names(LazyGroupsFrom(text, 0)));
            && (forall a, b :: 0 <= a < b < |vs| ==> vs[a].name != vs[b].name)
            && forall v :: v in vs ==> v.name != "" && exists g :: Contains(text, "{{" + g + "}}") && Strip(g) == v.name
  {
    var groups := LazyGroupsFrom(text, 0);
    var names := Names(groups);
    var vs := VariablesOf(names);
    NamesExactly(groups);
    GroupsOccur(text, 0);
    forall v | v in vs
      ensures v.name != "" && exists g :: Contains(text, "{{" + g + "}}") && Strip(g) == v.name
    {
      var k :| 0 <= k < |vs| && vs[k] == v;
      assert v.name == names[k] && names[k] in names;
      var i :| 0 <= i < |groups| && Strip(groups[i]) == v.name;
      assert groups[i] in groups;
    }
  }

  /** One template per unique prompt, in order. */
  function Templates(u: seq<UniquePrompt>): (r: seq<ImportedTemplate>)
    ensures |r| == |u|
  {
    if u == [] then [] else Templates(u[..|u| - 1]) + [TemplateFor(u[|u| - 1])]
  }

  /** The `k`-th template is the one for the `k`-th unique prompt. */
  lemma {:induction false} TemplatesAt(u: seq<UniquePrompt>, k: nat)
    requires k < |u|
    ensures Templates(u)[k] == TemplateFor(u[k])
    decreases |u|
  {
    var front := u[..|u| - 1];
    assert Templates(u) == Templates(front) + [TemplateFor(u[|u| - 1])];
    if k < |u| - 1 {
      TemplatesAt(front, k);
    }
  }

  /** The answer of `create_prompt_template` to the `k`-th call: whether it returned an id. */
  type Creator = (nat, ImportedTemplate) -> bool

  /** How many of the calls from the `k`-th on returned an id. */
  function Created(ts: seq<ImportedTemplate>, create: Creator, k: nat): (r: nat)
    requires k <= |ts|
    ensures r <= |ts| - k
    decreases |ts| - k
  {
    if k == |ts| then 0 else (if create(k, ts[k]) then 1 else 0) + Created(ts, create, k + 1)
  }

  /** Counting over a sequence and over it with one more template agree up to the last call. */
  lemma {:induction false} CreatedShift(longer: seq<ImportedTemplate>, shorter: seq<ImportedTemplate>, create: Creator, k: nat)
    requires |longer| == |shorter| + 1 && shorter == longer[..|shorter|] && k <= |shorter|
    ensures Created(longer, create, k) == Created(shorter, create, k) + (if create(|shorter|, longer[|shorter|]) then 1 else 0)
    decreases |shorter| - k
  {
    if k < |shorter| {
      assert longer[k] == shorter[k];
      CreatedShift(longer, shorter, create, k + 1);
    }
  }

  /** The first loop of `import_prompts_from_database`. */
  method UniquePrompts(logs: seq<Row>, existing: seq<Json.Json>) returns (r: Option<seq<UniquePrompt>>)
    ensures r == Unique(logs, existing)
  {
    var unique: seq<UniquePrompt> := [];
    var i := 0;
    while i < |logs|
      invariant 0 <= i <= |logs|
      invariant Unique(logs[..i], existing) == Some(unique)
    {
      assert logs[..i + 1][..i] == logs[..i];
      var text := LogTextOf(logs[i]);
      if text.Raises? || (text.Container? && text.v !in existing) {
        assert RaisesOn(logs[i], existing);
        UniqueRaisesExactly(logs, existing);
        return None;
      }
      if text.Text? && Json.JStr(text.s) !in existing && text.s !in Texts(unique) {
        unique := unique + [EntryOf(logs[i], text.s)];
      }
      i := i + 1;
    }
    assert logs[..i] == logs;
    r := Some(unique);
  }

  /** Extracts the variables of a unique prompt and builds its template. */
  method CreateTemplateFor(p: UniquePrompt) returns (template: ImportedTemplate)
    ensures template == TemplateFor(p)
  {
    var variables := ExtractVariablesFromPrompt(p.text);
    template := Build(p, variables);
  }

  /** The second loop: one template per unique prompt, counting those `create_prompt_template` accepted. */
  method CreateTemplates(unique: seq<UniquePrompt>, create: Creator) returns (count: nat, attempted: seq<ImportedTemplate>)
    ensures attempted == Templates(unique) && count == Created(attempted, create, 0)
  {
    attempted := [];
    count := 0;
    var k := 0;
    while k < |unique|
      invariant 0 <= k <= |unique|
      invariant attempted == Templates(unique[..k])
      invariant count == Created(attempted, create, 0)
    {
      count, attempted := CreateOne(unique, k, create, count, attempted);
      k := k + 1;
    }
    assert unique[..k] == unique;
  }

  /** The templates of one more unique prompt are those before it and its own. */
  lemma TemplatesSnoc(u: seq<UniquePrompt>, k: nat)
    requires k < |u|
    ensures Templates(u[..k + 1]) == Templates(u[..k]) + [TemplateFor(u[k])]
  {
    assert u[..k + 1][..k] == u[..k];
  }

  /** One turn of the second loop: the `k`-th template built, offered to `create_prompt_template` and counted. */
  method CreateOne(unique: seq<UniquePrompt>, k: nat, create: Creator, count: nat, attempted: seq<ImportedTemplate>)
    returns (count': nat, attempted': seq<ImportedTemplate>)
    requires k < |unique| && attempted == Templates(unique[..k]) && count == Created(attempted, create, 0)
    ensures attempted' == Templates(unique[..k + 1]) && count' == Created(attempted', create, 0)
  {
    var template := CreateTemplateFor(unique[k]);
    TemplatesSnoc(unique, k);
    CreatedShift(attempted + [template], attempted, create, 0);
    attempted' := attempted + [template];
    count' := if create(k, template) then count + 1 else count;
  }

  /**
   * `import_prompts_from_database`: `None` when a log raises; otherwise the
   * templates it tried to create, one per unique prompt in order, and the
   * number `create_prompt_template` accepted, which is at most the number
   * of logs.
   */
  method ImportPromptsFromDatabase(logs: seq<Row>, existing: seq<Json.Json>, create: Creator)
    returns (count: Option<nat>, attempted: seq<ImportedTemplate>)
    ensures Unique(logs, existing).None? <==> count.None?
    ensures count.None? ==> attempted == []
    ensures Unique(logs, existing).Some? ==>
              && attempted == Templates(Unique(logs, existing).value)
              && count == Some(Created(attempted, create, 0))
              && count.value <= |logs|
  {
    var unique := UniquePrompts(logs, existing);
    if unique.None? {
      return None, [];
    }
    var n;
    n, attempted := CreateTemplates(unique.value, create);
    count := Some(n);
  }
}
