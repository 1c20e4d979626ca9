/**
 * Prompt templates with `{{variable}}` placeholders and their storage
 * (prompt_management/prompt_management.py).
 *
 * The `prompt_templates`, `prompt_variables` and `prompt_feedback` tables are
 * fields of a `PromptStore` object. The variable rows are kept per template
 * id, and the database's row ids are a counter. The connection state, the
 * clock and the ids `uuid4` would draw are parameters.
 */
module PromptManagement {
  import opened Wrappers
  import opened StrUtil
  import opened Items

  // ---------------------------------------------------------------------------
  // extract_variables: re.findall(r'\{\{([^}]+)\}\}', text), de-duplicated
  // ---------------------------------------------------------------------------

  /** The first '}' at or after `k`, or `|s|` when there is none. */
  function NextClose(s: string, k: nat): (r: nat)
    requires k <= |s|
    ensures k <= r <= |s|
    ensures r < |s| ==> s[r] == '}'
    ensures forall m :: k <= m < r ==> s[m] != '}'
    decreases |s| - k
  {
    if k == |s| || s[k] == '}' then k else NextClose(s, k + 1)
  }

  /**
   * A match of the placeholder pattern starting at `i`: the index just past
   * its group, or -1. The group `[^}]+` is greedy and cannot contain '}', so
   * it ends at the first '}' after the opening braces, which must be doubled.
   */
  function MatchAt(s: string, i: nat): (j: int)
    ensures j == -1 || (i + 2 < j && j + 1 < |s|)
  {
    if i + 2 <= |s| && s[i] == '{' && s[i + 1] == '{' then
      var j := NextClose(s, i + 2);
      if j > i + 2 && j + 1 < |s| && s[j + 1] == '}' then j else -1
    else -1
  }

  /** The groups of the non-overlapping matches in `s[i..]`, left to right. */
  function MatchesFrom(s: string, i: nat): (r: seq<string>)
    requires i <= |s|
    decreases |s| - i
  {
    if i == |s| then []
    else
      var j := MatchAt(s, i);
      if j < 0 then MatchesFrom(s, i + 1) else [s[i + 2..j]] + MatchesFrom(s, j + 2)
  }

  /** A name that can stand in a placeholder: non-empty and free of '}'. */
  predicate VariableName(x: string)
  {
    x != [] && '}' !in x
  }

  function Placeholder(name: string): (p: string)
    ensures |p| == |name| + 4
  {
    "{{" + name + "}}"
  }

  /** Every group found is a variable name whose placeholder occurs in the text. */
  lemma {:induction false} MatchesSound(s: string, i: nat)
    requires i <= |s|
    ensures forall x :: x in MatchesFrom(s, i) ==> VariableName(x) && Contains(s, Placeholder(x))
    decreases |s| - i
  {
    if i < |s| {
      var j := MatchAt(s, i);
      if j < 0 {
        MatchesSound(s, i + 1);
      } else {
        MatchesSound(s, j + 2);
        MatchSound(s, i, j);
      }
    }
  }

  /** The group of a match at `i` is a variable name whose placeholder occurs there. */
  lemma MatchSound(s: string, i: nat, j: int)
    requires i <= |s| && j == MatchAt(s, i) && j >= 0
    ensures VariableName(s[i + 2..j]) && Contains(s, Placeholder(s[i + 2..j]))
  {
    var x := s[i + 2..j];
    assert forall m :: 0 <= m < |x| ==> x[m] == s[i + 2 + m];
    assert '}' !in x;
    assert s[i..j + 2] == Placeholder(x);
    ContainsAt(s, Placeholder(x), i);
  }

  /** The distinct elements of `s`, in order of first occurrence. */
  function Dedup(s: seq<string>): (r: seq<string>)
    ensures forall x :: x in r <==> x in s
    ensures forall a, b :: 0 <= a < b < |r| ==> r[a] != r[b]
  {
    if s == [] then []
    else
      var d := Dedup(s[..|s| - 1]);
      if s[|s| - 1] in d then d else d + [s[|s| - 1]]
  }

  /**
   * `list(set(matches))`. Python's set order depends on string hashes; the
   * model lists the names in order of first occurrence.
   */
  function ExtractVariables(text: string): (r: seq<string>)
    ensures forall a, b :: 0 <= a < b < |r| ==> r[a] != r[b]
  {
    Dedup(MatchesFrom(text, 0))
  }

  /** Every extracted name is a variable name whose placeholder occurs in the text. */
  lemma ExtractedOccur(text: string)
    ensures forall x :: x in ExtractVariables(text) ==> VariableName(x) && Contains(text, Placeholder(x))
  {
    MatchesSound(text, 0);
  }

  /** A text that is exactly one placeholder yields exactly its name. */
  lemma ExtractsLonePlaceholder(x: string)
    requires VariableName(x)
    ensures ExtractVariables(Placeholder(x)) == [x]
  {
    var s := Placeholder(x);
    assert forall m :: 0 <= m < |x| ==> s[2 + m] == x[m];
    assert s[|x| + 2] == '}' && s[|x| + 3] == '}';
    assert NextClose(s, 2) == |x| + 2;
    assert MatchAt(s, 0) == |x| + 2;
    assert s[2..|x| + 2] == x;
    assert MatchesFrom(s, |x| + 4) == [];
    assert MatchesFrom(s, 0) == [x];
    assert [x][..0] == [];
    assert Dedup([x]) == Dedup([]) + [x];
  }

  /**
   * The converse fails on nested braces: "{{a}}" occurs in "{{{a}}}", but the
   * match starting at the first brace consumes it and yields "{a".
   */
  lemma NestedBracesHideName()
    ensures Contains("{{{a}}}", Placeholder("a"))
    ensures ExtractVariables("{{{a}}}") == ["{a"]
  {
    var s := "{{{a}}}";
    assert s[1..6] == Placeholder("a");
    ContainsAt(s, Placeholder("a"), 1);
    assert NextClose(s, 2) == 4;
    assert MatchAt(s, 0) == 4;
    assert s[2..4] == "{a";
    assert MatchesFrom(s, 6) == [];
    assert MatchesFrom(s, 0) == ["{a"];
  }

  // ---------------------------------------------------------------------------
  // render
  // ---------------------------------------------------------------------------

  /** The text after replacing each variable's placeholder by its value, in dict order. */
  function RenderedWith(text: string, vars: seq<(string, string)>): string
    decreases |vars|
  {
    if vars == [] then text
    else
      var v := vars[|vars| - 1];
      ReplaceAll(RenderedWith(text, vars[..|vars| - 1]), Placeholder(v.0), v.1)
  }

  /** Replacing every occurrence splits the text at the pattern and joins it with the replacement. */
  lemma {:induction false} ReplaceAllIsSplitJoin(s: string, pat: string, rep: string)
    requires |pat| > 0
    ensures ReplaceAll(s, pat, rep) == Join(Split(s, pat), rep)
    decreases |s|
  {
    var i := Find(s, pat);
    if i >= 0 {
      var rest := s[i + |pat|..];
      ReplaceAllIsSplitJoin(rest, pat, rep);
      ReplaceAllSplitHit(s, pat, rep, i, rest);
    } else {
      ReplaceAllSplitMiss(s, pat, rep);
    }
  }

  /** The step of the induction at an occurrence: what holds of the rest holds of the whole text. */
  lemma ReplaceAllSplitHit(s: string, pat: string, rep: string, i: int, rest: string)
    requires |pat| > 0 && i == Find(s, pat) && i >= 0 && rest == s[i + |pat|..]
    requires ReplaceAll(rest, pat, rep) == Join(Split(rest, pat), rep)
    ensures ReplaceAll(s, pat, rep) == Join(Split(s, pat), rep)
  {
    var tail := Split(rest, pat);
    ReplaceAllAt(s, pat, rep, i, rest);
    SplitAt(s, pat, i);
    JoinCons(s[..i], tail, rep);
  }

  /** Without an occurrence, both leave the text whole. */
  lemma ReplaceAllSplitMiss(s: string, pat: string, rep: string)
    requires |pat| > 0 && Find(s, pat) < 0
    ensures ReplaceAll(s, pat, rep) == Join(Split(s, pat), rep)
  {
    assert Split(s, pat) == [s];
  }

  /** Replacing at the first occurrence `i`. */
  lemma ReplaceAllAt(s: string, pat: string, rep: string, i: int, rest: string)
    requires |pat| > 0 && i == Find(s, pat) && i >= 0 && rest == s[i + |pat|..]
    ensures ReplaceAll(s, pat, rep) == s[..i] + rep + ReplaceAll(rest, pat, rep)
  {
  }

  /** Splitting at the first occurrence `i`. */
  lemma SplitAt(s: string, pat: string, i: int)
    requires |pat| > 0 && i == Find(s, pat) && i >= 0
    ensures Split(s, pat) == [s[..i]] + Split(s[i + |pat|..], pat)
  {
  }

  /** A text holding none of the given placeholders renders unchanged. */
  lemma {:induction false} RenderWithoutPlaceholders(text: string, vars: seq<(string, string)>)
    requires forall k :: 0 <= k < |vars| ==> !Contains(text, Placeholder(vars[k].0))
    ensures RenderedWith(text, vars) == text
    decreases |vars|
  {
    if vars != [] {
      RenderWithoutPlaceholders(text, vars[..|vars| - 1]);
    }
  }

  /**
   * Rendering one provided variable replaces its single placeholder and
   * keeps the text around it, so placeholders of names not provided (there,
   * in `before` or `after`) stay in the rendered text.
   */
  lemma ProvidedPlaceholderReplaced(before: string, name: string, value: string, after: string)
    requires VariableName(name)
    requires !Contains(before, Placeholder(name)) && !Contains(after, Placeholder(name))
    ensures RenderedWith(before + Placeholder(name) + after, [(name, value)]) == before + value + after
  {
    var p := Placeholder(name);
    var s := before + p + after;
    RenderOne(s, name, value);
    PlaceholderUnbordered(name);
    FirstOccurrenceOf(before, p, after);
    assert s[..|before|] == before;
    assert s[|before| + |p|..] == after;
  }

  lemma RenderOne(text: string, name: string, value: string)
    ensures RenderedWith(text, [(name, value)]) == ReplaceAll(text, Placeholder(name), value)
  {
    assert [(name, value)][..0] == [];
  }

  /** No proper prefix of a placeholder is also its suffix, so occurrences cannot overlap. */
  lemma PlaceholderUnbordered(x: string)
    requires VariableName(x)
    ensures Unbordered(Placeholder(x))
  {
    var p := Placeholder(x);
    assert p[0] == '{' && p[1] == '{';
    assert forall m :: 0 <= m < |x| ==> p[2 + m] == x[m];
    assert p[|x| + 2] == '}' && p[|x| + 3] == '}';
    forall d | 0 < d < |p|
      ensures p[d..] != p[..|p| - d]
    {
      var n := |p| - d;
      if n - 1 <= |x| + 1 {
        assert p[..n][n - 1] != '}';
        assert p[d..][n - 1] == '}';
      } else {
        assert p[..n][n - 2] == x[|x| - 1];
        assert p[d..][n - 2] == '}';
      }
    }
  }

  // ---------------------------------------------------------------------------
  // Variable rows and the synchronisation in update_prompt_template
  // ---------------------------------------------------------------------------

  /** A `prompt_variables` row of one template: its database id and its name. */
  datatype VarRow = VarRow(id: nat, name: string)

  function NamesOf(rows: seq<VarRow>): set<string>
  {
    set r | r in rows :: r.name
  }

  /** `{v['name']: v for v in rows}`: the last row of each name wins. */
  function ExistingVars(rows: seq<VarRow>): (m: map<string, VarRow>)
    ensures m.Keys == NamesOf(rows)
    ensures forall n :: n in m ==> m[n] in rows && m[n].name == n
  {
    if rows == [] then map[]
    else
      var last := rows[|rows| - 1];
      assert rows == rows[..|rows| - 1] + [last];
      ExistingVars(rows[..|rows| - 1])[last.name := last]
  }

  /** The key order of that dict: names in order of first occurrence. */
  function ExistingOrder(rows: seq<VarRow>): (r: seq<string>)
    ensures forall n :: n in r <==> n in NamesOf(rows)
  {
    var names := seq(|rows|, k requires 0 <= k < |rows| => rows[k].name);
    assert forall n :: n in names <==> n in NamesOf(rows) by {
      forall n | n in NamesOf(rows) ensures n in names {
        var r :| r in rows && r.name == n;
        var k :| 0 <= k < |rows| && rows[k] == r;
        assert names[k] == n;
      }
    }
    Dedup(names)
  }

  /** The first loop: each new name missing from `existing` is inserted under the next id. */
  function Inserted(rows: seq<VarRow>, existing: map<string, VarRow>, names: seq<string>, next: nat): (r: (seq<VarRow>, nat))
    decreases |names|
  {
    if names == [] then (rows, next)
    else
      var p := Inserted(rows, existing, names[..|names| - 1], next);
      var x := names[|names| - 1];
      if x in existing then p else (p.0 + [VarRow(p.1, x)], p.1 + 1)
  }

  /** `delete().eq('id', id)`: every row with that id goes. */
  function RemoveId(rows: seq<VarRow>, id: nat): (r: seq<VarRow>)
    ensures forall v :: v in r <==> v in rows && v.id != id
  {
    if rows == [] then []
    else RemoveId(rows[..|rows| - 1], id) + (if rows[|rows| - 1].id == id then [] else [rows[|rows| - 1]])
  }

  /** The second loop: each existing name not in `keep` loses the row `existing` holds for it. */
  function Deleted(rows: seq<VarRow>, existing: map<string, VarRow>, order: seq<string>, keep: seq<string>): seq<VarRow>
    requires forall n :: n in order ==> n in existing
    decreases |order|
  {
    if order == [] then rows
    else
      var r := Deleted(rows, existing, order[..|order| - 1], keep);
      var x := order[|order| - 1];
      if x in keep then r else RemoveId(r, existing[x].id)
  }

  /** The stored rows after synchronising with the names `names`, and the next unused id. */
  function Synced(rows: seq<VarRow>, names: seq<string>, next: nat): (seq<VarRow>, nat)
  {
    var existing := ExistingVars(rows);
    var p := Inserted(rows, existing, names, next);
    (Deleted(p.0, existing, ExistingOrder(rows), names), p.1)
  }

  /** Database ids identify rows, and a template holds at most one row per name. */
  predicate WellKeyed(rows: seq<VarRow>)
  {
    (forall a, b :: a in rows && b in rows && a.id == b.id ==> a == b) &&
    (forall a, b :: a in rows && b in rows && a.name == b.name ==> a == b)
  }

  /** Every row's id is below `next`. */
  predicate IdsBelow(rows: seq<VarRow>, next: nat)
  {
    forall r :: r in rows ==> r.id < next
  }

  /** The row `existing` holds for a name is exactly the rows of that name. */
  predicate Separates(rows: seq<VarRow>, existing: map<string, VarRow>)
  {
    forall r, n :: r in rows && n in existing ==> (r.id == existing[n].id <==> r.name == n)
  }

  lemma {:induction false} InsertedFacts(rows: seq<VarRow>, existing: map<string, VarRow>, names: seq<string>, next: nat)
    ensures Inserted(rows, existing, names, next).1 >= next
    ensures NamesOf(Inserted(rows, existing, names, next).0) ==
      NamesOf(rows) + (set n | n in names && n !in existing)
    ensures forall r :: r in Inserted(rows, existing, names, next).0 ==>
      r in rows || (r.id >= next && r.name !in existing)
    decreases |names|
  {
    if names != [] {
      var init := names[..|names| - 1];
      var x := names[|names| - 1];
      InsertedFacts(rows, existing, init, next);
      assert names == init + [x];
      var p := Inserted(rows, existing, init, next);
      assert (set n | n in names && n !in existing) ==
        (set n | n in init && n !in existing) + (if x in existing then {} else {x});
      if x !in existing {
        assert NamesOf(p.0 + [VarRow(p.1, x)]) == NamesOf(p.0) + {x};
      }
    }
  }

  lemma RemoveIdNames(rows: seq<VarRow>, existing: map<string, VarRow>, x: string)
    requires Separates(rows, existing) && x in existing
    ensures NamesOf(RemoveId(rows, existing[x].id)) == NamesOf(rows) - {x}
    ensures Separates(RemoveId(rows, existing[x].id), existing)
  {
  }

  lemma {:induction false} DeletedNames(rows: seq<VarRow>, existing: map<string, VarRow>, order: seq<string>, keep: seq<string>)
    requires Separates(rows, existing)
    requires forall n :: n in order ==> n in existing
    ensures Separates(Deleted(rows, existing, order, keep), existing)
    ensures NamesOf(Deleted(rows, existing, order, keep)) == NamesOf(rows) - (set n | n in order && n !in keep)
    decreases |order|
  {
    if order != [] {
      var init := order[..|order| - 1];
      var x := order[|order| - 1];
      DeletedNames(rows, existing, init, keep);
      assert order == init + [x];
      if x !in keep {
        RemoveIdNames(Deleted(rows, existing, init, keep), existing, x);
      }
    }
  }

  /**
   * After the synchronisation the template's variable names are exactly the
   * extracted ones: missing names were inserted and stale ones deleted.
   */
  lemma SyncedNames(rows: seq<VarRow>, names: seq<string>, next: nat)
    requires WellKeyed(rows) && IdsBelow(rows, next)
    ensures NamesOf(Synced(rows, names, next).0) == set n | n in names
  {
    var existing := ExistingVars(rows);
    var p := Inserted(rows, existing, names, next);
    InsertedFacts(rows, existing, names, next);
    assert Separates(p.0, existing) by {
      forall r, n | r in p.0 && n in existing
        ensures r.id == existing[n].id <==> r.name == n
      {
        if r !in rows {
          assert existing[n] in rows;
        }
      }
    }
    DeletedNames(p.0, existing, ExistingOrder(rows), names);
  }

  /** The fresh ids the synchronisation hands out stay above every stored id. */
  lemma {:induction false} InsertedIdsBelow(rows: seq<VarRow>, existing: map<string, VarRow>, names: seq<string>, next: nat)
    requires IdsBelow(rows, next)
    ensures IdsBelow(Inserted(rows, existing, names, next).0, Inserted(rows, existing, names, next).1)
    ensures Inserted(rows, existing, names, next).1 >= next
    decreases |names|
  {
    if names != [] {
      InsertedIdsBelow(rows, existing, names[..|names| - 1], next);
    }
  }

  // ---------------------------------------------------------------------------
  // Templates
  // ---------------------------------------------------------------------------

  const DefaultCategory := "Content Generation"

  /** A `prompt_templates` row, as `to_dict` writes it and `from_dict` reads it back. */
  datatype TemplateRow = TemplateRow(
    id: string, name: string, description: string, templateText: string, category: string,
    tags: map<string, string>, version: int, parentId: Option<string>,
    createdAt: string, updatedAt: string, createdBy: string, isActive: bool)

  /** A prompt template object. */
  class PromptTemplate {
    var templateId: string
    var name: string
    var description: string
    var templateText: string
    var category: string
    var tags: map<string, string>
    var version: int
    var parentId: Option<string>
    var variables: seq<VarRow>
    var createdAt: string
    var updatedAt: string
    var createdBy: string
    var isActive: bool

    /**
     * `PromptTemplate(...)`: missing or empty arguments take their defaults;
     * `freshId` is the id `uuid4` would draw and `now` the creation time.
     */
    constructor (templateId: Option<string>, name: Option<string>, description: Option<string>,
                 templateText: Option<string>, category: Option<string>, tags: map<string, string>,
                 version: int, parentId: Option<string>, variables: seq<VarRow>, freshId: string, now: string)
      ensures this.templateId == OrDefault(templateId, freshId)
      ensures this.name == OrDefault(name, "") && this.description == OrDefault(description, "")
      ensures this.templateText == OrDefault(templateText, "")
      ensures this.category == OrDefault(category, DefaultCategory)
      ensures this.tags == tags && this.version == version && this.parentId == parentId
      ensures this.variables == variables
      ensures createdAt == now && updatedAt == now && createdBy == "system" && isActive
    {
      this.templateId := OrDefault(templateId, freshId);
      this.name := OrDefault(name, "");
      this.description := OrDefault(description, "");
      this.templateText := OrDefault(templateText, "");
      this.category := OrDefault(category, DefaultCategory);
      this.tags := tags;
      this.version := version;
      this.parentId := parentId;
      this.variables := variables;
      createdAt := now;
      updatedAt := now;
      createdBy := "system";
      isActive := true;
    }

    /** `to_dict()`. */
    function Row(): (r: TemplateRow)
      reads this
      ensures r.id == templateId && r.templateText == templateText && r.version == version
    {
      TemplateRow(templateId, name, description, templateText, category, tags, version, parentId,
                  createdAt, updatedAt, createdBy, isActive)
    }

    /** `render(variables)`: the text with each provided placeholder replaced, in dict order. */
    method Render(vars: seq<(string, string)>) returns (r: string)
      ensures r == RenderedWith(templateText, vars)
      ensures vars == [] ==> r == templateText
    {
      r := templateText;
      var i := 0;
      while i < |vars|
        invariant 0 <= i <= |vars|
        invariant r == RenderedWith(templateText, vars[..i])
      {
        assert vars[..i + 1][..i] == vars[..i];
        r := ReplaceAll(r, Placeholder(vars[i].0), vars[i].1);
        i := i + 1;
      }
      assert vars[..|vars|] == vars;
    }
  }

  /** `f"{name} (v{version + 1})"`. */
  function VersionName(name: string, version: int): (r: string)
    ensures StartsWith(r, name + " (v") && EndsWith(r, ")")
    ensures |r| > 0
  {
    name + " (v" + IntToString(version + 1) + ")"
  }

  /** A feedback row: the usage it rates and the rating. */
  datatype Feedback = Feedback(usageId: string, rating: int, text: Option<string>, kind: Option<string>, createdAt: string)

  /** One entry of `DEFAULT_TEMPLATES`. */
  datatype DefaultTemplate = DefaultTemplate(
    name: string, description: string, templateText: string, category: string, tags: map<string, string>)

  /** `get_prompt_templates()` is non-empty: some stored template is active. */
  predicate HasActive(templates: map<string, TemplateRow>)
  {
    exists id :: id in templates && templates[id].isActive
  }

  /** The row `initialize_default_templates` stores for a default under the id `id`. */
  function DefaultRow(d: DefaultTemplate, id: string, now: string): TemplateRow
  {
    TemplateRow(id, OrDefault(Some(d.name), ""), OrDefault(Some(d.description), ""), OrDefault(Some(d.templateText), ""),
                OrDefault(Some(d.category), DefaultCategory), d.tags, 1, None, now, now, "system", true)
  }

  /** The ids drawn by the first `k` defaults. */
  function Drawn(freshIds: nat -> string, k: nat): set<string>
  {
    if k == 0 then {} else Drawn(freshIds, k - 1) + {freshIds(k - 1)}
  }

  /** An id is drawn exactly when one of the first `k` draws gives it. */
  lemma {:induction false} DrawnExactly(freshIds: nat -> string, k: nat, id: string)
    ensures id in Drawn(freshIds, k) <==> exists j :: 0 <= j < k && freshIds(j) == id
  {
    if k > 0 {
      DrawnExactly(freshIds, k - 1, id);
      if freshIds(k - 1) == id {
        assert 0 <= k - 1 < k && freshIds(k - 1) == id;
      }
    }
  }

  /** Each of the first `k` draws is drawn. */
  lemma {:induction false} DrawnHas(freshIds: nat -> string, k: nat, m: nat)
    requires m < k
    ensures freshIds(m) in Drawn(freshIds, k)
  {
    if m < k - 1 {
      DrawnHas(freshIds, k - 1, m);
    }
  }

  /** Draw `k` is an id not yet stored and not drawn before, so its insert succeeds. */
  predicate FreshDraw(freshIds: nat -> string, stored: set<string>, k: nat)
  {
    freshIds(k) !in stored && freshIds(k) !in Drawn(freshIds, k)
  }

  /**
   * After `k` defaults: the rows stored before keep their values, the keys
   * are the old ones and the drawn ids, and each fresh draw holds its
   * default's row.
   */
  ghost predicate DefaultsStored(templates: map<string, TemplateRow>, before: map<string, TemplateRow>,
                                 defaults: seq<DefaultTemplate>, freshIds: nat -> string, k: nat, now: string)
  {
    && k <= |defaults|
    && (forall t :: t in before ==> t in templates && templates[t] == before[t])
    && templates.Keys == before.Keys + Drawn(freshIds, k)
    && forall m {:trigger FreshDraw(freshIds, before.Keys, m)} :: 0 <= m < k && FreshDraw(freshIds, before.Keys, m) ==>
         freshIds(m) in templates && templates[freshIds(m)] == DefaultRow(defaults[m], freshIds(m), now)
  }

  /** One more default inserted, or refused because its id is taken, keeps `DefaultsStored`. */
  lemma DefaultsStoredStep(prev: map<string, TemplateRow>, next: map<string, TemplateRow>, start: map<string, TemplateRow>,
                           defaults: seq<DefaultTemplate>, freshIds: nat -> string, k: nat, now: string)
    requires k < |defaults| && DefaultsStored(prev, start, defaults, freshIds, k, now)
    requires freshIds(k) !in prev ==> next == prev[freshIds(k) := DefaultRow(defaults[k], freshIds(k), now)]
    requires freshIds(k) in prev ==> next == prev
    ensures DefaultsStored(next, start, defaults, freshIds, k + 1, now)
  {
    var x := freshIds(k);
    assert Drawn(freshIds, k + 1) == Drawn(freshIds, k) + {x};
    assert next.Keys == prev.Keys + {x};
    forall t | t in start
      ensures t in next && next[t] == start[t]
    {
      assert t in prev && prev[t] == start[t];
    }
    forall m | 0 <= m < k + 1 && FreshDraw(freshIds, start.Keys, m)
      ensures freshIds(m) in next && next[freshIds(m)] == DefaultRow(defaults[m], freshIds(m), now)
    {
      if m < k {
        DrawnHas(freshIds, k, m);
        assert freshIds(m) in prev && prev[freshIds(m)] == DefaultRow(defaults[m], freshIds(m), now);
      } else {
        assert x !in prev;
      }
    }
  }

  /** The prompt tables. */
  class PromptStore {
    var templates: map<string, TemplateRow>
    var variables: map<string, seq<VarRow>>
    var nextVarId: nat
    var feedback: seq<Feedback>

    /** Row ids are unique per template, below the counter, and one row per name. */
    ghost predicate Valid()
      reads this
    {
      variables.Keys <= templates.Keys &&
      forall id :: id in variables ==> WellKeyed(variables[id]) && IdsBelow(variables[id], nextVarId)
    }

    constructor ()
      ensures templates == map[] && variables == map[] && nextVarId == 0 && feedback == []
      ensures Valid()
    {
      templates := map[];
      variables := map[];
      nextVarId := 0;
      feedback := [];
    }

    /** The variable rows of one template (`select('*').eq('template_id', id)`). */
    function RowsOf(id: string): seq<VarRow>
      reads this
    {
      if id in variables then variables[id] else []
    }

    /**
     * `create_prompt_template`: stores the row and one variable row per
     * extracted name. An id already in use makes the insert fail.
     */
    method CreatePromptTemplate(t: PromptTemplate, connected: bool) returns (id: Option<string>)
      requires Valid()
      modifies this
      ensures Valid()
      ensures id.Some? <==> connected && t.templateId !in old(templates)
      ensures id.None? ==> unchanged(this)
      ensures id.Some? ==> id.value == t.templateId && templates == old(templates)[t.templateId := t.Row()]
      ensures id.Some? ==>
        var p := Inserted([], map[], ExtractVariables(t.templateText), old(nextVarId));
        variables == old(variables)[t.templateId := p.0] && nextVarId == p.1
      ensures feedback == old(feedback)
    {
      if !connected || t.templateId in templates {
        return None;
      }
      templates := templates[t.templateId := t.Row()];
      var names := ExtractVariables(t.templateText);
      var rows, next := InsertNames([], map[], names, nextVarId);
      InsertedWellKeyed([], map[], names, nextVarId);
      InsertedIdsBelow([], map[], names, nextVarId);
      variables := variables[t.templateId := rows];
      nextVarId := next;
      id := Some(t.templateId);
    }

    /**
     * `update_prompt_template`: refuses when disconnected, without an id or
     * for an unknown template; otherwise stamps `updated_at`, stores the row
     * and synchronises the variable rows with the extracted names.
     */
    method UpdatePromptTemplate(t: PromptTemplate, connected: bool, now: string) returns (ok: bool)
      requires Valid()
      modifies this, t
      ensures Valid()
      ensures ok <==> connected && t.templateId != "" && t.templateId in old(templates)
      ensures !ok ==> unchanged(this) && unchanged(t)
      ensures ok ==> t.updatedAt == now && templates == old(templates)[t.templateId := t.Row()]
      ensures ok ==>
        var s := Synced(old(RowsOf(t.templateId)), ExtractVariables(t.templateText), old(nextVarId));
        variables == old(variables)[t.templateId := s.0] && nextVarId == s.1
      ensures ok ==> NamesOf(RowsOf(t.templateId)) == set n | n in ExtractVariables(t.templateText)
      ensures feedback == old(feedback)
    {
      if !connected || t.templateId == "" || t.templateId !in templates {
        return false;
      }
      t.updatedAt := now;
      templates := templates[t.templateId := t.Row()];
      var old_rows := RowsOf(t.templateId);
      var existing := ExistingVars(old_rows);
      var newVars := ExtractVariables(t.templateText);
      var rows, next := InsertNames(old_rows, existing, newVars, nextVarId);
      rows := DeleteStale(rows, existing, ExistingOrder(old_rows), newVars);
      SyncedNames(old_rows, newVars, nextVarId);
      assert WellKeyed(rows) by {
        SyncedWellKeyed(old_rows, newVars, nextVarId);
      }
      InsertedIdsBelow(old_rows, existing, newVars, nextVarId);
      assert IdsBelow(rows, next) by {
        DeletedSubset(Inserted(old_rows, existing, newVars, nextVarId).0, existing, ExistingOrder(old_rows), newVars);
      }
      variables := variables[t.templateId := rows];
      nextVarId := next;
      ok := true;
    }

    /**
     * `create_new_version`: a copy of the stored template with the new text,
     * the next version number, the old template as parent and, unless a new
     * name is given, the name "<name> (v<n+1>)".
     */
    method CreateNewVersion(templateId: string, newText: string, newName: Option<string>,
                            newDescription: Option<string>, connected: bool, freshId: string, now: string)
      returns (id: Option<string>)
      requires Valid()
      modifies this
      ensures Valid()
      ensures !connected || templateId !in old(templates) ==> id.None? && unchanged(this)
      ensures id.Some? <==> connected && templateId in old(templates) && freshId !in old(templates)
      ensures id.None? ==> unchanged(this)
      ensures id.Some? ==> id.value == freshId && freshId in templates && freshId in variables
                           && templates == old(templates)[freshId := templates[freshId]]
                           && variables == old(variables)[freshId := variables[freshId]]
      ensures id.Some? ==>
        id.value in templates && id.value !in old(templates) && templateId in old(templates) &&
        var e := old(templates)[templateId];
        var n := templates[id.value];
        n.version == e.version + 1 && n.parentId == Some(templateId) && n.tags == e.tags &&
        n.category == OrDefault(Some(e.category), DefaultCategory) && n.templateText == OrDefault(Some(newText), "") &&
        n.name == OrDefault(newName, VersionName(e.name, e.version)) &&
        n.description == OrDefault(Some(OrDefault(newDescription, e.description)), "") &&
        n.isActive && n.createdAt == now
      ensures feedback == old(feedback)
    {
      if !connected || templateId !in templates {
        return None;
      }
      var e := templates[templateId];
      var t := new PromptTemplate(None, Some(OrDefault(newName, VersionName(e.name, e.version))),
                                  Some(OrDefault(newDescription, e.description)), Some(newText),
                                  Some(e.category), e.tags, e.version + 1, Some(templateId), [], freshId, now);
      assert t.templateId == freshId;
      id := CreatePromptTemplate(t, true);
    }

    /** `add_prompt_feedback`: a rating outside 1..5 is refused before anything is inserted. */
    method AddPromptFeedback(usageId: string, rating: int, text: Option<string>, kind: Option<string>,
                             connected: bool, now: string) returns (ok: bool)
      modifies this
      ensures ok <==> connected && 1 <= rating <= 5
      ensures ok ==> feedback == old(feedback) + [Feedback(usageId, rating, text, kind, now)]
      ensures !ok ==> feedback == old(feedback)
      ensures templates == old(templates) && variables == old(variables) && nextVarId == old(nextVarId)
    {
      if !connected {
        return false;
      }
      if !(1 <= rating <= 5) {
        return false;
      }
      feedback := feedback + [Feedback(usageId, rating, text, kind, now)];
      ok := true;
    }

    /**
     * `initialize_default_templates`: with an active template already stored
     * nothing is inserted; otherwise each default is created under the id
     * `freshIds(k)` draws for it.
     */
    method InitializeDefaultTemplates(defaults: seq<DefaultTemplate>, connected: bool,
                                      freshIds: nat -> string, now: string) returns (ok: bool)
      requires Valid()
      modifies this
      ensures Valid()
      ensures ok <==> connected
      ensures !connected || HasActive(old(templates)) ==> unchanged(this)
      ensures forall t :: t in old(templates) ==> t in templates && templates[t] == old(templates)[t]
      ensures connected && !HasActive(old(templates)) ==>
        templates.Keys == old(templates).Keys + Drawn(freshIds, |defaults|)
      ensures connected && !HasActive(old(templates)) ==>
        forall k {:trigger FreshDraw(freshIds, old(templates).Keys, k)} :: 0 <= k < |defaults| && FreshDraw(freshIds, old(templates).Keys, k) ==>
          freshIds(k) in templates && templates[freshIds(k)] == DefaultRow(defaults[k], freshIds(k), now)
      ensures feedback == old(feedback)
    {
      if !connected {
        return false;
      }
      var active := HasActiveTemplate();
      if active {
        return true;
      }
      var k := 0;
      while k < |defaults|
        invariant 0 <= k <= |defaults|
        invariant Valid()
        invariant DefaultsStored(templates, old(templates), defaults, freshIds, k, now)
        invariant feedback == old(feedback)
      {
        ghost var before := templates;
        InsertDefault(defaults[k], freshIds(k), now);
        DefaultsStoredStep(before, templates, old(templates), defaults, freshIds, k, now);
        k := k + 1;
      }
      ok := true;
    }

    /** One turn of the default loop: `create_prompt_template` on a new template built from `d`. */
    method InsertDefault(d: DefaultTemplate, id: string, now: string)
      requires Valid()
      modifies this
      ensures Valid()
      ensures id !in old(templates) ==> templates == old(templates)[id := DefaultRow(d, id, now)]
      ensures id in old(templates) ==> templates == old(templates)
      ensures feedback == old(feedback)
    {
      var t := new PromptTemplate(None, Some(d.name), Some(d.description), Some(d.templateText),
                                  Some(d.category), d.tags, 1, None, [], id, now);
      var created := CreatePromptTemplate(t, true);
      if created.Some? {
        assert t.Row() == DefaultRow(d, id, now);
      }
    }

    /** Whether some stored template is active. */
    method HasActiveTemplate() returns (b: bool)
      ensures b <==> HasActive(templates)
    {
      b := false;
      var rest := templates.Keys;
      while rest != {}
        invariant rest <= templates.Keys
        invariant b <==> exists id :: id in templates.Keys - rest && templates[id].isActive
        decreases |rest|
      {
        var id :| id in rest;
        if templates[id].isActive {
          b := true;
        }
        rest := rest - {id};
      }
    }
  }

  /** The first loop of the synchronisation, as `Inserted` specifies it. */
  method InsertNames(rows: seq<VarRow>, existing: map<string, VarRow>, names: seq<string>, next: nat)
    returns (r: seq<VarRow>, n: nat)
    ensures (r, n) == Inserted(rows, existing, names, next)
  {
    r, n := rows, next;
    var i := 0;
    while i < |names|
      invariant 0 <= i <= |names|
      invariant (r, n) == Inserted(rows, existing, names[..i], next)
    {
      assert names[..i + 1][..i] == names[..i];
      if names[i] !in existing {
        r := r + [VarRow(n, names[i])];
        n := n + 1;
      }
      i := i + 1;
    }
    assert names[..|names|] == names;
  }

  /** The second loop of the synchronisation, as `Deleted` specifies it. */
  method DeleteStale(rows: seq<VarRow>, existing: map<string, VarRow>, order: seq<string>, keep: seq<string>)
    returns (r: seq<VarRow>)
    requires forall n :: n in order ==> n in existing
    ensures r == Deleted(rows, existing, order, keep)
  {
    r := rows;
    var i := 0;
    while i < |order|
      invariant 0 <= i <= |order|
      invariant r == Deleted(rows, existing, order[..i], keep)
    {
      assert order[..i + 1][..i] == order[..i];
      if order[i] !in keep {
        r := RemoveId(r, existing[order[i]].id);
      }
      i := i + 1;
    }
    assert order[..|order|] == order;
  }

  /** Deleting only removes rows. */
  lemma {:induction false} DeletedSubset(rows: seq<VarRow>, existing: map<string, VarRow>, order: seq<string>, keep: seq<string>)
    requires forall n :: n in order ==> n in existing
    ensures forall r :: r in Deleted(rows, existing, order, keep) ==> r in rows
    decreases |order|
  {
    if order != [] {
      DeletedSubset(rows, existing, order[..|order| - 1], keep);
    }
  }

  /** The synchronised rows are well keyed again. */
  lemma SyncedWellKeyed(rows: seq<VarRow>, names: seq<string>, next: nat)
    requires WellKeyed(rows) && IdsBelow(rows, next)
    requires forall a, b :: 0 <= a < b < |names| ==> names[a] != names[b]
    ensures WellKeyed(Synced(rows, names, next).0)
  {
    var existing := ExistingVars(rows);
    InsertedWellKeyed(rows, existing, names, next);
    DeletedSubset(Inserted(rows, existing, names, next).0, existing, ExistingOrder(rows), names);
  }

  lemma {:induction false} InsertedWellKeyed(rows: seq<VarRow>, existing: map<string, VarRow>, names: seq<string>, next: nat)
    requires WellKeyed(rows) && IdsBelow(rows, next)
    requires existing.Keys == NamesOf(rows)
    requires forall a, b :: 0 <= a < b < |names| ==> names[a] != names[b]
    ensures WellKeyed(Inserted(rows, existing, names, next).0)
    ensures IdsBelow(Inserted(rows, existing, names, next).0, Inserted(rows, existing, names, next).1)
    decreases |names|
  {
    if names != [] {
      var init := names[..|names| - 1];
      var x := names[|names| - 1];
      InsertedWellKeyed(rows, existing, init, next);
      InsertedFacts(rows, existing, init, next);
      var p := Inserted(rows, existing, init, next);
      if x !in existing {
        assert x !in NamesOf(p.0) by {
          assert x !in init by {
            forall a | 0 <= a < |init| ensures init[a] != x {
              assert names[a] != names[|names| - 1];
            }
          }
        }
        FreshRowKeeps(p.0, p.1, x);
      }
    }
  }

  /** Appending a row with an id and a name nobody has keeps the rows well keyed. */
  lemma FreshRowKeeps(rows: seq<VarRow>, next: nat, x: string)
    requires WellKeyed(rows) && IdsBelow(rows, next) && x !in NamesOf(rows)
    ensures WellKeyed(rows + [VarRow(next, x)]) && IdsBelow(rows + [VarRow(next, x)], next + 1)
  {
    var v := VarRow(next, x);
    forall r | r in rows + [v] ensures r in rows || r == v { }
    forall r | r in rows ensures r.name != x && r.id != next {
      assert r.name in NamesOf(rows);
    }
  }
}
