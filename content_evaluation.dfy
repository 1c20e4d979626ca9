/**
 * The content-quality evaluation of quality/content_evaluation.py: five
 * criteria scored 1..5 by heuristic rules, a total, an average and a rating.
 *
 * Every count the rules look at is computed from the text by a scanner that
 * follows the pattern's leftmost, non-overlapping `findall` matches and is
 * gathered in `Metrics`; only the heading texts of the rendered Markdown
 * are given. Half points are kept exact by counting in doubled units.
 */
module ContentEvaluation {
  import opened Wrappers
  import opened StrUtil
  import opened PyMath
  import SE = SourceEvaluation

  /** The keyword counts of one content file, as `MetricsOf` computes them. */
  datatype Metrics = Metrics(
    responsibleAiMentions: nat,  // whole-word keyword hits per mission pillar
    sustainabilityMentions: nat,
    inclusionMentions: nat,
    pillarSections: nat,         // headings naming a pillar keyword
    exampleMentions: nat,        // "example", "for instance", "such as"
    hedgingCount: nat,
    technicalCount: nat,
    explanations: nat,
    simpleLanguage: nat,
    advancedConcepts: nat,
    practicalExamples: nat,
    technicalDepth: nat,
    researchReferences: nat)

  type Scored = SE.Scored

  /** An adjustment in half points, with the notes it adds. */
  datatype Adj = Adj(delta: int, notes: seq<string>)

  /** `max(1, min(5, round(score)))` for a score given in half points. */
  function Final(halves: int): (r: int)
    ensures 1 <= r <= 5
  {
    Clamp(1, 5, RoundDiv(halves, 2))
  }

  lemma FinalMonotone(a: int, b: int)
    requires a <= b
    ensures Final(a) <= Final(b)
  {
    RoundDivMonotone(a, b, 2);
  }

  /** A whole score inside 1..5 is kept. */
  lemma FinalWhole(k: int)
    requires 1 <= k <= 5
    ensures Final(2 * k) == k
  {
    RoundDivExact(k, 2);
  }

  /** Half a point either side of a whole score rounds to the even neighbour, inside 1..5. */
  lemma FinalTies(k: int)
    requires 1 <= k <= 5
    ensures Final(2 * k + 1) == if k % 2 == 0 || k == 5 then k else k + 1
    ensures Final(2 * k - 1) == if k % 2 == 0 || k == 1 then k else k - 1
  {
    var up, down := RoundDiv(2 * k + 1, 2), RoundDiv(2 * k - 1, 2);
    assert up == k || up == k + 1;
    assert down == k || down == k - 1;
  }

  // ----------------------------------------------------------------- counts

  /** A run of word characters starts at `i`. */
  predicate WordStart(s: string, i: int)
  {
    0 <= i < |s| && WordChar(s[i]) && (i == 0 || !WordChar(s[i - 1]))
  }

  /**
   * `len(re.findall(r'\b\w+\b', s))`: the greedy `\w+` between two
   * boundaries matches each maximal run of word characters once, so this is
   * the number of positions where a run starts.
   */
  function WordCount(s: string): (n: nat)
    ensures n <= |s|
  {
    if s == [] then 0
    else WordCount(s[..|s| - 1]) + (if WordStart(s, |s| - 1) then 1 else 0)
  }

  /** The words of two texts joined by a space are the words of each. */
  lemma {:induction false} WordCountJoin(a: string, b: string)
    ensures WordCount(a + " " + b) == WordCount(a) + WordCount(b)
    decreases |b|
  {
    var ab := a + " " + b;
    if b == [] {
      assert ab[..|ab| - 1] == a;
    } else {
      var init := b[..|b| - 1];
      assert ab[..|ab| - 1] == a + " " + init;
      WordCountJoin(a, init);
      assert ab[|ab| - 1] == b[|b| - 1];
      assert ab[|ab| - 2] == if |b| == 1 then ' ' else b[|b| - 2];
    }
  }

  /** A text without word characters has no words. */
  lemma {:induction false} NoWordCharNoWords(s: string)
    requires forall k :: 0 <= k < |s| ==> !WordChar(s[k])
    ensures WordCount(s) == 0
  {
    if s != [] {
      NoWordCharNoWords(s[..|s| - 1]);
    }
  }

  /** The end of the run of word characters starting at `j`. */
  function WordRunEnd(s: string, j: nat): (e: nat)
    requires j <= |s|
    ensures j <= e <= |s| && (e == |s| || !WordChar(s[e]))
    ensures forall k :: j <= k < e ==> WordChar(s[k])
    decreases |s| - j
  {
    if j == |s| || !WordChar(s[j]) then j else WordRunEnd(s, j + 1)
  }

  predicate HasDigit(s: string)
  {
    s != [] && (IsDigit(s[0]) || HasDigit(s[1..]))
  }

  /**
   * Where the marker `\[\w+\d+\w*\]` that starts at `i` ends: the word run
   * after '[' must reach a ']' and hold a digit after its first character
   * (the three parts are all word characters, so only the run's end matters).
   */
  function MarkerEnd(s: string, i: nat): (r: Option<nat>)
    ensures r.Some? ==> i + 4 <= r.value <= |s| && s[i] == '[' && s[r.value - 1] == ']'
    ensures r.Some? ==> forall k :: i < k < r.value - 1 ==> WordChar(s[k])
  {
    if i < |s| && s[i] == '[' then
      var e := WordRunEnd(s, i + 1);
      if e < |s| && s[e] == ']' && i + 2 <= e && HasDigit(s[i + 2..e]) then Some(e + 1) else None
    else None
  }

  /** The text of a citation marker: a bracketed run of word characters. */
  predicate IsMarker(m: string)
  {
    |m| >= 4 && m[0] == '[' && m[|m| - 1] == ']' && forall k :: 0 < k < |m| - 1 ==> WordChar(m[k])
  }

  /** `re.findall` of the marker pattern from `i`: left to right, without overlaps. */
  function Markers(s: string, i: nat): (r: seq<string>)
    requires i <= |s|
    ensures forall k :: 0 <= k < |r| ==> IsMarker(r[k])
    decreases |s| - i
  {
    if i == |s| then []
    else match MarkerEnd(s, i)
      case Some(e) =>
        var m := s[i..e];
        assert forall k :: 0 < k < |m| - 1 ==> m[k] == s[i + k];
        [m] + Markers(s, e)
      case None => Markers(s, i + 1)
  }

  /** `len(set(re.findall(r'\[\w+\d+\w*\]', content)))`. */
  function UniqueCitations(s: string): nat
  {
    |set m | m in Markers(s, 0)|
  }

  /** A text without '[' from some position on has no citation marker there. */
  lemma {:induction false} NoBracketNoMarkers(s: string, i: nat)
    requires i <= |s| && forall k :: i <= k < |s| ==> s[k] != '['
    ensures Markers(s, i) == []
    decreases |s| - i
  {
    if i < |s| {
      NoBracketNoMarkers(s, i + 1);
    }
  }

  /** So a text without '[' has no unique citation. */
  lemma NoBracketNoCitations(s: string)
    requires '[' !in s
    ensures UniqueCitations(s) == 0
  {
    NoBracketNoMarkers(s, 0);
  }

  /** The last newline in `s[j..e]`: where `\s*\n` stops once it has backtracked. */
  function LastNewline(s: string, j: nat, e: nat): (r: Option<nat>)
    requires j <= e <= |s|
    ensures r.Some? ==> j <= r.value < e && s[r.value] == '\n'
    ensures forall k :: (if r.Some? then r.value + 1 else j) <= k < e ==> s[k] != '\n'
    decreases e - j
  {
    if e == j then None
    else if s[e - 1] == '\n' then Some(e - 1)
    else LastNewline(s, j, e - 1)
  }

  /** `len(re.findall(r'\n\s*\n', s[i:]))`: each match runs from a newline to the last newline of the whitespace after it. */
  function ParagraphBreaks(s: string, i: nat): (n: nat)
    requires i <= |s|
    ensures n <= |s| - i
    decreases |s| - i
  {
    if i == |s| then 0
    else if s[i] == '\n' then
      match LastNewline(s, i + 1, SpaceRunEnd(s, i + 1))
      case Some(k) => 1 + ParagraphBreaks(s, k + 1)
      case None => ParagraphBreaks(s, i + 1)
    else ParagraphBreaks(s, i + 1)
  }

  /** `len(re.findall(r'\n\s*[-*]\s', s[i:]))`: a newline, blanks, a dash or star, then one blank. */
  function ListItems(s: string, i: nat): (n: nat)
    requires i <= |s|
    ensures n <= |s| - i
    decreases |s| - i
  {
    if i == |s| then 0
    else
      var e := if s[i] == '\n' then SpaceRunEnd(s, i + 1) else i;
      if s[i] == '\n' && e + 1 < |s| && (s[e] == '-' || s[e] == '*') && IsSpace(s[e + 1])
      then 1 + ListItems(s, e + 2)
      else ListItems(s, i + 1)
  }

  /** A text without a newline has neither paragraph breaks nor list items. */
  lemma {:induction false} NoNewlineNoBreaks(s: string, i: nat)
    requires i <= |s| && forall k :: i <= k < |s| ==> s[k] != '\n'
    ensures ParagraphBreaks(s, i) == 0 && ListItems(s, i) == 0
    decreases |s| - i
  {
    if i < |s| {
      NoNewlineNoBreaks(s, i + 1);
    }
  }

  /** A blank line counts as one paragraph break, and a dash after a newline as one list item. */
  lemma OneBreakOneItem()
    ensures ParagraphBreaks("\n\n", 0) == 1
    ensures ListItems("\n- ", 0) == 1
  {
  }

  // --------------------------------------------------------------- keywords

  /** One alternative of a keyword pattern: `\bw\b`, or `\bf\s+g\b`. */
  datatype Alt = Word(w: string) | Spaced(first: string, second: string)

  /** `s[p..]` starts with `w` and `\b` holds before it (`w` begins with a word character). */
  predicate LiteralAt(s: string, w: string, p: nat)
  {
    p + |w| <= |s| && s[p..p + |w|] == w && (p == 0 || !WordChar(s[p - 1]))
  }

  /** `\b` after a keyword that ends with a word character, at `e`. */
  predicate EndsWord(s: string, e: nat)
  {
    e == |s| || (e < |s| && !WordChar(s[e]))
  }

  /**
   * Where `a` matches at `p`, if it does. For `Spaced` the greedy `\s+` takes
   * the whole whitespace run: giving any back would put a blank where the
   * second word's first letter must be.
   */
  function AltEnd(s: string, a: Alt, p: nat): (r: Option<nat>)
    ensures r.Some? ==> p <= r.value <= |s| && EndsWord(s, r.value)
  {
    match a
    case Word(w) =>
      if LiteralAt(s, w, p) && EndsWord(s, p + |w|) then Some(p + |w|) else None
    case Spaced(f, g) =>
      if LiteralAt(s, f, p) && p + |f| < |s| && IsSpace(s[p + |f|]) then
        var e := SpaceRunEnd(s, p + |f|);
        if e + |g| <= |s| && s[e..e + |g|] == g && EndsWord(s, e + |g|) then Some(e + |g|) else None
      else None
  }

  /** The first alternative of `alts` that matches at `p`, as `|` tries them. */
  function FirstEnd(s: string, alts: seq<Alt>, p: nat): (r: Option<nat>)
    ensures r.Some? ==> p <= r.value <= |s|
    ensures r.Some? <==> exists k :: 0 <= k < |alts| && AltEnd(s, alts[k], p).Some?
  {
    if alts == [] then None
    else match AltEnd(s, alts[0], p)
      case Some(e) => Some(e)
      case None =>
        var r := FirstEnd(s, alts[1..], p);
        assert forall k :: 1 <= k < |alts| ==> alts[k] == alts[1..][k - 1];
        r
  }

  /** `len(re.findall(pattern, s[i:]))` for the alternation `alts`: after a match the scan resumes at its end. */
  function Hits(s: string, alts: seq<Alt>, i: nat): (n: nat)
    requires i <= |s|
    ensures n <= |s| - i + 1
    decreases |s| - i
  {
    if i == |s| then (if FirstEnd(s, alts, i).Some? then 1 else 0)
    else match FirstEnd(s, alts, i)
      case Some(e) => 1 + Hits(s, alts, if e > i then e else i + 1)
      case None => Hits(s, alts, i + 1)
  }

  /** A match at `p` or later is found by a scan from `i`. */
  lemma {:induction false} HitsFrom(s: string, alts: seq<Alt>, i: nat, p: nat)
    requires i <= p <= |s| && FirstEnd(s, alts, p).Some?
    ensures Hits(s, alts, i) > 0
    decreases p - i
  {
    if FirstEnd(s, alts, i).None? {
      HitsFrom(s, alts, i + 1, p);
    }
  }

  /** A scan that counts something found a match at some position. */
  lemma {:induction false} HitsWitness(s: string, alts: seq<Alt>, i: nat) returns (p: nat)
    requires i <= |s| && Hits(s, alts, i) > 0
    ensures i <= p <= |s| && FirstEnd(s, alts, p).Some?
    decreases |s| - i
  {
    if FirstEnd(s, alts, i).Some? {
      p := i;
    } else {
      p := HitsWitness(s, alts, i + 1);
    }
  }

  /** The scan finds something exactly when some position matches. */
  lemma HitsPositive(s: string, alts: seq<Alt>, i: nat)
    requires i <= |s|
    ensures Hits(s, alts, i) > 0 <==> exists p :: i <= p <= |s| && FirstEnd(s, alts, p).Some?
  {
    if Hits(s, alts, i) > 0 {
      var p := HitsWitness(s, alts, i);
    }
    forall p | i <= p <= |s| && FirstEnd(s, alts, p).Some?
      ensures Hits(s, alts, i) > 0
    {
      HitsFrom(s, alts, i, p);
    }
  }

  /** `sum(len(re.findall(r'\b' + k + r'\b', s)) for k in keywords)`. */
  function KeywordHits(s: string, keywords: seq<string>): (n: nat)
    ensures keywords == [] ==> n == 0
  {
    if keywords == [] then 0 else Hits(s, [Word(keywords[0])], 0) + KeywordHits(s, keywords[1..])
  }

  /** The per-keyword counts add up over a split keyword list. */
  lemma {:induction false} KeywordHitsAppend(s: string, a: seq<string>, b: seq<string>)
    ensures KeywordHits(s, a + b) == KeywordHits(s, a) + KeywordHits(s, b)
  {
    if a != [] {
      assert (a + b)[1..] == a[1..] + b;
      KeywordHitsAppend(s, a[1..], b);
    } else {
      assert a + b == b;
    }
  }

  const ResponsibleAiKeywords := ["responsible ai", "ethical", "ethics", "bias", "fairness", "transparency", "accountability"]
  const SustainabilityKeywords := ["sustainability", "sustainable", "environmental", "carbon", "energy", "climate"]
  const InclusionKeywords := ["inclusion", "inclusive", "diversity", "diverse", "accessibility", "accessible", "global"]
  const HedgingTerms := ["may", "might", "could", "possibly", "perhaps", "seems", "appears"]
  const TechnicalTerms := ["algorithm", "model", "neural", "training", "inference", "parameter", "hyperparameter", "gradient", "backpropagation", "optimization"]

  /** `\bexample\b|\bfor instance\b|\bsuch as\b` */
  const ExampleAlts := [Word("example"), Word("for instance"), Word("such as")]
  /** `\bis\s+a\b|\bmeans\b|\brefers to\b` */
  const ExplanationAlts := [Spaced("is", "a"), Word("means"), Word("refers to")]
  const SimpleAlts := [Word("simple"), Word("basic"), Word("fundamental"), Word("introduction")]
  const AdvancedAlts := [Word("architecture"), Word("implementation"), Word("framework"), Word("workflow")]
  const PracticalAlts := [Word("example"), Word("case study"), Word("application")]
  const DepthAlts := [Word("optimization"), Word("architecture"), Word("implementation"), Word("algorithm"), Word("performance")]
  const ResearchAlts := [Word("research"), Word("study"), Word("paper"), Word("publication")]

  /** The heading contains a keyword of some pillar. */
  predicate NamesPillar(title: string)
  {
    exists k :: 0 <= k < |PillarKeywords| && Contains(Lower(title), PillarKeywords[k])
  }

  const PillarKeywords := ResponsibleAiKeywords + SustainabilityKeywords + InclusionKeywords

  /** The headings (`h1`–`h4`) in which some pillar keyword occurs; the inner `break` counts each heading once. */
  function PillarSections(titles: seq<string>): (n: nat)
    ensures n <= |titles|
  {
    if titles == [] then 0 else (if NamesPillar(titles[0]) then 1 else 0) + PillarSections(titles[1..])
  }

  /** Headings are counted independently of each other. */
  lemma {:induction false} PillarSectionsAppend(a: seq<string>, b: seq<string>)
    ensures PillarSections(a + b) == PillarSections(a) + PillarSections(b)
  {
    if a != [] {
      assert (a + b)[1..] == a[1..] + b;
      PillarSectionsAppend(a[1..], b);
    } else {
      assert a + b == b;
    }
  }

  /**
   * The counts the five criteria read, from the text and its heading texts:
   * the keyword patterns run on the lower-cased text.
   */
  function MetricsOf(content: string, headings: seq<string>): (m: Metrics)
    ensures m.pillarSections <= |headings|
    ensures m.responsibleAiMentions + m.sustainabilityMentions + m.inclusionMentions
      == KeywordHits(Lower(content), PillarKeywords)
    ensures m.exampleMentions > 0 <==> exists p :: 0 <= p <= |content| && FirstEnd(Lower(content), ExampleAlts, p).Some?
  {
    var low := Lower(content);
    KeywordHitsAppend(low, ResponsibleAiKeywords, SustainabilityKeywords);
    KeywordHitsAppend(low, ResponsibleAiKeywords + SustainabilityKeywords, InclusionKeywords);
    HitsPositive(low, ExampleAlts, 0);
    Metrics(
      KeywordHits(low, ResponsibleAiKeywords),
      KeywordHits(low, SustainabilityKeywords),
      KeywordHits(low, InclusionKeywords),
      PillarSections(headings),
      Hits(low, ExampleAlts, 0),
      KeywordHits(low, HedgingTerms),
      KeywordHits(low, TechnicalTerms),
      Hits(low, ExplanationAlts, 0),
      Hits(low, SimpleAlts, 0),
      Hits(low, AdvancedAlts, 0),
      Hits(low, PracticalAlts, 0),
      Hits(low, DepthAlts, 0),
      Hits(low, ResearchAlts, 0))
  }

  // ---------------------------------------------------------------- sources

  function SumCurrency(evals: seq<SE.Evaluation>): int
  {
    if evals == [] then 0 else evals[0].currency + SumCurrency(evals[1..])
  }

  function SumAuthority(evals: seq<SE.Evaluation>): int
  {
    if evals == [] then 0 else evals[0].authority + SumAuthority(evals[1..])
  }

  function SumAverage(evals: seq<SE.Evaluation>): real
  {
    if evals == [] then 0.0 else SE.AverageScore(evals[0]) + SumAverage(evals[1..])
  }

  /** One of the mean-based steps: `+up` at a mean of 4.0 or more, `-up` at 2.0 or less. */
  function Band(mean: real, up: int, high: string, low: string): (a: Adj)
    ensures mean >= 4.0 ==> a == Adj(up, [high])
    ensures mean <= 2.0 ==> a == Adj(-up, [low])
    ensures 2.0 < mean < 4.0 ==> a == Adj(0, [])
  {
    if mean >= 4.0 then Adj(up, [high])
    else if mean <= 2.0 then Adj(-up, [low])
    else Adj(0, [])
  }

  function QualityBand(evals: seq<SE.Evaluation>): Adj
    requires evals != []
  {
    Band(SumAverage(evals) / |evals| as real, 2, "High-quality sources", "Low-quality sources")
  }

  function CurrencyBand(evals: seq<SE.Evaluation>): Adj
    requires evals != []
  {
    Band(SumCurrency(evals) as real / |evals| as real, 1, "Recent sources", "Outdated sources")
  }

  function AuthorityBand(evals: seq<SE.Evaluation>): Adj
    requires evals != []
  {
    Band(SumAuthority(evals) as real / |evals| as real, 1, "Authoritative sources", "Low-authority sources")
  }

  /** The citation step: +0.5 from three distinct markers, -0.5 at one or none. */
  function IntegrationBand(uniqueCitations: nat): (a: Adj)
    ensures uniqueCitations >= 3 ==> a.delta == 1
    ensures uniqueCitations <= 1 ==> a == Adj(-1, ["Poor source integration"])
    ensures uniqueCitations == 2 ==> a == Adj(0, [])
  {
    if uniqueCitations >= 3 then
      Adj(1, ["Good source integration (" + NatToString(uniqueCitations) + " unique citations)"])
    else if uniqueCitations <= 1 then Adj(-1, ["Poor source integration"])
    else Adj(0, [])
  }

  /** `evaluate_source_quality`: 3, moved by the source means and the citation count. */
  function SourceQuality(evals: seq<SE.Evaluation>, uniqueCitations: nat): (r: Scored)
    ensures 1 <= r.score <= 5
    ensures evals == [] ==> r == SE.Scored(1, "No sources found")
  {
    if evals == [] then SE.Scored(1, "No sources found")
    else
      var q, c, a, i := QualityBand(evals), CurrencyBand(evals), AuthorityBand(evals), IntegrationBand(uniqueCitations);
      SE.Scored(Final(6 + q.delta + c.delta + a.delta + i.delta), Join(q.notes + c.notes + a.notes + i.notes, "; "))
  }

  /** More distinct citations never lower the source-quality score. */
  lemma SourceQualityMonotone(evals: seq<SE.Evaluation>, u1: nat, u2: nat)
    requires u1 <= u2
    ensures SourceQuality(evals, u1).score <= SourceQuality(evals, u2).score
  {
    if evals != [] {
      var base := 6 + QualityBand(evals).delta + CurrencyBand(evals).delta + AuthorityBand(evals).delta;
      assert IntegrationBand(u1).delta <= IntegrationBand(u2).delta;
      FinalMonotone(base + IntegrationBand(u1).delta, base + IntegrationBand(u2).delta);
    }
  }

  /** Every evaluated source averages between 2.2 and 3.8. */
  lemma {:induction false} EvaluatedSumBounds(sources: seq<SE.Source>, currentYear: int)
    ensures 11.0 * |sources| as real <= 5.0 * SumAverage(SE.EvaluateSources(sources, currentYear))
    ensures 5.0 * SumAverage(SE.EvaluateSources(sources, currentYear)) <= 19.0 * |sources| as real
  {
    var evals := SE.EvaluateSources(sources, currentYear);
    if sources != [] {
      assert evals[1..] == SE.EvaluateSources(sources[1..], currentYear);
      EvaluatedSumBounds(sources[1..], currentYear);
      SE.EvaluatedRatingRange(sources[0], currentYear);
    }
  }

  /**
   * Since the source evaluator fixes three of its five scores at 3, the
   * mean source average stays strictly between 2.0 and 4.0, so the
   * one-point quality step of `evaluate_source_quality` never applies to
   * sources parsed and evaluated by the pipeline.
   */
  lemma QualityBandNeutral(sources: seq<SE.Source>, currentYear: int)
    requires sources != []
    ensures QualityBand(SE.EvaluateSources(sources, currentYear)) == Adj(0, [])
  {
    var evals := SE.EvaluateSources(sources, currentYear);
    EvaluatedSumBounds(sources, currentYear);
    MeanStrictlyInside(SumAverage(evals), |evals|);
  }

  lemma MeanBetween(s: real, n: real, lo: real, hi: real)
    requires n >= 1.0 && lo >= 0.0 && lo * n < s < hi * n
    ensures lo < s / n < hi
  {
    assert (s / n) * n == s;
  }

  lemma MeanStrictlyInside(s: real, k: nat)
    requires k >= 1
    requires 11.0 * k as real <= 5.0 * s <= 19.0 * k as real
    ensures 2.0 < s / k as real < 4.0
  {
    var n := k as real;
    assert 2.0 * n < s < 4.0 * n;
    MeanBetween(s, n, 2.0, 4.0);
  }

  // ---------------------------------------------------------------- mission

  function TotalMentions(m: Metrics): nat
  {
    m.responsibleAiMentions + m.sustainabilityMentions + m.inclusionMentions
  }

  function MentionedPillars(m: Metrics): (r: nat)
    ensures r <= 3
    ensures r == 0 <==> TotalMentions(m) == 0
  {
    (if m.responsibleAiMentions > 0 then 1 else 0)
    + (if m.sustainabilityMentions > 0 then 1 else 0)
    + (if m.inclusionMentions > 0 then 1 else 0)
  }

  const NoPillars := "No mission pillars mentioned"

  /** `evaluate_mission_alignment`. */
  function MissionAlignment(m: Metrics): (r: Scored)
    ensures 1 <= r.score <= 5
    ensures TotalMentions(m) == 0 ==> r.score <= 2
    ensures TotalMentions(m) == 0 && m.pillarSections == 0 ==> r.score == 1
    ensures MentionedPillars(m) == 3 && TotalMentions(m) >= 10 ==> r.score == 5
  {
    var total := TotalMentions(m);
    var first :=
      if total == 0 then Adj(2, [NoPillars])
      else if total >= 10 then Adj(8, ["Strong mission pillar integration (" + NatToString(total) + " mentions)"])
      else Adj(6, []);
    var second :=
      if MentionedPillars(m) == 3 then Adj(first.delta + 2, first.notes + ["All mission pillars mentioned"])
      else if MentionedPillars(m) == 0 then Adj(2, first.notes + [NoPillars])
      else first;
    var third :=
      if m.pillarSections > 0 then
        Adj(second.delta + 1, second.notes + ["Dedicated sections for mission pillars (" + NatToString(m.pillarSections) + ")"])
      else second;
    SE.Scored(Final(third.delta), Join(third.notes, "; "))
  }

  /** With no pillar named at all, the "none mentioned" note is written twice. */
  lemma MissionNoMentionsNotedTwice(m: Metrics)
    requires TotalMentions(m) == 0
    ensures StartsWith(MissionAlignment(m).note, NoPillars + "; " + NoPillars)
  {
    var notes2 := [NoPillars, NoPillars];
    var twice := NoPillars + "; " + NoPillars;
    assert Join(notes2, "; ") == twice;
    if m.pillarSections > 0 {
      var extra := "Dedicated sections for mission pillars (" + NatToString(m.pillarSections) + ")";
      assert [NoPillars] + [NoPillars] == notes2;
      assert MissionAlignment(m).note == Join(([NoPillars] + [NoPillars]) + [extra], "; ");
      JoinSnoc(notes2, extra, "; ");
      assert (twice + "; " + extra)[..|twice|] == twice;
    } else {
      assert MissionAlignment(m).note == twice;
    }
  }

  // ------------------------------------------------------------- engagement

  function CountChar(s: string, c: char): (n: nat)
    ensures n <= |s|
  {
    if s == [] then 0 else (if s[0] == c then 1 else 0) + CountChar(s[1..], c)
  }

  /** The five engagement elements that are present. */
  function EngagementElements(content: string, m: Metrics): (n: nat)
    ensures n <= 5
  {
    (if m.exampleMentions > 0 then 1 else 0)
    + (if CountChar(content, '?') > 5 then 1 else 0)
    + (if ListItems(content, 0) > 3 then 1 else 0)
    + (if Contains(content, "```") then 1 else 0)
    + (if Contains(content, "![") then 1 else 0)
  }

  /** `evaluate_engagement`: length, variety and paragraph steps around 3. */
  function Engagement(content: string, m: Metrics): (r: Scored)
    ensures 1 <= r.score <= 5
    ensures WordCount(content) < 500 && EngagementElements(content, m) == 0 ==> r.score <= 2
  {
    var words := WordCount(content);
    var length :=
      if words < 500 then Adj(-2, ["Too short (" + NatToString(words) + " words)"])
      else if words > 2000 then Adj(1, ["Good length (" + NatToString(words) + " words)"])
      else Adj(0, []);
    var e := EngagementElements(content, m);
    var variety :=
      if e >= 4 then Adj(2, ["Excellent variety of engagement elements"])
      else if e >= 2 then Adj(1, ["Good variety of engagement elements"])
      else if e == 0 then Adj(-2, ["No engagement elements"])
      else Adj(0, []);
    var structure :=
      if ParagraphBreaks(content, 0) > 10 then Adj(1, ["Well-structured with multiple paragraphs"]) else Adj(0, []);
    SE.Scored(Final(6 + length.delta + variety.delta + structure.delta),
      Join(length.notes + variety.notes + structure.notes, "; "))
  }

  /**
   * Ties round to even: a short text with two or three elements and few
   * paragraphs sits at 2.5 and is scored 2, not 3.
   */
  lemma EngagementTieRoundsDown(content: string, m: Metrics)
    requires WordCount(content) < 500 && 2 <= EngagementElements(content, m) <= 3 && ParagraphBreaks(content, 0) <= 10
    ensures Engagement(content, m).score == 2
  {
  }

  // --------------------------------------------------------------- accuracy

  const AccuracyCaveat := "Note: Full accuracy evaluation requires domain expertise"

  function HedgingNote(n: nat): string
  {
    "Excessive hedging language (" + NatToString(n) + " instances)"
  }

  function TechnicalNote(n: nat): string
  {
    "Good use of technical terminology (" + NatToString(n) + " terms)"
  }

  /** The half-point moves of `evaluate_accuracy`: down for heavy hedging, up for heavy jargon. */
  function AccuracyMoves(m: Metrics): (a: Adj)
    ensures a.delta == (if m.technicalCount > 10 then 1 else 0) - (if m.hedgingCount > 10 then 1 else 0)
  {
    var hedging := if m.hedgingCount > 10 then Adj(-1, [HedgingNote(m.hedgingCount)]) else Adj(0, []);
    var technical := if m.technicalCount > 10 then Adj(1, [TechnicalNote(m.technicalCount)]) else Adj(0, []);
    Adj(hedging.delta + technical.delta, hedging.notes + technical.notes)
  }

  /** `evaluate_accuracy`: the source-quality score, moved half a point by hedging and by jargon. */
  function Accuracy(sourceScore: int, m: Metrics): (r: Scored)
    requires 1 <= sourceScore <= 5
    ensures -1 <= r.score - sourceScore <= 1
  {
    var moves := AccuracyMoves(m);
    FinalWhole(sourceScore);
    FinalTies(sourceScore);
    SE.Scored(Final(2 * sourceScore + moves.delta), Join(moves.notes + [AccuracyCaveat], "; "))
  }

  /**
   * Hedging and jargon cancel; either alone moves the score half a point,
   * rounded half to even and kept inside 1..5; the caveat always closes the note.
   */
  lemma AccuracyMeans(sourceScore: int, m: Metrics)
    requires 1 <= sourceScore <= 5
    ensures var r := Accuracy(sourceScore, m);
      && ((m.hedgingCount > 10) == (m.technicalCount > 10) ==> r.score == sourceScore)
      && (m.hedgingCount > 10 && m.technicalCount <= 10 ==>
           r.score == if sourceScore % 2 == 0 || sourceScore == 1 then sourceScore else sourceScore - 1)
      && (m.hedgingCount <= 10 && m.technicalCount > 10 ==>
           r.score == if sourceScore % 2 == 0 || sourceScore == 5 then sourceScore else sourceScore + 1)
      && EndsWith(r.note, AccuracyCaveat)
  {
    var moves := AccuracyMoves(m);
    FinalWhole(sourceScore);
    FinalTies(sourceScore);
    JoinEndsWithLast(moves.notes, AccuracyCaveat, "; ");
  }

  // -------------------------------------------------------------- relevance

  /** The audience named by the content ID; beginner when none is. */
  function Audience(contentId: string): (a: string)
    ensures a in {"beginner", "intermediate", "advanced"}
    ensures Contains(contentId, "-BEG-") ==> a == "beginner"
    ensures !Contains(contentId, "-BEG-") && Contains(contentId, "-INT-") ==> a == "intermediate"
    ensures a == "advanced" <==> !Contains(contentId, "-BEG-") && !Contains(contentId, "-INT-") && Contains(contentId, "-ADV-")
  {
    if Contains(contentId, "-BEG-") then "beginner"
    else if Contains(contentId, "-INT-") then "intermediate"
    else if Contains(contentId, "-ADV-") then "advanced"
    else "beginner"
  }

  function AudienceNote(audience: string): string
  {
    "Evaluated for " + audience + " audience based on content ID"
  }

  const SimpleLanguageNote := "Appropriate language for beginners"
  const BalanceNote := "Good balance of concepts and practical examples for intermediate audience"
  const DepthNote := "Appropriate technical depth for advanced audience"
  const ResearchNote := "Good research references for advanced audience"

  function ExplanationsNote(n: nat): string
  {
    "Good explanations of terms for beginners (" + NatToString(n) + " instances)"
  }

  /** The raise, in half points, that the checks for one audience give. */
  function AudienceRaise(audience: string, m: Metrics): (raised: Adj)
    ensures 0 <= raised.delta <= 3
    ensures audience == "intermediate" ==> raised.delta <= 2
  {
    if audience == "beginner" then
      var ex := if m.explanations > 10 then Adj(2, [ExplanationsNote(m.explanations)]) else Adj(0, []);
      var simple := if m.simpleLanguage > 5 then Adj(1, [SimpleLanguageNote]) else Adj(0, []);
      Adj(ex.delta + simple.delta, ex.notes + simple.notes)
    else if audience == "intermediate" then
      if m.advancedConcepts > 5 && m.practicalExamples > 5 then Adj(2, [BalanceNote]) else Adj(0, [])
    else
      var depth := if m.technicalDepth > 10 then Adj(2, [DepthNote]) else Adj(0, []);
      var research := if m.researchReferences > 5 then Adj(1, [ResearchNote]) else Adj(0, []);
      Adj(depth.delta + research.delta, depth.notes + research.notes)
  }

  /** `evaluate_relevance`: 3, raised by the checks for the content's audience. */
  function Relevance(contentId: string, m: Metrics): (r: Scored)
    ensures 3 <= r.score <= 5
    ensures Audience(contentId) == "intermediate" ==> r.score <= 4
    ensures EndsWith(r.note, AudienceNote(Audience(contentId)))
  {
    var audience := Audience(contentId);
    var raised := AudienceRaise(audience, m);
    FinalWhole(3);
    FinalWhole(4);
    FinalMonotone(6, 6 + raised.delta);
    FinalMonotone(6 + raised.delta, if audience == "intermediate" then 8 else 9);
    JoinEndsWithLast(raised.notes, AudienceNote(audience), "; ");
    SE.Scored(Final(6 + raised.delta), Join(raised.notes + [AudienceNote(audience)], "; "))
  }

  // ---------------------------------------------------------------- overall

  /** The five criterion results, in the order `evaluate` computes them. */
  datatype Criteria = Criteria(sourceQuality: Scored, mission: Scored, engagement: Scored, accuracy: Scored, relevance: Scored)

  function Criterion(contentId: string, content: string, m: Metrics, evals: seq<SE.Evaluation>): (c: Criteria)
    ensures 1 <= c.sourceQuality.score <= 5 && 1 <= c.mission.score <= 5 && 1 <= c.engagement.score <= 5
    ensures 1 <= c.accuracy.score <= 5 && 3 <= c.relevance.score <= 5
    ensures -1 <= c.accuracy.score - c.sourceQuality.score <= 1
    ensures 7 <= Total(c) <= 25
  {
    var sq := SourceQuality(evals, UniqueCitations(content));
    Criteria(sq, MissionAlignment(m), Engagement(content, m), Accuracy(sq.score, m), Relevance(contentId, m))
  }

  function Total(c: Criteria): int
  {
    c.accuracy.score + c.relevance.score + c.engagement.score + c.mission.score + c.sourceQuality.score
  }

  /** Without sources, accuracy is at most 2 whatever the text says. */
  lemma NoSourcesAccuracy(contentId: string, content: string, m: Metrics)
    ensures Criterion(contentId, content, m, []).sourceQuality == SE.Scored(1, "No sources found")
    ensures Criterion(contentId, content, m, []).accuracy.score <= 2
  {
  }

  /** The score keys of the result; every value is a whole score but `average`. */
  function ScoreMap(c: Criteria): (r: map<string, real>)
    ensures r.Keys == InitialScores.Keys
    ensures "average" in r && "total" in r && r["average"] * 5.0 == r["total"]
  {
    map["source_quality" := c.sourceQuality.score as real,
        "mission_alignment" := c.mission.score as real,
        "engagement" := c.engagement.score as real,
        "accuracy" := c.accuracy.score as real,
        "relevance" := c.relevance.score as real,
        "total" := Total(c) as real,
        "average" := Total(c) as real / 5.0]
  }

  function NoteMap(c: Criteria): (r: map<string, string>)
    ensures r.Keys + {"general"} == InitialNotes.Keys
  {
    map["source_quality" := c.sourceQuality.note,
        "mission_alignment" := c.mission.note,
        "engagement" := c.engagement.note,
        "accuracy" := c.accuracy.note,
        "relevance" := c.relevance.note]
  }

  /** The overall rating has the source evaluator's cut-offs, read on the total. */
  lemma ContentRatingOnTotal(c: Criteria)
    ensures SE.Rating(Total(c) as real / 5.0) == "Excellent" <==> 2 * Total(c) >= 45
    ensures SE.Rating(Total(c) as real / 5.0) == "Very Good" <==> 20 <= Total(c) < 23
    ensures SE.Rating(Total(c) as real / 5.0) == "Poor" <==> Total(c) < 10
  {
  }

  const InitialScores: map<string, real> :=
    map["accuracy" := 0.0, "relevance" := 0.0, "engagement" := 0.0, "mission_alignment" := 0.0,
        "source_quality" := 0.0, "total" := 0.0, "average" := 0.0]

  const InitialNotes: map<string, string> :=
    map["accuracy" := "", "relevance" := "", "engagement" := "", "mission_alignment" := "",
        "source_quality" := "", "general" := ""]

  /** `os.path.basename`: what follows the last `/`. */
  function BaseName(path: string): (r: string)
    ensures '/' !in r
    ensures |r| <= |path| && path[|path| - |r|..] == r
    ensures |r| < |path| ==> path[|path| - |r| - 1] == '/'
  {
    if path == [] || path[|path| - 1] == '/' then []
    else BaseName(path[..|path| - 1]) + [path[|path| - 1]]
  }

  /** The name without its last extension, as `os.path.splitext` cuts it: leading dots are not an extension. */
  function Stem(base: string): (r: string)
    ensures |r| <= |base| && base[..|r|] == r
    ensures r != base ==> base[|r|] == '.' && !AllDots(r)
  {
    var i := RFind(base, ".");
    if i > 0 && !AllDots(base[..i]) then base[..i] else base
  }

  /** Every character is a dot. */
  predicate AllDots(s: string)
  {
    s == [] || (s[0] == '.' && AllDots(s[1..]))
  }

  /** `_extract_content_id`: the file name without directory or extension. */
  function ContentIdFromPath(path: string): (r: string)
    ensures '/' !in r
  {
    Stem(BaseName(path))
  }

  /** The result of constructing an evaluation for a file and calling `evaluate` once. */
  function ReportOf(contentPath: string, contentId: string, content: string, headings: seq<string>, currentYear: int): (r: Report)
    ensures r.scores.Keys == InitialScores.Keys
    ensures r.qualityRating == SE.Rating(r.scores["average"])
    ensures r.sourceCount == |SE.ParsedSources(content)| && r.wordCount == WordCount(content)
  {
    var sources := SE.ParsedSources(content);
    var c := Criterion(contentId, content, MetricsOf(content, headings), SE.EvaluateSources(sources, currentYear));
    Report(contentId, contentPath, ScoreMap(c), NoteMap(c)["general" := ""], SE.Rating(ScoreMap(c)["average"]), |sources|, WordCount(content))
  }

  /** Every key but `general` is overwritten, so merging into the initial tables gives the new tables. */
  lemma MergeIntoInitial(c: Criteria)
    ensures InitialScores + ScoreMap(c) == ScoreMap(c)
    ensures InitialNotes + NoteMap(c) == NoteMap(c)["general" := ""]
  {
  }

  /** The report of a fresh evaluation is the initial tables merged with the criteria's tables. */
  lemma ReportOfMerged(contentPath: string, contentId: string, content: string, headings: seq<string>, currentYear: int)
    ensures var sources := SE.ParsedSources(content);
      var c := Criterion(contentId, content, MetricsOf(content, headings), SE.EvaluateSources(sources, currentYear));
      ReportOf(contentPath, contentId, content, headings, currentYear)
      == Report(contentId, contentPath, InitialScores + ScoreMap(c), InitialNotes + NoteMap(c),
                SE.Rating((InitialScores + ScoreMap(c))["average"]), |sources|, WordCount(content))
  {
    var c := Criterion(contentId, content, MetricsOf(content, headings), SE.EvaluateSources(SE.ParsedSources(content), currentYear));
    MergeIntoInitial(c);
  }

  /** The content ID given, or the one derived from the file name when none (or an empty one) is given. */
  function ResolvedId(contentPath: string, contentId: Option<string>): (r: string)
    ensures contentId.Some? && contentId.value != "" ==> r == contentId.value
    ensures contentId.None? || contentId.value == "" ==> r == ContentIdFromPath(contentPath)
  {
    if contentId.Some? && contentId.value != "" then contentId.value else ContentIdFromPath(contentPath)
  }

  datatype Report = Report(
    contentId: string,
    contentPath: string,
    scores: map<string, real>,
    notes: map<string, string>,
    qualityRating: string,
    sourceCount: nat,
    wordCount: nat)

  /** `ContentEvaluation`: one content file, its parsed sources and the score and note tables. */
  class ContentEvaluation {
    const contentPath: string
    const contentId: string
    const content: string
    const headings: seq<string>
    const sources: seq<SE.Source>
    const currentYear: int
    const sourceEvaluations: seq<SE.Evaluation>
    var scores: map<string, real>
    var notes: map<string, string>

    /** The sources are the ones parsed from the text, evaluated in the given year. */
    ghost predicate Valid()
    {
      sources == SE.ParsedSources(content) && sourceEvaluations == SE.EvaluateSources(sources, currentYear)
    }

    /** The file text and the texts of its rendered headings are given; the current year dates the sources. */
    constructor (contentPath: string, contentId: Option<string>, content: string, headings: seq<string>, currentYear: int)
      ensures this.contentPath == contentPath && this.content == content && this.headings == headings
      ensures this.currentYear == currentYear
      ensures this.contentId == ResolvedId(contentPath, contentId)
      ensures scores == InitialScores && notes == InitialNotes
      ensures Valid()
    {
      this.contentPath := contentPath;
      this.contentId := ResolvedId(contentPath, contentId);
      this.content := content;
      this.headings := headings;
      this.currentYear := currentYear;
      var parsed := SE.ParseSourcesFromMarkdown(content);
      this.sources := parsed;
      this.sourceEvaluations := SE.EvaluateSources(parsed, currentYear);
      scores := InitialScores;
      notes := InitialNotes;
    }

    /** `evaluate`: fills in the five criteria, the total and the average, and reports them. */
    method Evaluate() returns (report: Report)
      modifies this
      ensures var c := Criterion(contentId, content, MetricsOf(content, headings), sourceEvaluations);
        scores == old(scores) + ScoreMap(c) && notes == old(notes) + NoteMap(c)
      ensures report.scores == scores && report.notes == notes
      ensures report.qualityRating == SE.Rating(scores["average"])
      ensures report.contentId == contentId && report.contentPath == contentPath
      ensures report.sourceCount == |sources| && report.wordCount == WordCount(content)
    {
      var c := Criterion(contentId, content, MetricsOf(content, headings), sourceEvaluations);
      report := Record(c);
    }

    /** Writes the criteria into the tables and builds the report from them. */
    method Record(c: Criteria) returns (report: Report)
      modifies this
      ensures scores == old(scores) + ScoreMap(c) && notes == old(notes) + NoteMap(c)
      ensures report.scores == scores && report.notes == notes
      ensures report.qualityRating == SE.Rating(scores["average"])
      ensures report.contentId == contentId && report.contentPath == contentPath
      ensures report.sourceCount == |sources| && report.wordCount == WordCount(content)
    {
      scores := scores + ScoreMap(c);
      notes := notes + NoteMap(c);
      var rating := SE.Rating(scores["average"]);
      report := Report(contentId, contentPath, scores, notes, rating, |sources|, WordCount(content));
    }
  }

  /** A fresh evaluation of one file, as `evaluate_content` makes it: constructed, then evaluated once. */
  method EvaluateFile(contentPath: string, content: string, headings: seq<string>, currentYear: int) returns (report: Report)
    ensures report == ReportOf(contentPath, ContentIdFromPath(contentPath), content, headings, currentYear)
  {
    var evaluation := new ContentEvaluation(contentPath, None, content, headings, currentYear);
    report := evaluation.Evaluate();
    ReportOfMerged(contentPath, evaluation.contentId, content, headings, currentYear);
  }
}
