/**
 * CRAAP scoring of sources (currency, relevance, authority, accuracy, purpose).
 * The clock is a parameter: `currentYear` stands for `datetime.now().year`.
 */
module SourceEvaluation {
  import opened Wrappers
  import opened StrUtil

  /** A source; `year` is `None` when unknown, and a year of 0 counts as unset as in Python. */
  datatype Source = Source(
    citation: string,
    year: Option<int>,
    authors: seq<string>,
    title: string,
    publication: string,
    url: string,
    doi: string,
    sourceType: string)

  predicate YearUnset(y: Option<int>)
  {
    y.None? || y.value == 0
  }

  /** `s[i..i+6]` has the shape "(dddd)", the pattern `\((\d{4})\)`. */
  predicate YearAt(s: string, i: int)
  {
    0 <= i && i + 6 <= |s| && s[i] == '(' && AllDigits(s[i + 1..i + 5]) && s[i + 5] == ')'
  }

  /** The first index at or after `from` where "(dddd)" occurs. */
  function FindYear(s: string, from: nat): (r: Option<nat>)
    ensures r.Some? ==> from <= r.value && YearAt(s, r.value)
    ensures r.Some? ==> forall j :: from <= j < r.value ==> !YearAt(s, j)
    ensures r.None? ==> forall j :: from <= j ==> !YearAt(s, j)
    decreases |s| - from
  {
    if from + 6 > |s| then None
    else if YearAt(s, from) then Some(from)
    else FindYear(s, from + 1)
  }

  /** The year `re.search(r'\((\d{4})\)', citation)` captures, as an integer. */
  function CitationYear(citation: string): Option<int>
  {
    match FindYear(citation, 0)
    case None => None
    case Some(i) => Some(DigitsValue(citation[i + 1..i + 5]) as int)
  }

  /** The first ']' at or after `j`, when no newline comes before it: the lazy `(.*?)\]` without DOTALL. */
  function BracketEnd(s: string, j: nat): (r: Option<nat>)
    requires j <= |s|
    ensures r.Some? ==> j <= r.value < |s| && s[r.value] == ']'
    ensures r.Some? ==> forall k :: j <= k < r.value ==> s[k] != ']' && s[k] != '\n'
    decreases |s| - j
  {
    if j == |s| || s[j] == '\n' then None
    else if s[j] == ']' then Some(j)
    else BracketEnd(s, j + 1)
  }

  /** A ']' with neither ']' nor a newline before it is the one `BracketEnd` finds. */
  lemma {:induction false} BracketEndAt(s: string, j: nat, e: nat)
    requires j <= e < |s| && s[e] == ']'
    requires forall k :: j <= k < e ==> s[k] != ']' && s[k] != '\n'
    ensures BracketEnd(s, j) == Some(e)
    decreases e - j
  {
    if j < e {
      BracketEndAt(s, j + 1, e);
    }
  }

  /** `re.match(r'^\[(.*?)\]', citation)`, split on ',' and stripped. */
  function CitationAuthors(c: string): (r: Option<seq<string>>)
    ensures r.Some? ==> c != [] && c[0] == '[' && |r.value| >= 1
  {
    if c == [] || c[0] != '[' then None
    else match BracketEnd(c, 1)
      case None => None
      case Some(e) => Some(StripAll(Split(c[1..e], ",")))
  }

  /** The end test of `\*?\.` after the lazy title group: a '.', or a '*' followed by a '.'. */
  predicate TitleCloses(s: string, q: int)
  {
    0 <= q < |s| && (s[q] == '.' || (s[q] == '*' && q + 1 < |s| && s[q + 1] == '.'))
  }

  /** The first position at or after `p` where the title group can close, without crossing a newline. */
  function TitleStop(s: string, p: nat): (r: Option<nat>)
    requires p <= |s|
    ensures r.Some? ==> p <= r.value && TitleCloses(s, r.value)
    ensures r.Some? ==> forall k :: p <= k < r.value ==> !TitleCloses(s, k) && s[k] != '\n'
    decreases |s| - p
  {
    if p == |s| then None
    else if TitleCloses(s, p) then Some(p)
    else if s[p] == '\n' then None
    else TitleStop(s, p + 1)
  }

  /** Where the title group starts after ". " at `i`: past an optional '*'. */
  function TitleStart(s: string, i: nat): (p: nat)
    requires OccursAt(s, ". ", i)
    ensures i + 2 <= p <= |s|
  {
    if i + 2 < |s| && s[i + 2] == '*' then i + 3 else i + 2
  }

  /**
   * The group of `\. \*?(.*?)\*?\.` when it matches at `i`. Giving the
   * optional '*' back never helps: every end the shorter start could reach
   * was tested already.
   */
  function TitleAt(s: string, i: nat): (r: Option<string>)
    ensures r.Some? ==> OccursAt(s, ". ", i)
  {
    if !OccursAt(s, ". ", i) then None
    else
      var p := TitleStart(s, i);
      match TitleStop(s, p)
      case None => None
      case Some(q) => Some(s[p..q])
  }

  /** `re.search` of the title pattern: the leftmost match at or after `from`. */
  function FindTitle(s: string, from: nat): (r: Option<string>)
    ensures r.Some? ==> exists i :: from <= i && TitleAt(s, i) == r
    ensures r.None? ==> forall i :: from <= i ==> TitleAt(s, i).None?
    decreases |s| - from
  {
    if from + 2 > |s| then
      assert forall i :: from <= i ==> !OccursAt(s, ". ", i);
      None
    else if TitleAt(s, from).Some? then TitleAt(s, from)
    else FindTitle(s, from + 1)
  }

  /** The first '*' at or after `j`. */
  function NextStar(s: string, j: nat): (r: Option<nat>)
    requires j <= |s|
    ensures r.Some? ==> j <= r.value < |s| && s[r.value] == '*'
    ensures forall k :: j <= k < (if r.Some? then r.value else |s|) ==> s[k] != '*'
    decreases |s| - j
  {
    if j == |s| then None
    else if s[j] == '*' then Some(j)
    else NextStar(s, j + 1)
  }

  /** The group of `\*([^*]+)\*` at `i`: a non-empty star-free run between two stars. */
  function PublicationAt(s: string, i: nat): (r: Option<string>)
    ensures r.Some? ==> i < |s| && s[i] == '*' && r.value != [] && '*' !in r.value
  {
    if i >= |s| || s[i] != '*' then None
    else match NextStar(s, i + 1)
      case None => None
      case Some(j) =>
        if j == i + 1 then None
        else
          Some(s[i + 1..j])
  }

  /** `re.search` of the publication pattern. */
  function FindPublication(s: string, from: nat): (r: Option<string>)
    ensures r.Some? ==> r.value != [] && '*' !in r.value
    ensures r.None? ==> forall i :: from <= i ==> PublicationAt(s, i).None?
    decreases |s| - from
  {
    if from >= |s| then None
    else if PublicationAt(s, from).Some? then PublicationAt(s, from)
    else FindPublication(s, from + 1)
  }

  /** The end of the run of non-whitespace characters starting at `j`: the greedy `\S+`. */
  function RunEnd(s: string, j: nat): (e: nat)
    requires j <= |s|
    ensures j <= e <= |s| && (e == |s| || IsSpace(s[e]))
    ensures forall k :: j <= k < e ==> !IsSpace(s[k])
    decreases |s| - j
  {
    if j == |s| || IsSpace(s[j]) then j else RunEnd(s, j + 1)
  }

  /** Where `https?://` ends at `i`, when it is followed by a non-space character. */
  function UrlBody(s: string, i: nat): (r: Option<nat>)
    ensures r.Some? ==> r.value < |s| && !IsSpace(s[r.value])
    ensures r.Some? ==> OccursAt(s, "http://", i) || OccursAt(s, "https://", i)
  {
    if OccursAt(s, "https://", i) && i + 8 < |s| && !IsSpace(s[i + 8]) then Some(i + 8)
    else if OccursAt(s, "http://", i) && i + 7 < |s| && !IsSpace(s[i + 7]) then Some(i + 7)
    else None
  }

  /** `re.search(r'(https?://\S+)', citation)`: the leftmost URL, through its last non-space character. */
  function FindUrl(s: string, from: nat): (r: Option<string>)
    ensures r.Some? ==> StartsWith(r.value, "http://") || StartsWith(r.value, "https://")
    ensures r.Some? ==> forall k :: 0 <= k < |r.value| ==> !IsSpace(r.value[k])
    ensures r.None? ==> forall i :: from <= i ==> UrlBody(s, i).None?
    decreases |s| - from
  {
    if from >= |s| then None
    else match UrlBody(s, from)
      case Some(b) =>
        var e := RunEnd(s, b);
        UrlShape(s, from, e);
        Some(s[from..e])
      case None => FindUrl(s, from + 1)
  }

  /** The text from a URL's scheme to the end of its run starts with the scheme and holds no whitespace. */
  lemma UrlShape(s: string, i: nat, e: nat)
    requires UrlBody(s, i).Some? && e == RunEnd(s, UrlBody(s, i).value)
    ensures i <= e <= |s|
    ensures StartsWith(s[i..e], "http://") || StartsWith(s[i..e], "https://")
    ensures forall k :: 0 <= k < |s[i..e]| ==> !IsSpace(s[i..e][k])
  {
    var b := UrlBody(s, i).value;
    var u := s[i..e];
    if OccursAt(s, "https://", i) && i + 8 < |s| && !IsSpace(s[i + 8]) {
      assert b == i + 8;
      assert u[..8] == s[i..i + 8];
      assert StartsWith(u, "https://");
    } else {
      assert b == i + 7 && OccursAt(s, "http://", i);
      assert u[..7] == s[i..i + 7];
      assert StartsWith(u, "http://");
    }
    forall k | 0 <= k < |u|
      ensures !IsSpace(u[k])
    {
      assert u[k] == s[i + k];
      if i + k < b {
        assert s[i + k] in "https://";
      }
    }
  }

  /** `https://doi.org/` matches at `i` (the pattern's '.' is any character but a newline), followed by a non-space. */
  predicate DoiAt(s: string, i: int)
  {
    OccursAt(s, "https://doi", i) && i + 16 < |s| && s[i + 11] != '\n' && OccursAt(s, "org/", i + 12) && !IsSpace(s[i + 16])
  }

  /** `re.search(r'https://doi.org/([\S]+)', citation)`: the non-space run after the leftmost match. */
  function FindDoi(s: string, from: nat): (r: Option<string>)
    ensures r.Some? ==> r.value != [] && forall k :: 0 <= k < |r.value| ==> !IsSpace(r.value[k])
    ensures r.None? ==> forall i :: from <= i ==> !DoiAt(s, i)
    decreases |s| - from
  {
    if from >= |s| then None
    else if DoiAt(s, from) then
      var e := RunEnd(s, from + 16);
      Some(s[from + 16..e])
    else FindDoi(s, from + 1)
  }

  /** The leftmost position at or after `from` where the title pattern matches gives the title found. */
  lemma {:induction false} FindTitleAt(s: string, from: nat, i: nat)
    requires from <= i && TitleAt(s, i).Some?
    requires forall k :: from <= k < i ==> TitleAt(s, k).None?
    ensures FindTitle(s, from) == TitleAt(s, i)
    decreases i - from
  {
    assert i + 2 <= |s| by {
      assert OccursAt(s, ". ", i);
    }
    if from < i {
      assert TitleAt(s, from).None?;
      assert FindTitle(s, from) == FindTitle(s, from + 1);
      FindTitleAt(s, from + 1, i);
    }
  }

  /** The leftmost position at or after `from` where a URL starts gives the URL found, through its last non-space character. */
  lemma {:induction false} FindUrlAt(s: string, from: nat, i: nat)
    requires from <= i && UrlBody(s, i).Some?
    requires forall k :: from <= k < i ==> UrlBody(s, k).None?
    ensures FindUrl(s, from) == Some(s[i..RunEnd(s, UrlBody(s, i).value)])
    decreases i - from
  {
    if from < i {
      FindUrlAt(s, from + 1, i);
    }
  }

  /** The leftmost position at or after `from` where the DOI pattern matches gives the non-space run after `https://doi.org/`. */
  lemma {:induction false} FindDoiAt(s: string, from: nat, i: nat)
    requires from <= i && DoiAt(s, i)
    requires forall k :: from <= k < i ==> !DoiAt(s, k)
    ensures FindDoi(s, from) == Some(s[i + 16..RunEnd(s, i + 16)])
    decreases i - from
  {
    if from < i {
      FindDoiAt(s, from + 1, i);
    }
  }

  /** `.strip()` of a captured group. */
  function Stripped(g: Option<string>): (r: Option<string>)
    ensures r.Some? <==> g.Some?
    ensures g.Some? ==> r.value == Strip(g.value)
  {
    if g.Some? then Some(Strip(g.value)) else None
  }

  /** A field `__post_init__` fills: only when it is unset, the citation is non-empty and the pattern matches. */
  function Fill<T>(unset: bool, citation: string, found: Option<T>, current: T): T
  {
    if unset && citation != [] && found.Some? then found.value else current
  }

  /** `Source.__post_init__`: year, authors, title, publication, URL and DOI taken from the citation when unset. */
  function PostInit(s: Source): (r: Source)
    ensures r.citation == s.citation && r.sourceType == s.sourceType
    ensures !YearUnset(s.year) ==> r.year == s.year
    ensures s.authors != [] ==> r.authors == s.authors
    ensures s.title != [] ==> r.title == s.title
    ensures s.publication != [] ==> r.publication == s.publication
    ensures s.url != [] ==> r.url == s.url
    ensures s.doi != [] ==> r.doi == s.doi
  {
    var c := s.citation;
    s.(year := if YearUnset(s.year) && c != [] && CitationYear(c).Some? then CitationYear(c) else s.year,
       authors := Fill(s.authors == [], c, CitationAuthors(c), s.authors),
       title := Fill(s.title == [], c, Stripped(FindTitle(c, 0)), s.title),
       publication := Fill(s.publication == [], c, Stripped(FindPublication(c, 0)), s.publication),
       url := Fill(s.url == [], c, Stripped(FindUrl(c, 0)), s.url),
       doi := Fill(s.doi == [], c, Stripped(FindDoi(c, 0)), s.doi))
  }

  /** An unset year is taken from the first "(dddd)" in the citation, a value in 0..9999. */
  lemma PostInitYear(s: Source, i: nat)
    requires YearUnset(s.year)
    requires YearAt(s.citation, i) && forall j :: 0 <= j < i ==> !YearAt(s.citation, j)
    ensures PostInit(s).year == Some(DigitsValue(s.citation[i + 1..i + 5]) as int)
    ensures 0 <= PostInit(s).year.value <= 9999
  {
    var r := FindYear(s.citation, 0);
    assert r == Some(i);
    DigitsBound(s.citation[i + 1..i + 5]);
    assert Pow10(4) == 10000;
  }

  /** A source whose six extracted fields are all set is left as it is. */
  lemma PostInitKeeps(s: Source)
    requires !YearUnset(s.year) && s.authors != [] && s.title != [] && s.publication != [] && s.url != [] && s.doi != []
    ensures PostInit(s) == s
  {
  }

  /** A citation opening with `[a, b]` gets the stripped names a and b as authors when none are given. */
  lemma PostInitAuthors(s: Source, e: nat)
    requires s.authors == [] && s.citation != [] && s.citation[0] == '['
    requires 1 <= e < |s.citation| && s.citation[e] == ']'
    requires forall k :: 1 <= k < e ==> s.citation[k] != ']' && s.citation[k] != '\n'
    ensures PostInit(s).authors == StripAll(Split(s.citation[1..e], ","))
    ensures PostInit(s).authors != []
  {
    BracketEndAt(s.citation, 1, e);
  }

  /** A single-line citation that opens with a bracket and holds a ']' gets authors, so its authority is at least 3. */
  lemma BracketedCitationHasAuthority(s: Source, e: nat)
    requires s.authors == [] && s.citation != [] && s.citation[0] == '['
    requires 1 <= e < |s.citation| && s.citation[e] == ']'
    requires forall k :: 1 <= k < e ==> s.citation[k] != ']' && s.citation[k] != '\n'
    ensures 3 <= AuthorityScore(PostInit(s))
  {
    PostInitAuthors(s, e);
  }

  /** The first star-framed run of a citation is its publication when none is given. */
  lemma PostInitPublication(s: Source, i: nat, j: nat)
    requires s.publication == [] && i + 1 < j < |s.citation| && s.citation[i] == '*' && s.citation[j] == '*'
    requires forall k :: i < k < j ==> s.citation[k] != '*'
    requires forall k :: 0 <= k < i ==> PublicationAt(s.citation, k).None?
    ensures PostInit(s).publication == Strip(s.citation[i + 1..j])
  {
    NextStarAt(s.citation, i + 1, j);
    FindPublicationAt(s.citation, 0, i);
  }

  lemma {:induction false} NextStarAt(s: string, j: nat, e: nat)
    requires j <= e < |s| && s[e] == '*' && forall k :: j <= k < e ==> s[k] != '*'
    ensures NextStar(s, j) == Some(e)
    decreases e - j
  {
    if j < e {
      NextStarAt(s, j + 1, e);
    }
  }

  lemma {:induction false} FindPublicationAt(s: string, from: nat, i: nat)
    requires from <= i && PublicationAt(s, i).Some?
    requires forall k :: from <= k < i ==> PublicationAt(s, k).None?
    ensures FindPublication(s, from) == PublicationAt(s, i)
    decreases i - from
  {
    if from < i {
      FindPublicationAt(s, from + 1, i);
    }
  }

  lemma {:induction false} DigitsBound(s: string)
    requires AllDigits(s)
    ensures DigitsValue(s) < Pow10(|s|)
    decreases |s|
  {
    if |s| > 0 {
      DigitsBound(s[..|s| - 1]);
    }
  }

  function Pow10(n: nat): nat
  {
    if n == 0 then 1 else 10 * Pow10(n - 1)
  }

  /** A score with the note explaining it. */
  datatype Scored = Scored(score: int, note: string)

  predicate FastMoving(sourceType: string)
  {
    sourceType == "technology" || sourceType == "ai"
  }

  /** `evaluate_currency`: age buckets, stricter for technology and AI. */
  function Currency(s: Source, currentYear: int): (r: Scored)
    ensures 1 <= r.score <= 5
    ensures YearUnset(s.year) ==> r.score == 1
    ensures !YearUnset(s.year) && currentYear - s.year.value <= 1 ==> r.score == 5
    ensures !YearUnset(s.year) && currentYear - s.year.value > 15 ==> r.score == 1
  {
    if YearUnset(s.year) then Scored(1, "Year unknown, cannot evaluate currency")
    else
      var age := currentYear - s.year.value;
      if FastMoving(s.sourceType) then
        if age <= 1 then Scored(5, "Very recent, excellent currency for technology/AI")
        else if age <= 3 then Scored(4, "Recent, good currency for technology/AI")
        else if age <= 5 then Scored(3, "Moderately recent, acceptable for some technology/AI topics")
        else if age <= 10 then Scored(2, "Somewhat dated for technology/AI")
        else Scored(1, "Outdated for technology/AI")
      else
        if age <= 2 then Scored(5, "Very recent")
        else if age <= 5 then Scored(4, "Recent")
        else if age <= 10 then Scored(3, "Moderately recent")
        else if age <= 15 then Scored(2, "Somewhat dated")
        else Scored(1, "Older source")
  }

  /** An older source never scores higher on currency. */
  lemma CurrencyMonotone(s: Source, y1: int, y2: int, currentYear: int)
    requires y1 <= y2 && y1 != 0 && y2 != 0
    ensures Currency(s.(year := Some(y1)), currentYear).score <= Currency(s.(year := Some(y2)), currentYear).score
  {
  }

  /** For the same year, technology and AI sources never score higher than other sources. */
  lemma CurrencyFastMovingStricter(s: Source, currentYear: int)
    requires FastMoving(s.sourceType)
    ensures Currency(s, currentYear).score <= Currency(s.(sourceType := ""), currentYear).score
  {
  }

  const AcademicIndicators: seq<string> := [
    "journal", "proceedings", "conference", "university",
    "ieee", "acm", "springer", "elsevier", "wiley", "sage",
    "oxford", "cambridge", "mit", "harvard", "stanford"]

  const ReputableOrgs: seq<string> := [
    "google", "microsoft", "ibm", "meta", "openai", "anthropic",
    "deepmind", "amazon", "apple", "nvidia", "intel", "mit",
    "stanford", "harvard", "berkeley", "oxford", "cambridge"]

  /** The first needle, in list order, that occurs in `hay`. */
  function FirstContained(hay: string, needles: seq<string>): (r: Option<nat>)
    ensures r.Some? ==> r.value < |needles| && Contains(hay, needles[r.value])
    ensures r.Some? ==> forall k :: 0 <= k < r.value ==> !Contains(hay, needles[k])
    ensures r.None? ==> forall k :: 0 <= k < |needles| ==> !Contains(hay, needles[k])
  {
    if |needles| == 0 then None
    else if Contains(hay, needles[0]) then Some(0)
    else match FirstContained(hay, needles[1..])
      case None => None
      case Some(k) => Some(k + 1)
  }

  predicate NoAuthorityInfo(s: Source)
  {
    s.publication == [] && s.authors == [] && s.doi == []
  }

  function AuthorText(s: Source): string
  {
    Lower(Join(s.authors, " "))
  }

  /** The academic-venue match, when the publication is non-empty. */
  function VenueHit(s: Source): Option<nat>
  {
    if s.publication == [] then None else FirstContained(Lower(s.publication), AcademicIndicators)
  }

  /** The reputable-organisation match, when there are authors. */
  function OrgHit(s: Source): Option<nat>
  {
    if s.authors == [] then None else FirstContained(AuthorText(s), ReputableOrgs)
  }

  function Min(a: int, b: int): int
  {
    if a <= b then a else b
  }

  /** The authority score: 3, one point each for venue, organisation and DOI, capped at 5; 1 without information. */
  function AuthorityScore(s: Source): (r: int)
    ensures 1 <= r <= 5
    ensures NoAuthorityInfo(s) <==> r == 1
    ensures !NoAuthorityInfo(s) ==> 3 <= r
  {
    if NoAuthorityInfo(s) then 1
    else Min(5, 3 + (if VenueHit(s).Some? then 1 else 0) + (if OrgHit(s).Some? then 1 else 0)
                  + (if s.doi != [] then 1 else 0))
  }

  const NoAuthorityNote := "Insufficient information to evaluate authority"
  const DoiNote := "Has DOI, likely peer-reviewed academic work"

  /** The venue note, when an academic indicator occurs in the publication. */
  function VenueNotes(s: Source): seq<string>
  {
    if VenueHit(s).Some? then ["Published in academic venue: " + s.publication] else []
  }

  /** The organisation note, naming the first reputable organisation found among the authors. */
  function OrgNotes(s: Source): seq<string>
  {
    match OrgHit(s)
    case Some(k) => ["Author(s) affiliated with reputable organization: " + ReputableOrgs[k]]
    case None => []
  }

  /** The notes of `evaluate_authority`, in the order they are appended. */
  function AuthorityNoteList(s: Source): seq<string>
  {
    if NoAuthorityInfo(s) then [NoAuthorityNote]
    else VenueNotes(s) + OrgNotes(s) + DoiNotes(s)
  }

  function DoiNotes(s: Source): seq<string>
  {
    if s.doi != [] then [DoiNote] else []
  }

  /** The venue loop of `evaluate_authority`: stops at the first academic indicator found. */
  method FindVenue(pubLower: string) returns (hit: Option<nat>)
    ensures hit == FirstContained(pubLower, AcademicIndicators)
  {
    hit := None;
    var k := 0;
    while k < |AcademicIndicators|
      invariant 0 <= k <= |AcademicIndicators|
      invariant forall j :: 0 <= j < k ==> !Contains(pubLower, AcademicIndicators[j])
    {
      if Contains(pubLower, AcademicIndicators[k]) {
        hit := Some(k);
        FirstContainedIs(pubLower, AcademicIndicators, k);
        return;
      }
      k := k + 1;
    }
    FirstContainedNone(pubLower, AcademicIndicators);
  }

  /** The organisation loop of `evaluate_authority`: stops at the first reputable organisation found. */
  method FindOrg(authorStr: string) returns (hit: Option<nat>)
    ensures hit == FirstContained(authorStr, ReputableOrgs)
  {
    hit := None;
    var k := 0;
    while k < |ReputableOrgs|
      invariant 0 <= k <= |ReputableOrgs|
      invariant forall j :: 0 <= j < k ==> !Contains(authorStr, ReputableOrgs[j])
    {
      if Contains(authorStr, ReputableOrgs[k]) {
        hit := Some(k);
        FirstContainedIs(authorStr, ReputableOrgs, k);
        return;
      }
      k := k + 1;
    }
    FirstContainedNone(authorStr, ReputableOrgs);
  }

  lemma {:induction false} FirstContainedIs(hay: string, needles: seq<string>, k: nat)
    requires k < |needles| && Contains(hay, needles[k])
    requires forall j :: 0 <= j < k ==> !Contains(hay, needles[j])
    ensures FirstContained(hay, needles) == Some(k)
  {
    if k > 0 {
      FirstContainedIs(hay, needles[1..], k - 1);
    }
  }

  lemma {:induction false} FirstContainedNone(hay: string, needles: seq<string>)
    requires forall j :: 0 <= j < |needles| ==> !Contains(hay, needles[j])
    ensures FirstContained(hay, needles) == None
  {
    if |needles| > 0 {
      FirstContainedNone(hay, needles[1..]);
    }
  }

  /** `evaluate_authority`: the score and the notes joined with "; ". */
  method EvaluateAuthority(s: Source) returns (score: int, notes: string)
    ensures score == AuthorityScore(s)
    ensures notes == Join(AuthorityNoteList(s), "; ")
  {
    var venue, venueNotes := CheckVenue(s);
    var org, orgNotes := CheckOrg(s);
    score := 3 + (if venue then 1 else 0) + (if org then 1 else 0);
    var noteList := venueNotes + orgNotes;
    if s.doi != [] {
      score := score + 1;
      noteList := noteList + [DoiNote];
    }
    assert noteList == venueNotes + orgNotes + DoiNotes(s);
    score := Min(score, 5);
    if NoAuthorityInfo(s) {
      score := 1;
      noteList := [NoAuthorityNote];
    }
    assert noteList == AuthorityNoteList(s);
    notes := Join(noteList, "; ");
  }

  /** The publication step of `evaluate_authority`. */
  method CheckVenue(s: Source) returns (hit: bool, notes: seq<string>)
    ensures hit == VenueHit(s).Some? && notes == VenueNotes(s)
  {
    hit, notes := false, [];
    if s.publication != [] {
      var venue := FindVenue(Lower(s.publication));
      if venue.Some? {
        hit, notes := true, ["Published in academic venue: " + s.publication];
      }
    }
  }

  /** The authors step of `evaluate_authority`. */
  method CheckOrg(s: Source) returns (hit: bool, notes: seq<string>)
    ensures hit == OrgHit(s).Some? && notes == OrgNotes(s)
  {
    hit, notes := false, [];
    if s.authors != [] {
      var org := FindOrg(Lower(Join(s.authors, " ")));
      if org.Some? {
        hit, notes := true, ["Author(s) affiliated with reputable organization: " + ReputableOrgs[org.value]];
      }
    }
  }

  /** A CRAAP evaluation: five scores and one note per criterion. */
  datatype Evaluation = Evaluation(
    source: Source,
    currency: int,
    relevance: int,
    authority: int,
    accuracy: int,
    purpose: int,
    notes: map<string, string>)

  /** The five scores are on the CRAAP scale 1..5. */
  predicate OnScale(e: Evaluation)
  {
    && 1 <= e.currency <= 5 && 1 <= e.relevance <= 5 && 1 <= e.authority <= 5
    && 1 <= e.accuracy <= 5 && 1 <= e.purpose <= 5
  }

  /** `total_score`. */
  function TotalScore(e: Evaluation): (r: int)
    ensures OnScale(e) ==> 5 <= r <= 25
  {
    e.currency + e.relevance + e.authority + e.accuracy + e.purpose
  }

  /** `average_score`: the total divided by five. */
  function AverageScore(e: Evaluation): (r: real)
    ensures 5.0 * r == TotalScore(e) as real
    ensures OnScale(e) ==> 1.0 <= r <= 5.0
  {
    TotalScore(e) as real / 5.0
  }

  /** The cut-offs of `quality_rating` on an average. */
  function Rating(avg: real): string
  {
    if avg >= 4.5 then "Excellent"
    else if avg >= 4.0 then "Very Good"
    else if avg >= 3.0 then "Good"
    else if avg >= 2.0 then "Fair"
    else "Poor"
  }

  /** The position of a rating on the scale Poor < Fair < Good < Very Good < Excellent. */
  function RatingRank(r: string): int
  {
    if r == "Excellent" then 4
    else if r == "Very Good" then 3
    else if r == "Good" then 2
    else if r == "Fair" then 1
    else 0
  }

  /** `quality_rating`. */
  function QualityRating(e: Evaluation): (r: string)
    ensures r == "Excellent" <==> 2 * TotalScore(e) >= 45
    ensures r == "Very Good" <==> 20 <= TotalScore(e) && 2 * TotalScore(e) < 45
    ensures r == "Good" <==> 15 <= TotalScore(e) < 20
    ensures r == "Fair" <==> 10 <= TotalScore(e) < 15
    ensures r == "Poor" <==> TotalScore(e) < 10
  {
    Rating(AverageScore(e))
  }

  /** A higher average never gets a lower rating. */
  lemma RatingMonotone(a: real, b: real)
    requires a <= b
    ensures RatingRank(Rating(a)) <= RatingRank(Rating(b))
  {
  }

  /** On totals, the cut-offs are 22.5, 20, 15 and 10. */
  lemma RatingOnTotal(e: Evaluation)
    ensures QualityRating(e) == "Excellent" <==> 2 * TotalScore(e) >= 45
    ensures QualityRating(e) == "Poor" <==> TotalScore(e) < 10
  {
  }

  /** `evaluate_source`: currency and authority are computed, the other three are fixed at 3. */
  function EvaluateSource(s: Source, currentYear: int): (e: Evaluation)
    ensures e.source == s
    ensures e.relevance == 3 && e.accuracy == 3 && e.purpose == 3
    ensures 1 <= e.currency <= 5 && 1 <= e.authority <= 5
    ensures e.notes.Keys == {"currency", "relevance", "authority", "accuracy", "purpose"}
  {
    var c := Currency(s, currentYear);
    Evaluation(s, c.score, 3, AuthorityScore(s), 3, 3,
      map["currency" := c.note,
          "relevance" := "Relevance evaluation requires content analysis",
          "authority" := Join(AuthorityNoteList(s), "; "),
          "accuracy" := "Accuracy evaluation requires content analysis",
          "purpose" := "Purpose evaluation requires content analysis"])
  }

  /** Because three scores are fixed at 3, an evaluated source is always rated Fair or Good. */
  lemma EvaluatedRatingRange(s: Source, currentYear: int)
    ensures 11 <= TotalScore(EvaluateSource(s, currentYear)) <= 19
    ensures QualityRating(EvaluateSource(s, currentYear)) in {"Fair", "Good"}
  {
  }

  /** `evaluate_sources`: one evaluation per source, in order. */
  function EvaluateSources(sources: seq<Source>, currentYear: int): (r: seq<Evaluation>)
    ensures |r| == |sources|
    ensures forall k :: 0 <= k < |r| ==> r[k] == EvaluateSource(sources[k], currentYear)
  {
    seq(|sources|, k requires 0 <= k < |sources| => EvaluateSource(sources[k], currentYear))
  }

  /** `Source(citation=line)`: a source built only from a citation line, then completed by `PostInit`. */
  function FromCitation(line: string): (r: Source)
    ensures r.citation == line && r.sourceType == ""
    ensures line != [] && CitationAuthors(line).Some? ==> r.authors == CitationAuthors(line).value
    ensures CitationAuthors(line).None? ==> r.authors == []
    ensures FindPublication(line, 0).None? ==> r.publication == []
  {
    PostInit(Source(line, None, [], "", "", "", "", ""))
  }

  /** "## Sources" followed by at least one whitespace character starts at `i`. */
  predicate SourcesHeaderAt(md: string, i: int)
  {
    OccursAt(md, "## Sources", i) && i + 10 < |md| && IsSpace(md[i + 10])
  }

  function FindSourcesHeader(md: string, from: nat): (r: Option<nat>)
    ensures r.Some? ==> from <= r.value && SourcesHeaderAt(md, r.value)
    ensures r.None? ==> forall j :: from <= j ==> !SourcesHeaderAt(md, j)
    decreases |md| - from
  {
    if from + 11 > |md| then None
    else if SourcesHeaderAt(md, from) then Some(from)
    else FindSourcesHeader(md, from + 1)
  }

  /** The index after the whitespace run that starts at `i`. */
  function SkipSpace(s: string, i: nat): (j: nat)
    requires i <= |s|
    ensures i <= j <= |s| && (j == |s| || !IsSpace(s[j]))
    decreases |s| - i
  {
    if i < |s| && IsSpace(s[i]) then SkipSpace(s, i + 1) else i
  }

  /**
   * The group of `## Sources\s+(.*?)(?=##|\Z)` under DOTALL: the greedy blank run,
   * then everything up to the next "##" or the end.
   */
  function SourcesSection(md: string): (r: Option<string>)
    ensures r.None? <==> forall j :: !SourcesHeaderAt(md, j)
  {
    match FindSourcesHeader(md, 0)
    case None => None
    case Some(i) =>
      var start := SkipSpace(md, i + 10);
      var rest := md[start..];
      var end := Find(rest, "##");
      Some(if end < 0 then rest else rest[..end])
  }

  /** The non-blank stripped lines of a section. */
  function NonBlankLines(text: string): seq<string>
  {
    Filter(StripAll(Split(text, "\n")))
  }

  function StripAll(lines: seq<string>): (r: seq<string>)
    ensures |r| == |lines| && forall k :: 0 <= k < |r| ==> r[k] == Strip(lines[k])
  {
    seq(|lines|, k requires 0 <= k < |lines| => Strip(lines[k]))
  }

  function Filter(lines: seq<string>): (r: seq<string>)
    ensures forall k :: 0 <= k < |r| ==> r[k] != []
  {
    if |lines| == 0 then []
    else (if lines[0] != [] then [lines[0]] else []) + Filter(lines[1..])
  }

  /** The lines of a section that start with '[', in order. */
  function CitationLines(lines: seq<string>): (r: seq<string>)
    ensures |r| <= |lines|
    ensures forall k :: 0 <= k < |r| ==> r[k] != [] && r[k][0] == '['
  {
    if |lines| == 0 then []
    else (if lines[0] != [] && lines[0][0] == '[' then [lines[0]] else []) + CitationLines(lines[1..])
  }

  function MapFromCitation(lines: seq<string>): (r: seq<Source>)
    ensures |r| == |lines| && forall k :: 0 <= k < |r| ==> r[k] == FromCitation(lines[k])
  {
    seq(|lines|, k requires 0 <= k < |lines| => FromCitation(lines[k]))
  }

  lemma MapFromCitationSnoc(lines: seq<string>, line: string)
    ensures MapFromCitation(lines + [line]) == MapFromCitation(lines) + [FromCitation(line)]
  {
  }

  /** What `parse_sources_from_markdown` returns. */
  function ParsedSources(md: string): seq<Source>
  {
    match SourcesSection(md)
    case None => []
    case Some(text) => MapFromCitation(CitationLines(NonBlankLines(Strip(text))))
  }

  /** No section gives no sources; otherwise every source comes from a line that starts with '['. */
  lemma ParsedSourcesShape(md: string)
    ensures (forall j :: !SourcesHeaderAt(md, j)) ==> ParsedSources(md) == []
    ensures forall k :: 0 <= k < |ParsedSources(md)| ==>
      var c := ParsedSources(md)[k].citation; c != [] && c[0] == '['
    ensures forall k :: 0 <= k < |ParsedSources(md)| ==>
      ParsedSources(md)[k] == FromCitation(ParsedSources(md)[k].citation)
  {
    match SourcesSection(md)
    case None =>
    case Some(text) =>
      var lines := CitationLines(NonBlankLines(Strip(text)));
      assert ParsedSources(md) == MapFromCitation(lines);
      assert forall k :: 0 <= k < |lines| ==> MapFromCitation(lines)[k].citation == lines[k];
  }

  /** `parse_sources_from_markdown`: no section gives no sources, otherwise the section's citation lines. */
  method ParseSourcesFromMarkdown(md: string) returns (sources: seq<Source>)
    ensures sources == ParsedSources(md)
  {
    var section := SourcesSection(md);
    if section.None? {
      return [];
    }
    sources := CitationSources(NonBlankLines(Strip(section.value)));
  }

  /** The append loop of `parse_sources_from_markdown`: a source for each line that starts with '['. */
  method CitationSources(lines: seq<string>) returns (sources: seq<Source>)
    ensures sources == MapFromCitation(CitationLines(lines))
  {
    sources := [];
    var k := 0;
    while k < |lines|
      invariant 0 <= k <= |lines|
      invariant sources == MapFromCitation(CitationLines(lines[..k]))
    {
      var line := lines[k];
      CitationLinesSnoc(lines, k);
      if line != [] && line[0] == '[' {
        MapFromCitationSnoc(CitationLines(lines[..k]), line);
        sources := sources + [FromCitation(line)];
      } else {
        assert CitationLines(lines[..k + 1]) == CitationLines(lines[..k]) + [];
      }
      k := k + 1;
    }
    assert lines[..k] == lines;
  }

  lemma {:induction false} CitationLinesAppend(a: seq<string>, b: seq<string>)
    ensures CitationLines(a + b) == CitationLines(a) + CitationLines(b)
    decreases |a|
  {
    if |a| > 0 {
      assert (a + b)[1..] == a[1..] + b;
      CitationLinesAppend(a[1..], b);
    } else {
      assert a + b == b;
    }
  }

  lemma CitationLinesSnoc(lines: seq<string>, k: nat)
    requires k < |lines|
    ensures CitationLines(lines[..k + 1]) ==
      CitationLines(lines[..k]) + (if lines[k] != [] && lines[k][0] == '[' then [lines[k]] else [])
  {
    assert lines[..k + 1] == lines[..k] + [lines[k]];
    CitationLinesAppend(lines[..k], [lines[k]]);
    assert CitationLines([lines[k]]) == (if lines[k] != [] && lines[k][0] == '[' then [lines[k]] else []) + CitationLines([]);
  }
}
