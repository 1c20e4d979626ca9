/**
 * `extract_sections_from_template`, defined identically in
 * `test/setup_local_env.py` and `test/setup_test_env.py`: every line of the
 * template that starts with "**" and contains ':' gives a section name, the
 * line with '*', ':' and ' ' stripped from both ends.
 */
module TemplateSections {
  import opened StrUtil

  /** The characters `line.strip('*: ')` removes. */
  const NameEdge: set<char> := {'*', ':', ' '}

  function StripLeftOf(s: string, cs: set<char>): (r: string)
    ensures |r| <= |s| && r == s[|s| - |r|..]
    ensures forall i :: 0 <= i < |s| - |r| ==> s[i] in cs
    ensures r == [] || r[0] !in cs
  {
    if s != [] && s[0] in cs then StripLeftOf(s[1..], cs) else s
  }

  function StripRightOf(s: string, cs: set<char>): (r: string)
    ensures |r| <= |s| && r == s[..|r|]
    ensures forall i :: |r| <= i < |s| ==> s[i] in cs
    ensures r == [] || r[|r| - 1] !in cs
  {
    if s != [] && s[|s| - 1] in cs then StripRightOf(s[..|s| - 1], cs) else s
  }

  /** `s.strip(chars)`: the longest run of `s` that neither starts nor ends with one of `cs`. */
  function StripOf(s: string, cs: set<char>): (r: string)
    ensures |r| <= |s|
    ensures r == [] || (r[0] !in cs && r[|r| - 1] !in cs)
  {
    StripRightOf(StripLeftOf(s, cs), cs)
  }

  /** What the strip removes lies at the two ends and consists of those characters only. */
  lemma StripOfDropsEnds(s: string, cs: set<char>) returns (a: nat)
    ensures a + |StripOf(s, cs)| <= |s| && StripOf(s, cs) == s[a..a + |StripOf(s, cs)|]
    ensures forall i :: 0 <= i < a ==> s[i] in cs
    ensures forall i :: a + |StripOf(s, cs)| <= i < |s| ==> s[i] in cs
  {
    var l := StripLeftOf(s, cs);
    a := |s| - |l|;
    var r := StripOf(s, cs);
    assert r == l[..|r|];
    forall i | a + |r| <= i < |s| ensures s[i] in cs {
      assert s[i] == l[i - a];
    }
  }

  /** `line.startswith('**') and ':' in line`. */
  predicate IsSectionLine(line: string)
  {
    StartsWith(line, "**") && Contains(line, ":")
  }

  function SectionName(line: string): string
  {
    StripOf(line, NameEdge)
  }

  /** The section names of the lines, in line order. */
  function Sections(lines: seq<string>): (r: seq<string>)
    ensures |r| <= |lines|
  {
    if lines == [] then []
    else
      var init := Sections(lines[..|lines| - 1]);
      var last := lines[|lines| - 1];
      if IsSectionLine(last) then init + [SectionName(last)] else init
  }

  /** The positions of the section lines, in increasing order. */
  function SectionPositions(lines: seq<string>): (ps: seq<nat>)
    ensures forall k :: 0 <= k < |ps| ==> ps[k] < |lines| && IsSectionLine(lines[ps[k]])
    ensures forall k, l :: 0 <= k < l < |ps| ==> ps[k] < ps[l]
    ensures forall i :: 0 <= i < |lines| && IsSectionLine(lines[i]) ==> i in ps
  {
    if lines == [] then []
    else
      var init := SectionPositions(lines[..|lines| - 1]);
      assert forall k :: 0 <= k < |init| ==> lines[..|lines| - 1][init[k]] == lines[init[k]];
      assert forall i :: 0 <= i < |lines| - 1 ==> lines[..|lines| - 1][i] == lines[i];
      if IsSectionLine(lines[|lines| - 1]) then init + [|lines| - 1] else init
  }

  /**
   * Exactly the section lines give a name, one each and in order: the k-th
   * name is that of the k-th section line.
   */
  lemma {:induction false} SectionsFromSectionLines(lines: seq<string>)
    ensures |Sections(lines)| == |SectionPositions(lines)|
    ensures forall k :: 0 <= k < |Sections(lines)| ==> Sections(lines)[k] == SectionName(lines[SectionPositions(lines)[k]])
  {
    if lines != [] {
      var init := lines[..|lines| - 1];
      SectionsFromSectionLines(init);
      var names, ps := Sections(init), SectionPositions(init);
      forall k | 0 <= k < |Sections(lines)| ensures Sections(lines)[k] == SectionName(lines[SectionPositions(lines)[k]]) {
        if k < |names| {
          assert Sections(lines)[k] == names[k];
          assert SectionPositions(lines)[k] == ps[k];
          assert init[ps[k]] == lines[ps[k]];
        }
      }
    }
  }

  /** `extract_sections_from_template`. */
  method ExtractSectionsFromTemplate(content: string) returns (sections: seq<string>)
    ensures sections == Sections(Split(content, "\n"))
  {
    var lines := Split(content, "\n");
    sections := [];
    for i := 0 to |lines|
      invariant sections == Sections(lines[..i])
    {
      assert lines[..i + 1][..i] == lines[..i];
      if IsSectionLine(lines[i]) {
        sections := sections + [SectionName(lines[i])];
      }
    }
    assert lines[..|lines|] == lines;
  }
}
