/**
 * The prompt classifier (lib/analyzePrompt.ts). It lower-cases the prompt, then
 * decides between a component and a site, picks the first style whose indicator
 * words occur, maps the style to a UI library and scores its confidence.
 * Confidence is kept in integer hundredths (0.7 is 70), so the sums are exact.
 */
module AnalyzePrompt {
  import opened Wrappers

  datatype ContentType = Component | Site
  datatype Style = Modern | Professional | Business | Minimal
  datatype Library = Shadcn | NextUI | Antd | Chakra

  /** The classifier's answer; `confidence` in hundredths. */
  datatype PromptAnalysis = PromptAnalysis(contentType: ContentType, style: Style, library: Library,
                                           confidence: int)

  const SiteKeywords: seq<string> := ["landing page", "website", "home page", "dashboard", "multi-page"]
  const ComponentKeywords: seq<string> := ["button", "form", "card", "modal", "input", "table"]

  /** The style groups in the order `Object.entries` visits them. */
  const StyleIndicators: seq<(Style, seq<string>)> := [
    (Modern, ["modern", "sleek", "clean"]),
    (Professional, ["professional", "corporate"]),
    (Business, ["business", "enterprise"]),
    (Minimal, ["minimal", "simple", "plain"])
  ]

  const BaseConfidence: int := 70
  const SiteBonus: int := 15
  const ComponentBonus: int := 10
  const StyleBonus: int := 5
  const MaxConfidence: int := 100

  /** The string value of a style, which is also its own indicator word. */
  function StyleName(s: Style): string {
    match s
    case Modern => "modern"
    case Professional => "professional"
    case Business => "business"
    case Minimal => "minimal"
  }

  /** `LIBRARY_MAPPING`. */
  function LibraryOf(s: Style): Library {
    match s
    case Modern => Shadcn
    case Professional => NextUI
    case Business => Antd
    case Minimal => Chakra
  }

  /** Each style has its own library, so the library names the style. */
  lemma LibraryOfIsInjective(a: Style, b: Style)
    ensures LibraryOf(a) == LibraryOf(b) <==> a == b
  {
  }

  /**
   * The groups are visited in the order modern, professional, business, minimal,
   * and each group lists its own style's name among its indicators.
   */
  lemma StyleIndicatorsInOrder()
    ensures |StyleIndicators| == 4
    ensures StyleIndicators[0].0 == Modern && StyleIndicators[1].0 == Professional
    ensures StyleIndicators[2].0 == Business && StyleIndicators[3].0 == Minimal
    ensures forall i | 0 <= i < |StyleIndicators| :: StyleName(StyleIndicators[i].0) in StyleIndicators[i].1
  {
  }

  predicate IsUpper(c: char) {
    'A' <= c <= 'Z'
  }

  /** `toLowerCase` on one character, for the ASCII letters. */
  function LowerChar(c: char): (d: char)
    ensures !IsUpper(d)
    ensures IsUpper(c) ==> d as int == c as int + 32
    ensures !IsUpper(c) ==> d == c
  {
    if IsUpper(c) then (c as int + 32) as char else c
  }

  /** `toLowerCase`: no upper-case letter is left, and nothing else changes. */
  function ToLower(s: string): (r: string)
    ensures |r| == |s|
    ensures forall i | 0 <= i < |r| :: !IsUpper(r[i])
    ensures forall i | 0 <= i < |r| :: !IsUpper(s[i]) ==> r[i] == s[i]
  {
    seq(|s|, i requires 0 <= i < |s| => LowerChar(s[i]))
  }

  /** Lower-casing twice is lower-casing once. */
  lemma ToLowerIsIdempotent(s: string)
    ensures ToLower(ToLower(s)) == ToLower(s)
  {
    var t := ToLower(s);
    assert forall i | 0 <= i < |t| :: ToLower(t)[i] == t[i];
  }

  /** `k` occurs in `s` starting at index `i`. */
  predicate MatchesAt(s: string, k: string, i: int) {
    0 <= i && i + |k| <= |s| && s[i..i + |k|] == k
  }

  /** `s.includes(k)`. */
  predicate Contains(s: string, k: string) {
    exists i | 0 <= i <= |s| :: MatchesAt(s, k, i)
  }

  /** `ks.some(k => s.includes(k))`. */
  predicate AnyContains(s: string, ks: seq<string>) {
    exists j | 0 <= j < |ks| :: Contains(s, ks[j])
  }

  /**
   * The style the loop over the groups settles on, looking at groups `i..`: the
   * first group with an indicator in `lower`, if any.
   */
  function FirstStyleFrom(lower: string, i: nat): (r: Option<Style>)
    requires i <= |StyleIndicators|
    ensures r.None? <==> forall j | i <= j < |StyleIndicators| :: !AnyContains(lower, StyleIndicators[j].1)
    ensures r.Some? ==> exists j | i <= j < |StyleIndicators| ::
      && StyleIndicators[j].0 == r.value
      && AnyContains(lower, StyleIndicators[j].1)
      && forall m | i <= m < j :: !AnyContains(lower, StyleIndicators[m].1)
    decreases |StyleIndicators| - i
  {
    if i == |StyleIndicators| then None
    else if AnyContains(lower, StyleIndicators[i].1) then Some(StyleIndicators[i].0)
    else FirstStyleFrom(lower, i + 1)
  }

  function Min(a: int, b: int): int {
    if a <= b then a else b
  }

  /** What `analyzePrompt` returns for the already lower-cased prompt `lower`. */
  function Classify(lower: string): (r: PromptAnalysis)
    ensures r.library == LibraryOf(r.style)
    ensures BaseConfidence <= r.confidence <= MaxConfidence
  {
    var site := AnyContains(lower, SiteKeywords);
    var component := AnyContains(lower, ComponentKeywords);
    var style := FirstStyleFrom(lower, 0);
    var confidence := BaseConfidence + (if site then SiteBonus else 0)
                      + (if component then ComponentBonus else 0)
                      + (if style.Some? then StyleBonus else 0);
    PromptAnalysis(if component then Component else if site then Site else Component,
                   style.GetOr(Modern), LibraryOf(style.GetOr(Modern)), Min(confidence, MaxConfidence))
  }

  /** `analyzePrompt(prompt)`. */
  method Analyze(prompt: string) returns (r: PromptAnalysis)
    ensures r == Classify(ToLower(prompt))
  {
    var lower := ToLower(prompt);
    var contentType := Component;
    var style := Modern;
    var confidence := BaseConfidence;

    if AnyContains(lower, SiteKeywords) {
      contentType := Site;
      confidence := confidence + SiteBonus;
    }
    if AnyContains(lower, ComponentKeywords) {
      contentType := Component;
      confidence := confidence + ComponentBonus;
    }
    ghost var scored := confidence;
    var i := 0;
    while i < |StyleIndicators|
      invariant 0 <= i <= |StyleIndicators|
      invariant FirstStyleFrom(lower, i) == FirstStyleFrom(lower, 0)
      invariant style == Modern && confidence == scored
    {
      if AnyContains(lower, StyleIndicators[i].1) {
        style := StyleIndicators[i].0;
        confidence := confidence + StyleBonus;
        break;
      }
      i := i + 1;
    }
    var library := LibraryOf(style);
    r := PromptAnalysis(contentType, style, library, Min(confidence, MaxConfidence));
  }

  /** The uncapped score never exceeds 1.0, so `Math.min` never changes it. */
  lemma CapNeverBinds(site: bool, component: bool, styled: bool)
    ensures BaseConfidence + (if site then SiteBonus else 0) + (if component then ComponentBonus else 0)
            + (if styled then StyleBonus else 0) <= MaxConfidence
  {
  }

  /**
   * The answer in terms of the evidence: a component keyword always wins the
   * type, a site keyword alone makes a site, and every kind of evidence adds its
   * bonus exactly once.
   */
  lemma ClassifyExplained(lower: string)
    ensures var r := Classify(lower);
      && (r.contentType == Site <==> AnyContains(lower, SiteKeywords) && !AnyContains(lower, ComponentKeywords))
      && r.confidence == BaseConfidence
           + (if AnyContains(lower, SiteKeywords) then SiteBonus else 0)
           + (if AnyContains(lower, ComponentKeywords) then ComponentBonus else 0)
           + (if FirstStyleFrom(lower, 0).Some? then StyleBonus else 0)
  {
  }

  /**
   * The style is that of the first group with an indicator in the prompt, and it
   * is the default `modern`, with no style bonus, only when no group has one.
   */
  lemma StyleIsFirstMatch(lower: string)
    ensures var r := Classify(lower);
      || (exists j | 0 <= j < |StyleIndicators| ::
            && r.style == StyleIndicators[j].0
            && AnyContains(lower, StyleIndicators[j].1)
            && forall m | 0 <= m < j :: !AnyContains(lower, StyleIndicators[m].1))
      || (&& r.style == Modern
          && (forall j | 0 <= j < |StyleIndicators| :: !AnyContains(lower, StyleIndicators[j].1))
          && r.confidence == BaseConfidence
               + (if AnyContains(lower, SiteKeywords) then SiteBonus else 0)
               + (if AnyContains(lower, ComponentKeywords) then ComponentBonus else 0))
  {
    var r := Classify(lower);
    match FirstStyleFrom(lower, 0)
    case Some(s) =>
    case None =>
  }

  /** Text found in a string is found in any extension of it. */
  lemma ContainsExtends(s: string, t: string, k: string)
    requires Contains(s, k)
    ensures Contains(s + t, k)
  {
    var i :| 0 <= i <= |s| && MatchesAt(s, k, i);
    assert (s + t)[i..i + |k|] == s[i..i + |k|];
    assert MatchesAt(s + t, k, i);
  }

  lemma AnyContainsExtends(s: string, t: string, ks: seq<string>)
    requires AnyContains(s, ks)
    ensures AnyContains(s + t, ks)
  {
    var j :| 0 <= j < |ks| && Contains(s, ks[j]);
    ContainsExtends(s, t, ks[j]);
  }

  /** Adding text to an already lower-cased prompt never lowers the confidence. */
  lemma ConfidenceGrowsWithText(lower: string, more: string)
    ensures Classify(lower + more).confidence >= Classify(lower).confidence
  {
    if AnyContains(lower, SiteKeywords) {
      AnyContainsExtends(lower, more, SiteKeywords);
    }
    if AnyContains(lower, ComponentKeywords) {
      AnyContainsExtends(lower, more, ComponentKeywords);
    }
    if FirstStyleFrom(lower, 0).Some? {
      var j :| 0 <= j < |StyleIndicators| && AnyContains(lower, StyleIndicators[j].1);
      AnyContainsExtends(lower, more, StyleIndicators[j].1);
      assert FirstStyleFrom(lower + more, 0).Some?;
    }
  }

  /** Lower-casing works character by character, so it distributes over concatenation. */
  lemma ToLowerAppend(p: string, q: string)
    ensures ToLower(p + q) == ToLower(p) + ToLower(q)
  {
    var l, r := ToLower(p + q), ToLower(p) + ToLower(q);
    forall i | 0 <= i < |l| ensures l[i] == r[i] {
      if i < |p| {
        assert (p + q)[i] == p[i];
      } else {
        assert (p + q)[i] == q[i - |p|];
      }
    }
  }

  /** Appending text to a prompt, as given before lower-casing, never lowers what `Analyze` reports. */
  lemma PromptConfidenceGrowsWithText(prompt: string, more: string)
    ensures Classify(ToLower(prompt + more)).confidence >= Classify(ToLower(prompt)).confidence
  {
    ToLowerAppend(prompt, more);
    ConfidenceGrowsWithText(ToLower(prompt), ToLower(more));
  }

  // A worked example: "Create a modern landing page".

  /** `k` cannot occur in `s` when one of its characters does not. */
  lemma AbsentChar(s: string, k: string, j: nat)
    requires j < |k| && k[j] !in s
    ensures !Contains(s, k)
  {
    forall i | 0 <= i <= |s| ensures !MatchesAt(s, k, i) {
      if i + |k| <= |s| {
        assert s[i + j] in s;
        assert s[i..i + |k|][j] == s[i + j];
      }
    }
  }

  /** An occurrence in `p + q` lies in `q` when `p` lacks the first character of `k`. */
  lemma SkipPrefix(p: string, q: string, k: string)
    requires |k| > 0 && k[0] !in p
    ensures Contains(p + q, k) ==> Contains(q, k)
  {
    var s := p + q;
    forall i | 0 <= i <= |s| && MatchesAt(s, k, i) ensures Contains(q, k) {
      assert s[i..i + |k|][0] == k[0];
      assert forall m | 0 <= m < |p| :: s[m] == p[m];
      assert q[i - |p|..i - |p| + |k|] == s[i..i + |k|];
      assert MatchesAt(q, k, i - |p|);
    }
  }

  /** An occurrence in `[c] + q` is at the head when `q` lacks `c`, the first character of `k`. */
  lemma OnlyAtHead(c: char, q: string, k: string)
    requires |k| > 0 && k[0] == c && c !in q
    ensures Contains([c] + q, k) <==> MatchesAt([c] + q, k, 0)
  {
    var s := [c] + q;
    forall i | 0 <= i <= |s| && MatchesAt(s, k, i) ensures i == 0 {
      assert s[i..i + |k|][0] == k[0];
      assert forall m | 1 <= m < |s| :: s[m] == q[m - 1];
    }
  }

  const ExamplePrompt: string := "Create a modern landing page"
  const ExampleLower: string := "create a modern landing page"

  lemma ExampleLowered()
    ensures ToLower(ExamplePrompt) == ExampleLower
  {
  }

  /** Four component keywords each hold a character ('b', 'f', 'u') the example lacks. */
  lemma ExampleLacksLetters()
    ensures !Contains(ExampleLower, "button")
    ensures !Contains(ExampleLower, "form")
    ensures !Contains(ExampleLower, "input")
    ensures !Contains(ExampleLower, "table")
  {
    AbsentChar(ExampleLower, "button", 0);
    AbsentChar(ExampleLower, "form", 0);
    AbsentChar(ExampleLower, "input", 3);
    AbsentChar(ExampleLower, "table", 2);
  }

  lemma ExampleHasNoCard() ensures !Contains(ExampleLower, "card") {
    assert ExampleLower == ['c'] + "reate a modern landing page";
    OnlyAtHead('c', "reate a modern landing page", "card");
    assert ExampleLower[..4][1] == 'r';
  }

  lemma ExampleHasNoModal() ensures !Contains(ExampleLower, "modal") {
    assert ExampleLower == "create a " + "modern landing page";
    SkipPrefix("create a ", "modern landing page", "modal");
    var t := "modern landing page";
    assert t == ['m'] + "odern landing page";
    OnlyAtHead('m', "odern landing page", "modal");
    assert t[..5][3] == 'e';
  }

  lemma ExampleHasNoComponentKeyword()
    ensures !AnyContains(ExampleLower, ComponentKeywords)
  {
    ExampleLacksLetters();
    ExampleHasNoCard();
    ExampleHasNoModal();
    forall j | 0 <= j < |ComponentKeywords| ensures !Contains(ExampleLower, ComponentKeywords[j]) {
    }
  }

  lemma ExampleHasSiteAndModernKeywords()
    ensures AnyContains(ExampleLower, SiteKeywords)
    ensures AnyContains(ExampleLower, StyleIndicators[0].1)
  {
    assert MatchesAt(ExampleLower, SiteKeywords[0], 16);
    assert MatchesAt(ExampleLower, StyleIndicators[0].1[0], 9);
  }

  /** "Create a modern landing page" is a site in the modern style, on shadcn, at 0.9. */
  lemma ExampleClassified()
    ensures Classify(ToLower(ExamplePrompt)) == PromptAnalysis(Site, Modern, Shadcn, 90)
  {
    ExampleLowered();
    ExampleHasNoComponentKeyword();
    ExampleHasSiteAndModernKeywords();
  }
}
