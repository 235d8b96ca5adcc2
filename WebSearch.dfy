/**
 * The two lookup tools of the assistant: recommended official sites for a
 * search query, and plain-language explanations of administrative terms.
 * Both are a table lookup followed by a fixed text template; the outputs
 * are described line by line, as a reader of the text sees them.
 *
 * The line-by-line descriptions need to know that no fixed text of the
 * templates and tables holds a line feed. The solver establishes such a
 * fact about a text constant quickly only when that constant is the one
 * text it is looking at, so each constant gets a small lemma of its own
 * (`…NoNewline`) and the lemmas about a whole table entry only combine
 * them. The same holds for the per-question lemmas of the classifier
 * examples.
 */
module WebSearch {
  import opened Strings

  // ---------------------------------------------------------------------
  // search_government_info

  /** The category used when the caller names none, and the fallback for
      an unknown one. */
  const DefaultCategory: string := "general"

  /** Recommended official sites per category, in table order. */
  const OfficialSites: map<string, seq<string>> := map[
    "visa" := [
      "https://www.hikorea.go.kr" + " - 하이코리아 (출입국외국인정책본부)",
      "https://www.immigration.go.kr" + " - 출입국관리사무소"],
    "housing" := [
      "https://www.gov.kr" + " - 정부24",
      "https://www.easylaw.go.kr" + " - 찾기쉬운생활법령정보"],
    "tax" := [
      "https://www.nts.go.kr" + " - 국세청",
      "https://www.hometax.go.kr" + " - 홈택스",
      "https://www.wetax.go.kr" + " - 위택스 (지방세)"],
    "healthcare" := [
      "https://www.nhis.or.kr" + " - 국민건강보험공단",
      "https://www.mohw.go.kr" + " - 보건복지부"],
    DefaultCategory := [
      "https://www.gov.kr" + " - 정부24",
      "https://www.korean.go.kr" + " - 국립국어원 (행정용어 순화)",
      "https://www.minwon.go.kr" + " - 민원24"]
  ]

  /** `official_sites.get(category, official_sites["general"])` */
  function SitesFor(category: string): (sites: seq<string>)
    ensures category in OfficialSites ==> sites == OfficialSites[category]
    ensures category !in OfficialSites ==> sites == OfficialSites[DefaultCategory]
    ensures |sites| >= 2
  {
    if category in OfficialSites then OfficialSites[category] else OfficialSites[DefaultCategory]
  }

  /** One `- `-prefixed line per site, in list order. */
  function SiteLines(sites: seq<string>): (lines: seq<string>)
    ensures |lines| == |sites|
    ensures forall i :: 0 <= i < |sites| ==> lines[i] == "- " + sites[i]
  {
    if |sites| == 0 then [] else ["- " + sites[0]] + SiteLines(sites[1..])
  }

  function QueryLine(query: string): string { "[검색 쿼리]: " + query }
  function CategoryLine(category: string): string { "[카테고리]: " + category }
  const SitesHeading: string := "[추천 공식 사이트]:"
  const GuidanceHeading: string := "[안내]"
  function GuidanceLine(query: string): string {
    "위 공식 사이트에서 \"" + query + "\"를 검색하시면 " + "정확한 정보를 확인할 수 있습니다."
  }
  const SearchClosing: string :=
    "실제 서비스에서는 이 도구가 자동으로 " + "공식 사이트를 검색하여 최신 정보를 제공합니다."

  /** The lines of the triple-quoted template before the site block: it
      opens with a line feed, hence the empty first line. */
  function SearchHead(query: string, category: string): seq<string> {
    ["", QueryLine(query), CategoryLine(category), "", SitesHeading]
  }

  /** The lines after the site block; the template ends with a line feed,
      hence the empty last line. */
  function SearchTail(query: string): seq<string> {
    ["", GuidanceHeading, GuidanceLine(query), SearchClosing, ""]
  }

  /** The lines of the rendered search text. */
  function SearchLines(query: string, category: string, sites: seq<string>): seq<string> {
    SearchHead(query, category) + SiteLines(sites) + SearchTail(query)
  }

  /** The f-string of `search_government_info` for a given site list: the
      template's lines separated by line feeds. */
  function RenderSearch(query: string, category: string, sites: seq<string>): string {
    Join("\n", SearchLines(query, category, sites))
  }

  /** The site block is `chr(10).join(f"- {site}" for site in sites)`,
      placed on its own lines between the two fixed parts of the template. */
  lemma SiteBlockInTemplate(query: string, category: string, sites: seq<string>)
    requires |sites| > 0
    ensures RenderSearch(query, category, sites) ==
            Join("\n", SearchHead(query, category)) + "\n" + Join("\n", SiteLines(sites)) + "\n" +
            Join("\n", SearchTail(query))
  {
    JoinThree(SearchHead(query, category), SiteLines(sites), SearchTail(query), "\n");
  }

  /** The fixed part of the template above the site block. */
  function SearchHeadText(query: string, category: string): string {
    "\n" + QueryLine(query) + "\n" + CategoryLine(category) + "\n" + "\n" + SitesHeading
  }

  /** The fixed part of the template below the site block. */
  function SearchTailText(query: string): string {
    "\n" + GuidanceHeading + "\n" + GuidanceLine(query) + "\n" + SearchClosing + "\n"
  }

  /** Five lines of which the first and fourth are blank. */
  lemma HeadShape(sep: string, a: string, b: string, c: string)
    ensures Join(sep, ["", a, b, "", c]) == sep + a + sep + b + sep + sep + c
  {
    JoinFive(sep, "", a, b, "", c);
    assert "" + sep == sep;
  }

  /** Five lines of which the first and last are blank. */
  lemma TailShape(sep: string, x: string, y: string, z: string)
    ensures Join(sep, ["", x, y, z, ""]) == sep + x + sep + y + sep + z + sep
  {
    JoinFive(sep, "", x, y, z, "");
    assert "" + sep == sep;
  }

  /** The rendered text written out as the triple-quoted f-string reads:
      it opens and ends with a line feed and echoes the query and the
      category as given. */
  lemma RenderSearchText(query: string, category: string, sites: seq<string>)
    requires |sites| > 0
    ensures RenderSearch(query, category, sites) ==
            SearchHeadText(query, category) + "\n" + Join("\n", SiteLines(sites)) + "\n" +
            SearchTailText(query)
  {
    SiteBlockInTemplate(query, category, sites);
    HeadShape("\n", QueryLine(query), CategoryLine(category), SitesHeading);
    TailShape("\n", GuidanceHeading, GuidanceLine(query), SearchClosing);
  }

  /** `search_government_info(query, category)`, for every query and
      category whatever characters they hold: the query line, the category
      line with the caller's category, the heading, the selected sites as
      `- ` lines joined by line feeds, then the guidance quoting the query
      and the closing line. */
  function SearchGovernmentInfo(query: string, category: string): (text: string)
    ensures text ==
            SearchHeadText(query, category) + "\n" + Join("\n", SiteLines(SitesFor(category))) + "\n" +
            SearchTailText(query)
  {
    RenderSearchText(query, category, SitesFor(category));
    RenderSearch(query, category, SitesFor(category))
  }

  /** `search_government_info(query)` with the category left to its
      default: the general sites, under the category line "general". */
  function SearchGovernmentInfoDefault(query: string): (text: string)
    ensures text ==
            SearchHeadText(query, DefaultCategory) + "\n" +
            Join("\n", SiteLines(OfficialSites[DefaultCategory])) + "\n" + SearchTailText(query)
  {
    SearchGovernmentInfo(query, DefaultCategory)
  }

  /** No line of the rendered text breaks. */
  predicate NoNewline(lines: seq<string>) {
    forall i :: 0 <= i < |lines| ==> '\n' !in lines[i]
  }

  lemma SiteLinesNoNewline(sites: seq<string>)
    requires NoNewline(sites)
    ensures NoNewline(SiteLines(sites))
  {
    forall i | 0 <= i < |sites| ensures '\n' !in SiteLines(sites)[i] {
      assert SiteLines(sites)[i] == "- " + sites[i];
    }
  }

  lemma VisaSitesNoNewline()
    ensures NoNewline(OfficialSites["visa"])
  {
  }

  lemma HousingSitesNoNewline()
    ensures NoNewline(OfficialSites["housing"])
  {
  }

  lemma TaxSitesNoNewline()
    ensures NoNewline(OfficialSites["tax"])
  {
  }

  lemma HealthcareSitesNoNewline()
    ensures NoNewline(OfficialSites["healthcare"])
  {
  }

  lemma GeneralSitesNoNewline()
    ensures NoNewline(OfficialSites[DefaultCategory])
  {
  }

  lemma HeadNoNewline(query: string, category: string)
    requires '\n' !in query && '\n' !in category
    ensures NoNewline(SearchHead(query, category))
  {
  }

  lemma GuidanceNoNewline(query: string)
    requires '\n' !in query
    ensures '\n' !in GuidanceLine(query)
  {
  }

  lemma ClosingNoNewline()
    ensures '\n' !in SearchClosing
  {
  }

  lemma TailNoNewline(query: string)
    requires '\n' !in query
    ensures NoNewline(SearchTail(query))
  {
    GuidanceNoNewline(query);
    ClosingNoNewline();
  }

  /** The rendered text, split at line feeds, is: a blank line, the query
      line, the category line as the caller wrote it, a blank line, the
      heading, one `- ` line per site in order, a blank line, the guidance
      heading, the guidance line quoting the query, the closing line and the
      empty remainder after the final line feed. */
  lemma SearchRenderLines(query: string, category: string, sites: seq<string>)
    requires |sites| > 0 && NoNewline(sites)
    requires '\n' !in query && '\n' !in category
    ensures Split(RenderSearch(query, category, sites), '\n') == SearchLines(query, category, sites)
  {
    var head, middle, tail := SearchHead(query, category), SiteLines(sites), SearchTail(query);
    SiteLinesNoNewline(sites);
    HeadNoNewline(query, category);
    TailNoNewline(query);
    var lines := head + middle + tail;
    forall i | 0 <= i < |lines| ensures '\n' !in lines[i] {
      if i < 5 {
        assert lines[i] == head[i];
      } else if i < 5 + |middle| {
        assert lines[i] == middle[i - 5];
      } else {
        assert lines[i] == tail[i - 5 - |middle|];
      }
    }
    SplitJoin(lines, '\n');
  }

  lemma SitesNoNewline(category: string)
    ensures NoNewline(SitesFor(category))
  {
    if category == "visa" {
      VisaSitesNoNewline();
    } else if category == "housing" {
      HousingSitesNoNewline();
    } else if category == "tax" {
      TaxSitesNoNewline();
    } else if category == "healthcare" {
      HealthcareSitesNoNewline();
    } else {
      GeneralSitesNoNewline();
    }
  }

  /** What `search_government_info` returns, line by line: the query line,
      the category line carrying the caller's own category (also when the
      sites come from the fallback), the selected sites as `- ` lines in
      table order, and the guidance line quoting the query again. */
  lemma SearchGovernmentInfoLines(query: string, category: string)
    requires '\n' !in query && '\n' !in category
    ensures var sites := SitesFor(category);
      var lines := Split(SearchGovernmentInfo(query, category), '\n');
      && lines == SearchLines(query, category, sites)
      && |lines| == |sites| + 10
      && lines[1] == "[검색 쿼리]: " + query
      && lines[2] == "[카테고리]: " + category
      && (forall i :: 0 <= i < |sites| ==> lines[5 + i] == "- " + sites[i])
      && lines[|sites| + 7] == GuidanceLine(query)
      && StartsWith(lines[|sites| + 7], "위 공식 사이트에서 \"" + query + "\"")
  {
    var sites := SitesFor(category);
    SitesNoNewline(category);
    SearchRenderLines(query, category, sites);
    var lines := SearchLines(query, category, sites);
    assert forall i :: 0 <= i < |sites| ==> lines[5 + i] == SiteLines(sites)[i];
    var g := "위 공식 사이트에서 \"" + query + "\"";
    assert GuidanceLine(query) == g + ("를 검색하시면 " + "정확한 정보를 확인할 수 있습니다.");
    assert GuidanceLine(query)[..|g|] == g;
  }

  // ---------------------------------------------------------------------
  // get_terminology_explanation

  /** One dictionary entry: the plain word, an explanation and the English
      name. */
  datatype TermInfo = TermInfo(plain: string, explanation: string, english: string)

  // The entries of the terminology dictionary, field by field.
  const MoveInPlain: string := "이사 신고"
  const MoveInExplanation: string := "새로운 주소지로 이사했을 때 " + "동주민센터에 알리는 것"
  const MoveInEnglish: string := "Moving-in report / " + "Address change notification"
  const MoveInInfo: TermInfo := TermInfo(MoveInPlain, MoveInExplanation, MoveInEnglish)

  const CopyPlain: string := "증명서 사본"
  const CopyExplanation: string := "공식 문서의 내용을 " + "그대로 옮겨 적은 증명서"
  const CopyEnglish: string := "Certified copy"
  const CopyInfo: TermInfo := TermInfo(CopyPlain, CopyExplanation, CopyEnglish)

  const AbstractPlain: string := "요약 증명서"
  const AbstractExplanation: string := "공식 문서에서 필요한 부분만 " + "뽑아 적은 증명서"
  const AbstractEnglish: string := "Abstract / Extract"
  const AbstractInfo: TermInfo := TermInfo(AbstractPlain, AbstractExplanation, AbstractEnglish)

  const SealPlain: string := "도장 확인서"
  const SealExplanation: string := "관공서에 미리 등록한 도장이 " + "본인 것임을 증명하는 서류"
  const SealEnglish: string := "Seal certificate"
  const SealInfo: TermInfo := TermInfo(SealPlain, SealExplanation, SealEnglish)

  const ResidentPlain: string := "주민 신고"
  const ResidentExplanation: string := "대한민국 국민이 어디에 사는지 " + "나라에 알리고 등록하는 제도"
  const ResidentEnglish: string := "Resident registration"
  const ResidentInfo: TermInfo := TermInfo(ResidentPlain, ResidentExplanation, ResidentEnglish)

  const StayPlain: string := "비자 종류"
  const StayExplanation: string := "외국인이 한국에 머물 수 있는 자격/이유 " + "(예: 취업, 유학, 결혼 등)"
  const StayEnglish: string := "Status of stay / " + "Visa type"
  const StayInfo: TermInfo := TermInfo(StayPlain, StayExplanation, StayEnglish)

  const OverseasPlain: string := "해외 거주 한국인"
  const OverseasExplanation: string := "외국 국적을 가졌지만 한국계인 사람, " + "또는 외국에 오래 사는 한국인"
  const OverseasEnglish: string := "Overseas Korean"
  const OverseasInfo: TermInfo := TermInfo(OverseasPlain, OverseasExplanation, OverseasEnglish)

  const NaturalizationPlain: string := "국적 바꾸기"
  const NaturalizationExplanation: string := "외국인이 한국 국적을 취득하는 것"
  const NaturalizationEnglish: string := "Naturalization"
  const NaturalizationInfo: TermInfo := TermInfo(NaturalizationPlain, NaturalizationExplanation, NaturalizationEnglish)

  /** The terminology dictionary: eight administrative terms. */
  const TerminologyDict: map<string, TermInfo> := map[
    "전입신고" := MoveInInfo,
    "등본" := CopyInfo,
    "초본" := AbstractInfo,
    "인감증명" := SealInfo,
    "주민등록" := ResidentInfo,
    "체류자격" := StayInfo,
    "재외동포" := OverseasInfo,
    "귀화" := NaturalizationInfo
  ]

  /** The lines of the text for a term found in the dictionary. */
  function FoundLines(term: string, info: TermInfo): seq<string> {
    ["", "[용어]: " + term, "[쉬운 말]: " + info.plain, "[설명]: " + info.explanation,
     "[영어]: " + info.english, ""]
  }

  const NotFoundNotice: string := "[안내]: 이 용어에 대한 " + "정보가 사전에 없습니다."
  const NotFoundAdvice: string := "일반적인 설명을 드리겠습니다. " + "더 정확한 정보는 국립국어원(korean.go.kr)의"
  const NotFoundReference: string := "'알기 쉬운 행정용어'를 참고해주세요."

  /** The lines of the text for any other term. */
  function NotFoundLines(term: string): seq<string> {
    ["", "[용어]: " + term, NotFoundNotice, NotFoundAdvice, NotFoundReference, ""]
  }

  /** The lines of the f-string of the branch `term in terminology_dict`
      selects. */
  function TermLines(term: string): seq<string> {
    if term in TerminologyDict then FoundLines(term, TerminologyDict[term]) else NotFoundLines(term)
  }

  /** Six lines of which the first and last are blank. */
  lemma FramedShape(sep: string, a: string, b: string, c: string, d: string)
    ensures Join(sep, ["", a, b, c, d, ""]) == sep + a + sep + b + sep + c + sep + d + sep
  {
    JoinSix(sep, "", a, b, c, d, "");
    assert "" + sep == sep;
  }

  /** `get_terminology_explanation(term)`, for every term whatever
      characters it holds: the term line, then the entry's three fields for
      an exact key of the dictionary, or the three not-found lines for any
      other term, each on its own line, between an opening and a closing
      line feed. */
  function GetTerminologyExplanation(term: string): (text: string)
    ensures term in TerminologyDict ==>
              var info := TerminologyDict[term];
              text == "\n" + ("[용어]: " + term) + "\n" + ("[쉬운 말]: " + info.plain) + "\n" +
                      ("[설명]: " + info.explanation) + "\n" + ("[영어]: " + info.english) + "\n"
    ensures term !in TerminologyDict ==>
              text == "\n" + ("[용어]: " + term) + "\n" + NotFoundNotice + "\n" + NotFoundAdvice + "\n" +
                      NotFoundReference + "\n"
  {
    if term in TerminologyDict then
      var info := TerminologyDict[term];
      FramedShape("\n", "[용어]: " + term, "[쉬운 말]: " + info.plain, "[설명]: " + info.explanation,
                  "[영어]: " + info.english);
      Join("\n", TermLines(term))
    else
      FramedShape("\n", "[용어]: " + term, NotFoundNotice, NotFoundAdvice, NotFoundReference);
      Join("\n", TermLines(term))
  }

  /** No field of an entry holds a line feed. One lemma per field
      constant follows; see the module comment. */
  predicate InfoNoNewline(info: TermInfo) {
    '\n' !in info.plain && '\n' !in info.explanation && '\n' !in info.english
  }

  lemma MoveInPlainNoNewline() ensures '\n' !in MoveInPlain {}
  lemma MoveInExplanationNoNewline() ensures '\n' !in MoveInExplanation {}
  lemma MoveInEnglishNoNewline() ensures '\n' !in MoveInEnglish {}
  lemma MoveInEntryNoNewline()
    ensures InfoNoNewline(MoveInInfo)
  {
    MoveInPlainNoNewline();
    MoveInExplanationNoNewline();
    MoveInEnglishNoNewline();
  }

  lemma CopyPlainNoNewline() ensures '\n' !in CopyPlain {}
  lemma CopyExplanationNoNewline() ensures '\n' !in CopyExplanation {}
  lemma CopyEnglishNoNewline() ensures '\n' !in CopyEnglish {}
  lemma CopyEntryNoNewline()
    ensures InfoNoNewline(CopyInfo)
  {
    CopyPlainNoNewline();
    CopyExplanationNoNewline();
    CopyEnglishNoNewline();
  }

  lemma AbstractPlainNoNewline() ensures '\n' !in AbstractPlain {}
  lemma AbstractExplanationNoNewline() ensures '\n' !in AbstractExplanation {}
  lemma AbstractEnglishNoNewline() ensures '\n' !in AbstractEnglish {}
  lemma AbstractEntryNoNewline()
    ensures InfoNoNewline(AbstractInfo)
  {
    AbstractPlainNoNewline();
    AbstractExplanationNoNewline();
    AbstractEnglishNoNewline();
  }

  lemma SealPlainNoNewline() ensures '\n' !in SealPlain {}
  lemma SealExplanationNoNewline() ensures '\n' !in SealExplanation {}
  lemma SealEnglishNoNewline() ensures '\n' !in SealEnglish {}
  lemma SealEntryNoNewline()
    ensures InfoNoNewline(SealInfo)
  {
    SealPlainNoNewline();
    SealExplanationNoNewline();
    SealEnglishNoNewline();
  }

  lemma ResidentPlainNoNewline() ensures '\n' !in ResidentPlain {}
  lemma ResidentExplanationNoNewline() ensures '\n' !in ResidentExplanation {}
  lemma ResidentEnglishNoNewline() ensures '\n' !in ResidentEnglish {}
  lemma ResidentEntryNoNewline()
    ensures InfoNoNewline(ResidentInfo)
  {
    ResidentPlainNoNewline();
    ResidentExplanationNoNewline();
    ResidentEnglishNoNewline();
  }

  lemma StayPlainNoNewline() ensures '\n' !in StayPlain {}
  lemma StayExplanationNoNewline() ensures '\n' !in StayExplanation {}
  lemma StayEnglishNoNewline() ensures '\n' !in StayEnglish {}
  lemma StayEntryNoNewline()
    ensures InfoNoNewline(StayInfo)
  {
    StayPlainNoNewline();
    StayExplanationNoNewline();
    StayEnglishNoNewline();
  }

  lemma OverseasPlainNoNewline() ensures '\n' !in OverseasPlain {}
  lemma OverseasExplanationNoNewline() ensures '\n' !in OverseasExplanation {}
  lemma OverseasEnglishNoNewline() ensures '\n' !in OverseasEnglish {}
  lemma OverseasEntryNoNewline()
    ensures InfoNoNewline(OverseasInfo)
  {
    OverseasPlainNoNewline();
    OverseasExplanationNoNewline();
    OverseasEnglishNoNewline();
  }

  lemma NaturalizationPlainNoNewline() ensures '\n' !in NaturalizationPlain {}
  lemma NaturalizationExplanationNoNewline() ensures '\n' !in NaturalizationExplanation {}
  lemma NaturalizationEnglishNoNewline() ensures '\n' !in NaturalizationEnglish {}
  lemma NaturalizationEntryNoNewline()
    ensures InfoNoNewline(NaturalizationInfo)
  {
    NaturalizationPlainNoNewline();
    NaturalizationExplanationNoNewline();
    NaturalizationEnglishNoNewline();
  }

  lemma EntryNoNewline(term: string)
    requires term in TerminologyDict
    ensures InfoNoNewline(TerminologyDict[term])
  {
    if term == "전입신고" {
      MoveInEntryNoNewline();
    } else if term == "등본" {
      CopyEntryNoNewline();
    } else if term == "초본" {
      AbstractEntryNoNewline();
    } else if term == "인감증명" {
      SealEntryNoNewline();
    } else if term == "주민등록" {
      ResidentEntryNoNewline();
    } else if term == "체류자격" {
      StayEntryNoNewline();
    } else if term == "재외동포" {
      OverseasEntryNoNewline();
    } else {
      NaturalizationEntryNoNewline();
    }
  }

  lemma NoticeNoNewline() ensures '\n' !in NotFoundNotice {}
  lemma AdviceNoNewline() ensures '\n' !in NotFoundAdvice {}
  lemma ReferenceNoNewline() ensures '\n' !in NotFoundReference {}

  /** What `get_terminology_explanation` returns, line by line: the term
      line, then for an exact key of the dictionary that entry's plain word,
      explanation and English name, and for every other term the fixed
      not-found notice, which still names the term. */
  lemma TerminologyLines(term: string)
    requires '\n' !in term
    ensures var lines := Split(GetTerminologyExplanation(term), '\n');
      && |lines| == 6
      && lines[0] == "" && lines[5] == ""
      && lines[1] == "[용어]: " + term
      && (term in TerminologyDict ==>
            && lines[2] == "[쉬운 말]: " + TerminologyDict[term].plain
            && lines[3] == "[설명]: " + TerminologyDict[term].explanation
            && lines[4] == "[영어]: " + TerminologyDict[term].english)
      && (term !in TerminologyDict ==>
            lines[2..5] == [NotFoundNotice, NotFoundAdvice, NotFoundReference])
  {
    var lines := TermLines(term);
    if term in TerminologyDict {
      EntryNoNewline(term);
    } else {
      NoticeNoNewline();
      AdviceNoNewline();
      ReferenceNoNewline();
    }
    assert NoNewline(lines);
    SplitJoin(lines, '\n');
  }

  /** The lookup takes the term as given: no key of the dictionary is
      found again once a space is put in front of it. */
  lemma ExactKeyOnly(key: string)
    requires key in TerminologyDict
    ensures " " + key !in TerminologyDict
    ensures TermLines(" " + key) == NotFoundLines(" " + key)
  {
    var spaced := " " + key;
    assert spaced[0] == ' ';
    forall k | k in TerminologyDict ensures |k| > 0 && k[0] != ' ' {
    }
  }
}
