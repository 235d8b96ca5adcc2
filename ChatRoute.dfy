/**
 * The buffered chat endpoint `POST /api/chat`: the keyword classifier that
 * picks an expert persona, the table of personas, validation of the request
 * body, composition of the message list sent to the completion provider and
 * the reply built from the provider's answer. The provider call itself is an
 * input (`ProviderOutcome`).
 */
module ChatRoute {
  import opened Strings
  import opened Options

  /** One persona of the `AGENTS` table. */
  datatype Agent = Agent(name: string, emoji: string, description: string)

  const TriageLabel: string := "triage"
  const VisaLabel: string := "visa"
  const HousingLabel: string := "housing"
  const TaxLabel: string := "tax"
  const HealthcareLabel: string := "healthcare"

  /** The `AGENTS` table, keyed by the labels `classifyQuestion` returns. */
  const Agents: map<string, Agent> := map[
    TriageLabel := Agent("Admin Guide", "🎯", "질문을 분류하고 적절한 전문가에게 연결합니다"),
    VisaLabel := Agent("Visa Expert", "🛂", "비자, 체류자격, 출입국 관련 전문"),
    HousingLabel := Agent("Housing Expert", "🏠", "전입신고, 임대차, 주민등록 전문"),
    TaxLabel := Agent("Tax Expert", "💰", "세금, 연말정산, 홈택스 전문"),
    HealthcareLabel := Agent("Healthcare Expert", "🏥", "건강보험, 의료 서비스 전문")
  ]

  /** `SYSTEM_PROMPT`, the single instruction text sent with every request,
      line by line; the template literal joins them with line feeds. */
  const SystemPromptLines: seq<string> := [
    "당신은 한국 행정 서비스 안내 도우미입니다.",
    "외국인과 청소년이 복잡한 한국 행정 서비스를 쉽게 이해할 수 있도록 도와줍니다.",
    "",
    "## 상담 가능 분야",
    "1. 🛂 비자/출입국: 외국인등록, 체류자격, 비자 연장, 귀화",
    "2. 🏠 주거/전입신고: 이사, 전입신고, 임대차 계약, 등본 발급",
    "3. 💰 세금: 연말정산, 종합소득세, 홈택스 사용법",
    "4. 🏥 건강보험/의료: 국민건강보험, 외국인 보험, 병원 이용",
    "",
    "## 답변 규칙",
    "1. 어려운 행정 용어는 쉬운 말로 풀어서 설명",
    "2. 영어 병기 제공 (예: 전입신고 (Moving-in report))",
    "3. 단계별로 명확하게 안내",
    "4. 필요한 서류, 비용, 소요 시간 정보 포함",
    "5. 관련 공식 사이트 안내 (정부24, 하이코리아 등)",
    "",
    "## 응답 형식",
    "- 한국어 질문 → 한국어 답변",
    "- 영어 질문 → 영어 답변",
    "- 친절하고 따뜻한 말투 사용",
    "",
    "응답 시작 시 [현재 담당: 에이전트명] 형식으로 어떤 전문가가 답변하는지 표시해주세요.",
    "예: [현재 담당: 🛂 Visa Expert]"
  ]

  const SystemPrompt: string := Join("\n", SystemPromptLines)

  /** The alternatives of each of the four regular expressions, in order;
      every alternative is a lowercase literal. */
  const VisaKeywords: seq<string> :=
    ["비자", "visa", "체류", "외국인등록", "입국", "출국", "귀화", "여권", "passport",
     "f-4", "f-6", "e-7", "d-2", "immigration"]
  const HousingKeywords: seq<string> :=
    ["이사", "전입", "등본", "초본", "주민등록", "전세", "월세", "계약", "부동산",
     "housing", "move", "rent", "lease"]
  const TaxKeywords: seq<string> :=
    ["세금", "tax", "연말정산", "소득세", "홈택스", "납세", "부가세", "재산세", "위택스"]
  const HealthcareKeywords: seq<string> :=
    ["건강보험", "병원", "의료", "보험료", "건강검진", "국민건강", "healthcare", "hospital",
     "insurance"]

  /** An unanchored alternation of literals matches when one alternative
      occurs somewhere in the text. */
  function MatchesAny(q: string, keywords: seq<string>): (r: bool)
    ensures r <==> exists j :: 0 <= j < |keywords| && Contains(q, keywords[j])
  {
    if |keywords| == 0 then false
    else Contains(q, keywords[0]) || MatchesAny(q, keywords[1..])
  }

  /** `classifyQuestion`: lowercase, then the visa, housing, tax and
      healthcare tests in that order; the first that matches decides. */
  function Classify(question: string): (topic: string)
    ensures topic in Agents
  {
    var q := Lower(question);
    if MatchesAny(q, VisaKeywords) then VisaLabel
    else if MatchesAny(q, HousingKeywords) then HousingLabel
    else if MatchesAny(q, TaxKeywords) then TaxLabel
    else if MatchesAny(q, HealthcareKeywords) then HealthcareLabel
    else TriageLabel
  }

  /** The categories in the order the classifier tries them: an independent
      statement of the precedence rule. */
  const Categories: seq<(string, seq<string>)> :=
    [(VisaLabel, VisaKeywords), (HousingLabel, HousingKeywords),
     (TaxLabel, TaxKeywords), (HealthcareLabel, HealthcareKeywords)]

  /** Label of the first category of `cats` whose keywords occur in `q`,
      or `triage` when none does. */
  function FirstMatch(q: string, cats: seq<(string, seq<string>)>): (topic: string)
    ensures topic == TriageLabel ||
            exists j :: 0 <= j < |cats| && topic == cats[j].0 && MatchesAny(q, cats[j].1)
  {
    if |cats| == 0 then TriageLabel
    else if MatchesAny(q, cats[0].1) then cats[0].0
    else FirstMatch(q, cats[1..])
  }

  /** `Classify` is the first-match rule over the ordered category table. */
  lemma ClassifyIsFirstMatch(question: string)
    ensures Classify(question) == FirstMatch(Lower(question), Categories)
  {
    var q := Lower(question);
    var c1, c2, c3 := Categories[1..], Categories[2..], Categories[3..];
    assert c1[0] == (HousingLabel, HousingKeywords) && c1[1..] == c2;
    assert c2[0] == (TaxLabel, TaxKeywords) && c2[1..] == c3;
    assert c3[0] == (HealthcareLabel, HealthcareKeywords) && c3[1..] == [];
    assert FirstMatch(q, c3) == if MatchesAny(q, HealthcareKeywords) then HealthcareLabel else TriageLabel;
    assert FirstMatch(q, c2) == if MatchesAny(q, TaxKeywords) then TaxLabel else FirstMatch(q, c3);
    assert FirstMatch(q, c1) == if MatchesAny(q, HousingKeywords) then HousingLabel else FirstMatch(q, c2);
  }

  /** The labels of the category table are distinct and none is `triage`. */
  predicate DistinctLabels(cats: seq<(string, seq<string>)>) {
    (forall i :: 0 <= i < |cats| ==> cats[i].0 != TriageLabel) &&
    (forall i, j :: 0 <= i < j < |cats| ==> cats[i].0 != cats[j].0)
  }

  /** First-match precedence: the answer is category `i` exactly when its
      keywords occur and those of every earlier category do not, and it is
      `triage` exactly when no category's keywords occur. */
  lemma {:induction false} FirstMatchPrecedence(q: string, cats: seq<(string, seq<string>)>, i: nat)
    requires DistinctLabels(cats) && i < |cats|
    ensures FirstMatch(q, cats) == cats[i].0 <==>
              MatchesAny(q, cats[i].1) && forall j :: 0 <= j < i ==> !MatchesAny(q, cats[j].1)
    ensures FirstMatch(q, cats) == TriageLabel <==>
              forall j :: 0 <= j < |cats| ==> !MatchesAny(q, cats[j].1)
  {
    if i > 0 {
      var rest := cats[1..];
      assert DistinctLabels(rest);
      FirstMatchPrecedence(q, rest, i - 1);
      assert forall j :: 0 < j < |cats| ==> cats[j] == rest[j - 1];
      assert FirstMatch(q, cats) == cats[i].0 ==> !MatchesAny(q, cats[0].1);
    } else if |cats| > 1 {
      FirstMatchPrecedence(q, cats[1..], 0);
      assert forall j :: 0 < j < |cats| ==> cats[j] == cats[1..][j - 1];
    } else {
      assert cats[1..] == [];
    }
  }

  lemma CategoriesDistinct()
    ensures DistinctLabels(Categories)
  {
  }

  /** Precedence, spelled out for the four categories: the visa test wins
      over all others, each later label excludes every earlier category's
      keywords, and `triage` means that no keyword at all occurs. */
  lemma ClassifyPrecedence(question: string)
    ensures var q := Lower(question);
      && (Classify(question) == VisaLabel <==> MatchesAny(q, VisaKeywords))
      && (Classify(question) == HousingLabel <==>
            !MatchesAny(q, VisaKeywords) && MatchesAny(q, HousingKeywords))
      && (Classify(question) == TaxLabel <==>
            !MatchesAny(q, VisaKeywords) && !MatchesAny(q, HousingKeywords) && MatchesAny(q, TaxKeywords))
      && (Classify(question) == HealthcareLabel <==>
            !MatchesAny(q, VisaKeywords) && !MatchesAny(q, HousingKeywords) &&
            !MatchesAny(q, TaxKeywords) && MatchesAny(q, HealthcareKeywords))
      && (Classify(question) == TriageLabel <==>
            !MatchesAny(q, VisaKeywords) && !MatchesAny(q, HousingKeywords) &&
            !MatchesAny(q, TaxKeywords) && !MatchesAny(q, HealthcareKeywords))
  {
    var q := Lower(question);
    ClassifyIsFirstMatch(question);
    CategoriesDistinct();
    FirstMatchPrecedence(q, Categories, 0);
    FirstMatchPrecedence(q, Categories, 1);
    FirstMatchPrecedence(q, Categories, 2);
    FirstMatchPrecedence(q, Categories, 3);
  }

  /** Case does not matter: a question and its lowercase form get the same
      label. */
  lemma ClassifyIgnoresCase(question: string)
    ensures Classify(Lower(question)) == Classify(question)
  {
    LowerIdempotent(question);
  }

  /** Position of a label in the order the tests run; `triage` comes last. */
  function Rank(topic: string): nat {
    if topic == VisaLabel then 0
    else if topic == HousingLabel then 1
    else if topic == TaxLabel then 2
    else if topic == HealthcareLabel then 3
    else 4
  }

  lemma LowerConcat(a: string, b: string)
    ensures Lower(a + b) == Lower(a) + Lower(b)
  {
  }

  lemma {:induction false} MatchesAnyExtends(a: string, b: string, c: string, keywords: seq<string>)
    requires MatchesAny(b, keywords)
    ensures MatchesAny(a + b + c, keywords)
  {
    var j :| 0 <= j < |keywords| && Contains(b, keywords[j]);
    ContainsInConcat(a, b, c, keywords[j]);
  }

  /** Adding text around a question can only move its label to an earlier
      category: since matching is unanchored substring containment, a keyword
      that occurs keeps occurring. */
  lemma ClassifyMonotone(a: string, b: string, c: string)
    ensures Rank(Classify(a + b + c)) <= Rank(Classify(b))
  {
    LowerConcat(a + b, c);
    LowerConcat(a, b);
    var q := Lower(b);
    var big := Lower(a) + q + Lower(c);
    assert Lower(a + b + c) == big;
    if MatchesAny(q, VisaKeywords) {
      MatchesAnyExtends(Lower(a), q, Lower(c), VisaKeywords);
    } else if MatchesAny(q, HousingKeywords) {
      MatchesAnyExtends(Lower(a), q, Lower(c), HousingKeywords);
    } else if MatchesAny(q, TaxKeywords) {
      MatchesAnyExtends(Lower(a), q, Lower(c), TaxKeywords);
    } else if MatchesAny(q, HealthcareKeywords) {
      MatchesAnyExtends(Lower(a), q, Lower(c), HealthcareKeywords);
    }
  }

  // ---------------------------------------------------------------------
  // The request handler.

  /** A `{ role, content }` entry of the history or of the outbound list. */
  datatype Turn = Turn(role: string, content: string)

  /** The `message` field of the parsed body: absent, a string, or some other
      JSON value, of which only its JavaScript truthiness matters. */
  datatype MessageField = Missing | Text(text: string) | OtherValue(truthy: bool)

  /** The `history` field: absent (it then defaults to `[]`), a list of
      entries, or a value that has no `map` method. */
  datatype HistoryField = Omitted | Entries(turns: seq<Turn>) | NotAList

  /** The result of `request.json()` and its destructuring. `Unparsable`
      stands for a body that is not JSON, or is `null`, where destructuring
      throws; any other JSON value that is not an object destructures to
      `Fields(Missing, Omitted)`. */
  datatype RequestBody = Unparsable | Fields(message: MessageField, history: HistoryField)

  /** The arguments of `openai.chat.completions.create`. */
  datatype CompletionRequest =
    CompletionRequest(model: string, messages: seq<Turn>, temperature: real, maxTokens: nat)

  /** What the provider call produced: the `content` of each choice (which
      may be `null`), or an exception. */
  datatype ProviderOutcome = Completed(choices: seq<Option<string>>) | ProviderFailed

  datatype ReplyBody =
    | ErrorBody(error: string)
    | AnswerBody(response: string, agent: Agent, agentType: string)

  datatype Response = Response(status: nat, body: ReplyBody)

  /** The handler's state just before the provider call: either it has
      already answered, or it holds the chosen persona and the request. */
  datatype Prepared =
    | Rejected(reply: Response)
    | Ready(agentType: string, agent: Agent, request: CompletionRequest)

  const MessageRequired: string := "메시지가 필요합니다"
  const ServerError: string := "서버 오류가 발생했습니다"
  const NoReply: string := "응답을 생성할 수 없습니다."
  const CompletionModel: string := "gpt-4o-mini"
  const Temperature: real := 0.7
  const MaxTokens: nat := 1500

  /** `!message` is false: the field is falsy exactly when it is absent,
      the empty text, or a falsy value of another type. */
  function Truthy(m: MessageField): (t: bool)
    ensures !t <==> m.Missing? || m == Text("") || m == OtherValue(false)
  {
    match m
    case Missing => false
    case Text(s) => TruthyText(s)
    case OtherValue(truthy) => truthy
  }

  /** `history = []` as a default. */
  function HistoryTurns(h: HistoryField): seq<Turn>
    requires !h.NotAList?
  {
    if h.Entries? then h.turns else []
  }

  /** The outbound message list: the system prompt, the history in its own
      order with role and content unchanged, then the new user turn. */
  function Compose(system: string, history: seq<Turn>, message: string): (messages: seq<Turn>)
    ensures |messages| == |history| + 2
    ensures messages[0] == Turn("system", system)
    ensures forall i :: 0 <= i < |history| ==> messages[i + 1] == history[i]
    ensures messages[|messages| - 1] == Turn("user", message)
  {
    [Turn("system", system)] + history + [Turn("user", message)]
  }

  /** The history can be read back from the composed list. */
  lemma ComposeKeepsHistory(system: string, history: seq<Turn>, message: string)
    ensures var messages := Compose(system, history, message);
      messages[1..|messages| - 1] == history
  {
    var messages := Compose(system, history, message);
    assert forall i :: 0 <= i < |history| ==> messages[1..|messages| - 1][i] == history[i];
  }

  /** `completion.choices[0]?.message?.content || NoReply`: the first choice's
      content when it is a non-empty text, and the fixed fallback otherwise. */
  function ReplyText(choices: seq<Option<string>>): (text: string)
    ensures text != ""
    ensures |choices| > 0 && PresentText(choices[0]) ==> text == choices[0].value
    ensures !(|choices| > 0 && PresentText(choices[0])) ==> text == NoReply
  {
    if |choices| > 0 && PresentText(choices[0]) then choices[0].value
    else NoReply
  }

  /** Everything `POST` does before it calls the provider. A falsy message
      is refused with 400 before anything else; a non-string message makes
      `toLowerCase` throw and a history without `map` makes the composition
      throw, and both end in the 500 of the catch block. */
  function Prepare(body: RequestBody): (p: Prepared)
    ensures p.Rejected? ==> p.reply.body.ErrorBody?
    ensures p.Rejected? && p.reply.status == 400 <==> body.Fields? && !Truthy(body.message)
    ensures p.Rejected? && p.reply.status == 400 ==> p.reply.body.error == MessageRequired
    ensures p.Rejected? && p.reply.status != 400 ==> p.reply == Response(500, ErrorBody(ServerError))
    ensures p.Ready? <==>
              body.Fields? && body.message.Text? && body.message.text != "" && !body.history.NotAList?
    ensures p.Ready? ==>
              && p.agentType == Classify(body.message.text)
              && p.agentType in Agents
              && p.agent == Agents[p.agentType]
              && p.request.model == CompletionModel
              && p.request.temperature == Temperature
              && p.request.maxTokens == MaxTokens
              && var history := HistoryTurns(body.history);
              && |p.request.messages| == |history| + 2
              && p.request.messages[0] == Turn("system", SystemPrompt)
              && p.request.messages[1..|history| + 1] == history
              && p.request.messages[|history| + 1] == Turn("user", body.message.text)
  {
    match body
    case Unparsable => Rejected(Response(500, ErrorBody(ServerError)))
    case Fields(message, history) =>
      if !Truthy(message) then Rejected(Response(400, ErrorBody(MessageRequired)))
      else if !message.Text? || history.NotAList? then Rejected(Response(500, ErrorBody(ServerError)))
      else
        var agentType := Classify(message.text);
        var turns := HistoryTurns(history);
        ComposeKeepsHistory(SystemPrompt, turns, message.text);
        Ready(agentType, Agents[agentType],
              CompletionRequest(CompletionModel, Compose(SystemPrompt, turns, message.text),
                                Temperature, MaxTokens))
  }

  /** `POST /api/chat` for one request body and one provider outcome. */
  function Post(body: RequestBody, provider: ProviderOutcome): (r: Response)
    ensures r.status in {200, 400, 500}
    ensures r.status == 400 <==> body.Fields? && !Truthy(body.message)
    ensures r.status == 400 ==> r.body == ErrorBody(MessageRequired)
    ensures r.status == 500 ==> r.body == ErrorBody(ServerError)
    ensures r.status == 200 <==> Prepare(body).Ready? && provider.Completed?
    ensures r.status == 200 ==>
              && r.body.AnswerBody?
              && r.body.agentType == Classify(body.message.text)
              && r.body.agent == Agents[r.body.agentType]
              && r.body.response == ReplyText(provider.choices)
              && r.body.response != ""
  {
    match Prepare(body)
    case Rejected(reply) => reply
    case Ready(agentType, agent, _) =>
      if provider.Completed? then Response(200, AnswerBody(ReplyText(provider.choices), agent, agentType))
      else Response(500, ErrorBody(ServerError))
  }

  /** A refused request never reaches the provider: its reply is the same
      whatever the provider would have done. */
  lemma RejectionIgnoresProvider(body: RequestBody, a: ProviderOutcome, b: ProviderOutcome)
    requires Prepare(body).Rejected?
    ensures Post(body, a) == Post(body, b) == Prepare(body).reply
  {
  }

  /** A 400 reply means the request was refused before classification:
      the body held a falsy message, and the refusal is the required-message
      error itself. */
  lemma BadRequestBeforeProvider(body: RequestBody, provider: ProviderOutcome)
    requires Post(body, provider).status == 400
    ensures body.Fields? && !Truthy(body.message)
    ensures Prepare(body) == Rejected(Response(400, ErrorBody(MessageRequired)))
  {
  }

  // ---------------------------------------------------------------------
  // Deciding concrete questions. Every keyword of a list holds one of a few
  // mark characters, at the position the parallel list of positions gives;
  // a question holding none of the marks contains none of the keywords.

  const VisaMarks: string := "자류국귀권vo-"
  const VisaPositions: seq<nat> := [1, 0, 1, 1, 1, 1, 0, 1, 5, 1, 1, 1, 1, 9]
  const HousingMarks: string := "사전등초월약동gvrs"
  const HousingPositions: seq<nat> := [1, 0, 0, 0, 2, 0, 0, 1, 1, 6, 2, 0, 3]
  const TaxMarks: string := "금x말득택세가재"
  const TaxPositions: seq<nat> := [1, 2, 1, 1, 1, 1, 1, 0, 1]
  const HealthcareMarks: string := "강보병의cp"
  const HealthcarePositions: seq<nat> := [1, 0, 0, 0, 1, 3, 6, 3, 7]

  /** Every keyword holds a mark at its position. */
  predicate Marked(keywords: seq<string>, marks: string, positions: seq<nat>) {
    |positions| == |keywords| &&
    forall j :: 0 <= j < |keywords| ==> positions[j] < |keywords[j]| && keywords[j][positions[j]] in marks
  }

  /** No character of `q` is a mark. */
  predicate Avoids(q: string, marks: string) {
    forall n :: 0 <= n < |q| ==> q[n] !in marks
  }

  lemma AllMarked()
    ensures Marked(VisaKeywords, VisaMarks, VisaPositions)
    ensures Marked(HousingKeywords, HousingMarks, HousingPositions)
    ensures Marked(TaxKeywords, TaxMarks, TaxPositions)
    ensures Marked(HealthcareKeywords, HealthcareMarks, HealthcarePositions)
  {
  }

  lemma MarkMissing(q: string, keyword: string, marks: string, i: nat)
    requires i < |keyword| && keyword[i] in marks && Avoids(q, marks)
    ensures !Contains(q, keyword)
  {
    ContainsIff(q, keyword);
    forall j | 0 <= j <= |q| - |keyword| ensures !OccursAt(q, keyword, j) {
      assert q[j..j + |keyword|][i] == q[j + i];
    }
  }

  lemma NoneMatch(q: string, keywords: seq<string>, marks: string, positions: seq<nat>)
    requires Marked(keywords, marks, positions) && Avoids(q, marks)
    ensures !MatchesAny(q, keywords)
  {
    forall j | 0 <= j < |keywords| ensures !Contains(q, keywords[j]) {
      MarkMissing(q, keywords[j], marks, positions[j]);
    }
  }

  lemma NotVisa(q: string)
    requires Avoids(q, VisaMarks)
    ensures !MatchesAny(q, VisaKeywords)
  {
    AllMarked();
    NoneMatch(q, VisaKeywords, VisaMarks, VisaPositions);
  }

  lemma NotHousing(q: string)
    requires Avoids(q, HousingMarks)
    ensures !MatchesAny(q, HousingKeywords)
  {
    AllMarked();
    NoneMatch(q, HousingKeywords, HousingMarks, HousingPositions);
  }

  lemma NotTax(q: string)
    requires Avoids(q, TaxMarks)
    ensures !MatchesAny(q, TaxKeywords)
  {
    AllMarked();
    NoneMatch(q, TaxKeywords, TaxMarks, TaxPositions);
  }

  lemma NotHealthcare(q: string)
    requires Avoids(q, HealthcareMarks)
    ensures !MatchesAny(q, HealthcareKeywords)
  {
    AllMarked();
    NoneMatch(q, HealthcareKeywords, HealthcareMarks, HealthcarePositions);
  }

  lemma OneMatches(q: string, keywords: seq<string>, j: nat)
    requires j < |keywords| && Contains(q, keywords[j])
    ensures MatchesAny(q, keywords)
  {
  }

  /** No ASCII capital letter, so lowercasing changes nothing. */
  lemma LowerNoCapitals(s: string)
    requires forall i :: 0 <= i < |s| ==> !('A' <= s[i] <= 'Z')
    ensures Lower(s) == s
  {
  }

  lemma KeywordAt(q: string, k: string, i: nat)
    requires i + |k| <= |q| && forall n :: 0 <= n < |k| ==> q[i + n] == k[n]
    ensures Contains(q, k)
  {
    assert q[i..i + |k|] == k;
    assert OccursAt(q, k, i);
    ContainsIff(q, k);
  }
}
