/** The reading generator (app.py:57-112): the prompts sent to the
    provider, the fixed fallback reading, and the choice between the
    provider's text and the fallback. */
module Reading {
  import opened Wrappers
  import opened Text
  import opened Provider
  import opened Deck

  /** Keywords are listed with Python's `', '.join(keywords)`. */
  const KeywordSeparator: string := ", "

  function JoinedKeywords(keywords: seq<string>): string
  {
    Join(keywords, KeywordSeparator)
  }

  /** The fixed instruction sent as the system message (app.py:59-60). */
  const SystemPrompt: string :=
    "你是一位專業、智慧且充滿洞察力的塔羅占卜師。你擁有深厚的塔羅知識和豐富的人生智慧，能夠為來訪者提供溫暖、實用且具有啟發性的指引。\n"
    + "請用溫暖、專業且易懂的語言進行解讀，避免過於神秘或模糊的表達。重點是提供實用的建議和積極的指引。"

  // The fixed text of the user prompt around its three interpolated values (app.py:62-73).
  const PromptHead: string := "請為以下塔羅占卜提供深入而有意義的解讀：\n【抽到的牌卡】："
  const PromptKeywordsLabel: string := "\n【牌卡關鍵詞】："
  const PromptQuestionLabel: string := "\n【具體問題】："
  const PromptTail: string :=
    "\n\n請提供一個完整且個人化的塔羅解讀，包含以下要素：\n"
    + "1. **牌卡核心含義**：這張牌在當前情況下的主要象徵意義\n"
    + "2. **針對性指引**：針對提問者的具體問題給出的建議和洞察\n"
    + "3. **行動建議**：實際可行的行動方向或需要注意的事項  \n"
    + "4. **正面展望**：鼓勵性的訊息和未來的可能性\n\n"
    + "請用親切、專業的語調，字數控制在 200-300 字之間。重點是幫助提問者獲得清晰的指引和內心的平靜。"

  /** The user message: the card name, the joined keywords and the question,
      each on its labelled line of the fixed template. */
  function UserPrompt(cardName: string, question: string, keywords: seq<string>): string
  {
    PromptHead + cardName + PromptKeywordsLabel + JoinedKeywords(keywords)
    + PromptQuestionLabel + question + PromptTail
  }

  /** Where the question starts inside the user prompt. */
  function PromptQuestionAt(cardName: string, keywords: seq<string>): nat
  {
    |PromptHead| + |cardName| + |PromptKeywordsLabel| + |JoinedKeywords(keywords)| + |PromptQuestionLabel|
  }

  /** The user prompt drops nothing: the card name, the joined keywords and
      the question each appear verbatim after their labels, and the question
      runs exactly up to the fixed tail, so knowing the card and its
      keywords the question can be cut back out of the prompt. */
  lemma {:induction false} UserPromptEmbeds(cardName: string, question: string, keywords: seq<string>)
    ensures var p := UserPrompt(cardName, question, keywords);
            OccursAt(p, |PromptHead|, cardName)
            && OccursAt(p, |PromptHead| + |cardName| + |PromptKeywordsLabel|, JoinedKeywords(keywords))
            && OccursAt(p, PromptQuestionAt(cardName, keywords), question)
            && |p| == PromptQuestionAt(cardName, keywords) + |question| + |PromptTail|
  {
    LayoutOfSeven(PromptHead, cardName, PromptKeywordsLabel, JoinedKeywords(keywords),
                  PromptQuestionLabel, question, PromptTail);
  }

  /** Two prompts for the same card agree only when the questions agree:
      the interpolation of the question is lossless. */
  lemma UserPromptDeterminesQuestion(cardName: string, q1: string, q2: string, keywords: seq<string>)
    requires UserPrompt(cardName, q1, keywords) == UserPrompt(cardName, q2, keywords)
    ensures q1 == q2
  {
    UserPromptEmbeds(cardName, q1, keywords);
    UserPromptEmbeds(cardName, q2, keywords);
  }

  /** For card names on one line, the prompt gives back the card name: the
      name ends at the first line break after the head. */
  lemma UserPromptDeterminesCardName(c1: string, q1: string, k1: seq<string>,
                                     c2: string, q2: string, k2: seq<string>)
    requires '\n' !in c1 && '\n' !in c2
    requires UserPrompt(c1, q1, k1) == UserPrompt(c2, q2, k2)
    ensures c1 == c2
  {
    assert PromptKeywordsLabel[0] == '\n';
    SevenPieceFirstField(PromptHead, c1, PromptKeywordsLabel, JoinedKeywords(k1), PromptQuestionLabel, q1, PromptTail,
                         c2, JoinedKeywords(k2), q2);
  }

  /** The prompt for a draw gives back both the drawn card and the question. */
  lemma UserPromptDeterminesDraw(i1: CardIndex, q1: string, i2: CardIndex, q2: string)
    requires UserPrompt(TarotDeck[i1].name, q1, TarotDeck[i1].keywords)
          == UserPrompt(TarotDeck[i2].name, q2, TarotDeck[i2].keywords)
    ensures TarotDeck[i1] == TarotDeck[i2] && q1 == q2
  {
    NamesAreSingleLine();
    DeckWellFormed();
    UserPromptDeterminesCardName(TarotDeck[i1].name, q1, TarotDeck[i1].keywords,
                                 TarotDeck[i2].name, q2, TarotDeck[i2].keywords);
    assert i1 == i2;
    UserPromptDeterminesQuestion(TarotDeck[i1].name, q1, q2, TarotDeck[i1].keywords);
  }

  /** The request sent for a draw: the system instruction and the user
      prompt for this card and question. */
  function ReadingRequest(apiKey: string, cardName: string, question: string, keywords: seq<string>): (r: Request)
    ensures |r.messages| == 2 && r.messages[0].role == "system" && r.messages[1].role == "user"
    ensures r.messages[0].content == SystemPrompt
    ensures r.messages[1].content == UserPrompt(cardName, question, keywords)
    ensures r.authorization == "Bearer " + apiKey
  {
    BuildRequest(apiKey, SystemPrompt, UserPrompt(cardName, question, keywords))
  }

  /** The API key reaches the request only through the authorization
      header: two requests for the same draw that differ in their key agree
      in everything else. */
  lemma KeyOnlyInHeader(k1: string, k2: string, cardName: string, question: string, keywords: seq<string>)
    ensures ReadingRequest(k1, cardName, question, keywords).(authorization := "")
         == ReadingRequest(k2, cardName, question, keywords).(authorization := "")
  {
  }

  // The fixed text of the fallback reading around its interpolated values (app.py:112).
  const FallbackBringsLabel: string := "為您帶來"
  const FallbackQuestionOpen: string := "的訊息。針對您的問題"
  const FallbackQuestionClose: string := "，這張牌提醒您要相信內在的智慧，勇敢面對當前的挑戰和機會。"
  const FallbackTail: string :=
    "象徵著轉變和成長的時期，建議您保持開放的心態，聆聽內心的聲音。記住，您擁有改變現狀的能力，相信自己的直覺，一切都會朝好的方向發展。"

  /** The question as the fallback reading quotes it, between corner brackets. */
  function Quoted(question: string): string
  {
    "「" + question + "」"
  }

  /** `get_fallback_reading`: one fixed template for every topic area. */
  function FallbackReading(cardName: string, question: string, keywords: seq<string>): string
  {
    cardName + FallbackBringsLabel + JoinedKeywords(keywords) + FallbackQuestionOpen
    + Quoted(question) + FallbackQuestionClose + cardName + FallbackTail
  }

  /** Where the quoted question starts inside the fallback reading. */
  function FallbackQuestionAt(cardName: string, keywords: seq<string>): nat
  {
    |cardName| + |FallbackBringsLabel| + |JoinedKeywords(keywords)| + |FallbackQuestionOpen|
  }

  /** Where the card name appears the second time. */
  function FallbackSecondNameAt(cardName: string, question: string, keywords: seq<string>): nat
  {
    FallbackQuestionAt(cardName, keywords) + |Quoted(question)| + |FallbackQuestionClose|
  }

  /** The fallback reading names the card twice: at the start, and again
      at a later place. */
  lemma FallbackNamesCardTwice(cardName: string, question: string, keywords: seq<string>)
    ensures var r := FallbackReading(cardName, question, keywords);
            OccursAt(r, 0, cardName)
            && 0 < FallbackSecondNameAt(cardName, question, keywords)
            && OccursAt(r, FallbackSecondNameAt(cardName, question, keywords), cardName)
  {
    LayoutOfEight(cardName, FallbackBringsLabel, JoinedKeywords(keywords), FallbackQuestionOpen,
                  Quoted(question), FallbackQuestionClose, cardName, FallbackTail);
  }

  /** The joined keywords follow the opening name and "為您帶來". */
  lemma FallbackListsKeywords(cardName: string, question: string, keywords: seq<string>)
    ensures OccursAt(FallbackReading(cardName, question, keywords),
                     |cardName| + |FallbackBringsLabel|, JoinedKeywords(keywords))
  {
    LayoutOfEight(cardName, FallbackBringsLabel, JoinedKeywords(keywords), FallbackQuestionOpen,
                  Quoted(question), FallbackQuestionClose, cardName, FallbackTail);
  }

  /** The question appears verbatim between 「 and 」, and what follows it
      has a length fixed by the card alone, so the question can be cut back
      out of the reading. */
  lemma FallbackQuotesQuestion(cardName: string, question: string, keywords: seq<string>)
    ensures var r := FallbackReading(cardName, question, keywords);
            OccursAt(r, FallbackQuestionAt(cardName, keywords), Quoted(question))
            && OccursAt(r, FallbackQuestionAt(cardName, keywords) + 1, question)
            && |r| == FallbackSecondNameAt(cardName, question, keywords) + |cardName| + |FallbackTail|
  {
    LayoutOfEightInner(cardName, FallbackBringsLabel, JoinedKeywords(keywords), FallbackQuestionOpen,
                       "「", question, "」", FallbackQuestionClose, cardName, FallbackTail);
  }

  /** Every keyword of the card appears in the fallback reading, in the
      order the card lists them. */
  lemma FallbackListsEveryKeyword(cardName: string, question: string, keywords: seq<string>, i: nat)
    requires i < |keywords|
    ensures OccursAt(FallbackReading(cardName, question, keywords),
                     |cardName| + |FallbackBringsLabel| + JoinOffset(keywords, KeywordSeparator, i),
                     keywords[i])
  {
    FallbackListsKeywords(cardName, question, keywords);
    JoinedPartOccurs(FallbackReading(cardName, question, keywords), |cardName| + |FallbackBringsLabel|,
                     keywords, KeywordSeparator, i);
  }

  /** Two fallback readings for the same card agree only when the
      questions agree. */
  lemma FallbackDeterminesQuestion(cardName: string, q1: string, q2: string, keywords: seq<string>)
    requires FallbackReading(cardName, q1, keywords) == FallbackReading(cardName, q2, keywords)
    ensures q1 == q2
  {
    FallbackQuotesQuestion(cardName, q1, keywords);
    FallbackQuotesQuestion(cardName, q2, keywords);
  }

  /** `get_tarot_reading`: the provider's text, stripped, when the call
      returned status 200 with a readable first choice; the fallback
      reading on every other outcome (missing secret, transport failure,
      other status, undecodable or ill-shaped body). */
  function TarotReading(cardName: string, question: string, keywords: seq<string>, outcome: Outcome): (r: string)
    ensures outcome.Raised? ==> r == FallbackReading(cardName, question, keywords)
    ensures outcome.Replied? && outcome.status != 200 ==> r == FallbackReading(cardName, question, keywords)
    ensures outcome == Replied(200, Undecodable) ==> r == FallbackReading(cardName, question, keywords)
    ensures forall j :: outcome == Replied(200, Decoded(j)) ==>
              r == match FirstChoiceContent(j)
                   case Some(text) => Strip(text)
                   case None => FallbackReading(cardName, question, keywords)
  {
    match ReplyText(outcome)
    case Some(text) => Strip(text)
    case None => FallbackReading(cardName, question, keywords)
  }
}
