/** The deck registry: the 22 major-arcana records of `TAROT_DECK`
    (app.py:17-40), and the draw made from it. */
module Deck {

  /** One card record: its display name, the image file name handed to the
      image loader, and its keywords in the order they are listed. */
  datatype Card = Card(name: string, image: string, keywords: seq<string>)

  const TarotDeck: seq<Card> := [
    Card("愚者", "fool.jpg", ["新開始", "冒險", "信任直覺"]),
    Card("魔術師", "magician.jpg", ["顯化", "創造力", "技能"]),
    Card("女祭司", "high-priestess.jpg", ["直覺", "內在智慧", "神秘"]),
    Card("皇后", "empress.jpg", ["創造力", "豐盛", "母性"]),
    Card("皇帝", "emperor.jpg", ["權威", "結構", "控制"]),
    Card("教皇", "hierophant.jpg", ["傳統", "精神指導", "學習"]),
    Card("戀人", "lovers.jpg", ["愛情", "選擇", "和諧"]),
    Card("戰車", "chariot.jpg", ["意志力", "勝利", "方向"]),
    Card("力量", "strength.jpg", ["內在力量", "勇氣", "耐心"]),
    Card("隱者", "hermit.jpg", ["內省", "尋求真理", "智慧"]),
    Card("命運之輪", "wheel-of-fortune.jpg", ["變化", "循環", "命運"]),
    Card("正義", "justice.jpg", ["平衡", "公正", "真相"]),
    Card("倒吊人", "hanged-man.jpg", ["犧牲", "新視角", "放手"]),
    Card("死神", "death.jpg", ["轉變", "結束", "重生"]),
    Card("節制", "temperance.jpg", ["平衡", "調和", "耐心"]),
    Card("惡魔", "devil.jpg", ["束縛", "誘惑", "物質主義"]),
    Card("高塔", "tower.jpg", ["突然變化", "啟示", "解放"]),
    Card("星星", "star.jpg", ["希望", "靈感", "療癒"]),
    Card("月亮", "moon.jpg", ["幻覺", "潛意識", "直覺"]),
    Card("太陽", "sun.jpg", ["成功", "快樂", "活力"]),
    Card("審判", "judgement.jpg", ["重生", "原諒", "新階段"]),
    Card("世界", "world.jpg", ["完成", "成就", "旅程結束"])
  ]

  /** A position in the deck: what `random.choice(TAROT_DECK)` picks. */
  type CardIndex = i: nat | i < |TarotDeck|

  /** The registry's shape: 22 records, no two with the same name, and
      three keywords on every card. */
  lemma DeckWellFormed()
    ensures |TarotDeck| == 22
    ensures forall i, j :: 0 <= i < j < |TarotDeck| ==> TarotDeck[i].name != TarotDeck[j].name
    ensures forall i :: 0 <= i < |TarotDeck| ==> |TarotDeck[i].keywords| == 3
  {
  }

  /** No card name spans more than one line. */
  lemma NamesAreSingleLine()
    ensures forall i :: 0 <= i < |TarotDeck| ==> '\n' !in TarotDeck[i].name
  {
  }

  /** The card `random.choice` returns for the picked position: always a
      record of the deck. */
  function Draw(i: CardIndex): (c: Card)
    ensures c in TarotDeck
  {
    TarotDeck[i]
  }
}
