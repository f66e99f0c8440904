/**
 * The framework site's tarot tables: the 22 major arcana with their upright
 * and reversed meanings, and the two spreads with their position labels.
 */
module TarotData {
  datatype Card = Card(id: int, name: string, uprightMeaning: string, reversedMeaning: string, symbol: string)

  /** `tarotCards`. */
  const Cards: seq<Card> :=
    [
      Card(0, "愚者",
        "新しい始まり、純粋さ、自由な精神、冒険心、可能性への信頼。今こそ新たな一歩を踏み出す時です。",
        "軽率な行動、無責任、混乱、準備不足。慎重さが必要な時期です。",
        "🃏"),
      Card(1, "魔術師",
        "意志力、創造性、実現力、集中力、技術。あなたの能力を最大限に活用できる時です。",
        "悪用、欺瞞、未熟さ、力の乱用。能力を正しく使うことが大切です。",
        "🎩"),
      Card(2, "女教皇",
        "直感、神秘的な知恵、内なる声、潜在意識。静寂の中で答えを見つけることができます。",
        "秘密、隠蔽、表面的な理解、直感の無視。内面と向き合う必要があります。",
        "👸"),
      Card(3, "女帝",
        "豊穣、母性、創造力、自然との調和、愛情。豊かさと成長の時期です。",
        "依存、過保護、停滞、創造力の枯渇。自立心を育てることが重要です。",
        "👑"),
      Card(4, "皇帝",
        "権威、安定、統制力、責任感、リーダーシップ。強固な基盤を築く時です。",
        "独裁、頑固さ、権力の乱用、支配欲。柔軟性を持つことが大切です。",
        "👨‍💼"),
      Card(5, "教皇",
        "伝統、教え、精神的指導、道徳、宗教的な洞察。伝統的な知恵に学ぶ時です。",
        "独断、偏見、形式主義、既成概念への固執。新しい視点が必要です。",
        "🧙‍♂️"),
      Card(6, "恋人",
        "愛、調和、選択、パートナーシップ、価値観の一致。重要な選択の時です。",
        "不調和、誘惑、間違った選択、関係の問題。慎重な判断が必要です。",
        "💕"),
      Card(7, "戦車",
        "勝利、意志力、前進、自制心、決意。困難を乗り越える力があります。",
        "敗北、暴走、方向性の喪失、自制心の欠如。冷静さを取り戻しましょう。",
        "🏛️"),
      Card(8, "力",
        "内なる力、勇気、忍耐、優しさ、精神的な強さ。困難に立ち向かう勇気があります。",
        "弱さ、自制心の欠如、暴力、恐れ。内なる力を信じることが大切です。",
        "💪"),
      Card(9, "隠者",
        "内省、探求、導き、孤独、精神的な成長。一人の時間が必要な時期です。",
        "孤立、頑固さ、拒絶、内向的すぎる。他者との交流も大切です。",
        "🕯️"),
      Card(10, "運命の輪",
        "運命、変化、サイクル、好転、チャンス。人生の転換点が訪れています。",
        "悪循環、停滞、運命への抵抗、チャンスの逃失。流れに身を任せることも必要です。",
        "☸️"),
      Card(11, "正義",
        "公正、バランス、真実、法的な問題の解決、道徳的な判断。正しい道を歩んでいます。",
        "不公正、偏見、不正、バランスの欠如。公平性を心がけましょう。",
        "⚖️"),
      Card(12, "吊られた男",
        "犠牲、忍耐、新しい視点、精神的な成長、待機。今は待つ時期です。",
        "無駄な犠牲、停滞、視野の狭さ、焦り。新しい視点を持つことが重要です。",
        "🙃"),
      Card(13, "死神",
        "変化、終了、再生、変革、新しい始まり。古いものを手放す時です。",
        "変化への抵抗、停滞、恐れ、執着。変化を受け入れることが大切です。",
        "💀"),
      Card(14, "節制",
        "調和、バランス、節度、癒し、統合。中庸の道を歩むことが重要です。",
        "不調和、過度、不節制、バランスの欠如。節度を保つことが必要です。",
        "🏺"),
      Card(15, "悪魔",
        "束縛、誘惑、物質主義、依存、制限。自分を縛るものから解放される必要があります。",
        "解放、自由、束縛からの脱却、覚醒。真の自由を手に入れる時です。",
        "😈"),
      Card(16, "塔",
        "破壊、突然の変化、啓示、古い構造の崩壊。根本的な変化が必要です。",
        "内的な変化、避けられた災害、抵抗、恐れ。変化を恐れずに受け入れましょう。",
        "🗼"),
      Card(17, "星",
        "希望、インスピレーション、癒し、導き、精神的な平和。希望の光が見えています。",
        "絶望、失望、希望の喪失、方向性の迷い。希望を取り戻すことが大切です。",
        "⭐"),
      Card(18, "月",
        "幻想、不安、潜在意識、直感、神秘。直感を信じることが重要です。",
        "混乱、欺瞞、恐れ、幻想からの解放。真実を見極める必要があります。",
        "🌙"),
      Card(19, "太陽",
        "成功、喜び、活力、達成、楽観主義。素晴らしい成果が期待できます。",
        "一時的な挫折、過度の楽観、エゴ、傲慢。謙虚さを忘れずに。",
        "☀️"),
      Card(20, "審判",
        "復活、再生、覚醒、赦し、新しい人生。人生の新しい章が始まります。",
        "自己批判、後悔、過去への執着、判断力の欠如。過去を手放しましょう。",
        "📯"),
      Card(21, "世界",
        "完成、達成、統合、成功、満足。目標が達成される時です。",
        "未完成、停滞、目標の未達成、満足感の欠如。最後まで諦めずに進みましょう。",
        "🌍")
    ]

  datatype SpreadKind = OneCard | ThreeCard

  datatype Spread = Spread(name: string, description: string, positions: seq<string>)

  /** `tarotSpreads[kind]`. */
  function SpreadOf(kind: SpreadKind): (s: Spread)
    ensures |s.positions| == if kind == OneCard then 1 else 3
  {
    match kind
    case OneCard => Spread("1枚引き", "今日の運勢や現在の状況を占います", ["現在の状況"])
    case ThreeCard => Spread("3枚引き", "過去・現在・未来を詳しく占います", ["過去", "現在", "未来"])
  }

  /** The deck has the 22 major arcana, and each card's id is its place in the table. */
  lemma CardsAreIndexed()
    ensures |Cards| == 22
    ensures forall i :: 0 <= i < |Cards| ==> Cards[i].id == i
  {
  }

  /** Every card has both an upright and a reversed meaning. */
  lemma CardsHaveMeanings()
    ensures forall i :: 0 <= i < |Cards| ==> Cards[i].uprightMeaning != "" && Cards[i].reversedMeaning != ""
  {
  }

  /** No two cards share a name. */
  lemma CardNamesAreDistinct()
    ensures forall i, j :: 0 <= i < j < |Cards| ==> Cards[i].name != Cards[j].name
  {
  }

  /** The one-card spread reads one position; the three-card spread reads past, present and future in that order. */
  lemma SpreadPositions()
    ensures SpreadOf(OneCard).positions == ["現在の状況"]
    ensures SpreadOf(ThreeCard).positions == ["過去", "現在", "未来"]
  {
  }
}
