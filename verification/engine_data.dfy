/**
 * The value types and built-in tables of the vanilla site's fortune engine:
 * the default tarot, zodiac and omikuji data, the five daily fortune
 * levels, the numerology texts and the lucky-item pools.
 */
module EngineData {
  /** A card of the engine's tarot data (it carries no id: a card is found by its index). */
  datatype TarotCardText = TarotCardText(name: string, uprightMeaning: string, reversedMeaning: string)

  datatype TarotTable = TarotTable(cards: seq<TarotCardText>)

  datatype ZodiacSign = ZodiacSign(id: int, name: string, description: string)

  datatype ZodiacTable = ZodiacTable(signs: seq<ZodiacSign>)

  datatype OmikujiEntry = OmikujiEntry(
    level: string,
    description: string,
    advice: string,
    luckyColor: string,
    luckyNumber: int,
    luckyItem: string)

  datatype OmikujiTable = OmikujiTable(results: seq<OmikujiEntry>)

  datatype FortuneLevel = FortuneLevel(level: string, advice: string, luckyColor: string, luckyNumber: int, luckyItem: string)

  datatype NumerologyEntry = NumerologyEntry(description: string, advice: string, luckyColor: string, luckyItem: string)

  datatype LuckyPool = LuckyPool(colors: seq<string>, numbers: seq<int>, items: seq<string>)

  /** `getDefaultTarotData()`: ten cards. */
  const DefaultTarot: TarotTable :=
    TarotTable([
      TarotCardText("愚者", "新しい始まり、純粋さ、自由", "軽率、無責任、混乱"),
      TarotCardText("魔術師", "意志力、創造性、実現", "悪用、欺瞞、未熟"),
      TarotCardText("女教皇", "直感、神秘、内なる知恵", "秘密、隠蔽、表面的"),
      TarotCardText("女帝", "豊穣、母性、創造", "依存、過保護、停滞"),
      TarotCardText("皇帝", "権威、安定、統制", "独裁、頑固、権力乱用"),
      TarotCardText("教皇", "伝統、教え、精神的指導", "独断、偏見、形式主義"),
      TarotCardText("恋人", "愛、調和、選択", "不調和、誘惑、間違った選択"),
      TarotCardText("戦車", "勝利、意志力、前進", "敗北、暴走、方向性の喪失"),
      TarotCardText("力", "内なる力、勇気、忍耐", "弱さ、自制心の欠如、暴力"),
      TarotCardText("隠者", "内省、探求、導き", "孤立、頑固、拒絶")
    ])

  /** `getDefaultZodiacData()`: the twelve signs, ids 1 to 12. */
  const DefaultZodiac: ZodiacTable :=
    ZodiacTable([
      ZodiacSign(1, "牡羊座", "情熱的で行動力のあるあなた"),
      ZodiacSign(2, "牡牛座", "安定を求める堅実なあなた"),
      ZodiacSign(3, "双子座", "好奇心旺盛で社交的なあなた"),
      ZodiacSign(4, "蟹座", "感情豊かで家族思いのあなた"),
      ZodiacSign(5, "獅子座", "自信に満ちたリーダー気質のあなた"),
      ZodiacSign(6, "乙女座", "完璧主義で分析力のあるあなた"),
      ZodiacSign(7, "天秤座", "バランス感覚に優れた平和主義のあなた"),
      ZodiacSign(8, "蠍座", "深い洞察力を持つ神秘的なあなた"),
      ZodiacSign(9, "射手座", "自由を愛する冒険家のあなた"),
      ZodiacSign(10, "山羊座", "責任感が強く目標達成型のあなた"),
      ZodiacSign(11, "水瓶座", "独創的で未来志向のあなた"),
      ZodiacSign(12, "魚座", "想像力豊かで共感力の高いあなた")
    ])

  /** `getDefaultOmikujiData()`. */
  const DefaultOmikuji: OmikujiTable :=
    OmikujiTable([
      OmikujiEntry("大吉",
        "素晴らしい運気に恵まれています。何事も積極的に取り組みましょう。",
        "今日は特別な日になりそうです。新しいことにチャレンジしてみてください。",
        "金色", 7, "鏡"),
      OmikujiEntry("中吉",
        "安定した運気です。計画的に物事を進めれば良い結果が得られるでしょう。",
        "焦らずに一歩一歩進んでいけば、必ず目標に到達できます。",
        "青色", 5, "本"),
      OmikujiEntry("小吉",
        "小さな幸せが訪れる予感です。周りの人への感謝を忘れずに。",
        "些細なことにも喜びを見つけて、感謝の気持ちを大切にしましょう。",
        "緑色", 3, "花"),
      OmikujiEntry("末吉",
        "慎重に行動すれば良い方向に向かいます。急がず着実に進みましょう。",
        "今は準備の時期です。基礎をしっかりと固めることが大切です。",
        "黄色", 2, "石")
    ])

  /** The five levels of `calculateZodiacFortune`, best first. */
  const FortuneLevels: seq<FortuneLevel> :=
    [
      FortuneLevel("大吉", "今日は絶好調！新しいことにチャレンジしてみましょう。", "金色", 7, "鏡"),
      FortuneLevel("吉", "良い一日になりそうです。積極的に行動しましょう。", "青色", 3, "本"),
      FortuneLevel("中吉", "安定した一日です。計画的に物事を進めましょう。", "緑色", 5, "植物"),
      FortuneLevel("小吉", "小さな幸せを見つけられる日です。周りに感謝しましょう。", "黄色", 2, "手紙"),
      FortuneLevel("末吉", "慎重に行動すれば良い結果が得られるでしょう。", "紫色", 8, "石")
    ]

  /** `getNumerologyData()`. */
  const NumerologyData: map<int, NumerologyEntry> :=
    map[
      1 := NumerologyEntry(
        "リーダーシップに優れ、独立心が強いあなた。新しい道を切り開く力があります。",
        "自分の直感を信じて、積極的に行動しましょう。",
        "赤", "赤いペン"),
      2 := NumerologyEntry(
        "協調性があり、人との調和を大切にするあなた。チームワークが得意です。",
        "周りの人との関係を大切にして、協力し合いましょう。",
        "青", "ペアのアクセサリー"),
      3 := NumerologyEntry(
        "創造性豊かで表現力があるあなた。芸術的な才能に恵まれています。",
        "自分の創造性を活かして、新しい表現方法を試してみましょう。",
        "黄", "筆記用具"),
      4 := NumerologyEntry(
        "堅実で責任感が強いあなた。コツコツと努力を積み重ねることができます。",
        "基礎をしっかりと固めて、着実に目標に向かいましょう。",
        "緑", "手帳"),
      5 := NumerologyEntry(
        "自由を愛し、変化を求めるあなた。新しい経験を積極的に求めます。",
        "変化を恐れずに、新しい挑戦を楽しみましょう。",
        "紫", "旅行用品"),
      6 := NumerologyEntry(
        "愛情深く、家族や友人を大切にするあなた。人の世話をするのが得意です。",
        "愛する人たちとの時間を大切にして、絆を深めましょう。",
        "ピンク", "写真"),
      7 := NumerologyEntry(
        "探求心が強く、精神的な成長を求めるあなた。深く考える力があります。",
        "内面と向き合い、自分自身を深く理解しましょう。",
        "紫", "本"),
      8 := NumerologyEntry(
        "野心的で成功を求めるあなた。物質的な豊かさを築く力があります。",
        "目標を明確にして、計画的に成功に向かいましょう。",
        "金", "時計"),
      9 := NumerologyEntry(
        "人道的で理想主義のあなた。世界をより良くしたいという願いがあります。",
        "自分の理想を大切にして、社会貢献を考えてみましょう。",
        "白", "ボランティア活動"),
      11 := NumerologyEntry(
        "直感力が鋭く、スピリチュアルな能力があるあなた。人を導く力があります。",
        "直感を信じて、精神的な成長を大切にしましょう。",
        "銀", "クリスタル"),
      22 := NumerologyEntry(
        "大きな夢を実現する力があるあなた。世界に影響を与える可能性があります。",
        "大きな目標を持って、着実に実現に向けて進みましょう。",
        "金", "設計図"),
      33 := NumerologyEntry(
        "愛と奉仕の精神を持つあなた。多くの人を癒し、導く使命があります。",
        "愛の力で人々を癒し、世界に平和をもたらしましょう。",
        "虹色", "ヒーリンググッズ")
    ]

  /** The pools of `generateLuckyItems`, by fortune type. */
  const LuckyPools: map<string, LuckyPool> :=
    map[
      "tarot" := LuckyPool(
        ["紫", "金", "銀", "深青", "白"],
        [1, 3, 7, 9, 11],
        ["クリスタル", "ペンダント", "香り", "花", "本"]),
      "zodiac" := LuckyPool(
        ["赤", "青", "緑", "黄", "紫"],
        [2, 4, 6, 8, 10],
        ["星のアクセサリー", "香水", "手帳", "写真", "音楽"]),
      "omikuji" := LuckyPool(
        ["白", "赤", "金", "緑", "青"],
        [1, 5, 7, 8, 9],
        ["お守り", "鈴", "扇子", "竹", "石"]),
      "numerology" := LuckyPool(
        ["金", "銀", "紫", "青", "緑"],
        [1, 2, 3, 4, 5, 6, 7, 8, 9],
        ["数字のアクセサリー", "時計", "計算機", "本", "ペン"])
    ]
}
