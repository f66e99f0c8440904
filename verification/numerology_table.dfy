/**
 * The numerology profile table of the framework site: one profile per
 * life-path number.
 */
module NumerologyTable {
  import opened LifePath

  datatype Personality = Personality(strengths: seq<string>, challenges: seq<string>, lifeGoal: string)

  datatype Profile = Profile(
    description: string,
    advice: string,
    personality: Personality,
    luckyColor: string,
    luckyItem: string)

  /** `numerologyData`. */
  const Profiles: map<int, Profile> :=
    map[
      1 := Profile(
        "リーダーシップに優れ、独立心が強いあなた。新しい道を切り開く力があります。",
        "自分の直感を信じて、積極的に行動しましょう。",
        Personality(["リーダーシップ", "独立心", "創造性", "決断力", "開拓精神"],
          ["自己中心的になりがち", "他人の意見を聞かない", "短気", "孤独感"],
          "新しい分野を開拓し、多くの人を導くリーダーになること"),
        "赤", "赤いペン"),
      2 := Profile(
        "協調性があり、人との調和を大切にするあなた。チームワークが得意です。",
        "周りの人との関係を大切にして、協力し合いましょう。",
        Personality(["協調性", "思いやり", "外交的", "平和主義", "サポート力"],
          ["優柔不断", "依存的", "自信不足", "対立を避けすぎる"],
          "人と人をつなぎ、調和のとれた関係を築くこと"),
        "青", "ペアのアクセサリー"),
      3 := Profile(
        "創造性豊かで表現力があるあなた。芸術的な才能に恵まれています。",
        "自分の創造性を活かして、新しい表現方法を試してみましょう。",
        Personality(["創造性", "表現力", "楽観的", "社交性", "インスピレーション"],
          ["散漫", "表面的", "飽きっぽい", "現実逃避"],
          "芸術や創造的な分野で多くの人に感動を与えること"),
        "黄", "筆記用具"),
      4 := Profile(
        "堅実で責任感が強いあなた。コツコツと努力を積み重ねることができます。",
        "基礎をしっかりと固めて、着実に目標に向かいましょう。",
        Personality(["責任感", "堅実性", "組織力", "忍耐力", "信頼性"],
          ["頑固", "変化を嫌う", "完璧主義", "融通が利かない"],
          "安定した基盤を築き、長期的な成功を収めること"),
        "緑", "手帳"),
      5 := Profile(
        "自由を愛し、変化を求めるあなた。新しい経験を積極的に求めます。",
        "変化を恐れずに、新しい挑戦を楽しみましょう。",
        Personality(["自由精神", "適応力", "好奇心", "冒険心", "多才"],
          ["落ち着きがない", "責任回避", "一貫性がない", "衝動的"],
          "多様な経験を通じて自由な人生を謳歌すること"),
        "紫", "旅行用品"),
      6 := Profile(
        "愛情深く、家族や友人を大切にするあなた。人の世話をするのが得意です。",
        "愛する人たちとの時間を大切にして、絆を深めましょう。",
        Personality(["愛情深さ", "責任感", "保護本能", "癒しの力", "家族愛"],
          ["過保護", "心配性", "自己犠牲", "束縛的"],
          "愛する人たちを守り、温かい家庭を築くこと"),
        "ピンク", "写真"),
      7 := Profile(
        "探求心が強く、精神的な成長を求めるあなた。深く考える力があります。",
        "内面と向き合い、自分自身を深く理解しましょう。",
        Personality(["探求心", "直感力", "分析力", "精神性", "独立性"],
          ["孤独感", "完璧主義", "批判的", "現実逃避"],
          "真理を探求し、精神的な悟りを得ること"),
        "紫", "本"),
      8 := Profile(
        "野心的で成功を求めるあなた。物質的な豊かさを築く力があります。",
        "目標を明確にして、計画的に成功に向かいましょう。",
        Personality(["野心", "組織力", "実行力", "ビジネス感覚", "権威"],
          ["物質主義", "権力欲", "冷淡", "ワーカホリック"],
          "物質的な成功を収め、社会的地位を確立すること"),
        "金", "時計"),
      9 := Profile(
        "人道的で理想主義のあなた。世界をより良くしたいという願いがあります。",
        "自分の理想を大切にして、社会貢献を考えてみましょう。",
        Personality(["人道主義", "理想主義", "寛大さ", "芸術性", "普遍的愛"],
          ["非現実的", "感情的", "自己犠牲", "完璧主義"],
          "人類の幸福に貢献し、世界をより良い場所にすること"),
        "白", "ボランティア活動"),
      11 := Profile(
        "直感力が鋭く、スピリチュアルな能力があるあなた。人を導く力があります。",
        "直感を信じて、精神的な成長を大切にしましょう。",
        Personality(["直感力", "スピリチュアル", "インスピレーション", "感受性", "理想主義"],
          ["神経質", "不安定", "現実逃避", "完璧主義"],
          "スピリチュアルな導き手として多くの人を啓発すること"),
        "銀", "クリスタル"),
      22 := Profile(
        "大きな夢を実現する力があるあなた。世界に影響を与える可能性があります。",
        "大きな目標を持って、着実に実現に向けて進みましょう。",
        Personality(["実現力", "ビジョン", "組織力", "リーダーシップ", "影響力"],
          ["プレッシャー", "完璧主義", "責任の重さ", "孤独感"],
          "大きなビジョンを実現し、世界に永続的な影響を与えること"),
        "金", "設計図"),
      33 := Profile(
        "愛と奉仕の精神を持つあなた。多くの人を癒し、導く使命があります。",
        "愛の力で人々を癒し、世界に平和をもたらしましょう。",
        Personality(["無条件の愛", "癒しの力", "奉仕精神", "慈悲", "精神的指導"],
          ["自己犠牲", "感情的負担", "現実逃避", "完璧主義"],
          "愛と癒しを通じて人類の精神的進化に貢献すること"),
        "虹色", "ヒーリンググッズ")

    ]

  /** The table has an entry for exactly the life-path numbers, so every reduction result can be looked up. */
  lemma ProfilesCoverLifePaths()
    ensures forall n :: n in Profiles <==> IsLifePathNumber(n)
  {
    assert Profiles.Keys == {1, 2, 3, 4, 5, 6, 7, 8, 9, 11, 22, 33};
  }

  /** The life-path number of any date whose parts add up to a positive number has a profile. */
  lemma LifePathHasProfile(year: int, month: int, day: int)
    requires year + month + day >= 1
    ensures Reduce(year + month + day) in Profiles
  {
    ProfilesCoverLifePaths();
  }
}
