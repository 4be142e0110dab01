/**
 * The age-stage analyzer: the completed age from a birth date and today's
 * date, the life stage whose closed range holds it, the stage's advice, the
 * neighbouring stages in declared order, and the prompt section built from
 * them. Dates are integer (year, month, day) triples; the clock that gives
 * "today" is a parameter.
 */
module AgeStage {
  import opened Wrappers
  import opened Text

  /** The keys of `this.stages`, in declaration (and so enumeration) order. */
  datatype StageKey = Youth | Young | Prime | Middle | Elder

  datatype Stage = Stage(name: string, min: int, max: int, focus: string)

  const Keys: seq<StageKey> := [Youth, Young, Prime, Middle, Elder]

  /** The youngest age of a stage. */
  function MinAge(k: StageKey): int {
    match k
    case Youth => 0
    case Young => 18
    case Prime => 30
    case Middle => 45
    case Elder => 60
  }

  /** The oldest age of a stage (inclusive). */
  function MaxAge(k: StageKey): int {
    match k
    case Youth => 17
    case Young => 29
    case Prime => 44
    case Middle => 59
    case Elder => 150
  }

  /** `this.stages[key]`. */
  function StageOf(k: StageKey): (s: Stage)
    ensures s.min == MinAge(k) <= s.max == MaxAge(k) && s.name != "" && s.focus != ""
  {
    match k
    case Youth => Stage("青少年期", MinAge(k), MaxAge(k), "学业成长")
    case Young => Stage("青年期", MinAge(k), MaxAge(k), "就业创业")
    case Prime => Stage("壮年期", MinAge(k), MaxAge(k), "事业发展")
    case Middle => Stage("中年期", MinAge(k), MaxAge(k), "稳定传承")
    case Elder => Stage("老年期", MinAge(k), MaxAge(k), "养生智慧")
  }

  /** Where `k` sits in `Keys`. */
  function Position(k: StageKey): (i: nat)
    ensures i < |Keys| && Keys[i] == k
  {
    match k
    case Youth => 0
    case Young => 1
    case Prime => 2
    case Middle => 3
    case Elder => 4
  }

  /** `stageKeys.indexOf(key)` finds the key at its position. */
  lemma KeyIndex(k: StageKey)
    ensures IndexOf(Keys, k) == Position(k)
  {
    IndexOfDistinct(Keys, Position(k));
  }

  predicate InStage(k: StageKey, age: int) {
    MinAge(k) <= age <= MaxAge(k)
  }

  /** Every key is listed once. */
  lemma KeysListed(k: StageKey)
    ensures k in Keys && Distinct(Keys)
  {
  }

  /** The stages tile 0..150: they start at 0, each begins one year after the previous one ends, the last ends at 150. */
  lemma StagesContiguous()
    ensures MinAge(Keys[0]) == 0 && MaxAge(Keys[|Keys| - 1]) == 150
    ensures forall i :: 0 <= i < |Keys| - 1 ==> MinAge(Keys[i + 1]) == MaxAge(Keys[i]) + 1
  {
  }

  /** A year-month-day date; months may be numbered from 0 or 1 as long as both dates agree. */
  datatype CivilDate = CivilDate(year: int, month: int, day: int)

  /** `a` comes strictly before `b` in calendar order. */
  predicate Before(a: CivilDate, b: CivilDate) {
    a.year < b.year || (a.year == b.year && (a.month < b.month || (a.month == b.month && a.day < b.day)))
  }

  /** The date `n` years after `d`, on the same month and day. */
  function Anniversary(d: CivilDate, n: int): CivilDate {
    CivilDate(d.year + n, d.month, d.day)
  }

  /** The age computation of `calculateAgeStage`: the year difference, one less before this year's birthday. */
  function Age(birth: CivilDate, today: CivilDate): int {
    var age := today.year - birth.year;
    if today.month - birth.month < 0 || (today.month - birth.month == 0 && today.day < birth.day) then age - 1 else age
  }

  /** The age is the number of completed years: the age-th birthday has come and the next has not. */
  lemma AgeIsCompletedYears(birth: CivilDate, today: CivilDate)
    ensures !Before(today, Anniversary(birth, Age(birth, today)))
    ensures Before(today, Anniversary(birth, Age(birth, today) + 1))
  {
  }

  /** The first key of `keys` whose range holds `age` (the `for … break` search). */
  function FirstStage(keys: seq<StageKey>, age: int): (r: Option<StageKey>)
    ensures r.Some? ==> r.value in keys && InStage(r.value, age)
  {
    if keys == [] then None
    else if InStage(keys[0], age) then Some(keys[0])
    else FirstStage(keys[1..], age)
  }

  /** A stage is found exactly for ages 0..150, and it is the one stage whose range holds the age. */
  lemma StageFound(age: int, k: StageKey)
    ensures FirstStage(Keys, age).Some? <==> 0 <= age <= 150
    ensures FirstStage(Keys, age) == Some(k) <==> InStage(k, age)
  {
    var k1, k2, k3, k4 := [Young, Prime, Middle, Elder], [Prime, Middle, Elder], [Middle, Elder], [Elder];
    assert Keys[1..] == k1 && k1[1..] == k2 && k2[1..] == k3 && k3[1..] == k4 && k4[1..] == [];
    assert FirstStage(Keys, age) == if InStage(Youth, age) then Some(Youth) else FirstStage(k1, age);
    assert FirstStage(k1, age) == if InStage(Young, age) then Some(Young) else FirstStage(k2, age);
    assert FirstStage(k2, age) == if InStage(Prime, age) then Some(Prime) else FirstStage(k3, age);
    assert FirstStage(k3, age) == if InStage(Middle, age) then Some(Middle) else FirstStage(k4, age);
    assert FirstStage(k4, age) == if InStage(Elder, age) then Some(Elder) else None;
  }

  /** `currentStage`: the stage fields spread out, plus the key and the age. */
  datatype CurrentStage = CurrentStage(key: StageKey, stage: Stage, age: int)

  /** The five advice texts; `NoAdvice` is the empty object `{}`. */
  datatype Advice =
    | NoAdvice
    | Advice(career: string, relationship: string, health: string, wealth: string, life: string)

  /** A stage together with its key, as `getNextStage` and `getPreviousStage` return it. */
  datatype StageRef = StageRef(key: StageKey, stage: Stage)

  datatype AgeInfo = AgeInfo(
    age: int,
    stage: Option<CurrentStage>,
    advice: Advice,
    nextStage: Option<StageRef>,
    previousStage: Option<StageRef>)

  /** `adviceMap[key]`: every key has an entry. */
  function AdviceFor(k: StageKey): (a: Advice)
    ensures a.Advice?
  {
    match k
    case Youth => Advice(
      "宜专注学业，培养兴趣，为未来发展打下基础",
      "以学业为重，友情为辅，避免过早陷入情感纠葛",
      "注意作息规律，加强体育锻炼，培养良好生活习惯",
      "以学习积累为主，不宜过早追求物质财富",
      "多读书多思考，建立正确价值观，培养独立人格")
    case Young => Advice(
      "就业创业关键期，宜把握机遇，勇于尝试，积累经验",
      "感情起步期，宜真诚待人，寻找志同道合伴侣",
      "保持活力，注意劳逸结合，避免过度消耗",
      "开始理财规划，量入为出，为未来做准备",
      "拓展视野，建立人脉，确定人生方向")
    case Prime => Advice(
      "事业发展黄金期，宜专注精进，寻求突破",
      "家庭建设期，平衡事业与家庭，承担责任",
      "注意亚健康，定期体检，保持身心平衡",
      "财富积累期，稳健投资，为家庭提供保障",
      "稳中求进，兼顾多重角色，寻求人生意义")
    case Middle => Advice(
      "事业成熟期，宜传帮带，培养后继，规划传承",
      "子女成长期，言传身教，家庭和谐最重要",
      "健康关键期，注重养生，预防慢性疾病",
      "财富保值期，稳健理财，为养老做准备",
      "回望总结，智慧沉淀，寻求精神富足")
    case Elder => Advice(
      "含饴弄孙期，适度参与，传承智慧",
      "天伦之乐期，享受亲情，淡泊名利",
      "养生保健期，顺应自然，身心和谐",
      "安享晚年期，知足常乐，简单生活",
      "智慧沉淀期，传承经验，精神升华")
  }

  /** `generateStageAdvice`: `{}` without a stage, else the entry of the stage's key. */
  function StageAdvice(stage: Option<CurrentStage>): (a: Advice)
    ensures a.NoAdvice? <==> stage.None?
    ensures stage.Some? ==> a == AdviceFor(stage.value.key)
  {
    match stage
    case None => NoAdvice
    case Some(s) => AdviceFor(s.key)
  }

  /** `getNextStage`: only the key of the current stage is read. */
  function NextStage(current: Option<StageKey>): (r: Option<StageRef>)
    ensures current.None? ==> r.None?
    ensures current.Some? ==> (r.None? <==> current.value == Elder)
    ensures r.Some? ==> r.value.stage == StageOf(r.value.key)
  {
    match current
    case None => None
    case Some(k) =>
      KeyIndex(k);
      var i := IndexOf(Keys, k);
      if i < |Keys| - 1 then Some(StageRef(Keys[i + 1], StageOf(Keys[i + 1]))) else None
  }

  /** `getPreviousStage`. */
  function PreviousStage(current: Option<StageKey>): (r: Option<StageRef>)
    ensures current.None? ==> r.None?
    ensures current.Some? ==> (r.None? <==> current.value == Youth)
    ensures r.Some? ==> r.value.stage == StageOf(r.value.key)
  {
    match current
    case None => None
    case Some(k) =>
      KeyIndex(k);
      var i := IndexOf(Keys, k);
      if i > 0 then Some(StageRef(Keys[i - 1], StageOf(Keys[i - 1]))) else None
  }

  /** The next stage begins the year after the current one ends, and stepping back from it returns to the current stage. */
  lemma NextThenPrevious(k: StageKey)
    requires k != Elder
    ensures NextStage(Some(k)).Some?
    ensures MinAge(NextStage(Some(k)).value.key) == MaxAge(k) + 1
    ensures PreviousStage(Some(NextStage(Some(k)).value.key)) == Some(StageRef(k, StageOf(k)))
  {
  }

  /** Stepping back and then forward returns to the current stage. */
  lemma PreviousThenNext(k: StageKey)
    requires k != Youth
    ensures PreviousStage(Some(k)).Some?
    ensures MaxAge(PreviousStage(Some(k)).value.key) + 1 == MinAge(k)
    ensures NextStage(Some(PreviousStage(Some(k)).value.key)) == Some(StageRef(k, StageOf(k)))
  {
  }

  function KeyOf(stage: Option<CurrentStage>): Option<StageKey> {
    match stage
    case None => None
    case Some(s) => Some(s.key)
  }

  /** The search from position `i` stops there or goes on at `i + 1`. */
  lemma FirstStageAt(keys: seq<StageKey>, i: nat, age: int)
    requires i < |keys|
    ensures FirstStage(keys[i..], age)
      == if InStage(keys[i], age) then Some(keys[i]) else FirstStage(keys[i + 1..], age)
  {
    assert keys[i..][1..] == keys[i + 1..];
  }

  /** The `for … break` search of `calculateAgeStage` over the stages in order. */
  method FindStage(age: int) returns (current: Option<CurrentStage>)
    ensures KeyOf(current) == FirstStage(Keys, age)
    ensures current.Some? ==> current.value.age == age && current.value.stage == StageOf(current.value.key)
  {
    current := None;
    var i := 0;
    while i < |Keys|
      invariant 0 <= i <= |Keys|
      invariant current == None
      invariant FirstStage(Keys[i..], age) == FirstStage(Keys, age)
    {
      var k := Keys[i];
      FirstStageAt(Keys, i, age);
      if InStage(k, age) {
        current := Some(CurrentStage(k, StageOf(k), age));
        break;
      }
      i := i + 1;
    }
  }

  /** `calculateAgeStage`, with today's date as a parameter. */
  method CalculateAgeStage(birth: CivilDate, today: CivilDate) returns (info: AgeInfo)
    ensures info.age == Age(birth, today)
    ensures info.stage.Some? <==> 0 <= info.age <= 150
    ensures info.stage.Some? ==>
      info.stage.value.age == info.age && InStage(info.stage.value.key, info.age)
      && info.stage.value.stage == StageOf(info.stage.value.key)
    ensures info.advice == StageAdvice(info.stage)
    ensures info.nextStage == NextStage(KeyOf(info.stage))
    ensures info.previousStage == PreviousStage(KeyOf(info.stage))
  {
    var age := today.year - birth.year;
    var monthDiff := today.month - birth.month;
    if monthDiff < 0 || (monthDiff == 0 && today.day < birth.day) {
      age := age - 1;
    }
    var current := FindStage(age);
    StageFound(age, Youth);
    info := AgeInfo(age, current, StageAdvice(current), NextStage(KeyOf(current)), PreviousStage(KeyOf(current)));
  }

  const PromptHeading := "## 年龄阶段分析"

  /** The five advice texts as template interpolation renders them (`undefined` for a missing field). */
  function AdviceTexts(a: Advice): (r: seq<string>)
    ensures |r| == 5
  {
    if a.Advice? then [a.career, a.relationship, a.health, a.wealth, a.life]
    else ["undefined", "undefined", "undefined", "undefined", "undefined"]
  }

  /** `generateAgePrompt`: empty without a stage, else the prompt section. */
  function AgePrompt(info: AgeInfo): (p: string)
  {
    match info.stage
    case None => ""
    case Some(s) =>
      PromptHeading + PromptBody(IntToString(info.age), s.stage.name, s.stage.focus, AdviceTexts(info.advice))
  }

  /** The part of the prompt after its heading. */
  function PromptBody(age: string, name: string, focus: string, t: seq<string>): string
    requires |t| == 5
  {
      "\n\n### 当前年龄阶段：" + age + "岁，" + name
      + "\n- **人生重点**：" + focus
      + "\n- **阶段特征**：这是人生中的" + focus + "阶段"
      + "\n\n### 年龄段针对性建议："
      + "\n- **事业方面**：" + t[0]
      + "\n- **感情方面**：" + t[1]
      + "\n- **健康方面**：" + t[2]
      + "\n- **财富方面**：" + t[3]
      + "\n- **人生建议**：" + t[4]
      + "\n\n### AI分析要求："
      + "\n**重要：在分析各个章节时，必须结合用户当前的" + name + "特点进行针对性分析**"
      + "\n1. **事业分析**要考虑" + age + "岁的人在" + focus + "方面的特殊需求和挑战"
      + "\n2. **感情分析**要符合" + name + "人群的情感特点和需求"
      + "\n3. **健康建议**要针对" + age + "岁人群的常见健康问题"
      + "\n4. **整体建议**要给出适合" + name + "的具体行动指导"
      + "\n\n在白话解心中，要用\"你已" + age + "岁，正值" + name + "\"这样的表述来增强针对性和亲切感。"
  }

  /** The prompt is empty exactly when there is no stage; otherwise it opens with the section heading. */
  lemma AgePromptEmpty(info: AgeInfo)
    ensures AgePrompt(info) == "" <==> info.stage.None?
    ensures info.stage.Some? ==> PromptHeading <= AgePrompt(info)
  {
    if info.stage.Some? {
      var s := info.stage.value;
      var body := PromptBody(IntToString(info.age), s.stage.name, s.stage.focus, AdviceTexts(info.advice));
      assert AgePrompt(info) == PromptHeading + body;
      assert (PromptHeading + body)[..|PromptHeading|] == PromptHeading;
    }
  }
}
