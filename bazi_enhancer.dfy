/**
 * The chart enhancer around the professional chart library: the request it
 * sends (the solar date-time text and the gender code), the text rules that
 * turn the derived analysis into prose with a default when no rule fires,
 * and the fallback analysis used when the library call fails. The library
 * call is an oracle from request to an optional record, None for a failure.
 */
module BaziEnhancer {
  import opened Wrappers
  import opened Text
  import opened BaziAnalysis

  // ------------------------------------------------------------- request

  /** The local calendar fields of a `Date`; `monthIndex` is `getMonth()`, counted from 0. */
  datatype DateTime = DateTime(year: int, monthIndex: int, day: int, hour: int, minute: int, second: int)

  /**
   * The text `${year}-${month}-${day} ${hour}:${minute}:${second}`, written
   * as the date fields joined by "-" and the clock fields joined by ":", the
   * two joined by a space.
   */
  function Stamp(year: string, month: string, day: string, hour: string, minute: string, second: string): string {
    Join([Join([year, month, day], "-"), Join([hour, minute, second], ":")], " ")
  }

  /** `formatSolarDatetime`: the month counted from 1, every field but the year padded to two digits. */
  function FormatSolarDatetime(dt: DateTime): string {
    Stamp(IntToString(dt.year), TwoDigits(dt.monthIndex + 1), TwoDigits(dt.day),
          TwoDigits(dt.hour), TwoDigits(dt.minute), TwoDigits(dt.second))
  }

  predicate ValidDateTime(dt: DateTime) {
    && dt.year >= 0 && 0 <= dt.monthIndex < 12 && 1 <= dt.day <= 31
    && 0 <= dt.hour < 24 && 0 <= dt.minute < 60 && 0 <= dt.second < 60
  }

  predicate NumberField(s: string) {
    |s| >= 1 && AllDigits(s)
  }

  predicate TwoDigitField(s: string) {
    |s| == 2 && AllDigits(s)
  }

  /** Reads a `Y-MM-DD HH:MM:SS` text back into its fields, None when it is not of that shape. */
  function ReadSolarDatetime(s: string): Option<DateTime> {
    var halves := Split(s, ' ');
    if |halves| != 2 then None
    else
      var d, t := Split(halves[0], '-'), Split(halves[1], ':');
      if |d| == 3 && |t| == 3 && NumberField(d[0]) && TwoDigitField(d[1]) && TwoDigitField(d[2])
         && TwoDigitField(t[0]) && TwoDigitField(t[1]) && TwoDigitField(t[2])
      then Some(DateTime(DigitsValue(d[0]), DigitsValue(d[1]) - 1, DigitsValue(d[2]),
                         DigitsValue(t[0]), DigitsValue(t[1]), DigitsValue(t[2])))
      else None
  }

  /** A run of digits holds none of the separators. */
  lemma DigitsAvoid(s: string)
    requires AllDigits(s)
    ensures '-' !in s && ':' !in s && ' ' !in s
  {
  }

  lemma {:induction false} JoinAvoids(parts: seq<string>, sep: string, c: char)
    requires c !in sep
    requires forall i :: 0 <= i < |parts| ==> c !in parts[i]
    ensures c !in Join(parts, sep)
  {
    if |parts| > 1 {
      JoinAvoids(parts[1..], sep, c);
    }
  }

  /** Digit fields of the right widths read back from their stamp as the date-time they spell. */
  lemma StampReadsBack(dt: DateTime, year: string, month: string, day: string, hour: string, minute: string, second: string)
    requires NumberField(year) && DigitsValue(year) == dt.year
    requires TwoDigitField(month) && DigitsValue(month) == dt.monthIndex + 1
    requires TwoDigitField(day) && DigitsValue(day) == dt.day
    requires TwoDigitField(hour) && DigitsValue(hour) == dt.hour
    requires TwoDigitField(minute) && DigitsValue(minute) == dt.minute
    requires TwoDigitField(second) && DigitsValue(second) == dt.second
    ensures ReadSolarDatetime(Stamp(year, month, day, hour, minute, second)) == Some(dt)
  {
    DigitsAvoid(year);
    DigitsAvoid(month);
    DigitsAvoid(day);
    DigitsAvoid(hour);
    DigitsAvoid(minute);
    DigitsAvoid(second);
    var date, clock := [year, month, day], [hour, minute, second];
    SplitJoin(date, '-');
    SplitJoin(clock, ':');
    JoinAvoids(date, "-", ' ');
    JoinAvoids(clock, ":", ' ');
    SplitJoin([Join(date, "-"), Join(clock, ":")], ' ');
  }

  /** The formatted text reads back as the same date-time. */
  lemma FormatReadsBack(dt: DateTime)
    requires ValidDateTime(dt)
    ensures ReadSolarDatetime(FormatSolarDatetime(dt)) == Some(dt)
  {
    var y, mo, da := IntToString(dt.year), TwoDigits(dt.monthIndex + 1), TwoDigits(dt.day);
    var h, mi, se := TwoDigits(dt.hour), TwoDigits(dt.minute), TwoDigits(dt.second);
    assert ReadSolarDatetime(Stamp(y, mo, da, h, mi, se)) == Some(dt) by {
      assert NumberField(y) && DigitsValue(y) == dt.year by { NatToStringRoundTrip(dt.year); }
      assert TwoDigitField(mo) && DigitsValue(mo) == dt.monthIndex + 1 by { TwoDigitsRoundTrip(dt.monthIndex + 1); }
      assert TwoDigitField(da) && DigitsValue(da) == dt.day by { TwoDigitsRoundTrip(dt.day); }
      assert TwoDigitField(h) && DigitsValue(h) == dt.hour by { TwoDigitsRoundTrip(dt.hour); }
      assert TwoDigitField(mi) && DigitsValue(mi) == dt.minute by { TwoDigitsRoundTrip(dt.minute); }
      assert TwoDigitField(se) && DigitsValue(se) == dt.second by { TwoDigitsRoundTrip(dt.second); }
      StampReadsBack(dt, y, mo, da, h, mi, se);
    }
  }

  /** Distinct valid date-times give distinct request texts. */
  lemma FormatInjective(a: DateTime, b: DateTime)
    requires ValidDateTime(a) && ValidDateTime(b)
    requires FormatSolarDatetime(a) == FormatSolarDatetime(b)
    ensures a == b
  {
    FormatReadsBack(a);
    FormatReadsBack(b);
  }

  /** The gender code sent to the library: 1 for `male`, 2 for anything else. */
  function GenderCode(gender: string): (code: int)
    ensures code == 1 || code == 2
    ensures code == 1 <==> gender == "male"
  {
    if gender == "male" then 1 else 2
  }

  datatype Request = Request(solarDatetime: string, gender: int)

  // ---------------------------------------------------------- text rules

  /**
   * A text extractor is a list of rules in source order: rule `i` fires when
   * `fires[i]` holds and then pushes `texts[i]`. These are the sentences
   * pushed by the first `k` rules.
   */
  function FiredUpTo(fires: seq<bool>, texts: seq<string>, k: nat): seq<string>
    requires k <= |fires| == |texts|
  {
    if k == 0 then [] else FiredUpTo(fires, texts, k - 1) + (if fires[k - 1] then [texts[k - 1]] else [])
  }

  function Fired(fires: seq<bool>, texts: seq<string>): seq<string>
    requires |fires| == |texts|
  {
    FiredUpTo(fires, texts, |fires|)
  }

  /** `parts.join(sep) || default`: an empty list joins to "", which is falsy. */
  function JoinOr(parts: seq<string>, sep: string, default: string): string {
    if parts == [] then default else Join(parts, sep)
  }

  lemma {:induction false} FiredUpToSpec(fires: seq<bool>, texts: seq<string>, k: nat)
    requires k <= |fires| == |texts|
    ensures FiredUpTo(fires, texts, k) == [] <==> forall i :: 0 <= i < k ==> !fires[i]
    ensures forall t :: t in FiredUpTo(fires, texts, k) ==> exists i :: 0 <= i < k && fires[i] && texts[i] == t
  {
    if k > 0 {
      FiredUpToSpec(fires, texts, k - 1);
    }
  }

  lemma {:induction false} JoinStartsWith(parts: seq<string>, sep: string)
    requires |parts| >= 1
    ensures parts[0] <= Join(parts, sep)
  {
    if |parts| > 1 {
      assert Join(parts, sep) == parts[0] + (sep + Join(parts[1..], sep));
    }
  }

  /** When no sentence of a firing rule begins the default, the default is returned exactly when no rule fires. */
  lemma DefaultExactlyWhenNothingFires(fires: seq<bool>, texts: seq<string>, sep: string, default: string)
    requires |fires| == |texts|
    requires forall i :: 0 <= i < |texts| && fires[i] ==> !(texts[i] <= default)
    ensures JoinOr(Fired(fires, texts), sep, default) == default <==> true !in fires
  {
    FiredUpToSpec(fires, texts, |fires|);
    var parts := Fired(fires, texts);
    if parts != [] {
      JoinStartsWith(parts, sep);
      assert parts[0] in parts;
    }
  }

  /** When no firing sentence holds the separator, a non-default text splits back into the fired sentences. */
  lemma SplitsIntoFired(fires: seq<bool>, texts: seq<string>, sep: char, default: string)
    requires |fires| == |texts|
    requires forall i :: 0 <= i < |texts| && fires[i] ==> sep !in texts[i]
    requires true in fires
    ensures Split(JoinOr(Fired(fires, texts), [sep], default), sep) == Fired(fires, texts)
  {
    FiredUpToSpec(fires, texts, |fires|);
    var parts := Fired(fires, texts);
    forall i | 0 <= i < |parts| ensures sep !in parts[i] {
      assert parts[i] in parts;
    }
    SplitJoin(parts, sep);
  }

  lemma NotPrefix(a: string, b: string, i: nat)
    requires i < |a| && i < |b| && a[i] != b[i]
    ensures !(a <= b)
  {
  }

  /** No text begins the default. */
  predicate FitDefault(texts: seq<string>, default: string) {
    forall i :: 0 <= i < |texts| ==> !(texts[i] <= default)
  }

  // --------------------------------------------------------- personality

  const TraitsDefault := "性格温和，待人真诚，具有发展潜力"

  const TraitTexts: seq<string> := [
    "性格正直，有上进心，富有创造力",
    "热情开朗，积极主动，有领导才能",
    "稳重踏实，有责任心，值得信赖",
    "讲义气，有决断力，执行力强",
    "聪明机智，适应性强，善于沟通",
    "守规矩，有责任感，适合管理工作",
    "务实稳重，善于理财，重视物质基础",
    "温和善良，富有艺术天赋，生活乐观"]

  /** The conditions of `extractPersonalityTraits`: 木火土金水 among the dominant elements, then 正官, 正财, 食神 among the dominant gods. */
  function TraitFires(elements: seq<Element>, gods: seq<string>): seq<bool> {
    [Wood in elements, Fire in elements, Earth in elements, Metal in elements, Water in elements,
     "正官" in gods, "正财" in gods, "食神" in gods]
  }

  lemma TraitTextsFit()
    ensures |TraitTexts| == 8 && FitDefault(TraitTexts, TraitsDefault)
  {
    forall i | 0 <= i < 8 ensures !(TraitTexts[i] <= TraitsDefault) {
      if i == 0 {
        NotPrefix(TraitTexts[i], TraitsDefault, 2);
      } else {
        NotPrefix(TraitTexts[i], TraitsDefault, 0);
      }
    }
  }

  /** `extractPersonalityTraits`: the default exactly when no rule fires. */
  function TraitsOf(elements: seq<Element>, gods: seq<string>): (text: string)
    ensures text == TraitsDefault <==>
      (Wood !in elements && Fire !in elements && Earth !in elements && Metal !in elements && Water !in elements
       && "正官" !in gods && "正财" !in gods && "食神" !in gods)
  {
    TraitTextsFit();
    DefaultExactlyWhenNothingFires(TraitFires(elements, gods), TraitTexts, "；", TraitsDefault);
    JoinOr(Fired(TraitFires(elements, gods), TraitTexts), "；", TraitsDefault)
  }

  /** The traits of a chart: its two dominant elements and its three dominant ten gods. */
  function PersonalityTraits(r: BaziResult): string {
    TraitsOf(DominantElements(ElementTally(Pillars(r))), DominantGods(Tally(AllGods(Pillars(r))), 3))
  }

  // --------------------------------------------------------------- career

  /** `daYun.find(...)`: the first period whose years [startYear, end] hold `year`. */
  function CurrentLuck(periods: seq<LuckPeriod>, year: int): (p: Option<LuckPeriod>)
    ensures p.Some? ==> p.value in periods && p.value.startYear <= year <= p.value.end
    ensures p.None? <==> forall q :: q in periods ==> !(q.startYear <= year <= q.end)
  {
    if periods == [] then None
    else if periods[0].startYear <= year <= periods[0].end then Some(periods[0])
    else CurrentLuck(periods[1..], year)
  }

  /** No period before the first occurrence of the one found holds the year. */
  lemma {:induction false} CurrentLuckIsFirst(periods: seq<LuckPeriod>, year: int, k: nat)
    requires CurrentLuck(periods, year).Some?
    requires k < |periods| && periods[k] == CurrentLuck(periods, year).value
    requires forall j :: 0 <= j < k ==> periods[j] != periods[k]
    ensures forall j :: 0 <= j < k ==> !(periods[j].startYear <= year <= periods[j].end)
  {
    if !(periods[0].startYear <= year <= periods[0].end) && k > 0 {
      CurrentLuckIsFirst(periods[1..], year, k - 1);
      forall j | 0 <= j < k ensures !(periods[j].startYear <= year <= periods[j].end) {
        if j > 0 {
          assert periods[1..][j - 1] == periods[j];
        }
      }
    }
  }

  /** `getDaYunFortune`: the same sentence for every period. */
  const LuckFortune := "运势平稳，宜把握机遇"

  function LuckText(p: LuckPeriod): (text: string)
    ensures "当前大运为" + p.ganZhi + "，" <= text
  {
    "当前大运为" + p.ganZhi + "，" + IntToString(p.startAge) + "-" + IntToString(p.endAge) + "岁，事业发展" + LuckFortune
  }

  /** The luck-period rule fires when the record lists periods and one holds the year. */
  predicate LuckFires(luck: Option<seq<LuckPeriod>>, year: int) {
    luck.Some? && |luck.value| > 0 && CurrentLuck(luck.value, year).Some?
  }

  /** Some listed period holds the year. */
  predicate InLuck(luck: Option<seq<LuckPeriod>>, year: int) {
    luck.Some? && exists q :: q in luck.value && q.startYear <= year <= q.end
  }

  lemma LuckFiresInLuck(luck: Option<seq<LuckPeriod>>, year: int)
    ensures LuckFires(luck, year) <==> InLuck(luck, year)
  {
    if InLuck(luck, year) {
      var q :| q in luck.value && q.startYear <= year <= q.end;
    }
  }

  const CareerDefault := "事业发展需要根据大运时机把握，建议稳中求进"

  const CareerTexts: seq<string> := [
    "事业方面适合从事管理、行政等稳定工作，有官职之象",
    "事业心强，适合创业、军警、销售等竞争性行业",
    "财运稳定，善于经营，适合实体产业、金融投资",
    "偏财运佳，适合投机、贸易、网络创业等多元化发展"]

  /** The conditions of `extractCareerFortune`: 正官, 七杀, 正财, 偏财 among the dominant gods, then the luck period. */
  function CareerFires(gods: seq<string>, luck: Option<seq<LuckPeriod>>, year: int): seq<bool> {
    ["正官" in gods, "七杀" in gods, "正财" in gods, "偏财" in gods, LuckFires(luck, year)]
  }

  /** The career sentences; the last one names the current luck period (it is never pushed when none holds the year). */
  function CareerLines(luck: Option<seq<LuckPeriod>>, year: int): seq<string> {
    CareerTexts + [if LuckFires(luck, year) then LuckText(CurrentLuck(luck.value, year).value) else ""]
  }

  lemma CareerTextsFit(luck: Option<seq<LuckPeriod>>, year: int)
    ensures forall i :: 0 <= i < 4 ==> !(CareerLines(luck, year)[i] <= CareerDefault)
    ensures LuckFires(luck, year) ==> !(CareerLines(luck, year)[4] <= CareerDefault)
  {
    var lines := CareerLines(luck, year);
    NotPrefix(lines[0], CareerDefault, 2);
    NotPrefix(lines[1], CareerDefault, 2);
    NotPrefix(lines[2], CareerDefault, 0);
    NotPrefix(lines[3], CareerDefault, 0);
    if LuckFires(luck, year) {
      NotPrefix(lines[4], CareerDefault, 0);
    }
  }

  /** `extractCareerFortune`; `year` is the current calendar year. */
  function CareerOf(gods: seq<string>, luck: Option<seq<LuckPeriod>>, year: int): (text: string)
    ensures text == CareerDefault <==>
      ("正官" !in gods && "七杀" !in gods && "正财" !in gods && "偏财" !in gods && !InLuck(luck, year))
  {
    CareerTextsFit(luck, year);
    LuckFiresInLuck(luck, year);
    DefaultExactlyWhenNothingFires(CareerFires(gods, luck, year), CareerLines(luck, year), "；", CareerDefault);
    JoinOr(Fired(CareerFires(gods, luck, year), CareerLines(luck, year)), "；", CareerDefault)
  }

  /** The career text of a chart, with the luck period of `year` when one holds it. */
  function CareerFortune(r: BaziResult, year: int): string {
    CareerOf(DominantGods(Tally(AllGods(Pillars(r))), 3), r.luck, year)
  }

  /** When a period holds the year, the last sentence pushed names it. */
  lemma CareerNamesCurrentLuck(gods: seq<string>, periods: seq<LuckPeriod>, year: int)
    requires CurrentLuck(periods, year).Some?
    ensures var parts := Fired(CareerFires(gods, Some(periods), year), CareerLines(Some(periods), year));
      parts != [] && parts[|parts| - 1] == LuckText(CurrentLuck(periods, year).value)
  {
  }

  // --------------------------------------------------------- relationship

  const RelationshipDefault := "感情和谐，需要双方共同经营，相互理解支持"

  /** The sentences for 正财 and 偏财, read when the gender text is 男. */
  const WealthTexts: seq<string> := [
    "感情专一，适合早婚，妻子贤惠持家",
    "异性缘佳，但需注意专一，避免感情波折"]

  /** The sentences for 正官 and 七杀, read for every other gender text. */
  const OfficerTexts: seq<string> := [
    "重视伴侣，丈夫有责任感，婚姻稳定",
    "对伴侣要求高，感情较为激烈，需要相互理解"]

  const PeachBlossomText := "命带桃花，异性缘好，个人魅力突出"

  /** Some symbolic-star value is an array holding 桃花. */
  predicate HasPeachBlossom(shenSha: Option<seq<Option<seq<string>>>>) {
    shenSha.Some? && exists v :: v in shenSha.value && v.Some? && "桃花" in v.value
  }

  function RelationshipFires(gender: string, gods: seq<string>, shenSha: Option<seq<Option<seq<string>>>>): seq<bool> {
    if gender == "男" then ["正财" in gods, "偏财" in gods, HasPeachBlossom(shenSha)]
    else ["正官" in gods, "七杀" in gods, HasPeachBlossom(shenSha)]
  }

  function RelationshipLines(gender: string): seq<string> {
    (if gender == "男" then WealthTexts else OfficerTexts) + [PeachBlossomText]
  }

  lemma RelationshipTextsFit(gender: string)
    ensures |RelationshipLines(gender)| == 3 && FitDefault(RelationshipLines(gender), RelationshipDefault)
  {
    var lines := RelationshipLines(gender);
    if gender == "男" {
      NotPrefix(lines[0], RelationshipDefault, 2);
    } else {
      NotPrefix(lines[0], RelationshipDefault, 0);
    }
    NotPrefix(lines[1], RelationshipDefault, 0);
    NotPrefix(lines[2], RelationshipDefault, 0);
  }

  /** `extractRelationshipAnalysis`: wealth gods read for 男, officer gods for every other gender text. */
  function RelationshipOf(gender: string, gods: seq<string>, shenSha: Option<seq<Option<seq<string>>>>): (text: string)
    ensures text == RelationshipDefault <==>
      (!HasPeachBlossom(shenSha)
       && (gender == "男" ==> "正财" !in gods && "偏财" !in gods)
       && (gender != "男" ==> "正官" !in gods && "七杀" !in gods))
  {
    RelationshipTextsFit(gender);
    DefaultExactlyWhenNothingFires(RelationshipFires(gender, gods, shenSha), RelationshipLines(gender), "；", RelationshipDefault);
    JoinOr(Fired(RelationshipFires(gender, gods, shenSha), RelationshipLines(gender)), "；", RelationshipDefault)
  }

  function RelationshipAnalysis(r: BaziResult): string {
    RelationshipOf(r.gender, DominantGods(Tally(AllGods(Pillars(r))), 3), r.shenSha)
  }

  // --------------------------------------------------------------- health

  const HealthDefault := "身体健康状况良好，保持规律作息和适量运动"

  const HealthTexts: seq<string> := [
    "注意肝胆保养，多吃绿色蔬菜，保持良好作息",
    "注意心脏血管健康，适当运动，保持心情愉快",
    "注意脾胃保养，饮食规律，避免暴饮暴食",
    "注意呼吸系统健康，多呼吸新鲜空气，避免烟酒",
    "注意肾脏保养，多喝水，避免过度劳累",
    "体质较好，但要注意劳逸结合，避免过度消耗",
    "体质相对较弱，需要加强营养，适当锻炼"]

  /** The conditions of `extractHealthAdvice`: 木火土金水 among the weak elements, then the balance 偏强 or 偏弱. */
  function HealthFires(weak: seq<Element>, balance: string): seq<bool> {
    [Wood in weak, Fire in weak, Earth in weak, Metal in weak, Water in weak, balance == "偏强", balance == "偏弱"]
  }

  lemma HealthTextsFit()
    ensures |HealthTexts| == 7 && FitDefault(HealthTexts, HealthDefault)
  {
    forall i | 0 <= i < 7 ensures !(HealthTexts[i] <= HealthDefault) {
      NotPrefix(HealthTexts[i], HealthDefault, 0);
    }
  }

  /** `extractHealthAdvice`. */
  function HealthOf(weak: seq<Element>, balance: string): (text: string)
    ensures text == HealthDefault <==>
      (Wood !in weak && Fire !in weak && Earth !in weak && Metal !in weak && Water !in weak
       && balance != "偏强" && balance != "偏弱")
  {
    HealthTextsFit();
    DefaultExactlyWhenNothingFires(HealthFires(weak, balance), HealthTexts, "；", HealthDefault);
    JoinOr(Fired(HealthFires(weak, balance), HealthTexts), "；", HealthDefault)
  }

  function HealthAdvice(r: BaziResult): string {
    var d := ElementTally(Pillars(r));
    HealthOf(WeakElements(d), Balance(d))
  }

  /**
   * The balance label is never 偏强 or 偏弱, so the two constitution rules
   * never fire: the advice is the default exactly when every element occurs.
   */
  lemma HealthDefaultWhenAllPresent(r: BaziResult)
    ensures HealthAdvice(r) == HealthDefault <==> forall e :: ElementTally(Pillars(r)).Get(e) > 0
  {
    var d := ElementTally(Pillars(r));
    BalanceNeverSkewed(d);
    WeakElementsSpec(d);
    if HealthAdvice(r) == HealthDefault {
      forall e ensures d.Get(e) > 0 {
        assert e !in WeakElements(d) by {
          match e
          case Metal =>
          case Wood =>
          case Water =>
          case Fire =>
          case Earth =>
        }
      }
    }
  }

  // ------------------------------------------------------------- fallback

  /** The four pillar texts of the app's own chart. */
  datatype FourPillars = FourPillars(year: string, month: string, day: string, time: string)

  /** The app's own chart; "" stands for a missing or empty value, which is falsy. */
  datatype BaziInfo = BaziInfo(solar: string, lunar: string, bazi: Option<FourPillars>, zodiac: string)

  const Unknown := "未知"

  /** `value || '未知'`. */
  function OrUnknown(value: string): (r: string)
    ensures r == Unknown <==> value == "" || value == Unknown
    ensures value != "" ==> r == value
  {
    if value == "" then Unknown else value
  }

  /** The pillars separated by single spaces. */
  function PillarsText(b: FourPillars): (text: string)
    ensures text == b.year + " " + b.month + " " + b.day + " " + b.time
  {
    JoinFour(b.year, b.month, b.day, b.time, " ");
    Join([b.year, b.month, b.day, b.time], " ")
  }

  /** Pillar texts without spaces split back out of their joined text. */
  lemma PillarsTextSplits(b: FourPillars)
    requires ' ' !in b.year && ' ' !in b.month && ' ' !in b.day && ' ' !in b.time
    ensures Split(PillarsText(b), ' ') == [b.year, b.month, b.day, b.time]
  {
    SplitJoin([b.year, b.month, b.day, b.time], ' ');
  }

  /** `basicInfo`: the fallback has no `gender` entry, hence the Option. */
  datatype BasicInfo = BasicInfo(solar: string, lunar: string, bazi: string, gender: Option<string>, zodiac: string, dayMaster: string)

  /** `wuxingAnalysis`: the element analysis object, or the fallback's fixed note. */
  datatype Wuxing = WuxingObject(detail: WuxingAnalysis) | WuxingNote(note: string)

  /**
   * The analysis handed to the prompt: the basic information, the grade, the
   * element and ten-gods analyses, the texts of the four readings and the raw
   * record (`rawData`, None for the fallback's null), whether it came from the
   * library or from the fallback.
   */
  datatype Analysis = Analysis(
    basic: BasicInfo,
    grade: string,
    wuxing: Wuxing,
    shiShen: Option<ShiShenAnalysis>,
    personality: string,
    career: string,
    relationship: string,
    health: string,
    raw: Option<BaziResult>,
    professional: bool)

  /** `getFallbackAnalysis`: the app's own values, 未知 for the missing ones, and fixed texts. */
  function FallbackAnalysis(info: BaziInfo): (a: Analysis)
    ensures !a.professional && a.basic.dayMaster == Unknown
    ensures a.raw.None? && a.shiShen.None? && a.basic.gender.None? && a.wuxing.WuxingNote?
    ensures a.grade == "普通八字" && a.grade !in Grades[..3]
    ensures a.basic.bazi == Unknown <==> info.bazi.None? || PillarsText(info.bazi.value) == Unknown
    ensures info.bazi.Some? ==> a.basic.bazi == PillarsText(info.bazi.value)
  {
    NotPrefix(Grades[0], "普通八字", 0);
    Analysis(
      BasicInfo(OrUnknown(info.solar), OrUnknown(info.lunar),
                match info.bazi case None => Unknown case Some(b) => PillarsText(b),
                None, OrUnknown(info.zodiac), Unknown),
      "普通八字",
      WuxingNote("需要详细计算后才能分析"),
      None,
      "基于八字基础分析，需要更多信息",
      "事业运势需要结合大运分析",
      "感情状况需要综合分析",
      "健康建议需要根据五行配置给出",
      None,
      false)
  }

  // ------------------------------------------------------------- top level

  /** What the library record adds to the basic information: 阳历, 农历, 八字 and 生肖. */
  datatype RecordInfo = RecordInfo(solar: string, lunar: string, bazi: string, zodiac: string)

  /**
   * The analysis `parseProfessionalResult` builds from record `r`: the basic
   * information, the element and ten-gods analyses of the pillars, the four
   * readings, the grade and the record itself.
   */
  predicate ParsedFrom(a: Analysis, r: BaziResult, info: RecordInfo, year: int) {
    var d := ElementTally(Pillars(r));
    var gods := Tally(AllGods(Pillars(r)));
    && a.professional && a.raw == Some(r)
    && a.basic == BasicInfo(info.solar, info.lunar, info.bazi, Some(r.gender), info.zodiac, r.dayMaster)
    && a.wuxing == WuxingObject(WuxingAnalysis(d, Present(Pillars(r)), DominantElements(d), WeakElements(d),
                                               Balance(d), WuxingText(d, DominantElements(d), WeakElements(d))))
    && a.shiShen == Some(ShiShenAnalysis(gods, DominantGods(gods, 3), ShiShenText(gods, r.dayMaster)))
    && a.personality == PersonalityTraits(r) && a.career == CareerFortune(r, year)
    && a.relationship == RelationshipAnalysis(r) && a.health == HealthAdvice(r)
    && a.grade == GradeOf(70 + BalanceBonus(Balance(d)) + StarBonus(r.shenSha) + RelationBonus(r.relations))
  }

  /** `parseProfessionalResult`; `year` is the current calendar year. */
  method ParseProfessionalResult(r: BaziResult, info: RecordInfo, year: int) returns (a: Analysis)
    ensures ParsedFrom(a, r, info, year)
    ensures a.grade in Grades[..3]
  {
    var w := ExtractWuxingAnalysis(r);
    var s := ExtractShiShenAnalysis(r);
    var grade := ProfessionalGrade(r);
    a := Analysis(
      BasicInfo(info.solar, info.lunar, info.bazi, Some(r.gender), info.zodiac, r.dayMaster),
      grade,
      WuxingObject(w),
      Some(s),
      TraitsOf(w.dominant, s.dominant),
      CareerOf(s.dominant, r.luck, year),
      RelationshipOf(r.gender, s.dominant, r.shenSha),
      HealthOf(w.weak, w.balance),
      Some(r),
      true);
  }

  /** The library's answer: the record and its basic information, or None when the call throws. */
  datatype Reply = Reply(result: BaziResult, info: RecordInfo)

  /**
   * `enhanceBaziAnalysis`: the request carries the formatted birth time and
   * the gender code; `library` stands for `getBaziDetail`, and a failed call
   * gives the fallback built from the app's own chart.
   */
  method EnhanceBaziAnalysis(birth: DateTime, gender: string, info: BaziInfo, year: int,
                             library: Request -> Option<Reply>) returns (a: Analysis)
    ensures var request := Request(FormatSolarDatetime(birth), GenderCode(gender));
      && (library(request).None? ==> a == FallbackAnalysis(info))
      && (library(request).Some? ==>
            var reply := library(request).value;
            ParsedFrom(a, reply.result, reply.info, year) && a.grade in Grades[..3])
    ensures a.professional <==> library(Request(FormatSolarDatetime(birth), GenderCode(gender))).Some?
  {
    var solarDatetime := FormatSolarDatetime(birth);
    var code := GenderCode(gender);
    var reply := library(Request(solarDatetime, code));
    if reply.None? {
      return FallbackAnalysis(info);
    }
    a := ParseProfessionalResult(reply.value.result, reply.value.info, year);
  }
}
