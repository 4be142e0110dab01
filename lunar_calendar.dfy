/**
 * The sexagenary tables and the four-pillar (bazi) assembly of
 * `LunarCalendarConverter`: stems and branches, the 24-slot hour-to-branch
 * table with its midnight wrap-around, the hour stem, the displayed lunar
 * date, the four-pillar string and its structural validation.
 *
 * The solar-to-lunar conversion itself belongs to the `lunar-javascript`
 * library; the model receives that library as a function from the solar date
 * to its reading (stem and branch indices), or to nothing when it throws.
 */
module LunarCalendar {
  import opened Wrappers
  import opened Text

  /** TIANGAN: the ten heavenly stems, in cycle order. */
  const Tiangan: seq<string> := ["甲", "乙", "丙", "丁", "戊", "己", "庚", "辛", "壬", "癸"]

  /** DIZHI: the twelve earthly branches, in cycle order. */
  const Dizhi: seq<string> := ["子", "丑", "寅", "卯", "辰", "巳", "午", "未", "申", "酉", "戌", "亥"]

  /** MONTH_ZHI: entry 0 is null; lunar month m has branch entry m. */
  const MonthZhi: seq<Option<string>> := [None, Some("丑"), Some("寅"), Some("卯"), Some("辰"), Some("巳"),
    Some("午"), Some("未"), Some("申"), Some("酉"), Some("戌"), Some("亥"), Some("子")]

  /** TIME_ZHI_MAP: the branch governing each hour of the day. */
  const TimeZhiMap: map<int, string> := map[
    23 := "子", 0 := "子", 1 := "丑", 2 := "丑", 3 := "寅", 4 := "寅",
    5 := "卯", 6 := "卯", 7 := "辰", 8 := "辰", 9 := "巳", 10 := "巳",
    11 := "午", 12 := "午", 13 := "未", 14 := "未", 15 := "申", 16 := "申",
    17 := "酉", 18 := "酉", 19 := "戌", 20 := "戌", 21 := "亥", 22 := "亥"]

  /**
   * `Object.values(TIME_ZHI_MAP)`. JavaScript enumerates integer-like keys in
   * ascending numeric order, so the entry written first (23) comes last.
   */
  const TimeZhiValues: seq<string> := ["子", "丑", "丑", "寅", "寅", "卯", "卯", "辰", "辰", "巳", "巳", "午",
    "午", "未", "未", "申", "申", "酉", "酉", "戌", "戌", "亥", "亥", "子"]

  /** TIME_NAMES: the name of each double hour. */
  const TimeNames: map<string, string> := map[
    "子" := "子时", "丑" := "丑时", "寅" := "寅时", "卯" := "卯时",
    "辰" := "辰时", "巳" := "巳时", "午" := "午时", "未" := "未时",
    "申" := "申时", "酉" := "酉时", "戌" := "戌时", "亥" := "亥时"]

  /** LUNAR_MONTH_NAMES. */
  const LunarMonthNames: map<int, string> := map[
    1 := "正月", 2 := "二月", 3 := "三月", 4 := "四月", 5 := "五月", 6 := "六月",
    7 := "七月", 8 := "八月", 9 := "九月", 10 := "十月", 11 := "冬月", 12 := "腊月"]

  datatype TimeRange = TimeRange(start: int, end: int, desc: string)

  /** The `timeRanges` table of `getTimeInfo`. */
  const TimeRanges: map<string, TimeRange> := map[
    "子" := TimeRange(23, 1, "夜半"), "丑" := TimeRange(1, 3, "鸡鸣"),
    "寅" := TimeRange(3, 5, "平旦"), "卯" := TimeRange(5, 7, "日出"),
    "辰" := TimeRange(7, 9, "食时"), "巳" := TimeRange(9, 11, "隅中"),
    "午" := TimeRange(11, 13, "日中"), "未" := TimeRange(13, 15, "日映"),
    "申" := TimeRange(15, 17, "晡时"), "酉" := TimeRange(17, 19, "日入"),
    "戌" := TimeRange(19, 21, "黄昏"), "亥" := TimeRange(21, 23, "人定")]

  type StemIndex = i: int | 0 <= i < 10
  type BranchIndex = i: int | 0 <= i < 12

  /** A solar date as the caller splits "YYYY-MM-DD". */
  datatype SolarDate = SolarDate(year: int, month: int, day: int)

  /** What `lunar-javascript` reports for a solar date: lunar y/m/d, leap flag and the six indices. */
  datatype LunarReading = LunarReading(
    year: int, month: int, day: int, isLeap: bool,
    yearGan: StemIndex, yearZhi: BranchIndex,
    monthGan: StemIndex, monthZhi: BranchIndex,
    dayGan: StemIndex, dayZhi: BranchIndex)

  /** The `LunarDate` interface: stems and branches are strings, as in the source. */
  datatype LunarDate = LunarDate(
    year: int, month: int, day: int, isLeapMonth: bool,
    yearGan: string, yearZhi: string,
    monthGan: string, monthZhi: string,
    dayGan: string, dayZhi: string)

  /** The result of `validateBazi`. */
  datatype Validation =
    | Valid(lunarInfo: LunarDate, baziString: string)
    | Invalid(message: string)

  /** The result of `getTimeInfo`; `name` is None where TIME_NAMES has no entry (undefined). */
  datatype TimeInfo = TimeInfo(name: Option<string>, zhi: string, startHour: int, endHour: int, description: string)

  const LunarDateError := "农历日期计算异常，建议使用专业万年历确认"
  const IncompleteBaziError := "八字信息不完整，建议使用专业万年历确认"
  const CalculationError := "八字计算出错，请检查输入信息或使用专业万年历确认"

  /** `String(x)` of an optional string: a missing value renders as "undefined". */
  function Render(s: Option<string>): string {
    match s
    case Some(v) => v
    case None => "undefined"
  }

  /** Every stem and every branch is a single character, and none is a space. */
  lemma TablesAreSingleCharacters()
    ensures forall i :: 0 <= i < 10 ==> |Tiangan[i]| == 1 && ' ' !in Tiangan[i]
    ensures forall i :: 0 <= i < 12 ==> |Dizhi[i]| == 1 && ' ' !in Dizhi[i]
  {
  }

  /** MONTH_ZHI follows the branch cycle: month m (1..12) has branch m mod 12. */
  lemma MonthZhiFollowsCycle(m: int)
    requires 1 <= m <= 12
    ensures MonthZhi[m] == Some(Dizhi[m % 12])
  {
  }

  /** `solarToLunar`, with the library given as `library` (None: the library threw). */
  function SolarToLunar(date: SolarDate, library: SolarDate -> Option<LunarReading>): (r: Option<LunarDate>)
    ensures r.Some? <==> library(date).Some?
  {
    match library(date)
    case None => None
    case Some(x) =>
      Some(LunarDate(x.year, x.month, x.day, x.isLeap,
                     Tiangan[x.yearGan], Dizhi[x.yearZhi],
                     Tiangan[x.monthGan], Dizhi[x.monthZhi],
                     Tiangan[x.dayGan], Dizhi[x.dayZhi]))
  }

  /** `getTimeZhi`: `TIME_ZHI_MAP[hour] || '子'`, for the hour parsed from "HH:MM". */
  function TimeZhi(hour: int): string {
    if hour in TimeZhiMap then TimeZhiMap[hour] else "子"
  }

  lemma TablesDistinct()
    ensures Distinct(Tiangan) && Distinct(Dizhi)
  {
  }

  /** The hour table is the two-hour cycle shifted by one hour, with 23 wrapping to 子. */
  lemma TimeZhiIsDoubleHourCycle(hour: int)
    ensures 0 <= hour <= 23 ==> TimeZhi(hour) == Dizhi[((hour + 1) / 2) % 12]
    ensures !(0 <= hour <= 23) ==> TimeZhi(hour) == "子"
  {
    assert hour in TimeZhiMap <==> 0 <= hour <= 23;
  }

  /** The index in DIZHI of the branch governing `hour` (see HourBranchIndexFindsBranch). */
  function HourBranchIndex(hour: int): BranchIndex {
    if 0 <= hour <= 23 then ((hour + 1) / 2) % 12 else 0
  }

  /** HourBranchIndex is the position of `TimeZhi(hour)` in DIZHI, as `DIZHI.indexOf` finds it. */
  lemma HourBranchIndexFindsBranch(hour: int)
    ensures Dizhi[HourBranchIndex(hour)] == TimeZhi(hour)
    ensures IndexOf(Dizhi, TimeZhi(hour)) == HourBranchIndex(hour)
  {
    TimeZhiIsDoubleHourCycle(hour);
    TablesDistinct();
    IndexOfDistinct(Dizhi, HourBranchIndex(hour));
  }

  /** `Object.values(TIME_ZHI_MAP)` is the table read in ascending key order. */
  lemma TimeZhiValuesInKeyOrder()
    ensures |TimeZhiValues| == 24
    ensures forall k :: 0 <= k < 24 ==> k in TimeZhiMap && TimeZhiValues[k] == TimeZhiMap[k]
  {
    forall k | 0 <= k < 24
      ensures k in TimeZhiMap && TimeZhiValues[k] == TimeZhiMap[k]
    {
      TimeZhiValuesCycle(k);
      TimeZhiIsDoubleHourCycle(k);
    }
  }

  lemma TimeZhiValuesCycle(j: int)
    requires 0 <= j < 24
    ensures TimeZhiValues[j] == Dizhi[((j + 1) / 2) % 12]
  {
  }

  lemma CycleBelowFirst(b: BranchIndex, j: int)
    requires 0 <= j < (if b == 0 then 0 else 2 * b - 1)
    ensures 0 <= ((j + 1) / 2) % 12 < 12 && ((j + 1) / 2) % 12 != b
  {
    assert (j + 1) / 2 < b;
  }

  /** Where branch b first occurs in `Object.values(TIME_ZHI_MAP)`: 0 for 子, 2b-1 otherwise. */
  function ValueIndex(b: BranchIndex): nat {
    if b == 0 then 0 else 2 * b - 1
  }

  /** Branch b first occurs in `Object.values(TIME_ZHI_MAP)` at ValueIndex(b). */
  lemma FirstValueIndex(b: BranchIndex)
    ensures IndexOf(TimeZhiValues, Dizhi[b]) == ValueIndex(b)
  {
    var k := ValueIndex(b);
    TablesDistinct();
    TimeZhiValuesCycle(k);
    assert ((k + 1) / 2) % 12 == b;
    forall j | 0 <= j < k
      ensures TimeZhiValues[j] != Dizhi[b]
    {
      TimeZhiValuesCycle(j);
      CycleBelowFirst(b, j);
    }
    IndexOfFirst(TimeZhiValues, Dizhi[b], k);
  }

  /**
   * The index `getTimeGan` computes for the hour: the first position of the
   * hour's branch in `Object.values(TIME_ZHI_MAP)`. It is 0 for 子 and 2b-1 for
   * any other branch b, not b.
   */
  lemma TimeZhiValuesIndex(hour: int)
    ensures var b := HourBranchIndex(hour);
      IndexOf(TimeZhiValues, TimeZhi(hour)) == if b == 0 then 0 else 2 * b - 1
  {
    HourBranchIndexFindsBranch(hour);
    FirstValueIndex(HourBranchIndex(hour));
  }

  lemma StemIndexOf(d: StemIndex)
    ensures IndexOf(Tiangan, Tiangan[d]) == d
  {
    TablesDistinct();
    IndexOfDistinct(Tiangan, d);
  }

  lemma BranchIndexOf(b: BranchIndex)
    ensures IndexOf(Dizhi, Dizhi[b]) == b
  {
    TablesDistinct();
    IndexOfDistinct(Dizhi, b);
  }

  /**
   * The computation of `getTimeGan` over its tables: the stems, and the values
   * of the hour table in which the hour's branch is looked up.
   */
  function TimeGanOver(stems: seq<string>, hourValues: seq<string>, timeZhi: string, dayGan: string): Option<string> {
    var timeZhiIndex := IndexOf(hourValues, timeZhi);
    var dayGanIndex := IndexOf(stems, dayGan);
    At(stems, JsRem(dayGanIndex * 2 + timeZhiIndex, 10))
  }

  lemma TimeGanOverIndices(stems: seq<string>, hourValues: seq<string>, timeZhi: string, dayGan: string, d: int, t: int)
    requires IndexOf(stems, dayGan) == d && IndexOf(hourValues, timeZhi) == t
    ensures TimeGanOver(stems, hourValues, timeZhi, dayGan) == At(stems, JsRem(d * 2 + t, 10))
  {
  }

  /** `getTimeGan` as written: indexOf in `Object.values(TIME_ZHI_MAP)` and JavaScript's `%`. */
  function TimeGanAsWritten(hour: int, dayGan: string): Option<string> {
    TimeGanOver(Tiangan, TimeZhiValues, TimeZhi(hour), dayGan)
  }

  /** The hour stem rule over a stem table: stems[(dayStem * 2 + branch) % 10], none for an unknown day stem. */
  function HourStemOver(stems: seq<string>, dayGan: string, branch: BranchIndex): Option<string> {
    var dayGanIndex := IndexOf(stems, dayGan);
    if dayGanIndex < 0 then None else At(stems, (dayGanIndex * 2 + branch) % 10)
  }

  lemma HourStemOverIndex(stems: seq<string>, dayGan: string, branch: BranchIndex, d: int)
    requires IndexOf(stems, dayGan) == d
    ensures HourStemOver(stems, dayGan, branch) == if d < 0 then None else At(stems, (d * 2 + branch) % 10)
  {
  }

  /**
   * The hour stem by the rule the source's comment states and its reference
   * case expects: TIANGAN[(dayStem * 2 + hourBranch) % 10], with no stem when
   * the day stem is not one of the ten.
   */
  function HourStem(hour: int, dayGan: string): Option<string> {
    HourStemOver(Tiangan, dayGan, HourBranchIndex(hour))
  }

  lemma HourStemOverStem(d: StemIndex, b: BranchIndex)
    ensures HourStemOver(Tiangan, Tiangan[d], b) == Some(Tiangan[(d * 2 + b) % 10])
  {
    StemIndexOf(d);
    HourStemOverIndex(Tiangan, Tiangan[d], b, d);
  }

  /** For stem d the corrected hour stem is stem (2d + b) mod 10, b the hour's branch. */
  lemma HourStemOfStem(hour: int, d: StemIndex)
    ensures HourStem(hour, Tiangan[d]) == Some(Tiangan[(d * 2 + HourBranchIndex(hour)) % 10])
  {
    HourStemOverStem(d, HourBranchIndex(hour));
  }

  /** The corrected hour stem exists exactly for a real day stem, and is then a stem. */
  lemma HourStemDefined(hour: int, dayGan: string)
    ensures HourStem(hour, dayGan).None? <==> dayGan !in Tiangan
    ensures HourStem(hour, dayGan).Some? ==> HourStem(hour, dayGan).value in Tiangan
  {
    var d := IndexOf(Tiangan, dayGan);
    IndexOfMissing(Tiangan, dayGan);
    if d >= 0 {
      HourStemOfStem(hour, d);
    } else {
      HourStemOverIndex(Tiangan, dayGan, HourBranchIndex(hour), d);
    }
  }

  lemma StemBranchParity(d: StemIndex, b: BranchIndex)
    ensures ((d * 2 + b) % 10) % 2 == b % 2
  {
  }

  /**
   * The corrected hour pillar is one of the sixty: its stem and branch have the
   * same parity.
   */
  lemma HourPillarParity(hour: int, d: StemIndex)
    ensures var k := (d * 2 + HourBranchIndex(hour)) % 10;
      HourStem(hour, Tiangan[d]) == Some(Tiangan[k]) && k % 2 == HourBranchIndex(hour) % 2
  {
    HourStemOfStem(hour, d);
    StemBranchParity(d, HourBranchIndex(hour));
  }

  /** The source's stem index for day stem index `d` and hour branch `b`, before the array read. */
  function AsWrittenIndex(d: int, b: BranchIndex): int {
    JsRem(d * 2 + ValueIndex(b), 10)
  }

  lemma TimeGanAsWrittenByIndex(hour: int, dayGan: string)
    ensures TimeGanAsWritten(hour, dayGan)
         == At(Tiangan, AsWrittenIndex(IndexOf(Tiangan, dayGan), HourBranchIndex(hour)))
  {
    var b := HourBranchIndex(hour);
    HourBranchIndexFindsBranch(hour);
    FirstValueIndex(b);
    TimeGanOverIndices(Tiangan, TimeZhiValues, TimeZhi(hour), dayGan, IndexOf(Tiangan, dayGan), ValueIndex(b));
  }

  lemma AsWrittenAgreement(d: StemIndex, b: BranchIndex)
    ensures 0 <= AsWrittenIndex(d, b) < 10
    ensures AsWrittenIndex(d, b) == (d * 2 + b) % 10 <==> b == 0 || b == 1 || b == 11
  {
  }

  lemma ZiChouHai(b: BranchIndex)
    ensures Dizhi[b] in {"子", "丑", "亥"} <==> b == 0 || b == 1 || b == 11
    ensures Dizhi[b] in {"子", "丑"} <==> b == 0 || b == 1
  {
    TablesDistinct();
    assert "子" == Dizhi[0] && "丑" == Dizhi[1] && "亥" == Dizhi[11];
  }

  /**
   * For a real day stem, the source's hour stem agrees with the stated rule
   * exactly for the branch indices 0, 1 and 11 (子, 丑 and 亥, see
   * BranchOfHour), where 2b-1 and b agree modulo 10.
   */
  lemma TimeGanAgreesOnlyAtZiChouHai(hour: int, d: StemIndex)
    ensures TimeGanAsWritten(hour, Tiangan[d]) == HourStem(hour, Tiangan[d])
        <==> HourBranchIndex(hour) in {0, 1, 11}
  {
    TimeGanAsWrittenOfStem(hour, d);
    HourStemOfStem(hour, d);
    StemAgreement(d, HourBranchIndex(hour), TimeGanAsWritten(hour, Tiangan[d]), HourStem(hour, Tiangan[d]));
  }

  lemma StemAgreement(d: StemIndex, b: BranchIndex, asWritten: Option<string>, rule: Option<string>)
    requires asWritten == At(Tiangan, AsWrittenIndex(d, b)) && rule == Some(Tiangan[(d * 2 + b) % 10])
    ensures asWritten == rule <==> b in {0, 1, 11}
  {
    TablesDistinct();
    AgreementOver(Tiangan, d, b, asWritten, rule);
  }

  lemma TimeGanAsWrittenOfStem(hour: int, d: StemIndex)
    ensures TimeGanAsWritten(hour, Tiangan[d]) == At(Tiangan, AsWrittenIndex(d, HourBranchIndex(hour)))
  {
    StemIndexOf(d);
    TimeGanAsWrittenByIndex(hour, Tiangan[d]);
  }

  /**
   * Over any ten distinct stems, the stem at the source's index and the stem
   * at (2d+b) mod 10 are the same exactly for the branch indices 0, 1 and 11.
   */
  lemma AgreementOver(stems: seq<string>, d: StemIndex, b: BranchIndex, asWritten: Option<string>, rule: Option<string>)
    requires |stems| == 10 && Distinct(stems)
    requires asWritten == At(stems, AsWrittenIndex(d, b)) && rule == Some(stems[(d * 2 + b) % 10])
    ensures asWritten == rule <==> b == 0 || b == 1 || b == 11
  {
    AsWrittenAgreement(d, b);
    var i, j := AsWrittenIndex(d, b), (d * 2 + b) % 10;
    if i != j {
      if i < j {
        assert stems[i] != stems[j];
      } else {
        assert stems[j] != stems[i];
      }
    }
  }

  /** The hour's branch is 子, 丑 or 亥 exactly for the branch indices 0, 1 and 11. */
  lemma BranchOfHour(hour: int)
    ensures var b := HourBranchIndex(hour);
      TimeZhi(hour) in {"子", "丑", "亥"} <==> b == 0 || b == 1 || b == 11
  {
    HourBranchIndexFindsBranch(hour);
    ZiChouHai(HourBranchIndex(hour));
  }

  lemma ReferenceFacts()
    ensures IndexOf(Tiangan, "乙") == 1
    ensures HourBranchIndex(7) == 4 && TimeZhi(7) == "辰"
    ensures At(Tiangan, AsWrittenIndex(1, 4)) == Some("癸")
    ensures Tiangan[(1 * 2 + 4) % 10] == "庚" && Tiangan[1] == "乙"
  {
  }

  /** The reference case 1977-07-07 07:07 (day stem 乙): the source gives 癸, the rule gives 庚. */
  lemma TimeGanReferenceCase()
    ensures TimeZhi(7) == "辰"
    ensures TimeGanAsWritten(7, "乙") == Some("癸")
    ensures HourStem(7, "乙") == Some("庚")
  {
    ReferenceFacts();
    TimeGanAsWrittenByIndex(7, "乙");
    HourStemOfStem(7, 1);
  }

  /** 癸辰, the source's hour pillar for that case, pairs an odd stem with an even branch. */
  lemma TimeGanReferenceCaseBreaksParity()
    ensures IndexOf(Tiangan, TimeGanAsWritten(7, "乙").value) % 2 != HourBranchIndex(7) % 2
  {
    TimeGanReferenceCase();
    ReferenceFacts();
    assert IndexOf(Tiangan, "癸") == 9;
  }

  /**
   * With a day stem outside TIANGAN, indexOf gives -1 and the source's index is
   * 2b-3 (or -2, -1): it is negative, and the stem undefined, only for 子 and
   * 丑; every other hour gets a real stem.
   */
  lemma TimeGanUnknownDayStem(hour: int, dayGan: string)
    requires dayGan !in Tiangan
    ensures TimeGanAsWritten(hour, dayGan).None? <==> TimeZhi(hour) in {"子", "丑"}
  {
    var b := HourBranchIndex(hour);
    IndexOfMissing(Tiangan, dayGan);
    TimeGanAsWrittenByIndex(hour, dayGan);
    HourBranchIndexFindsBranch(hour);
    ZiChouHai(b);
  }

  lemma UnknownStemFacts()
    ensures "X" !in Tiangan
    ensures HourBranchIndex(3) == 2
    ensures At(Tiangan, AsWrittenIndex(-1, 2)) == Some("乙")
  {
    TablesAreSingleCharacters();
  }

  /** An hour at 03:xx with an unknown day stem is given 乙 by the source. */
  lemma TimeGanUnknownDayStemExample()
    ensures TimeGanAsWritten(3, "X") == Some("乙")
    ensures HourStem(3, "X") == None
  {
    UnknownStemFacts();
    IndexOfMissing(Tiangan, "X");
    TimeGanAsWrittenByIndex(3, "X");
    HourStemDefined(3, "X");
  }

  /**
   * The lunar date carries the library's reading unchanged: the same year,
   * month, day and leap flag, and stems and branches that TIANGAN.indexOf and
   * DIZHI.indexOf map back to the library's indices.
   */
  lemma SolarToLunarReadsBack(date: SolarDate, library: SolarDate -> Option<LunarReading>)
    requires library(date).Some?
    ensures var r := SolarToLunar(date, library).value; var x := library(date).value;
      && r.year == x.year && r.month == x.month && r.day == x.day && r.isLeapMonth == x.isLeap
      && IndexOf(Tiangan, r.yearGan) == x.yearGan && IndexOf(Dizhi, r.yearZhi) == x.yearZhi
      && IndexOf(Tiangan, r.monthGan) == x.monthGan && IndexOf(Dizhi, r.monthZhi) == x.monthZhi
      && IndexOf(Tiangan, r.dayGan) == x.dayGan && IndexOf(Dizhi, r.dayZhi) == x.dayZhi
  {
    var x := library(date).value;
    StemIndexOf(x.yearGan);
    StemIndexOf(x.monthGan);
    StemIndexOf(x.dayGan);
    BranchIndexOf(x.yearZhi);
    BranchIndexOf(x.monthZhi);
    BranchIndexOf(x.dayZhi);
  }

  /** The four space-separated pillar tokens of `getBaziString`: year, month and day from the date, then the hour. */
  function BaziTokens(lunarDate: LunarDate, hour: int): seq<string> {
    [lunarDate.yearGan + lunarDate.yearZhi,
     lunarDate.monthGan + lunarDate.monthZhi,
     lunarDate.dayGan + lunarDate.dayZhi,
     Render(TimeGanAsWritten(hour, lunarDate.dayGan)) + TimeZhi(hour)]
  }

  /** `getBaziString`, with the hour stem of `getTimeGan` as written. */
  function BaziString(lunarDate: LunarDate, hour: int): string {
    var timeZhi := TimeZhi(hour);
    var timeGan := Render(TimeGanAsWritten(hour, lunarDate.dayGan));
    var year := lunarDate.yearGan + lunarDate.yearZhi;
    var month := lunarDate.monthGan + lunarDate.monthZhi;
    var day := lunarDate.dayGan + lunarDate.dayZhi;
    year + " " + month + " " + day + " " + (timeGan + timeZhi)
  }

  /** The pillar tokens with the hour stem of the five-rat rule (HourStem). */
  function BaziTokensCorrected(lunarDate: LunarDate, hour: int): seq<string> {
    [lunarDate.yearGan + lunarDate.yearZhi,
     lunarDate.monthGan + lunarDate.monthZhi,
     lunarDate.dayGan + lunarDate.dayZhi,
     Render(HourStem(hour, lunarDate.dayGan)) + TimeZhi(hour)]
  }

  /** The bazi string `getBaziString` evidently intends: its hour stem is HourStem. */
  function BaziStringCorrected(lunarDate: LunarDate, hour: int): string {
    var timeZhi := TimeZhi(hour);
    var timeGan := Render(HourStem(hour, lunarDate.dayGan));
    var year := lunarDate.yearGan + lunarDate.yearZhi;
    var month := lunarDate.monthGan + lunarDate.monthZhi;
    var day := lunarDate.dayGan + lunarDate.dayZhi;
    year + " " + month + " " + day + " " + (timeGan + timeZhi)
  }

  /** A single character other than a space. */
  predicate Glyph(s: string) {
    |s| == 1 && s[0] != ' '
  }

  /** The shape of a date from SolarToLunar: six single-character stems and branches, a real day stem. */
  predicate Pillars(d: LunarDate) {
    Glyph(d.yearGan) && Glyph(d.yearZhi) && Glyph(d.monthGan)
    && Glyph(d.monthZhi) && Glyph(d.dayGan) && Glyph(d.dayZhi)
    && d.dayGan in Tiangan
  }

  lemma GlyphsOfTables(d: StemIndex, b: BranchIndex)
    ensures Glyph(Tiangan[d]) && Glyph(Dizhi[b])
  {
    TablesAreSingleCharacters();
  }

  lemma SolarToLunarPillars(date: SolarDate, library: SolarDate -> Option<LunarReading>)
    requires library(date).Some?
    ensures Pillars(SolarToLunar(date, library).value)
  {
    var x := library(date).value;
    GlyphsOfTables(x.yearGan, x.yearZhi);
    GlyphsOfTables(x.monthGan, x.monthZhi);
    GlyphsOfTables(x.dayGan, x.dayZhi);
  }

  /** The corrected hour token's two halves: a stem or "undefined", and the hour's branch. */
  lemma HourTokenParts(hour: int, dayGan: string)
    ensures ' ' !in Render(HourStem(hour, dayGan)) && Glyph(TimeZhi(hour))
    ensures dayGan in Tiangan ==> Glyph(Render(HourStem(hour, dayGan)))
  {
    HourStemDefined(hour, dayGan);
    HourBranchIndexFindsBranch(hour);
    TablesAreSingleCharacters();
    if HourStem(hour, dayGan).Some? {
      var i := IndexOf(Tiangan, HourStem(hour, dayGan).value);
      IndexOfMissing(Tiangan, HourStem(hour, dayGan).value);
      GlyphsOfTables(i, HourBranchIndex(hour));
    } else {
      assert Render(HourStem(hour, dayGan)) == "undefined";
      GlyphsOfTables(0, HourBranchIndex(hour));
    }
  }

  /**
   * The hour stem as written is a stem of the table or "undefined", and for a
   * real day stem it is always a stem: the code's index then lies in 0..9.
   */
  lemma AsWrittenTokenParts(hour: int, dayGan: string)
    ensures ' ' !in Render(TimeGanAsWritten(hour, dayGan)) && Glyph(TimeZhi(hour))
    ensures dayGan in Tiangan ==> Glyph(Render(TimeGanAsWritten(hour, dayGan)))
  {
    var b := HourBranchIndex(hour);
    var d := IndexOf(Tiangan, dayGan);
    TimeGanAsWrittenByIndex(hour, dayGan);
    HourBranchIndexFindsBranch(hour);
    GlyphsOfTables(0, b);
    var i := AsWrittenIndex(d, b);
    if 0 <= i < 10 {
      GlyphsOfTables(i, b);
    } else {
      assert Render(TimeGanAsWritten(hour, dayGan)) == "undefined";
    }
    if dayGan in Tiangan {
      IndexOfMissing(Tiangan, dayGan);
      AsWrittenAgreement(d, b);
    }
  }

  /** Four tokens without a space, joined by single spaces, split back into themselves. */
  lemma FourTokensSplit(t: seq<string>)
    requires |t| == 4 && forall i :: 0 <= i < 4 ==> ' ' !in t[i]
    ensures Split(t[0] + " " + t[1] + " " + t[2] + " " + t[3], ' ') == t
  {
    JoinFour(t[0], t[1], t[2], t[3], " ");
    assert t == [t[0], t[1], t[2], t[3]];
    SplitJoin(t, ' ');
  }

  lemma BaziStringIsJoin(lunarDate: LunarDate, hour: int)
    ensures BaziString(lunarDate, hour) == Join(BaziTokens(lunarDate, hour), " ")
  {
    var t := BaziTokens(lunarDate, hour);
    JoinFour(t[0], t[1], t[2], t[3], " ");
    assert t == [t[0], t[1], t[2], t[3]];
  }

  /** The bazi string splits on spaces into exactly its four pillar tokens. */
  lemma BaziStringSplits(lunarDate: LunarDate, hour: int)
    requires ' ' !in lunarDate.yearGan && ' ' !in lunarDate.yearZhi && ' ' !in lunarDate.monthGan
    requires ' ' !in lunarDate.monthZhi && ' ' !in lunarDate.dayGan && ' ' !in lunarDate.dayZhi
    ensures Split(BaziString(lunarDate, hour), ' ') == BaziTokens(lunarDate, hour)
  {
    var t := BaziTokens(lunarDate, hour);
    AsWrittenTokenParts(hour, lunarDate.dayGan);
    FourTokensSplit(t);
  }

  /** Every token of a date shaped by SolarToLunar is two characters long. */
  lemma PillarTokensHaveTwoCharacters(lunarDate: LunarDate, hour: int)
    requires Pillars(lunarDate)
    ensures var t := BaziTokens(lunarDate, hour); |t| == 4 && forall i :: 0 <= i < 4 ==> |t[i]| == 2
  {
    AsWrittenTokenParts(hour, lunarDate.dayGan);
  }

  /** The corrected string splits on spaces into its four tokens, each two characters for a converted date. */
  lemma BaziStringCorrectedSplits(lunarDate: LunarDate, hour: int)
    requires ' ' !in lunarDate.yearGan && ' ' !in lunarDate.yearZhi && ' ' !in lunarDate.monthGan
    requires ' ' !in lunarDate.monthZhi && ' ' !in lunarDate.dayGan && ' ' !in lunarDate.dayZhi
    ensures Split(BaziStringCorrected(lunarDate, hour), ' ') == BaziTokensCorrected(lunarDate, hour)
    ensures Pillars(lunarDate) ==>
      var t := BaziTokensCorrected(lunarDate, hour); forall i :: 0 <= i < 4 ==> |t[i]| == 2
  {
    HourTokenParts(hour, lunarDate.dayGan);
    FourTokensSplit(BaziTokensCorrected(lunarDate, hour));
  }

  /**
   * `validateBazi`: invalid when the library throws, when the lunar year,
   * month or day is 0, or when the string is not four 2-character tokens.
   */
  function ValidateBazi(date: SolarDate, hour: int, library: SolarDate -> Option<LunarReading>): Validation {
    match SolarToLunar(date, library)
    case None => Invalid(CalculationError)
    case Some(lunarInfo) =>
      var baziString := BaziString(lunarInfo, hour);
      if lunarInfo.year == 0 || lunarInfo.month == 0 || lunarInfo.day == 0 then Invalid(LunarDateError)
      else
        var baziParts := Split(baziString, ' ');
        if |baziParts| != 4 || exists i :: 0 <= i < |baziParts| && |baziParts[i]| != 2 then Invalid(IncompleteBaziError)
        else Valid(lunarInfo, baziString)
  }

  lemma ValidateReading(date: SolarDate, hour: int, library: SolarDate -> Option<LunarReading>)
    requires library(date).Some?
    ensures var d := SolarToLunar(date, library).value;
      var parts := Split(BaziString(d, hour), ' ');
      |parts| == 4 && forall i :: 0 <= i < 4 ==> |parts[i]| == 2
  {
    var d := SolarToLunar(date, library).value;
    SolarToLunarPillars(date, library);
    BaziStringSplits(d, hour);
    PillarTokensHaveTwoCharacters(d, hour);
  }

  /**
   * With the library's indices in range, the structural check never fails:
   * the result is valid exactly when the library answers with a non-zero lunar
   * year, month and day, and a valid result holds the date and its four
   * two-character pillars.
   */
  lemma ValidateBaziCharacterized(date: SolarDate, hour: int, library: SolarDate -> Option<LunarReading>)
    ensures var v := ValidateBazi(date, hour, library);
      && (v.Valid? <==> library(date).Some? && library(date).value.year != 0
                        && library(date).value.month != 0 && library(date).value.day != 0)
      && (library(date).None? ==> v == Invalid(CalculationError))
      && (library(date).Some? && !v.Valid? ==> v == Invalid(LunarDateError))
      && (v.Valid? ==> Some(v.lunarInfo) == SolarToLunar(date, library)
                       && v.baziString == BaziString(v.lunarInfo, hour)
                       && var parts := Split(v.baziString, ' ');
                          |parts| == 4 && forall i :: 0 <= i < 4 ==> |parts[i]| == 2)
  {
    if library(date).Some? {
      ValidateReading(date, hour, library);
    }
  }

  /** The month name of `formatLunarDate`: `LUNAR_MONTH_NAMES[month] || '正月'`. */
  function MonthName(month: int): string {
    if month in LunarMonthNames then LunarMonthNames[month] else "正月"
  }

  /** `formatLunarDate`: year, 年, 闰 for a leap month, the month name, day, 日. */
  function FormatLunarDate(lunarDate: LunarDate): string {
    var monthName := MonthName(lunarDate.month);
    var leapPrefix := if lunarDate.isLeapMonth then "闰" else "";
    IntToString(lunarDate.year) + "年" + leapPrefix + monthName + IntToString(lunarDate.day) + "日"
  }

  /** Month names are two characters, none starts with 闰, and months outside 1..12 fall back to 正月. */
  lemma MonthNames(month: int)
    ensures |MonthName(month)| == 2 && MonthName(month)[0] != '闰'
    ensures !(1 <= month <= 12) ==> MonthName(month) == "正月"
    ensures 1 <= month <= 12 ==> MonthName(month) == LunarMonthNames[month]
  {
    assert month in LunarMonthNames <==> 1 <= month <= 12;
  }

  /** The twelve month names are distinct. */
  lemma MonthNamesDistinct(a: int, b: int)
    requires 1 <= a <= 12 && 1 <= b <= 12 && MonthName(a) == MonthName(b)
    ensures a == b
  {
    MonthNames(a);
    MonthNames(b);
  }

  /** Two strings each followed by a marker they do not contain split apart equally. */
  lemma SplitAtMarker(x1: string, r1: string, x2: string, r2: string, c: char)
    requires c !in x1 && c !in x2
    requires x1 + [c] + r1 == x2 + [c] + r2
    ensures x1 == x2 && r1 == r2
  {
    var s := x1 + [c] + r1;
    assert s[..|x1|] == x1;
    assert (x2 + [c] + r2)[..|x2|] == x2;
    IndexOfFirst(s, c, |x1|);
    IndexOfFirst(s, c, |x2|);
    assert r1 == s[|x1| + 1..];
    assert r2 == (x2 + [c] + r2)[|x2| + 1..];
  }

  /** The month name, day and 日 of the displayed date. */
  function MonthAndDay(lunarDate: LunarDate): string {
    MonthName(lunarDate.month) + IntToString(lunarDate.day) + "日"
  }

  /** What follows 年 in the displayed date. */
  function AfterYear(lunarDate: LunarDate): string {
    (if lunarDate.isLeapMonth then "闰" else "") + MonthAndDay(lunarDate)
  }

  lemma FormatSplitsAtYear(lunarDate: LunarDate)
    ensures FormatLunarDate(lunarDate) == IntToString(lunarDate.year) + ['年'] + AfterYear(lunarDate)
    ensures '年' !in IntToString(lunarDate.year)
  {
    NoMarkInNumber(lunarDate.year, '年');
  }

  /** The leap mark is present exactly for a leap month, and the rest follows it. */
  lemma LeapMark(a: LunarDate)
    ensures AfterYear(a)[0] == '闰' <==> a.isLeapMonth
    ensures AfterYear(a)[(if a.isLeapMonth then 1 else 0)..] == MonthAndDay(a)
  {
    MonthNames(a.month);
    var m := MonthAndDay(a);
    assert m[0] == MonthName(a.month)[0];
    if a.isLeapMonth {
      assert AfterYear(a) == ['闰'] + m;
    } else {
      assert AfterYear(a) == m;
    }
  }

  lemma MonthAndDayInjective(a: LunarDate, b: LunarDate)
    requires 1 <= a.month <= 12 && 1 <= b.month <= 12
    requires MonthAndDay(a) == MonthAndDay(b)
    ensures a.month == b.month && a.day == b.day
  {
    MonthNames(a.month);
    MonthNames(b.month);
    var ta := MonthAndDay(a);
    var tb := MonthAndDay(b);
    assert MonthName(a.month) == ta[..2] && MonthName(b.month) == tb[..2];
    MonthNamesDistinct(a.month, b.month);
    assert IntToString(a.day) == ta[2..|ta| - 1] && IntToString(b.day) == tb[2..|tb| - 1];
    IntToStringInjective(a.day, b.day);
  }

  /** After 年 the display says whether the month is leap, which month (1..12) and which day. */
  lemma AfterYearInjective(a: LunarDate, b: LunarDate)
    requires 1 <= a.month <= 12 && 1 <= b.month <= 12
    requires AfterYear(a) == AfterYear(b)
    ensures a.isLeapMonth == b.isLeapMonth && a.month == b.month && a.day == b.day
  {
    LeapMark(a);
    LeapMark(b);
    MonthAndDayInjective(a, b);
  }

  /**
   * The displayed lunar date is unambiguous for months 1..12: two dates that
   * display the same agree on year, leap flag, month and day.
   */
  lemma FormatLunarDateInjective(a: LunarDate, b: LunarDate)
    requires 1 <= a.month <= 12 && 1 <= b.month <= 12
    requires FormatLunarDate(a) == FormatLunarDate(b)
    ensures a.year == b.year && a.isLeapMonth == b.isLeapMonth && a.month == b.month && a.day == b.day
  {
    FormatSplitsAtYear(a);
    FormatSplitsAtYear(b);
    SplitAtMarker(IntToString(a.year), AfterYear(a), IntToString(b.year), AfterYear(b), '年');
    IntToStringInjective(a.year, b.year);
    AfterYearInjective(a, b);
  }

  /** `getTimeInfo`: the hour's branch, its name, its two-hour range and description. */
  function GetTimeInfo(hour: int): TimeInfo {
    var zhi := TimeZhi(hour);
    var range := if zhi in TimeRanges then Some(TimeRanges[zhi]) else None;
    TimeInfo(
      if zhi in TimeNames then Some(TimeNames[zhi]) else None,
      zhi,
      if range.Some? && range.value.start != 0 then range.value.start else 0,
      if range.Some? && range.value.end != 0 then range.value.end else 2,
      if range.Some? && range.value.desc != "" then range.value.desc else "")
  }

  /** Hour h lies in the range [start, end) read cyclically on a 24-hour clock. */
  predicate InCyclicRange(h: int, start: int, end: int) {
    if start < end then start <= h < end else start <= h || h < end
  }

  /** The timeRanges entry of branch b: from hour 2b-1 (mod 24) for two hours, with a description. */
  lemma BranchRange(b: BranchIndex)
    ensures Dizhi[b] in TimeRanges && Dizhi[b] in TimeNames
    ensures TimeRanges[Dizhi[b]].start == (2 * b + 23) % 24
    ensures TimeRanges[Dizhi[b]].end == (2 * b + 1) % 24
    ensures TimeRanges[Dizhi[b]].desc != ""
    ensures TimeNames[Dizhi[b]] == Dizhi[b] + "时"
  {
  }

  /** An hour of the day has branch b exactly when it lies in b's two-hour range. */
  lemma HourInBranchRange(h: int, b: BranchIndex)
    requires 0 <= h <= 23
    ensures HourBranchIndex(h) == b <==> InCyclicRange(h, (2 * b + 23) % 24, (2 * b + 1) % 24)
  {
  }

  /** Branch b names exactly the hours of its range. */
  lemma BranchHours(b: BranchIndex)
    ensures forall h :: 0 <= h <= 23 ==>
      (TimeZhi(h) == Dizhi[b] <==> InCyclicRange(h, (2 * b + 23) % 24, (2 * b + 1) % 24))
  {
    forall h | 0 <= h <= 23
      ensures TimeZhi(h) == Dizhi[b] <==> InCyclicRange(h, (2 * b + 23) % 24, (2 * b + 1) % 24)
    {
      var c := HourBranchIndex(h);
      HourBranchIndexFindsBranch(h);
      BranchIndexOf(b);
      BranchIndexOf(c);
      HourInBranchRange(h, b);
    }
  }

  lemma TimeInfoOfBranch(hour: int)
    ensures var b := HourBranchIndex(hour); var info := GetTimeInfo(hour);
      && info.zhi == Dizhi[b] && info.name == Some(Dizhi[b] + "时")
      && info.startHour == (2 * b + 23) % 24 && info.endHour == (2 * b + 1) % 24
      && info.description == TimeRanges[Dizhi[b]].desc
  {
    HourBranchIndexFindsBranch(hour);
    BranchRange(HourBranchIndex(hour));
  }

  /**
   * The time info agrees with the hour table: its name is the branch followed
   * by 时, its range spans two hours, and an hour of the day lies in that range
   * exactly when the table gives it the same branch.
   */
  lemma TimeInfoConsistent(hour: int)
    ensures var info := GetTimeInfo(hour);
      && info.zhi == TimeZhi(hour)
      && info.name == Some(info.zhi + "时")
      && info.description != ""
      && info.endHour == (info.startHour + 2) % 24
      && forall h :: 0 <= h <= 23 ==> (TimeZhi(h) == info.zhi <==> InCyclicRange(h, info.startHour, info.endHour))
  {
    var b := HourBranchIndex(hour);
    TimeInfoOfBranch(hour);
    BranchRange(b);
    BranchInfoConsistent(GetTimeInfo(hour), b);
  }

  /** A time info built from branch b's table entries agrees with the hour table. */
  lemma BranchInfoConsistent(info: TimeInfo, b: BranchIndex)
    requires info.zhi == Dizhi[b] && info.name == Some(Dizhi[b] + "时")
    requires info.startHour == (2 * b + 23) % 24 && info.endHour == (2 * b + 1) % 24
    ensures info.endHour == (info.startHour + 2) % 24
    ensures forall h :: 0 <= h <= 23 ==> (TimeZhi(h) == info.zhi <==> InCyclicRange(h, info.startHour, info.endHour))
  {
    BranchHours(b);
  }

  lemma ReferenceGlyphs()
    ensures Tiangan[3] == "丁" && Dizhi[5] == "巳" && Dizhi[7] == "未" && Tiangan[1] == "乙" && Dizhi[1] == "丑"
  {
  }

  /**
   * The 1977-07-07 07:07 reference pillars from the library's indices: the
   * code writes 丁巳 丁未 乙丑 癸辰, the five-rat rule gives 丁巳 丁未 乙丑 庚辰.
   */
  lemma ReferenceBazi(date: SolarDate, library: SolarDate -> Option<LunarReading>)
    requires library(date).Some?
    requires var x := library(date).value;
      x.yearGan == 3 && x.yearZhi == 5 && x.monthGan == 3 && x.monthZhi == 7 && x.dayGan == 1 && x.dayZhi == 1
    ensures BaziString(SolarToLunar(date, library).value, 7) == "丁巳 丁未 乙丑 癸辰"
    ensures BaziStringCorrected(SolarToLunar(date, library).value, 7) == "丁巳 丁未 乙丑 庚辰"
  {
    var d := SolarToLunar(date, library).value;
    ReferenceGlyphs();
    TimeGanReferenceCase();
    ReferenceTokens(d, Render(TimeGanAsWritten(7, d.dayGan)), "癸");
    ReferenceTokens(d, Render(HourStem(7, d.dayGan)), "庚");
  }

  /** The reference pillars with an hour stem g, written as one string. */
  lemma ReferenceTokens(d: LunarDate, stem: string, g: string)
    requires d.yearGan == "丁" && d.yearZhi == "巳" && d.monthGan == "丁"
    requires d.monthZhi == "未" && d.dayGan == "乙" && d.dayZhi == "丑"
    requires stem == g && |g| == 1
    ensures d.yearGan + d.yearZhi + " " + (d.monthGan + d.monthZhi) + " " + (d.dayGan + d.dayZhi) + " " + (stem + "辰")
      == "丁巳 丁未 乙丑 " + g + "辰"
  {
    var s := d.yearGan + d.yearZhi + " " + (d.monthGan + d.monthZhi) + " " + (d.dayGan + d.dayZhi) + " " + (stem + "辰");
    assert |s| == 11;
    assert forall i :: 0 <= i < 11 ==> s[i] == ("丁巳 丁未 乙丑 " + g + "辰")[i];
  }
}
