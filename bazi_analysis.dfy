/**
 * The derived analysis of the professional chart record: the five-element
 * tally over the four pillars with its dominant and weak elements and its
 * balance label, the ten-god tally with its dominant gods, and the chart
 * grade. The record is what the chart library returns; the model takes it
 * as given.
 */
module BaziAnalysis {
  import opened Wrappers
  import opened Text
  import opened Ranking
  import CacheEntries

  /** The five elements, in the key order of the tally object: 金 木 水 火 土. */
  datatype Element = Metal | Wood | Water | Fire | Earth

  const Elements: seq<Element> := [Metal, Wood, Water, Fire, Earth]

  function ElementName(e: Element): string {
    match e
    case Metal => "金"
    case Wood => "木"
    case Water => "水"
    case Fire => "火"
    case Earth => "土"
  }

  lemma ElementsListed(e: Element)
    ensures e in Elements && Distinct(Elements)
  {
  }

  /** A heavenly stem of a pillar: its element and ten god, each possibly missing (`""` is a missing god). */
  datatype Stem = Stem(element: Option<Element>, god: string)

  /** An earthly branch: its element and the ten gods of its hidden stems, in object order (`""` for a missing one). */
  datatype Branch = Branch(element: Option<Element>, hidden: seq<string>)

  datatype Pillar = Pillar(stem: Stem, branch: Branch)

  /** One luck period (大运): its stem-branch, the years and the ages it spans. */
  datatype LuckPeriod = LuckPeriod(ganZhi: string, startYear: int, end: int, startAge: int, endAge: int)

  /**
   * The fields of the library's record the analysis reads: the four pillars
   * (None when missing), the day master, the gender text, the symbolic stars
   * per pillar (None for a value that is not an array), the luck periods and,
   * per pillar, the combinations (合) of the clash-and-combination table.
   */
  datatype BaziResult = BaziResult(
    year: Option<Pillar>, month: Option<Pillar>, day: Option<Pillar>, hour: Option<Pillar>,
    dayMaster: string,
    gender: string,
    shenSha: Option<seq<Option<seq<string>>>>,
    luck: Option<seq<LuckPeriod>>,
    relations: Option<seq<seq<string>>>)

  /** `['年柱', '月柱', '日柱', '时柱']` looked up in the record. */
  function Pillars(r: BaziResult): (ps: seq<Option<Pillar>>)
    ensures |ps| == 4
  {
    [r.year, r.month, r.day, r.hour]
  }

  // ---------------------------------------------------------------- elements

  /** The tally object `{ 金: 0, 木: 0, 水: 0, 火: 0, 土: 0 }` and its updates. */
  datatype Distribution = Distribution(metal: nat, wood: nat, water: nat, fire: nat, earth: nat) {
    function Get(e: Element): nat {
      match e
      case Metal => metal
      case Wood => wood
      case Water => water
      case Fire => fire
      case Earth => earth
    }

    /** `wuxing[e]++`. */
    function Inc(e: Element): (d: Distribution)
      ensures d.Get(e) == Get(e) + 1
      ensures forall o :: o != e ==> d.Get(o) == Get(o)
    {
      match e
      case Metal => this.(metal := metal + 1)
      case Wood => this.(wood := wood + 1)
      case Water => this.(water := water + 1)
      case Fire => this.(fire := fire + 1)
      case Earth => this.(earth := earth + 1)
    }

    /** `Object.values(wuxing)`, in key order. */
    function Values(): (v: seq<int>)
      ensures |v| == 5 && forall i :: 0 <= i < 5 ==> v[i] == Get(Elements[i])
    {
      [metal, wood, water, fire, earth]
    }

    /** The sum of the counts (the `reduce`). */
    function Total(): nat {
      metal + wood + water + fire + earth
    }
  }

  const NoElements := Distribution(0, 0, 0, 0, 0)

  /** How often `e` is the element of a pillar's stem or branch. */
  function InPillar(p: Option<Pillar>, e: Element): (n: nat)
    ensures n <= 2
  {
    match p
    case None => 0
    case Some(q) =>
      Hits(q.stem.element, e) + Hits(q.branch.element, e)
  }

  /** How many of a pillar's stem and branch carry an element. */
  function Slots(p: Option<Pillar>): (n: nat)
    ensures n <= 2
  {
    match p
    case None => 0
    case Some(q) => (if q.stem.element.Some? then 1 else 0) + (if q.branch.element.Some? then 1 else 0)
  }

  /** How often `e` occurs over the pillars. */
  function Occurrences(ps: seq<Option<Pillar>>, e: Element): nat {
    if ps == [] then 0 else Occurrences(ps[..|ps| - 1], e) + InPillar(ps[|ps| - 1], e)
  }

  /** How many element slots the pillars fill. */
  function Present(ps: seq<Option<Pillar>>): nat {
    if ps == [] then 0 else Present(ps[..|ps| - 1]) + Slots(ps[|ps| - 1])
  }

  /** The tally the loop of `extractWuxingAnalysis` should reach. */
  function ElementTally(ps: seq<Option<Pillar>>): Distribution {
    Distribution(Occurrences(ps, Metal), Occurrences(ps, Wood), Occurrences(ps, Water),
                 Occurrences(ps, Fire), Occurrences(ps, Earth))
  }

  /** An element slot counts under at most one element: its own. */
  function Hits(o: Option<Element>, e: Element): nat {
    if o == Some(e) then 1 else 0
  }

  lemma SlotOnce(o: Option<Element>)
    ensures Hits(o, Metal) + Hits(o, Wood) + Hits(o, Water) + Hits(o, Fire) + Hits(o, Earth) == if o.Some? then 1 else 0
  {
    if o.Some? {
      var e := o.value;
      assert e == Metal || e == Wood || e == Water || e == Fire || e == Earth;
    }
  }

  lemma PillarTotal(p: Option<Pillar>)
    ensures InPillar(p, Metal) + InPillar(p, Wood) + InPillar(p, Water) + InPillar(p, Fire) + InPillar(p, Earth) == Slots(p)
  {
    if p.Some? {
      SlotOnce(p.value.stem.element);
      SlotOnce(p.value.branch.element);
    }
  }

  /** Each filled slot is counted once, under its own element, so the total is at most two per pillar. */
  lemma {:induction false} TallyTotal(ps: seq<Option<Pillar>>)
    ensures ElementTally(ps).Total() == Present(ps) <= 2 * |ps|
  {
    if ps != [] {
      var init, p := ps[..|ps| - 1], ps[|ps| - 1];
      TallyTotal(init);
      PillarTotal(p);
      assert Occurrences(ps, Metal) == Occurrences(init, Metal) + InPillar(p, Metal);
      assert Occurrences(ps, Wood) == Occurrences(init, Wood) + InPillar(p, Wood);
      assert Occurrences(ps, Water) == Occurrences(init, Water) + InPillar(p, Water);
      assert Occurrences(ps, Fire) == Occurrences(init, Fire) + InPillar(p, Fire);
      assert Occurrences(ps, Earth) == Occurrences(init, Earth) + InPillar(p, Earth);
      assert Present(ps) == Present(init) + Slots(p);
    }
  }

  /** One pass of the counting loop: the stem's element, then the branch's. */
  method CountPillar(d0: Distribution, p: Option<Pillar>) returns (d: Distribution)
    ensures forall e :: d.Get(e) == d0.Get(e) + InPillar(p, e)
  {
    d := d0;
    if p.Some? {
      if p.value.stem.element.Some? {
        d := d.Inc(p.value.stem.element.value);
      }
      if p.value.branch.element.Some? {
        d := d.Inc(p.value.branch.element.value);
      }
    }
  }

  /** The counting loop of `extractWuxingAnalysis`, over the pillars in order. */
  method CountPillars(ps: seq<Option<Pillar>>) returns (d: Distribution)
    ensures d == ElementTally(ps)
  {
    d := NoElements;
    var i := 0;
    while i < |ps|
      invariant 0 <= i <= |ps|
      invariant forall e :: d.Get(e) == Occurrences(ps[..i], e)
    {
      d := CountPillar(d, ps[i]);
      assert ps[..i + 1][..i] == ps[..i];
      i := i + 1;
    }
    assert ps[..i] == ps;
    assert d.Get(Metal) == ElementTally(ps).metal && d.Get(Wood) == ElementTally(ps).wood;
    assert d.Get(Water) == ElementTally(ps).water && d.Get(Fire) == ElementTally(ps).fire;
    assert d.Get(Earth) == ElementTally(ps).earth;
  }

  /** The element tally of the four pillars: at most eight elements. */
  method CountElements(r: BaziResult) returns (d: Distribution)
    ensures d == ElementTally(Pillars(r))
    ensures d.Total() <= 8
  {
    d := CountPillars(Pillars(r));
    TallyTotal(Pillars(r));
  }

  function IsPositive(d: Distribution): Element -> bool {
    e => d.Get(e) > 0
  }

  function IsZero(d: Distribution): Element -> bool {
    e => d.Get(e) == 0
  }

  /** The sort key of `(a, b) => b - a`: descending count is ascending negated count. */
  function ByCount(d: Distribution): Element -> int {
    e => 0 - d.Get(e) as int
  }

  /** `dominant`: the positive elements by descending count, ties in key order, at most two. */
  function DominantElements(d: Distribution): seq<Element> {
    Top(Keep(Elements, IsPositive(d)), ByCount(d), 2)
  }

  /** `weak`: the elements that do not occur, in key order. */
  function WeakElements(d: Distribution): seq<Element> {
    Keep(Elements, IsZero(d))
  }

  /** The dominant elements occur and there are two of them unless fewer elements occur. */
  lemma DominantElementsOccur(d: Distribution)
    ensures var dom := DominantElements(d);
      && Distinct(dom)
      && |dom| == (if |Keep(Elements, IsPositive(d))| <= 2 then |Keep(Elements, IsPositive(d))| else 2)
      && (forall x :: x in dom ==> d.Get(x) > 0)
  {
    var pos := Keep(Elements, IsPositive(d));
    ElementsListed(Metal);
    KeepMembers(Elements, IsPositive(d));
    KeepDistinct(Elements, IsPositive(d));
    TopFromInput(pos, ByCount(d), 2);
  }

  /** The dominant elements are listed by descending count. */
  lemma DominantElementsDescending(d: Distribution)
    ensures forall i, j :: 0 <= i < j < |DominantElements(d)| ==> d.Get(DominantElements(d)[i]) >= d.Get(DominantElements(d)[j])
  {
    var pos := Keep(Elements, IsPositive(d));
    ElementsListed(Metal);
    KeepDistinct(Elements, IsPositive(d));
    TopFromInput(pos, ByCount(d), 2);
    var dom := Top(pos, ByCount(d), 2);
    forall i, j | 0 <= i < j < |dom| ensures d.Get(dom[i]) >= d.Get(dom[j]) {
      assert ByCount(d)(dom[i]) <= ByCount(d)(dom[j]);
    }
  }

  /** No element left out of the dominant list occurs more often than one in it. */
  lemma DominantElementsBest(d: Distribution)
    ensures forall x, y :: x in DominantElements(d) && d.Get(y) > 0 && y !in DominantElements(d) ==> d.Get(x) >= d.Get(y)
  {
    var pos := Keep(Elements, IsPositive(d));
    ElementsListed(Metal);
    KeepMembers(Elements, IsPositive(d));
    KeepDistinct(Elements, IsPositive(d));
    TopIsBest(pos, ByCount(d), 2);
    var dom := Top(pos, ByCount(d), 2);
    forall x, y | x in dom && d.Get(y) > 0 && y !in dom ensures d.Get(x) >= d.Get(y) {
      ElementsListed(y);
      assert y in pos;
      assert ByCount(d)(x) <= ByCount(d)(y);
    }
  }

  /** Among elements of equal count, the dominant list takes them first to last in 金木水火土 order. */
  lemma DominantElementsStable(d: Distribution, c: nat)
    ensures WithKey(DominantElements(d), ByCount(d), 0 - c) <= WithKey(Keep(Elements, IsPositive(d)), ByCount(d), 0 - c)
  {
    TopIsStable(Keep(Elements, IsPositive(d)), ByCount(d), 2, 0 - c);
  }

  /** The weak elements are exactly those that do not occur, and none of them is dominant. */
  lemma WeakElementsSpec(d: Distribution)
    ensures Distinct(WeakElements(d))
    ensures forall e :: e in WeakElements(d) <==> d.Get(e) == 0
    ensures forall e :: e in WeakElements(d) ==> e !in DominantElements(d)
  {
    ElementsListed(Metal);
    KeepMembers(Elements, IsZero(d));
    KeepDistinct(Elements, IsZero(d));
    forall e ensures e in WeakElements(d) <==> d.Get(e) == 0 {
      ElementsListed(e);
    }
    DominantElementsOccur(d);
  }

  /** `max(...values) - min(...values)`. */
  function Spread(d: Distribution): int {
    CacheEntries.MaxOf(d.Values()) - CacheEntries.MinOf(d.Values())
  }

  /** The spread is the largest difference between two element counts. */
  lemma SpreadIsRange(d: Distribution)
    ensures forall a, b :: d.Get(a) - d.Get(b) <= Spread(d)
    ensures exists a, b :: d.Get(a) - d.Get(b) == Spread(d)
  {
    var v := d.Values();
    CacheEntries.MaxOfIsMaximum(v);
    CacheEntries.MinOfIsMinimum(v);
    forall a, b ensures d.Get(a) - d.Get(b) <= Spread(d) {
      ElementsListed(a);
      ElementsListed(b);
      var i :| 0 <= i < 5 && Elements[i] == a;
      var j :| 0 <= j < 5 && Elements[j] == b;
      assert v[i] == d.Get(a) && v[j] == d.Get(b);
    }
    var i :| 0 <= i < 5 && v[i] == CacheEntries.MaxOf(v);
    var j :| 0 <= j < 5 && v[j] == CacheEntries.MinOf(v);
    assert d.Get(Elements[i]) - d.Get(Elements[j]) == Spread(d);
  }

  /** The five balance labels, from best to worst. */
  const BalanceLabels: seq<string> := ["很平衡", "较平衡", "一般", "不平衡", "很不平衡"]

  /** The rating `calculateBalance` gives a spread: the index of its label. */
  function BalanceLevel(spread: int): (l: nat)
    ensures l < |BalanceLabels|
    ensures l == 0 <==> spread <= 1
    ensures l == 4 <==> spread > 4
  {
    if spread <= 1 then 0 else if spread <= 2 then 1 else if spread <= 3 then 2 else if spread <= 4 then 3 else 4
  }

  /** A wider spread never rates better. */
  lemma BalanceLevelMonotone(s1: int, s2: int)
    requires s1 <= s2
    ensures BalanceLevel(s1) <= BalanceLevel(s2)
  {
  }

  /** `calculateBalance`. */
  function Balance(d: Distribution): (b: string)
    ensures b in BalanceLabels
  {
    BalanceLabels[BalanceLevel(Spread(d))]
  }

  /** No balance label is 偏强 or 偏弱, so the two balance rules of the health advice never fire. */
  lemma BalanceNeverSkewed(d: Distribution)
    ensures Balance(d) != "偏强" && Balance(d) != "偏弱"
  {
    var b := Balance(d);
    assert b[0] != '偏';
  }

  function ElementNames(es: seq<Element>): (r: seq<string>)
    ensures |r| == |es|
  {
    if es == [] then [] else [ElementName(es[0])] + ElementNames(es[1..])
  }

  /** `generateWuxingAnalysis`. */
  function WuxingText(d: Distribution, dominant: seq<Element>, weak: seq<Element>): (text: string)
    ensures "五行" + Balance(d) + "，" <= text
  {
    var head := "五行" + Balance(d) + "，";
    var strong := if |dominant| > 0 then Join(ElementNames(dominant), "、") + "较旺，" else "";
    var lacking := if |weak| > 0 then Join(ElementNames(weak), "、") + "较弱，" else "";
    var advice := if |weak| > 0 then "建议在生活中多补益" + Join(ElementNames(weak), "、") + "相关的元素" else "五行配置相对均衡";
    assert head + strong + lacking + advice == head + (strong + lacking + advice);
    head + strong + lacking + advice
  }

  datatype WuxingAnalysis = WuxingAnalysis(
    distribution: Distribution,
    total: nat,
    dominant: seq<Element>,
    weak: seq<Element>,
    balance: string,
    analysis: string)

  /** `extractWuxingAnalysis`. */
  method ExtractWuxingAnalysis(r: BaziResult) returns (w: WuxingAnalysis)
    ensures w.distribution == ElementTally(Pillars(r))
    ensures w.total == Present(Pillars(r)) <= 8
    ensures w.dominant == DominantElements(w.distribution) && w.weak == WeakElements(w.distribution)
    ensures w.balance == Balance(w.distribution)
    ensures w.analysis == WuxingText(w.distribution, w.dominant, w.weak)
  {
    var d := CountElements(r);
    TallyTotal(Pillars(r));
    var dominant := DominantElements(d);
    var weak := WeakElements(d);
    w := WuxingAnalysis(d, d.Total(), dominant, weak, Balance(d), WuxingText(d, dominant, weak));
  }

  // --------------------------------------------------------------- ten gods

  /** The ten-god tally object: its keys in insertion order and their counts. */
  datatype GodTally = GodTally(order: seq<string>, counts: map<string, nat>)

  const NoGods := GodTally([], map[])

  /** `shiShen[god] = (shiShen[god] || 0) + 1`. */
  function AddGod(t: GodTally, g: string): GodTally {
    if g in t.counts then GodTally(t.order, t.counts[g := t.counts[g] + 1])
    else GodTally(t.order + [g], t.counts[g := 1])
  }

  /** The tally after counting `gods` in order. */
  function Tally(gods: seq<string>): GodTally {
    if gods == [] then NoGods else AddGod(Tally(gods[..|gods| - 1]), gods[|gods| - 1])
  }

  /** The tally lists each god once, in first-seen order, with the number of times it was seen. */
  lemma {:induction false} TallyCounts(gods: seq<string>)
    ensures Distinct(Tally(gods).order)
    ensures forall g :: g in Tally(gods).order <==> g in gods
    ensures forall g :: g in Tally(gods).counts <==> g in gods
    ensures forall g :: g in Tally(gods).counts ==> Tally(gods).counts[g] == multiset(gods)[g]
  {
    if gods != [] {
      var init := gods[..|gods| - 1];
      var g := gods[|gods| - 1];
      TallyCounts(init);
      assert gods == init + [g];
      var t := Tally(init);
      if g !in t.counts {
        forall i, j | 0 <= i < j < |t.order + [g]| ensures (t.order + [g])[i] != (t.order + [g])[j] {
          if j == |t.order| {
            assert (t.order + [g])[i] == t.order[i];
          }
        }
      }
    }
  }

  /** The truthy strings of `s`, in order. */
  function NonEmpty(s: seq<string>): seq<string> {
    if s == [] then [] else NonEmpty(s[..|s| - 1]) + (if s[|s| - 1] != "" then [s[|s| - 1]] else [])
  }

  /** The gods a pillar contributes: the stem's, then those of the hidden stems. */
  function StemGods(p: Pillar): seq<string> {
    if p.stem.god != "" then [p.stem.god] else []
  }

  function GodsOf(p: Option<Pillar>): seq<string> {
    match p
    case None => []
    case Some(q) => StemGods(q) + NonEmpty(q.branch.hidden)
  }

  /** Every god seen over the pillars, in visiting order. */
  function AllGods(ps: seq<Option<Pillar>>): seq<string> {
    if ps == [] then [] else AllGods(ps[..|ps| - 1]) + GodsOf(ps[|ps| - 1])
  }

  lemma TallyStep(gods: seq<string>, g: string)
    ensures Tally(gods + [g]) == AddGod(Tally(gods), g)
  {
    assert (gods + [g])[..|gods|] == gods;
  }

  /** The inner loop: the hidden stems' gods of one branch, counted onto a tally of `before`. */
  method TallyHidden(t0: GodTally, ghost before: seq<string>, hidden: seq<string>) returns (t: GodTally)
    requires t0 == Tally(before)
    ensures t == Tally(before + NonEmpty(hidden))
  {
    t := t0;
    var j := 0;
    assert before + NonEmpty(hidden[..0]) == before;
    while j < |hidden|
      invariant 0 <= j <= |hidden|
      invariant t == Tally(before + NonEmpty(hidden[..j]))
    {
      assert hidden[..j + 1][..j] == hidden[..j];
      if hidden[j] != "" {
        var seen := before + NonEmpty(hidden[..j]);
        TallyStep(seen, hidden[j]);
        assert seen + [hidden[j]] == before + NonEmpty(hidden[..j + 1]);
        t := AddGod(t, hidden[j]);
      } else {
        assert NonEmpty(hidden[..j + 1]) == NonEmpty(hidden[..j]);
      }
      j := j + 1;
    }
    assert hidden[..j] == hidden;
  }

  /** One pass of the outer loop: the stem's god, then the hidden stems' gods. */
  method TallyPillar(t0: GodTally, ghost before: seq<string>, p: Option<Pillar>) returns (t: GodTally)
    requires t0 == Tally(before)
    ensures t == Tally(before + GodsOf(p))
  {
    t := t0;
    if p.Some? {
      var q := p.value;
      if q.stem.god != "" {
        TallyStep(before, q.stem.god);
        t := AddGod(t, q.stem.god);
      } else {
        assert before + StemGods(q) == before;
      }
      t := TallyHidden(t, before + StemGods(q), q.branch.hidden);
      assert before + StemGods(q) + NonEmpty(q.branch.hidden) == before + GodsOf(p);
    } else {
      assert before + GodsOf(p) == before;
    }
  }

  /** The nested counting loops of `extractShiShenAnalysis`, over the pillars in order. */
  method TallyPillars(ps: seq<Option<Pillar>>) returns (t: GodTally)
    ensures t == Tally(AllGods(ps))
  {
    t := NoGods;
    var i := 0;
    while i < |ps|
      invariant 0 <= i <= |ps|
      invariant t == Tally(AllGods(ps[..i]))
    {
      assert ps[..i + 1][..i] == ps[..i];
      t := TallyPillar(t, AllGods(ps[..i]), ps[i]);
      i := i + 1;
    }
    assert ps[..i] == ps;
  }

  function ByGodCount(counts: map<string, nat>): string -> int {
    g => if g in counts then 0 - counts[g] as int else 0
  }

  /** The ten-god `dominant`: the most frequent gods, ties in first-seen order, at most `n`. */
  function DominantGods(t: GodTally, n: nat): seq<string> {
    Top(t.order, ByGodCount(t.counts), n)
  }

  /**
   * The dominant gods were seen, there are `n` of them unless fewer gods were
   * seen, they are listed by descending count, and none left out was seen more often.
   */
  lemma DominantGodsSpec(gods: seq<string>, n: nat)
    ensures var t := Tally(gods);
      var dom := DominantGods(t, n);
      && Distinct(dom)
      && |dom| == (if |t.order| <= n then |t.order| else n)
      && (forall x :: x in dom ==> x in gods)
      && (forall i, j :: 0 <= i < j < |dom| ==> multiset(gods)[dom[i]] >= multiset(gods)[dom[j]])
      && (forall x, y :: x in dom && y in gods && y !in dom ==> multiset(gods)[x] >= multiset(gods)[y])
  {
    var t := Tally(gods);
    TallyCounts(gods);
    TopFromInput(t.order, ByGodCount(t.counts), n);
    TopIsBest(t.order, ByGodCount(t.counts), n);
    var dom := DominantGods(t, n);
    forall i, j | 0 <= i < j < |dom| ensures multiset(gods)[dom[i]] >= multiset(gods)[dom[j]] {
      assert ByGodCount(t.counts)(dom[i]) <= ByGodCount(t.counts)(dom[j]);
    }
    forall x, y | x in dom && y in gods && y !in dom ensures multiset(gods)[x] >= multiset(gods)[y] {
      assert ByGodCount(t.counts)(x) <= ByGodCount(t.counts)(y);
    }
  }

  /** Among gods seen equally often, the dominant list takes them in the tally's first-seen order. */
  lemma DominantGodsStable(gods: seq<string>, n: nat, c: nat)
    ensures var t := Tally(gods);
      WithKey(DominantGods(t, n), ByGodCount(t.counts), 0 - c) <= WithKey(t.order, ByGodCount(t.counts), 0 - c)
  {
    var t := Tally(gods);
    TopIsStable(t.order, ByGodCount(t.counts), n, 0 - c);
  }

  /** `getShiShenCharacteristics` for one god: its trait, or the god's own name when it has none. */
  function Characteristic(god: string): string {
    if god == "正官" then "责任感强，适合管理工作"
    else if god == "七杀" then "魄力大，事业心强"
    else if god == "正财" then "务实稳重，善于理财"
    else if god == "偏财" then "交际能力强，有商业头脑"
    else if god == "食神" then "温和善良，有艺术天赋"
    else if god == "伤官" then "聪明机智，富有创意"
    else if god == "正印" then "有学问，得贵人相助"
    else if god == "偏印" then "思维独特，有特殊技能"
    else if god == "比肩" then "有主见，独立性强"
    else if god == "劫财" then "讲义气，社交能力强"
    else god
  }

  function Characteristics(gods: seq<string>): (r: seq<string>)
    ensures |r| == |gods|
  {
    if gods == [] then [] else [Characteristic(gods[0])] + Characteristics(gods[1..])
  }

  const NoGodsText := "十神配置均衡，各方面发展较为平均"

  /** `generateShiShenAnalysis`. */
  function ShiShenText(t: GodTally, dayMaster: string): string {
    if t.order == [] then NoGodsText
    else
      var top := DominantGods(t, 2);
      "日主为" + dayMaster + "，"
      + (if |top| > 0 then "十神以" + Join(top, "、") + "为主，" + Join(Characteristics(top), "，") else "")
  }

  /** The fixed text is given exactly when no god was seen. */
  lemma ShiShenTextFixed(gods: seq<string>, dayMaster: string)
    ensures ShiShenText(Tally(gods), dayMaster) == NoGodsText <==> gods == []
  {
    TallyCounts(gods);
    if gods != [] {
      assert gods[0] in Tally(gods).order;
      var text := ShiShenText(Tally(gods), dayMaster);
      assert text[0] == '日';
    }
  }

  datatype ShiShenAnalysis = ShiShenAnalysis(distribution: GodTally, dominant: seq<string>, analysis: string)

  /** `extractShiShenAnalysis`. */
  method ExtractShiShenAnalysis(r: BaziResult) returns (s: ShiShenAnalysis)
    ensures s.distribution == Tally(AllGods(Pillars(r)))
    ensures s.dominant == DominantGods(s.distribution, 3)
    ensures s.analysis == ShiShenText(s.distribution, r.dayMaster)
  {
    var t := TallyPillars(Pillars(r));
    s := ShiShenAnalysis(t, DominantGods(t, 3), ShiShenText(t, r.dayMaster));
  }

  // ------------------------------------------------------------------ grade

  /** The symbolic-star count: the total length of the values that are arrays. */
  function StarCount(values: seq<Option<seq<string>>>): nat {
    if values == [] then 0
    else StarCount(values[..|values| - 1]) + (match values[|values| - 1] case None => 0 case Some(a) => |a|)
  }

  /** Some pillar has a non-empty list of combinations. */
  predicate HasGoodRelations(relations: seq<seq<string>>) {
    exists i :: 0 <= i < |relations| && |relations[i]| > 0
  }

  function BalanceBonus(balance: string): nat {
    if balance == "很平衡" then 15 else if balance == "较平衡" then 10 else if balance == "一般" then 5 else 0
  }

  function StarBonus(shenSha: Option<seq<Option<seq<string>>>>): nat {
    match shenSha
    case None => 0
    case Some(v) => if StarCount(v) >= 8 then 10 else if StarCount(v) >= 5 then 5 else 0
  }

  function RelationBonus(relations: Option<seq<seq<string>>>): nat {
    match relations
    case None => 0
    case Some(v) => if HasGoodRelations(v) then 5 else 0
  }

  const Grades: seq<string> := ["上等八字", "中上八字", "中等八字", "中下八字", "普通八字"]

  /** The grade of a score. */
  function GradeOf(score: int): (g: string)
    ensures g in Grades
  {
    if score >= 90 then Grades[0] else if score >= 80 then Grades[1] else if score >= 70 then Grades[2]
    else if score >= 60 then Grades[3] else Grades[4]
  }

  /** `calculateProfessionalGrade`: the score starts at 70 and only gains bonuses. */
  method ProfessionalGrade(r: BaziResult) returns (grade: string)
    ensures grade == GradeOf(70 + BalanceBonus(Balance(ElementTally(Pillars(r)))) + StarBonus(r.shenSha) + RelationBonus(r.relations))
    ensures grade in Grades[..3]
  {
    var score := 70;
    var w := ExtractWuxingAnalysis(r);
    if w.balance == "很平衡" {
      score := score + 15;
    }
    if w.balance == "较平衡" {
      score := score + 10;
    }
    if w.balance == "一般" {
      score := score + 5;
    }
    assert score == 70 + BalanceBonus(w.balance);
    if r.shenSha.Some? {
      var count := StarCount(r.shenSha.value);
      if count >= 8 {
        score := score + 10;
      } else if count >= 5 {
        score := score + 5;
      }
    }
    if r.relations.Some? {
      if HasGoodRelations(r.relations.value) {
        score := score + 5;
      }
    }
    assert score == 70 + BalanceBonus(w.balance) + StarBonus(r.shenSha) + RelationBonus(r.relations);
    GradeRange(w.balance, r.shenSha, r.relations);
    grade := GradeOf(score);
  }

  /** The score lies in 70..100, so the two lowest grades are never given. */
  lemma GradeRange(balance: string, shenSha: Option<seq<Option<seq<string>>>>, relations: Option<seq<seq<string>>>)
    ensures 70 <= 70 + BalanceBonus(balance) + StarBonus(shenSha) + RelationBonus(relations) <= 100
    ensures GradeOf(70 + BalanceBonus(balance) + StarBonus(shenSha) + RelationBonus(relations)) in Grades[..3]
  {
  }
}
