/** The betting-history routes: the filtered and paginated listing with its
    summary statistics, the overall statistics, and the per-league and
    per-month rollups. Each aggregation pipeline is a function over the
    sequence of stored tips. */
module History {
  import opened Common
  import opened JsText
  import opened JsNumber
  import opened Collections
  import opened PronoModel

  /** The odds of the tips that carry them, in order: `$avg` skips a
      missing `cote`. */
  function Cotes(tips: seq<Tip>): (xs: seq<real>)
    ensures |xs| <= |tips|
    ensures forall x :: x in xs <==> exists t :: t in tips && t.cote == Some(x)
  {
    if tips == [] then []
    else
      var init := tips[..|tips| - 1];
      var last := tips[|tips| - 1];
      assert forall t :: t in tips <==> t in init || t == last;
      Cotes(init) + (if last.cote.Some? then [last.cote.value] else [])
  }

  function Sum(xs: seq<real>): real {
    if xs == [] then 0.0 else Sum(xs[..|xs| - 1]) + xs[|xs| - 1]
  }

  /** `$avg`: the mean, or `null` when there is no value to average. */
  function Mean(xs: seq<real>): Option<real> {
    if xs == [] then None else Some(Sum(xs) / |xs| as real)
  }

  lemma {:induction false} SumWithin(xs: seq<real>, lo: real, hi: real)
    requires forall x :: x in xs ==> lo <= x <= hi
    ensures |xs| as real * lo <= Sum(xs) <= |xs| as real * hi
  {
    if xs != [] {
      var init := xs[..|xs| - 1];
      assert forall x :: x in init ==> x in xs;
      SumWithin(init, lo, hi);
      assert xs[|xs| - 1] in xs;
    }
  }

  /** A mean lies between any bounds of the values averaged. */
  lemma MeanWithin(xs: seq<real>, lo: real, hi: real)
    requires xs != []
    requires forall x :: x in xs ==> lo <= x <= hi
    ensures lo <= Mean(xs).value <= hi
  {
    SumWithin(xs, lo, hi);
    var n := |xs| as real;
    assert Mean(xs).value * n == Sum(xs);
  }

  /** The summary the history routes send; the rate and the mean odds are
      exact numbers here (the route formats them with `toFixed`). */
  datatype Stats = Stats(
    total: nat,
    gagnants: nat,
    perdants: nat,
    enAttente: nat,
    tauxReussite: real,
    coteMoyenne: real)

  /** The share of won tips in percent, 0 for no tips. */
  function Rate(won: nat, total: nat): (r: real)
    requires won <= total
    ensures 0.0 <= r <= 100.0
    ensures total == 0 ==> r == 0.0
    ensures total > 0 ==> r * total as real == won as real * 100.0
  {
    if total > 0 then
      assert won as real / total as real <= 1.0;
      won as real / total as real * 100.0
    else 0.0
  }

  /** `$avg` of the odds, where a missing or zero mean reads as 0. */
  function MeanCote(tips: seq<Tip>): (m: real)
    ensures (forall t :: t in tips ==> t.cote.None?) ==> m == 0.0
  {
    var xs := Cotes(tips);
    if xs == [] then 0.0
    else
      assert xs[0] in xs;
      var mean := Mean(xs).value;
      if mean != 0.0 then mean else 0.0
  }

  /** `calculateStats` over the tips its `$match` stage selects: the three
      outcome counts, the win rate, and the mean odds. */
  function CalculateStats(tips: seq<Tip>): (s: Stats)
    ensures s.total == |tips|
    ensures s.gagnants == Count(tips, HasOutcome(GAGNANT))
    ensures s.perdants == Count(tips, HasOutcome(PERDANT))
    ensures s.enAttente == Count(tips, HasOutcome(PENDING))
    ensures s.tauxReussite == Rate(s.gagnants, s.total)
    ensures tips == [] ==> s == Stats(0, 0, 0, 0, 0.0, 0.0)
    ensures s.coteMoyenne == MeanCote(tips)
  {
    var won := Count(tips, HasOutcome(GAGNANT));
    Stats(|tips|, won, Count(tips, HasOutcome(PERDANT)), Count(tips, HasOutcome(PENDING)),
          Rate(won, |tips|), MeanCote(tips))
  }

  /** The three outcome counts never exceed the total, and add up to it
      exactly when every tip's `resultat` is one of the three values. */
  lemma {:induction false} OutcomeCounts(tips: seq<Tip>)
    ensures var s := CalculateStats(tips);
      s.gagnants + s.perdants + s.enAttente <= s.total
    ensures var s := CalculateStats(tips);
      s.gagnants + s.perdants + s.enAttente == s.total <==> forall t :: t in tips ==> IsOutcome(t.resultat)
  {
    var settled := (t: Tip) => t.resultat == GAGNANT || t.resultat == PERDANT;
    var known := (t: Tip) => IsOutcome(t.resultat);
    assert GAGNANT[0] != PERDANT[0] && GAGNANT[0] != PENDING[0] && PERDANT[2] != PENDING[2];
    CountDisjoint(tips, HasOutcome(GAGNANT), HasOutcome(PERDANT), settled);
    CountDisjoint(tips, settled, HasOutcome(PENDING), known);
    CountAll(tips, known);
  }

  /** When every odds value present lies between `lo` and `hi`, the mean
      odds lie between them too, provided some tip carries odds; tips
      without odds are skipped, and with none at all the mean reads 0. */
  lemma MeanOdds(tips: seq<Tip>, lo: real, hi: real)
    requires forall t :: t in tips && t.cote.Some? ==> lo <= t.cote.value <= hi
    ensures (exists t :: t in tips && t.cote.Some?) ==> lo <= CalculateStats(tips).coteMoyenne <= hi
    ensures (forall t :: t in tips ==> t.cote.None?) ==> CalculateStats(tips).coteMoyenne == 0.0
  {
    if exists t :: t in tips && t.cote.Some? {
      var u :| u in tips && u.cote.Some?;
      OddsWithin(tips, u, lo, hi);
    }
  }

  lemma OddsWithin(tips: seq<Tip>, u: Tip, lo: real, hi: real)
    requires forall t :: t in tips && t.cote.Some? ==> lo <= t.cote.value <= hi
    requires u in tips && u.cote.Some?
    ensures lo <= CalculateStats(tips).coteMoyenne <= hi
  {
    var xs := Cotes(tips);
    assert u.cote.value in xs;
    forall x | x in xs ensures lo <= x <= hi {
      var t :| t in tips && t.cote == Some(x);
    }
    MeanWithin(xs, lo, hi);
  }

  /** The query string of `GET /api/history`: `page` and `limit` as the
      numbers the handler computes with (1 and 20 when absent), the other
      parameters as the strings sent, if any. */
  datatype Query = Query(
    page: int,
    limit: int,
    league: Option<Text>,
    visibility: Option<Text>,
    resultat: Option<Text>,
    startDate: Option<Text>,
    endDate: Option<Text>)

  /** `new Date(text)` as an oracle: `None` is an invalid date. */
  type DateParser = Text -> Option<Instant>

  /** The filter document the handler builds; a field is `None` when the
      query leaves it out. */
  datatype Criteria = Criteria(
    league: Option<Text>,
    visibility: Option<Text>,
    resultat: Option<Text>,
    from: Option<Instant>,
    until: Option<Instant>)

  /** A date parameter that is given but does not parse; the store refuses
      to cast it and the handler answers 500. */
  predicate BadDate(d: Option<Text>, parse: DateParser) {
    Given(d) && parse(d.value).None?
  }

  function GivenOnly(q: Option<Text>): (r: Option<Text>)
    ensures r.Some? <==> Given(q)
    ensures r.Some? ==> r == q
  {
    if Given(q) then q else None
  }

  function DateBound(d: Option<Text>, parse: DateParser): Option<Instant> {
    if Given(d) then parse(d.value) else None
  }

  /** The filter of the history listing: each parameter is applied only
      when it is a non-empty string. */
  function BuildCriteria(q: Query, parse: DateParser): (c: Option<Criteria>)
    ensures c.None? <==> BadDate(q.startDate, parse) || BadDate(q.endDate, parse)
    ensures c.Some? ==> c.value.from.Some? == Given(q.startDate) && c.value.until.Some? == Given(q.endDate)
  {
    if BadDate(q.startDate, parse) || BadDate(q.endDate, parse) then None
    else Some(Criteria(GivenOnly(q.league), GivenOnly(q.visibility), GivenOnly(q.resultat),
                       DateBound(q.startDate, parse), DateBound(q.endDate, parse)))
  }

  /** Whether a tip passes the filter: the league as a case-insensitive
      pattern (a tip without a league never matches), `type` and
      `resultat` exactly, and the date within the inclusive bounds. */
  predicate Selects(c: Criteria, t: Tip) {
    && (c.league.Some? ==> t.league.Some? && Contains(Lower(t.league.value), Lower(c.league.value)))
    && (c.visibility.Some? ==> t.visibility == c.visibility.value)
    && (c.resultat.Some? ==> t.resultat == c.resultat.value)
    && (c.from.Some? ==> Rank(t.date) >= Rank(c.from.value))
    && (c.until.Some? ==> Rank(t.date) <= Rank(c.until.value))
  }

  function Selector(c: Criteria): Tip -> bool {
    (t: Tip) => Selects(c, t)
  }

  /** The conditions combine conjunctively and each applies exactly when
      its parameter is a non-empty string. */
  lemma QuerySelects(q: Query, parse: DateParser, t: Tip)
    requires BuildCriteria(q, parse).Some?
    ensures Selects(BuildCriteria(q, parse).value, t) <==>
      && (Given(q.league) ==> t.league.Some? && Contains(Lower(t.league.value), Lower(q.league.value)))
      && (Given(q.visibility) ==> t.visibility == q.visibility.value)
      && (Given(q.resultat) ==> t.resultat == q.resultat.value)
      && (Given(q.startDate) ==> Rank(t.date) >= Rank(parse(q.startDate.value).value))
      && (Given(q.endDate) ==> Rank(t.date) <= Rank(parse(q.endDate.value).value))
  {
  }

  /** The league pattern ignores case on both sides. */
  lemma LeagueIgnoresCase(c: Criteria, t: Tip)
    requires c.league.Some?
    ensures Selects(c, t) <==> Selects(c.(league := Some(Lower(c.league.value))), t)
  {
    LowerIdempotent(c.league.value);
  }

  /** `sort({ date: -1 })`: `a` may stand before `b`. */
  predicate LaterDate(a: Tip, b: Tip) {
    Rank(a.date) >= Rank(b.date)
  }

  lemma LaterDateOrders()
    ensures TotalPreorder(LaterDate)
  {
  }

  /** The number of documents `.limit(n)` lets through: none is no limit,
      and a negative limit counts as its absolute value. */
  function LimitOf(n: int): Option<nat> {
    if n == 0 then None else Some(if n < 0 then -n else n)
  }

  /** The documents from position `skip` on, at most `limit` of them. */
  function Window(s: seq<Tip>, skip: nat, limit: int): (r: seq<Tip>)
    ensures skip >= |s| ==> r == []
    ensures skip < |s| ==> skip + |r| <= |s| && r == s[skip..skip + |r|]
    ensures LimitOf(limit).None? && skip < |s| ==> |r| == |s| - skip
    ensures LimitOf(limit).Some? && skip < |s| ==>
              |r| == if |s| - skip < LimitOf(limit).value then |s| - skip else LimitOf(limit).value
  {
    if skip >= |s| then []
    else
      var rest := s[skip..];
      match LimitOf(limit)
      case None => rest
      case Some(n) => if |rest| <= n then rest else rest[..n]
  }

  /** With a positive limit, the tip at position `i` of the ordered
      listing is the `i % limit`-th of page `i / limit + 1`. */
  lemma PagePosition(s: seq<Tip>, limit: nat, i: nat)
    requires limit > 0 && i < |s|
    ensures var page := i / limit + 1;
      var w := Window(s, (page - 1) * limit, limit);
      i % limit < |w| && w[i % limit] == s[i]
  {
    var page := i / limit + 1;
    var skip := (page - 1) * limit;
    assert page - 1 == i / limit;
    assert skip + i % limit == i && i % limit < limit;
    var w := Window(s, skip, limit);
    assert LimitOf(limit) == Some(limit);
    assert skip < |s| && |w| == if |s| - skip <= limit then |s| - skip else limit;
    assert w[i % limit] == s[skip + i % limit];
  }

  /** `Math.ceil(total / limit)` for a non-zero limit. */
  function CeilDiv(total: nat, limit: int): (r: int)
    requires limit != 0
    ensures limit > 0 ==> (r - 1) * limit < total <= r * limit
    ensures limit < 0 ==> r * limit <= total < (r - 1) * limit
  {
    if limit > 0 then (total + limit - 1) / limit
    else
      var q := total / -limit;
      assert q * -limit <= total < (q + 1) * -limit;
      -q
  }

  /** One page of the selected tips, newest first. */
  function PageOf(selected: seq<Tip>, skip: nat, limit: int): (page: seq<Tip>)
    ensures SortedBy(page, LaterDate)
    ensures forall t :: t in page ==> t in selected
    ensures limit != 0 ==> |page| <= LimitOf(limit).value
    ensures page == Window(SortBy(selected, LaterDate), skip, limit)
  {
    var ordered := SortBy(selected, LaterDate);
    LaterDateOrders();
    SortBySorted(selected, LaterDate);
    SortByMembers(selected, LaterDate);
    var page := Window(ordered, skip, limit);
    assert forall t :: t in page ==> t in ordered;
    page
  }

  datatype Pagination = Pagination(page: int, limit: int, total: nat, pages: Option<int>)

  datatype HistoryPage = HistoryPage(pronos: seq<Tip>, pagination: Pagination, stats: Stats)

  /** `GET /api/history`: the selected tips, newest first, one page of
      them, the number selected and of pages (`null`, here `None`, for a
      zero limit, where the division gives no finite number), and the
      statistics of the same selection. A date that does not parse and a
      negative number of documents to skip are store errors, answered 500. */
  function ListHistory(tips: seq<Tip>, q: Query, parse: DateParser): (r: Reply<HistoryPage>)
    ensures r.Err? <==> BuildCriteria(q, parse).None? || (q.page - 1) * q.limit < 0
    ensures r.Err? ==> r == Err(500, "Erreur serveur")
    ensures r.Ok? ==> r.code == 200
    ensures r.Ok? ==> r.body.stats.total == r.body.pagination.total
    ensures r.Ok? ==> r.body.stats == CalculateStats(Filter(tips, Selector(BuildCriteria(q, parse).value)))
    ensures r.Ok? ==> r.body.pagination.total == Count(tips, Selector(BuildCriteria(q, parse).value))
    ensures r.Ok? ==> forall t :: t in r.body.pronos ==> t in tips && Selects(BuildCriteria(q, parse).value, t)
    ensures r.Ok? ==> SortedBy(r.body.pronos, LaterDate)
    ensures r.Ok? ==>
              (q.page - 1) * q.limit >= 0
              && r.body.pronos == PageOf(Filter(tips, Selector(BuildCriteria(q, parse).value)),
                                         ((q.page - 1) * q.limit) as nat, q.limit)
    ensures r.Ok? && q.limit != 0 ==> |r.body.pronos| <= LimitOf(q.limit).value
    ensures r.Ok? ==> r.body.pagination.page == q.page && r.body.pagination.limit == q.limit
    ensures r.Ok? ==> (r.body.pagination.pages.None? <==> q.limit == 0)
    ensures r.Ok? && q.limit != 0 ==> r.body.pagination.pages == Some(CeilDiv(r.body.pagination.total, q.limit))
  {
    match BuildCriteria(q, parse)
    case None => Err(500, "Erreur serveur")
    case Some(c) =>
      var skip := (q.page - 1) * q.limit;
      if skip < 0 then Err(500, "Erreur serveur")
      else
        var selected := Filter(tips, Selector(c));
        var total := |selected|;
        Ok(200, HistoryPage(PageOf(selected, skip, q.limit),
                            Pagination(q.page, q.limit, total, if q.limit == 0 then None else Some(CeilDiv(total, q.limit))),
                            CalculateStats(selected)))
  }

  /** `GET /api/history/stats`: the statistics of every tip, with no
      filter and no paging. */
  function OverallStats(tips: seq<Tip>): (s: Stats)
    ensures s.total == |tips|
    ensures s.gagnants == Count(tips, HasOutcome(GAGNANT))
    ensures s.perdants == Count(tips, HasOutcome(PERDANT))
    ensures s.enAttente == Count(tips, HasOutcome(PENDING))
    ensures s.tauxReussite == Rate(s.gagnants, s.total)
    ensures s.coteMoyenne == MeanCote(tips)
    ensures tips == [] ==> s == Stats(0, 0, 0, 0, 0.0, 0.0)
  {
    CalculateStats(tips)
  }

  /** A query with no filter parameter and a date-free filter reports the
      overall statistics. */
  lemma UnfilteredHistory(tips: seq<Tip>, q: Query, parse: DateParser)
    requires !Given(q.league) && !Given(q.visibility) && !Given(q.resultat)
    requires !Given(q.startDate) && !Given(q.endDate)
    requires q.page >= 1 && q.limit >= 0
    ensures ListHistory(tips, q, parse).Ok?
    ensures ListHistory(tips, q, parse).body.stats == OverallStats(tips)
  {
    var c := BuildCriteria(q, parse).value;
    assert forall t :: Selects(c, t);
    FilterAll(tips, Selector(c));
  }

  // ----- per-league rollup (`/stats/leagues`)

  /** The `$group` key of a tip; a tip without a league groups under `null`. */
  function LeagueOf(t: Tip): Option<Text> {
    t.league
  }

  datatype LeagueRow = LeagueRow(league: Option<Text>, total: nat, gagnants: nat, perdants: nat, tauxReussite: real)

  /** The group of one league: its size, its won and lost tips, and its rate. */
  function LeagueRowOf(tips: seq<Tip>, league: Option<Text>): (row: LeagueRow)
    ensures row.league == league
    ensures row.total == Count(tips, KeyIs(LeagueOf, league))
    ensures row.gagnants == Count(Filter(tips, KeyIs(LeagueOf, league)), HasOutcome(GAGNANT))
    ensures row.perdants == Count(Filter(tips, KeyIs(LeagueOf, league)), HasOutcome(PERDANT))
    ensures row.gagnants + row.perdants <= row.total
    ensures row.tauxReussite == Rate(row.gagnants, row.total)
  {
    var group := Filter(tips, KeyIs(LeagueOf, league));
    var won := Count(group, HasOutcome(GAGNANT));
    var lost := Count(group, HasOutcome(PERDANT));
    WonAndLost(group);
    LeagueRow(league, |group|, won, lost, Rate(won, |group|))
  }

  lemma WonAndLost(group: seq<Tip>)
    ensures Count(group, HasOutcome(GAGNANT)) + Count(group, HasOutcome(PERDANT)) <= |group|
  {
    var both := (t: Tip) => t.resultat == GAGNANT || t.resultat == PERDANT;
    assert GAGNANT[0] != PERDANT[0];
    CountDisjoint(group, HasOutcome(GAGNANT), HasOutcome(PERDANT), both);
  }

  function LeagueRows(tips: seq<Tip>, keys: seq<Option<Text>>): (rows: seq<LeagueRow>)
    ensures |rows| == |keys|
    ensures forall i :: 0 <= i < |keys| ==> rows[i] == LeagueRowOf(tips, keys[i])
  {
    seq(|keys|, i requires 0 <= i < |keys| => LeagueRowOf(tips, keys[i]))
  }

  /** The groups `$group` forms, one per league that occurs, in order of
      first appearance. */
  function LeagueGroups(tips: seq<Tip>): seq<LeagueRow> {
    LeagueRows(tips, Distinct(MapSeq(tips, LeagueOf)))
  }

  /** Every group holds at least one tip, and every tip's league has its group. */
  lemma LeagueGroupsCover(tips: seq<Tip>)
    ensures forall row :: row in LeagueGroups(tips) ==> row == LeagueRowOf(tips, row.league) && row.total >= 1
    ensures forall t :: t in tips ==> LeagueRowOf(tips, t.league) in LeagueGroups(tips)
  {
    var keys := Distinct(MapSeq(tips, LeagueOf));
    var groups := LeagueGroups(tips);
    forall row | row in groups ensures row == LeagueRowOf(tips, row.league) && row.total >= 1 {
      var i :| 0 <= i < |keys| && groups[i] == row;
      KeyOccurs(tips, LeagueOf, keys[i]);
    }
    forall t | t in tips ensures LeagueRowOf(tips, t.league) in groups {
      KeyOfMember(tips, LeagueOf, t);
      var i :| 0 <= i < |keys| && keys[i] == t.league;
      assert groups[i] == LeagueRowOf(tips, t.league);
    }
  }

  /** `$sort: { tauxReussite: -1 }`: `a` may stand before `b`. */
  predicate HigherRate(a: LeagueRow, b: LeagueRow) {
    a.tauxReussite >= b.tauxReussite
  }

  lemma HigherRateOrders()
    ensures TotalPreorder(HigherRate)
  {
  }

  /** `GET /api/history/stats/leagues`: one row per league that occurs, by
      win rate, highest first. */
  function LeagueStats(tips: seq<Tip>): (rows: seq<LeagueRow>)
    ensures SortedBy(rows, HigherRate)
    ensures forall row :: row in rows ==> row == LeagueRowOf(tips, row.league) && row.total >= 1
    ensures forall t :: t in tips ==> LeagueRowOf(tips, t.league) in rows
    ensures multiset(rows) == multiset(LeagueGroups(tips))
  {
    var groups := LeagueGroups(tips);
    HigherRateOrders();
    SortBySorted(groups, HigherRate);
    SortByMembers(groups, HigherRate);
    LeagueGroupsCover(tips);
    SortBy(groups, HigherRate)
  }

  function RowTotal(row: LeagueRow): int {
    row.total
  }

  /** Every tip is counted in exactly one league group. */
  lemma LeagueTotals(tips: seq<Tip>)
    ensures SumBy(LeagueStats(tips), RowTotal) == |tips|
  {
    var keys := Distinct(MapSeq(tips, LeagueOf));
    SumBySort(LeagueGroups(tips), HigherRate, RowTotal);
    forall t | t in tips ensures LeagueOf(t) in keys {
      KeyOfMember(tips, LeagueOf, t);
    }
    GroupsPartition(tips, LeagueOf, keys);
    RowTotals(tips, keys);
  }

  lemma {:induction false} RowTotals(tips: seq<Tip>, keys: seq<Option<Text>>)
    ensures SumBy(LeagueRows(tips, keys), RowTotal) == GroupSizes(tips, LeagueOf, keys)
  {
    if keys != [] {
      var init := keys[..|keys| - 1];
      RowTotals(tips, init);
      assert LeagueRows(tips, keys)[..|keys| - 1] == LeagueRows(tips, init);
    }
  }

  // ----- per-month rollup (`/stats/monthly`)

  /** `{ year: $year, month: $month }` of a tip's date. */
  function MonthOf(t: Tip): (int, int) {
    (t.date.year, t.date.month)
  }

  /** The month part of a label: a `0` in front exactly when it is below 10. */
  function MonthPart(month: int): Text {
    if month < 10 then "0" + IntToString(month) else IntToString(month)
  }

  /** `$concat` of the year, a dash and the month part. */
  function MonthLabel(year: int, month: int): Text {
    IntToString(year) + "-" + MonthPart(month)
  }

  /** For a calendar month the month part is two digits, starting with `0`
      exactly when the month is below 10. */
  lemma MonthPartDigits(month: int)
    requires 1 <= month <= 12
    ensures |MonthPart(month)| == 2
    ensures AllDigits(MonthPart(month))
    ensures MonthPart(month)[0] == '0' <==> month < 10
  {
    if month >= 10 {
      assert NatToString(month) == NatToString(1) + [DigitChar(month % 10)];
    }
  }

  /** A label is `YYYY-MM`: the year's digits, a dash, and the two-digit month. */
  lemma MonthLabelFormat(year: nat, month: int)
    requires 1 <= month <= 12
    ensures var s := MonthLabel(year, month);
      |s| == |NatToString(year)| + 3
      && s[..|NatToString(year)|] == NatToString(year)
      && s[|NatToString(year)|] == '-'
      && s[|NatToString(year)| + 1..] == MonthPart(month)
  {
    MonthPartDigits(month);
  }

  /** Distinct (year, month) pairs get distinct labels. */
  lemma MonthLabelInjective(y1: nat, m1: int, y2: nat, m2: int)
    requires 1 <= m1 <= 12 && 1 <= m2 <= 12
    requires MonthLabel(y1, m1) == MonthLabel(y2, m2)
    ensures y1 == y2 && m1 == m2
  {
    var s := MonthLabel(y1, m1);
    MonthLabelFormat(y1, m1);
    MonthLabelFormat(y2, m2);
    assert NatToString(y1) == s[..|NatToString(y1)|] == NatToString(y2);
    NatToStringInjective(y1, y2);
    MonthPartDigits(m1);
    MonthPartDigits(m2);
    assert MonthPart(m1) == MonthPart(m2);
    if m1 < 10 {
      assert NatToString(m1) == MonthPart(m1)[1..] == MonthPart(m2)[1..] == NatToString(m2);
    }
    NatToStringInjective(m1, m2);
  }

  datatype MonthRow = MonthRow(year: int, monthNumber: int, total: nat, gagnants: nat, tauxReussite: real, month: Text)

  function MonthRowOf(tips: seq<Tip>, key: (int, int)): (row: MonthRow)
    ensures row.year == key.0 && row.monthNumber == key.1
    ensures row.total == Count(tips, KeyIs(MonthOf, key))
    ensures row.gagnants == Count(Filter(tips, KeyIs(MonthOf, key)), HasOutcome(GAGNANT))
    ensures row.gagnants <= row.total
    ensures row.tauxReussite == Rate(row.gagnants, row.total)
    ensures row.month == MonthLabel(key.0, key.1)
  {
    var group := Filter(tips, KeyIs(MonthOf, key));
    var won := Count(group, HasOutcome(GAGNANT));
    MonthRow(key.0, key.1, |group|, won, Rate(won, |group|), MonthLabel(key.0, key.1))
  }

  function MonthRows(tips: seq<Tip>, keys: seq<(int, int)>): (rows: seq<MonthRow>)
    ensures |rows| == |keys|
    ensures forall i :: 0 <= i < |keys| ==> rows[i] == MonthRowOf(tips, keys[i])
  {
    seq(|keys|, i requires 0 <= i < |keys| => MonthRowOf(tips, keys[i]))
  }

  /** The groups `$group` forms, one per (year, month) that occurs. */
  function MonthGroups(tips: seq<Tip>): seq<MonthRow> {
    MonthRows(tips, Distinct(MapSeq(tips, MonthOf)))
  }

  lemma MonthGroupsCover(tips: seq<Tip>)
    ensures forall row :: row in MonthGroups(tips) ==> row == MonthRowOf(tips, (row.year, row.monthNumber)) && row.total >= 1
    ensures forall t :: t in tips ==> MonthRowOf(tips, MonthOf(t)) in MonthGroups(tips)
  {
    var keys := Distinct(MapSeq(tips, MonthOf));
    var groups := MonthGroups(tips);
    forall row | row in groups ensures row == MonthRowOf(tips, (row.year, row.monthNumber)) && row.total >= 1 {
      var i :| 0 <= i < |keys| && groups[i] == row;
      KeyOccurs(tips, MonthOf, keys[i]);
    }
    forall t | t in tips ensures MonthRowOf(tips, MonthOf(t)) in groups {
      KeyOfMember(tips, MonthOf, t);
      var i :| 0 <= i < |keys| && keys[i] == MonthOf(t);
      assert groups[i] == MonthRowOf(tips, MonthOf(t));
    }
  }

  /** `$sort: { month: -1 }`: `a`'s label sorts no earlier than `b`'s. */
  predicate LaterLabel(a: MonthRow, b: MonthRow) {
    LexAtMost(b.month, a.month)
  }

  lemma LaterLabelOrders()
    ensures TotalPreorder(LaterLabel)
  {
    forall a: MonthRow, b: MonthRow ensures LaterLabel(a, b) || LaterLabel(b, a) {
      LexTotal(a.month, b.month);
    }
    forall a: MonthRow, b: MonthRow, c: MonthRow | LaterLabel(a, b) && LaterLabel(b, c)
      ensures LaterLabel(a, c)
    {
      LexTransitive(c.month, b.month, a.month);
    }
  }

  /** The number of months the monthly rollup keeps. */
  const MONTHS_KEPT: nat := 12

  /** `GET /api/history/stats/monthly`: the month groups by label, latest
      first, the first twelve only. */
  function MonthlyStats(tips: seq<Tip>): (rows: seq<MonthRow>)
    ensures |rows| <= MONTHS_KEPT
    ensures |rows| == if |MonthGroups(tips)| <= MONTHS_KEPT then |MonthGroups(tips)| else MONTHS_KEPT
    ensures SortedBy(rows, LaterLabel)
    ensures forall row :: row in rows ==> row in MonthGroups(tips)
  {
    var groups := MonthGroups(tips);
    LaterLabelOrders();
    SortBySorted(groups, LaterLabel);
    SortByMembers(groups, LaterLabel);
    Take(SortBy(groups, LaterLabel), MONTHS_KEPT)
  }

  /** Each row is its month's group; a month that occurs is either kept,
      or twelve rows are kept and its label sorts no later than any of
      theirs. */
  lemma MonthlyKeepsLatest(tips: seq<Tip>, t: Tip)
    requires t in tips
    ensures forall row :: row in MonthlyStats(tips) ==> row == MonthRowOf(tips, (row.year, row.monthNumber)) && row.total >= 1
    ensures MonthRowOf(tips, MonthOf(t)) in MonthlyStats(tips)
            || (|MonthlyStats(tips)| == MONTHS_KEPT
                && forall row :: row in MonthlyStats(tips) ==> LexAtMost(MonthLabel(t.date.year, t.date.month), row.month))
  {
    var groups := MonthGroups(tips);
    MonthGroupsCover(tips);
    LaterLabelOrders();
    SortBySorted(groups, LaterLabel);
    SortByMembers(groups, LaterLabel);
    TakeSorted(SortBy(groups, LaterLabel), LaterLabel, MONTHS_KEPT, MonthRowOf(tips, MonthOf(t)));
  }
}
