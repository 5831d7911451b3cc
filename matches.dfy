/** The match routes: the day's live and finished fixtures from the
    sports-data service, every tip by date, the unguarded result update
    and the count of tips per result. */
module Matches {
  import opened Common
  import opened Collections
  import opened PronoModel
  import opened FootballApi

  const NO_API_KEY: Text := "Clé API Sports non configurée"
  const SERVER_ERROR: Text := "Erreur serveur"
  const TIP_NOT_FOUND: Text := "Prono non trouvé"

  /** The statuses `/live` keeps: in play, full time, after extra time,
      after penalties. */
  predicate IsRelevant(f: Fixture) {
    f.status == "LIVE" || f.status == "FT" || f.status == "AET" || f.status == "PEN"
  }

  /** A fixture as `/live` answers it. */
  datatype LiveRow = LiveRow(
    id: int,
    home: Text,
    away: Text,
    scoreHome: int,
    scoreAway: int,
    status: Text,
    minute: Option<int>,
    league: Text,
    country: Text,
    date: Text)

  /** `elapsed || null`: a minute of 0 is answered as `null`. */
  function Minute(elapsed: Option<int>): (m: Option<int>)
    ensures m.Some? <==> elapsed.Some? && elapsed.value != 0
    ensures m.Some? ==> m == elapsed
  {
    if elapsed.Some? && elapsed.value != 0 then elapsed else None
  }

  /** The row for one fixture: a goal count of `null` or 0 is 0. */
  function Row(f: Fixture): (r: LiveRow)
    ensures r.id == f.id && r.home == f.home && r.away == f.away && r.status == f.status
    ensures r.scoreHome == Goals(f.homeGoals) && r.scoreAway == Goals(f.awayGoals)
    ensures f.homeGoals.Some? ==> r.scoreHome == f.homeGoals.value
    ensures f.homeGoals.None? ==> r.scoreHome == 0
    ensures r.minute == Minute(f.elapsed)
    ensures r.league == f.league && r.country == f.country && r.date == f.date
  {
    LiveRow(f.id, f.home, f.away, Goals(f.homeGoals), Goals(f.awayGoals), f.status,
            Minute(f.elapsed), f.league, f.country, f.date)
  }

  /** The rows for the fixtures the service returned, in its order. */
  function LiveRows(fixtures: seq<Fixture>): (rows: seq<LiveRow>)
    ensures |rows| == Count(fixtures, IsRelevant)
    ensures forall r :: r in rows ==> r.status in {"LIVE", "FT", "AET", "PEN"}
    ensures forall r :: r in rows ==> r.minute.None? || r.minute.value != 0
    ensures forall f :: f in fixtures && IsRelevant(f) ==> Row(f) in rows
    ensures forall r :: r in rows ==> exists f :: f in fixtures && IsRelevant(f) && r == Row(f)
  {
    var kept := Filter(fixtures, IsRelevant);
    var rows := MapSeq(kept, Row);
    forall f | f in kept ensures Row(f) in rows {
      var i :| 0 <= i < |kept| && kept[i] == f;
      assert rows[i] == Row(f);
    }
    forall r | r in rows ensures exists f :: f in fixtures && IsRelevant(f) && r == Row(f) {
      var i :| 0 <= i < |rows| && rows[i] == r;
      assert kept[i] in kept;
    }
    rows
  }

  /** The rows of two batches of fixtures are the rows of each batch, in
      the same order: the feed neither drops nor reorders what it keeps. */
  lemma LiveRowsAppend(a: seq<Fixture>, b: seq<Fixture>)
    ensures LiveRows(a + b) == LiveRows(a) + LiveRows(b)
  {
    FilterAppend(a, b, IsRelevant);
  }

  /** `GET /live`. Without an API key (missing or empty) the route
      answers 500 before calling the service; `fetched` is the service's
      fixture list, or `None` when the call fails. */
  function Live(apiKey: Option<Text>, fetched: Option<seq<Fixture>>): (r: Reply<seq<LiveRow>>)
    ensures !Given(apiKey) ==> r == Err(500, NO_API_KEY)
    ensures Given(apiKey) && fetched.None? ==> r == Err(500, SERVER_ERROR)
    ensures r.Ok? <==> Given(apiKey) && fetched.Some?
    ensures r.Ok? ==> r.code == 200 && r.body == LiveRows(fetched.value)
  {
    if !Given(apiKey) then Err(500, NO_API_KEY)
    else if fetched.None? then Err(500, SERVER_ERROR)
    else Ok(200, LiveRows(fetched.value))
  }

  /** `a` may stand before `b` in date order, earliest first. */
  predicate EarlierDate(a: Tip, b: Tip) {
    Rank(a.date) <= Rank(b.date)
  }

  lemma EarlierDateOrders()
    ensures TotalPreorder(EarlierDate)
  {
  }

  /** `GET /`: `Prono.find().sort({ date: 1 })`, every tip, earliest match first. */
  function ByDate(tips: seq<Tip>): (r: seq<Tip>)
    ensures multiset(r) == multiset(tips)
    ensures SortedBy(r, EarlierDate)
  {
    EarlierDateOrders();
    SortBySorted(tips, EarlierDate);
    SortBy(tips, EarlierDate)
  }

  /** `PUT /:id/result`. No authentication guards this route and no
      validator runs, so any text is stored as the result. A body without
      `resultat` updates nothing and answers the tip as it is. */
  method SetResult(store: TipStore, id: TipId, resultat: Option<Text>) returns (r: Reply<Tip>)
    requires store.Valid()
    modifies store
    ensures store.Valid()
    ensures r.Err? <==> forall t :: t in old(store.tips) ==> t.id != id
    ensures r.Err? ==> r == Err(404, TIP_NOT_FOUND) && store.tips == old(store.tips)
    ensures r.Ok? ==> exists i :: 0 <= i < |old(store.tips)| && old(store.tips)[i].id == id
                        && r == Ok(200, old(store.tips)[i].(resultat := Pick(resultat, old(store.tips)[i].resultat)))
                        && store.tips == old(store.tips)[i := r.body]
  {
    var patch := EMPTY_PATCH.(resultat := resultat);
    var updated := store.UpdateById(id, patch);
    match updated {
      case None =>
        r := Err(404, TIP_NOT_FOUND);
      case Some(t) =>
        r := Ok(200, t);
    }
  }

  /** One `$group` output document: a `resultat` value and how many tips
      have it. */
  datatype Group = Group(id: Text, count: nat)

  function CountOf(g: Group): int {
    g.count
  }

  function GroupIds(groups: seq<Group>): set<Text> {
    set g | g in groups :: g.id
  }

  const TOTAL: Text := "total"

  /** The one key a plain object cannot hold: assigning to it goes to the
      prototype setter, which ignores a number. */
  const PROTO: Text := "__proto__"

  /** The keys of the answer before any group is counted, all at 0. */
  const STAT_KEYS: set<Text> := {GAGNANT, PERDANT, PENDING, TOTAL}

  /** `__proto__` is longer than every initial key. */
  lemma ProtoIsNoStatKey()
    ensures PROTO !in STAT_KEYS
  {
    assert |PROTO| == 9;
    assert |GAGNANT| == 7 && |PERDANT| == 7 && |PENDING| == 7 && |TOTAL| == 5;
  }

  lemma GroupIdsSnoc(groups: seq<Group>, i: nat)
    requires i < |groups|
    ensures GroupIds(groups[..i + 1]) == GroupIds(groups[..i]) + {groups[i].id}
  {
    assert groups[..i + 1] == groups[..i] + [groups[i]];
  }

  /** `result[key] = count` on a plain object: a `__proto__` key is lost. */
  function Assign(m: map<Text, int>, key: Text, count: int): map<Text, int> {
    if key == PROTO then m else m[key := count]
  }

  /** The answer after counting `groups` one after the other, starting
      from every key of `STAT_KEYS` at 0: each group's count is written
      under its `resultat` and then added to `total`. */
  function Tally(groups: seq<Group>): map<Text, int> {
    if groups == [] then map[GAGNANT := 0, PERDANT := 0, PENDING := 0, TOTAL := 0]
    else
      var g := groups[|groups| - 1];
      var m := Assign(Tally(groups[..|groups| - 1]), g.id, g.count);
      m[TOTAL := m[TOTAL] + g.count]
  }

  /** The keys are the initial ones and the groups' results, except
      `__proto__`. */
  lemma {:induction false} TallyKeys(groups: seq<Group>)
    ensures Tally(groups).Keys == STAT_KEYS + (GroupIds(groups) - {PROTO})
  {
    if groups != [] {
      TallyKeys(groups[..|groups| - 1]);
      GroupIdsSnoc(groups, |groups| - 1);
      assert groups[..|groups|] == groups;
    }
  }

  /** With distinct keys, each group's count is its key's value, unless
      the key is `total` or `__proto__`. */
  lemma {:induction false} TallyCounts(groups: seq<Group>)
    requires forall i, j :: 0 <= i < j < |groups| ==> groups[i].id != groups[j].id
    ensures forall g :: g in groups && g.id != TOTAL && g.id != PROTO ==>
              g.id in Tally(groups) && Tally(groups)[g.id] == g.count
  {
    if groups != [] {
      var init := groups[..|groups| - 1];
      var last := groups[|groups| - 1];
      TallyCounts(init);
      forall g | g in groups && g.id != TOTAL && g.id != PROTO ensures g.id in Tally(groups) && Tally(groups)[g.id] == g.count {
        var k :| 0 <= k < |groups| && groups[k] == g;
        if k < |groups| - 1 {
          assert init[k] == g;
        }
      }
    }
  }

  /** A key no group has keeps its 0, except `total`. */
  lemma {:induction false} TallyZero(groups: seq<Group>, k: Text)
    requires k in Tally(groups) && k != TOTAL && k !in GroupIds(groups)
    ensures Tally(groups)[k] == 0
  {
    if groups != [] {
      GroupIdsSnoc(groups, |groups| - 1);
      assert groups[..|groups|] == groups;
      TallyKeys(groups[..|groups| - 1]);
      TallyZero(groups[..|groups| - 1], k);
    }
  }

  /** Without a group keyed `total`, `total` is the sum of the counts. */
  lemma {:induction false} TallyTotal(groups: seq<Group>)
    requires TOTAL !in GroupIds(groups)
    ensures TOTAL in Tally(groups) && Tally(groups)[TOTAL] == SumBy(groups, CountOf)
  {
    if groups != [] {
      GroupIdsSnoc(groups, |groups| - 1);
      assert groups[..|groups|] == groups;
      TallyTotal(groups[..|groups| - 1]);
    }
  }

  /** The `forEach` over the groups, proved to compute `Tally`. A group
      keyed `total` would overwrite the running total before adding to it;
      a group keyed `__proto__` is written nowhere but still counted in
      `total`. */
  method CountResults(groups: seq<Group>) returns (result: map<Text, int>)
    requires forall i, j :: 0 <= i < j < |groups| ==> groups[i].id != groups[j].id
    ensures result == Tally(groups)
    ensures result.Keys == STAT_KEYS + (GroupIds(groups) - {PROTO})
    ensures forall g :: g in groups && g.id != TOTAL && g.id != PROTO ==> result[g.id] == g.count
    ensures forall k :: k in result && k != TOTAL && k !in GroupIds(groups) ==> result[k] == 0
    ensures TOTAL !in GroupIds(groups) ==> result[TOTAL] == SumBy(groups, CountOf)
  {
    result := map[GAGNANT := 0, PERDANT := 0, PENDING := 0, TOTAL := 0];
    var i := 0;
    while i < |groups|
      invariant 0 <= i <= |groups|
      invariant result == Tally(groups[..i])
    {
      var g := groups[i];
      assert groups[..i + 1][..i] == groups[..i];
      if g.id != PROTO {
        result := result[g.id := g.count];
      }
      result := result[TOTAL := result[TOTAL] + g.count];
      i := i + 1;
    }
    assert groups[..i] == groups;
    TallyKeys(groups);
    TallyCounts(groups);
    forall k | k in result && k != TOTAL && k !in GroupIds(groups) ensures result[k] == 0 {
      TallyZero(groups, k);
    }
    if TOTAL !in GroupIds(groups) {
      TallyTotal(groups);
    }
  }

  /** The `$group` stage on `resultat`: one group per distinct value, in
      order of first appearance, with the number of tips that have it. */
  function ResultGroups(tips: seq<Tip>): (groups: seq<Group>)
    ensures forall i, j :: 0 <= i < j < |groups| ==> groups[i].id != groups[j].id
    ensures GroupIds(groups) == Results(tips)
    ensures forall g :: g in groups ==> g.count == Count(tips, HasOutcome(g.id))
    ensures SumBy(groups, CountOf) == |tips|
  {
    var keys := Distinct(MapSeq(tips, ResultOf));
    DistinctResults(tips);
    GroupIdsOfKeys(tips, keys);
    GroupCountsSum(tips, keys);
    GroupsPartition(tips, ResultOf, keys);
    MapSeq(keys, GroupOf(tips))
  }

  /** The results the tips carry. */
  function Results(tips: seq<Tip>): set<Text> {
    set t | t in tips :: t.resultat
  }

  /** The `$group` keys are the tips' results. */
  lemma DistinctResults(tips: seq<Tip>)
    ensures forall k :: k in Distinct(MapSeq(tips, ResultOf)) <==> k in Results(tips)
    ensures forall t :: t in tips ==> ResultOf(t) in Distinct(MapSeq(tips, ResultOf))
  {
    forall t | t in tips ensures ResultOf(t) in MapSeq(tips, ResultOf) {
      KeyOfMember(tips, ResultOf, t);
    }
    forall k | k in MapSeq(tips, ResultOf) ensures k in Results(tips) {
      var i :| 0 <= i < |tips| && MapSeq(tips, ResultOf)[i] == k;
      assert tips[i] in tips;
    }
  }

  /** One group per key, in the keys' order. */
  lemma GroupIdsOfKeys(tips: seq<Tip>, keys: seq<Text>)
    ensures GroupIds(MapSeq(keys, GroupOf(tips))) == set k | k in keys
    ensures NoDuplicates(keys) ==> forall i, j :: 0 <= i < j < |keys| ==>
              MapSeq(keys, GroupOf(tips))[i].id != MapSeq(keys, GroupOf(tips))[j].id
    ensures forall g :: g in MapSeq(keys, GroupOf(tips)) ==> g.count == Count(tips, HasOutcome(g.id))
  {
    var groups := MapSeq(keys, GroupOf(tips));
    forall k | k in keys ensures k in GroupIds(groups) {
      var i :| 0 <= i < |keys| && keys[i] == k;
      assert groups[i] in groups;
    }
    forall g | g in groups ensures g.id in keys && g.count == Count(tips, HasOutcome(g.id)) {
      var i :| 0 <= i < |groups| && groups[i] == g;
    }
  }

  /** The group of the tips whose result is `k`. */
  function GroupOf(tips: seq<Tip>): Text -> Group {
    (k: Text) => Group(k, Count(tips, HasOutcome(k)))
  }

  /** The counts of the groups for `keys` add up to the group sizes. */
  lemma {:induction false} GroupCountsSum(tips: seq<Tip>, keys: seq<Text>)
    ensures SumBy(MapSeq(keys, GroupOf(tips)), CountOf) == GroupSizes(tips, ResultOf, keys)
  {
    if keys != [] {
      var init := keys[..|keys| - 1];
      GroupCountsSum(tips, init);
      CountSame(tips, HasOutcome(keys[|keys| - 1]), KeyIs(ResultOf, keys[|keys| - 1]));
      assert MapSeq(keys, GroupOf(tips))[..|keys| - 1] == MapSeq(init, GroupOf(tips));
    }
  }

  /** `GET /stats`: the number of tips per result, with `gagnant`,
      `perdant` and `pending` present even when no tip has them, and the
      number of tips under `total` (unless a tip's result is the text
      `total` itself). Tips whose result is `__proto__` get no key of
      their own but are counted in `total`. */
  method ResultStats(store: TipStore) returns (result: map<Text, int>)
    ensures result.Keys == STAT_KEYS + (Results(store.tips) - {PROTO})
    ensures forall k :: k in result && k != TOTAL ==> result[k] == Count(store.tips, HasOutcome(k))
    ensures (forall t :: t in store.tips ==> t.resultat != TOTAL) ==> result[TOTAL] == |store.tips|
  {
    var groups := ResultGroups(store.tips);
    result := CountResults(groups);
    ProtoIsNoStatKey();
    forall k | k in result && k != TOTAL ensures result[k] == Count(store.tips, HasOutcome(k)) {
      assert k != PROTO;
      if k in GroupIds(groups) {
        var g :| g in groups && g.id == k;
      } else {
        forall t | t in store.tips ensures !HasOutcome(k)(t) {
          assert t.resultat in GroupIds(groups);
        }
        CountNone(store.tips, HasOutcome(k));
      }
    }
    if forall t :: t in store.tips ==> t.resultat != TOTAL {
      assert TOTAL !in GroupIds(groups);
    }
  }
}
