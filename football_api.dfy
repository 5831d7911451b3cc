/** The sports-data service's two pure operations: the keyword heuristic
    that guesses whether a tip's pick is winning from a fixture's score,
    and the display record built from a fixture. The two fetch operations
    are not modelled; their results are inputs here. */
module FootballApi {
  import opened Common
  import opened JsText
  import opened JsNumber

  /** A fixture as the sports-data API returns it (the fields the routes
      read). A goal count is `null` until the match has started. */
  datatype Fixture = Fixture(
    id: int,
    home: Text,
    away: Text,
    homeGoals: Option<int>,
    awayGoals: Option<int>,
    status: Text,
    elapsed: Option<int>,
    league: Text,
    country: Text,
    date: Text)

  /** The heuristic's answer: `'winning'`, `'losing'` or `'pending'`; it is
      advisory and never written to a tip. */
  datatype Verdict = Winning | Losing | Pending

  function VerdictOf(won: bool): Verdict {
    if won then Winning else Losing
  }

  /** A goal count as a relational operator or `+` sees it: `null` is 0. */
  function Goals(g: Option<int>): int {
    if g.Some? then g.value else 0
  }

  predicate IsNumberChar(c: char) {
    IsDigit(c) || c == '.'
  }

  /** The length of the run of digits and dots at the start of `s`. */
  function NumberRun(s: Text): (n: nat)
    ensures n <= |s|
    ensures forall k :: 0 <= k < n ==> IsNumberChar(s[k])
    ensures n == |s| || !IsNumberChar(s[n])
  {
    if s != [] && IsNumberChar(s[0]) then 1 + NumberRun(s[1..]) else 0
  }

  /** `run` stands at offset `i` of `s`, no digit or dot comes before
      it, and it cannot be extended to the right. */
  predicate FirstRunAt(s: Text, run: Text, i: nat) {
    i + |run| <= |s| && s[i..i + |run|] == run
    && (forall k :: 0 <= k < i ==> !IsNumberChar(s[k]))
    && (i + |run| == |s| || !IsNumberChar(s[i + |run|]))
  }

  /** `s.match(/[\d.]+/)?.[0]`: the first maximal run of digits and dots. */
  function FirstNumber(s: Text): (r: Option<Text>)
    ensures r.None? <==> forall k :: 0 <= k < |s| ==> !IsNumberChar(s[k])
    ensures r.Some? ==> r.value != [] && forall k :: 0 <= k < |r.value| ==> IsNumberChar(r.value[k])
    ensures r.Some? ==> exists i :: FirstRunAt(s, r.value, i)
  {
    if s == [] then None
    else if IsNumberChar(s[0]) then
      assert FirstRunAt(s, s[..NumberRun(s)], 0);
      Some(s[..NumberRun(s)])
    else
      var r := FirstNumber(s[1..]);
      assert forall k :: 0 < k < |s| ==> s[k] == s[1..][k - 1];
      if r.Some? then
        RunShifted(s, r.value);
        r
      else r
  }

  /** A first run after a leading non-number character is a first run of
      the whole text, one position further. */
  lemma RunShifted(s: Text, run: Text)
    requires s != [] && !IsNumberChar(s[0])
    requires exists i :: FirstRunAt(s[1..], run, i)
    ensures exists i :: FirstRunAt(s, run, i)
  {
    var i: nat :| FirstRunAt(s[1..], run, i);
    assert s[i + 1..i + 1 + |run|] == s[1..][i..i + |run|];
    assert forall k :: 0 < k < |s| ==> s[k] == s[1..][k - 1];
    assert FirstRunAt(s, run, i + 1);
  }

  /** `parseFloat(prono.match(/[\d.]+/)?.[0] || '2.5')`; `None` is `NaN`
      (a run such as `.` that holds no digit). */
  function Threshold(prono: Text): Option<real> {
    match FirstNumber(prono)
    case None => Some(2.5)
    case Some(run) => ParseFloat(run)
  }

  /** `x > t` and `x < t` against a number that may be `NaN`. */
  predicate Above(x: int, t: Option<real>) {
    t.Some? && x as real > t.value
  }

  predicate Below(x: int, t: Option<real>) {
    t.Some? && (x as real) < t.value
  }

  /** The keyword tests, on the lower-cased pick. */
  predicate VictoryHome(p: Text, f: Fixture) {
    Contains(p, "victoire") && Contains(p, Lower(f.home))
  }

  predicate VictoryAway(p: Text, f: Fixture) {
    Contains(p, "victoire") && !Contains(p, Lower(f.home)) && Contains(p, Lower(f.away))
  }

  predicate Draw(p: Text) {
    Contains(p, "nul") || Contains(p, "match nul")
  }

  predicate Over(p: Text) {
    Contains(p, "plus de") || Contains(p, "over")
  }

  predicate Under(p: Text) {
    Contains(p, "moins de") || Contains(p, "under")
  }

  /** `analyzePronoResult(match, prono)`: a victory pick naming the home
      team, then one naming the away team, then a draw, an over and an
      under pick, in that order; `Pending` when none applies. */
  function Analyze(f: Fixture, prono: Text): (v: Verdict)
    ensures v == Pending <==>
      var p := Lower(prono);
      !VictoryHome(p, f) && !VictoryAway(p, f) && !Draw(p) && !Over(p) && !Under(p)
  {
    var p := Lower(prono);
    var total := Goals(f.homeGoals) + Goals(f.awayGoals);
    if VictoryHome(p, f) then VerdictOf(Goals(f.homeGoals) > Goals(f.awayGoals))
    else if VictoryAway(p, f) then VerdictOf(Goals(f.awayGoals) > Goals(f.homeGoals))
    else if Draw(p) then VerdictOf(f.homeGoals == f.awayGoals)
    else if Over(p) then VerdictOf(Above(total, Threshold(prono)))
    else if Under(p) then VerdictOf(Below(total, Threshold(prono)))
    else Pending
  }

  /** A victory pick that names the home team is decided by the home team
      winning, whatever else the pick says. */
  lemma HomeVictoryDecides(f: Fixture, prono: Text)
    requires VictoryHome(Lower(prono), f)
    ensures Analyze(f, prono) == VerdictOf(Goals(f.homeGoals) > Goals(f.awayGoals))
  {
  }

  /** A victory pick that names the away team but not the home team is
      decided by the away team winning. */
  lemma AwayVictoryDecides(f: Fixture, prono: Text)
    requires VictoryAway(Lower(prono), f)
    ensures Analyze(f, prono) == VerdictOf(Goals(f.awayGoals) > Goals(f.homeGoals))
  {
  }

  /** A victory pick that names neither team is read by the later rules:
      as a draw pick if it says so, and as `Pending` if it has no other
      keyword. */
  lemma VictoryFallsThrough(f: Fixture, prono: Text)
    requires Contains(Lower(prono), "victoire")
    requires !Contains(Lower(prono), Lower(f.home)) && !Contains(Lower(prono), Lower(f.away))
    ensures Draw(Lower(prono)) ==> Analyze(f, prono) == VerdictOf(f.homeGoals == f.awayGoals)
    ensures !Draw(Lower(prono)) && !Over(Lower(prono)) && !Under(Lower(prono)) ==> Analyze(f, prono) == Pending
  {
  }

  /** Past the victory rule, a draw pick wins exactly on equal scores,
      where `null` equals only `null` (`===`). */
  lemma DrawDecides(f: Fixture, prono: Text)
    requires !VictoryHome(Lower(prono), f) && !VictoryAway(Lower(prono), f)
    requires Draw(Lower(prono))
    ensures Analyze(f, prono) == VerdictOf(f.homeGoals == f.awayGoals)
  {
  }

  /** Past the victory and draw rules, an over pick wins exactly when the
      total (with `null` as 0) exceeds the pick's threshold. */
  lemma OverDecides(f: Fixture, prono: Text)
    requires !VictoryHome(Lower(prono), f) && !VictoryAway(Lower(prono), f) && !Draw(Lower(prono))
    requires Over(Lower(prono))
    ensures Analyze(f, prono) == VerdictOf(Above(Goals(f.homeGoals) + Goals(f.awayGoals), Threshold(prono)))
  {
  }

  /** Past the victory, draw and over rules, an under pick wins exactly
      when the total is below the pick's threshold. */
  lemma UnderDecides(f: Fixture, prono: Text)
    requires !VictoryHome(Lower(prono), f) && !VictoryAway(Lower(prono), f) && !Draw(Lower(prono))
    requires !Over(Lower(prono)) && Under(Lower(prono))
    ensures Analyze(f, prono) == VerdictOf(Below(Goals(f.homeGoals) + Goals(f.awayGoals), Threshold(prono)))
  {
  }

  /** The second draw keyword adds nothing: a pick containing `match nul`
      contains `nul`. */
  lemma {:induction false} DrawIsNul(p: Text)
    ensures Draw(p) <==> Contains(p, "nul")
  {
    if Contains(p, "match nul") {
      assert OccursAt("match nul", "nul", 6);
      ContainsTransitive(p, "match nul", "nul");
    }
  }

  /** A pick with no digit and no dot is read against 2.5 goals, so an
      over pick wins from three goals on and an under pick up to two. */
  lemma {:induction false} DefaultThreshold(prono: Text, total: int)
    requires forall k :: 0 <= k < |prono| ==> !IsNumberChar(prono[k])
    ensures Above(total, Threshold(prono)) <==> total >= 3
    ensures Below(total, Threshold(prono)) <==> total <= 2
  {
  }

  /** A run of dots with no digit is `NaN`, so every over or under pick
      with it loses. */
  lemma DotsAreNaN(prono: Text, run: Text, total: int)
    requires FirstNumber(prono) == Some(run)
    requires forall k :: 0 <= k < |run| ==> run[k] == '.'
    ensures !Above(total, Threshold(prono)) && !Below(total, Threshold(prono))
  {
    ParseFloatDots(run);
  }

  /** A draw pick wins on 1-1 and loses on 2-1; a pick with no keyword
      (here "BTTS") abstains. */
  lemma DrawExamples(f: Fixture)
    ensures f.homeGoals == Some(1) && f.awayGoals == Some(1) ==> Analyze(f, "Match nul") == Winning
    ensures f.homeGoals == Some(2) && f.awayGoals == Some(1) ==> Analyze(f, "Match nul") == Losing
    ensures Analyze(f, "BTTS") == Pending
  {
    DrawPickReadsDraw(f);
    KeywordlessPickAbstains(f);
  }

  lemma DrawPickReadsDraw(f: Fixture)
    ensures f.homeGoals == Some(1) && f.awayGoals == Some(1) ==> Analyze(f, "Match nul") == Winning
    ensures f.homeGoals == Some(2) && f.awayGoals == Some(1) ==> Analyze(f, "Match nul") == Losing
  {
    assert Lower("Match nul") == "match nul";
    assert OccursAt("match nul", "nul", 6);
    AbsentFirstChar("match nul", "victoire");
  }

  lemma KeywordlessPickAbstains(f: Fixture)
    ensures Analyze(f, "BTTS") == Pending
  {
    assert Lower("BTTS") == "btts";
    AbsentFirstChar("btts", "victoire");
    AbsentFirstChar("btts", "nul");
    AbsentFirstChar("btts", "match nul");
    AbsentFirstChar("btts", "plus de");
    AbsentFirstChar("btts", "over");
    AbsentFirstChar("btts", "moins de");
    AbsentFirstChar("btts", "under");
  }

  /** What `formatMatchForDisplay` sends for a fixture and a pick. */
  datatype Display = Display(
    id: int,
    home: Text,
    away: Text,
    homeScore: Option<int>,
    awayScore: Option<int>,
    status: Text,
    minute: Option<int>,
    league: Text,
    prono: Text,
    pronoStatus: Verdict)

  /** `formatMatchForDisplay(match, userProno)`: the fixture's fields are
      passed on unchanged (a missing score stays `null`) and the pick's
      status is the heuristic's verdict, `Pending` exactly when no keyword
      of the pick applies. */
  function FormatForDisplay(f: Fixture, prono: Text): (d: Display)
    ensures d.id == f.id && d.home == f.home && d.away == f.away && d.league == f.league
    ensures d.homeScore == f.homeGoals && d.awayScore == f.awayGoals
    ensures d.status == f.status && d.minute == f.elapsed && d.prono == prono
    ensures d.pronoStatus == Analyze(f, prono)
    ensures d.pronoStatus == Pending <==>
      var p := Lower(prono);
      !VictoryHome(p, f) && !VictoryAway(p, f) && !Draw(p) && !Over(p) && !Under(p)
  {
    Display(f.id, f.home, f.away, f.homeGoals, f.awayGoals, f.status, f.elapsed, f.league,
            prono, Analyze(f, prono))
  }
}
