/** The in-memory list of hand-entered live matches: add, update by id,
    delete by id, list and clear. The list lives as long as the server
    process; requests act on it one at a time. */
module LiveMatches {
  import opened Common
  import opened JsNumber
  import opened Collections

  /** A scalar JSON value sent for `minute`. */
  datatype Scalar = Num(n: real) | Str(s: Text)

  /** JavaScript truthiness of a request field holding a scalar. */
  predicate TruthyScalar(v: Value<Scalar>) {
    v.Defined? && match v.value
      case Num(n) => n != 0.0
      case Str(s) => s != ""
  }

  const DEFAULT_STATUS: Text := "LIVE"
  const DEFAULT_LEAGUE: Text := "Match personnalisé"
  const ADDED_BY: Text := "user"

  /** A stored live match. A team name is stored as sent, possibly
      missing; `minute` is `None` for `null`. */
  datatype LiveMatch = LiveMatch(
    id: Text,
    home: Value<Text>,
    away: Value<Text>,
    scoreHome: int,
    scoreAway: int,
    status: Text,
    minute: Option<Scalar>,
    league: Text,
    date: Instant,
    addedBy: Text,
    updatedAt: Instant)

  /** The body of `POST /add`. A score is the text `parseInt` reads. */
  datatype AddBody = AddBody(
    homeTeam: Value<Text>,
    awayTeam: Value<Text>,
    scoreHome: Value<Text>,
    scoreAway: Value<Text>,
    minute: Value<Scalar>,
    status: Value<Text>,
    league: Value<Text>)

  /** The body of `PUT /:id`. */
  datatype UpdateBody = UpdateBody(
    scoreHome: Value<Text>,
    scoreAway: Value<Text>,
    minute: Value<Scalar>,
    status: Value<Text>)

  /** `parseInt(v)`; a missing or `null` field reads as the text
      `undefined` or `null`, which is `NaN`. */
  function ParsedScore(v: Value<Text>): Option<int> {
    if v.Defined? then ParseInt(v.value) else None
  }

  /** `parseInt(v) || fallback`: `NaN` and 0 are both falsy. */
  function ScoreOr(v: Value<Text>, fallback: int): (n: int)
    ensures n == fallback <==> ParsedScore(v).None? || ParsedScore(v).value == 0 || ParsedScore(v).value == fallback
    ensures n != fallback ==> ParsedScore(v) == Some(n)
  {
    var p := ParsedScore(v);
    if p.Some? && p.value != 0 then p.value else fallback
  }

  /** `v || fallback` for a text field. */
  function TextOr(v: Value<Text>, fallback: Text): (t: Text)
    ensures Truthy(v) ==> t == v.value
    ensures !Truthy(v) ==> t == fallback
  {
    if Truthy(v) then v.value else fallback
  }

  /** The match `POST /add` builds, with the id and time the server
      supplies: unreadable or zero scores are 0, and a falsy status,
      minute or league takes its default. */
  function NewLiveMatch(b: AddBody, id: Text, now: Instant): (m: LiveMatch)
    ensures m.id == id && m.home == b.homeTeam && m.away == b.awayTeam
    ensures m.scoreHome == ScoreOr(b.scoreHome, 0) && m.scoreAway == ScoreOr(b.scoreAway, 0)
    ensures m.status == TextOr(b.status, DEFAULT_STATUS) && m.status != ""
    ensures m.league == TextOr(b.league, DEFAULT_LEAGUE) && m.league != ""
    ensures m.minute.Some? <==> TruthyScalar(b.minute)
    ensures m.minute.Some? ==> m.minute.value == b.minute.value
    ensures m.addedBy == ADDED_BY && m.date == now && m.updatedAt == now
  {
    LiveMatch(id, b.homeTeam, b.awayTeam, ScoreOr(b.scoreHome, 0), ScoreOr(b.scoreAway, 0),
              TextOr(b.status, DEFAULT_STATUS),
              if TruthyScalar(b.minute) then Some(b.minute.value) else None,
              TextOr(b.league, DEFAULT_LEAGUE), now, ADDED_BY, now)
  }

  /** The match after `PUT /:id`: a score is replaced only by a non-zero
      number, `minute` whenever the field is sent (even `null` or 0), the
      status only by a non-empty one; everything else is kept. */
  function Merge(m: LiveMatch, b: UpdateBody, now: Instant): (r: LiveMatch)
    ensures r.id == m.id && r.home == m.home && r.away == m.away
    ensures r.league == m.league && r.date == m.date && r.addedBy == m.addedBy
    ensures r.scoreHome == ScoreOr(b.scoreHome, m.scoreHome) && r.scoreAway == ScoreOr(b.scoreAway, m.scoreAway)
    ensures b.minute.Undefined? ==> r.minute == m.minute
    ensures b.minute.Null? ==> r.minute.None?
    ensures b.minute.Defined? ==> r.minute == Some(b.minute.value)
    ensures r.status == TextOr(b.status, m.status)
    ensures r.updatedAt == now
  {
    m.(scoreHome := ScoreOr(b.scoreHome, m.scoreHome),
       scoreAway := ScoreOr(b.scoreAway, m.scoreAway),
       minute := match b.minute
                 case Undefined => m.minute
                 case Null => None
                 case Defined(x) => Some(x),
       status := TextOr(b.status, m.status),
       updatedAt := now)
  }

  /** A score of 0 cannot be entered by an update: the old score stays. */
  lemma ZeroScoreKept(m: LiveMatch, b: UpdateBody, now: Instant)
    requires b.scoreHome == Defined("0")
    ensures Merge(m, b, now).scoreHome == m.scoreHome
  {
    assert ParseInt("0") == Some(0) by {
      ParsesNatToString(0);
    }
  }

  /** An update with an empty body changes only `updatedAt`. */
  lemma EmptyUpdate(m: LiveMatch, now: Instant)
    ensures Merge(m, UpdateBody(Undefined, Undefined, Undefined, Undefined), now) == m.(updatedAt := now)
  {
  }

  predicate WellFormed(m: LiveMatch) {
    m.status != "" && m.league != "" && m.addedBy == ADDED_BY
  }

  function HasId(id: Text): LiveMatch -> bool {
    (m: LiveMatch) => m.id == id
  }

  const NOT_FOUND: Text := "Match non trouvé"
  const CLEARED: Text := "Tous les matchs ont été supprimés"

  /** The list of live matches. Ids come from the clock, so two matches
      may share one; update and delete act on the first. */
  class LiveBoard {
    var matches: seq<LiveMatch>

    /** Every stored match has a status and a league and was added by a user. */
    ghost predicate Valid()
      reads this
    {
      forall m :: m in matches ==> WellFormed(m)
    }

    constructor ()
      ensures Valid() && matches == []
    {
      matches := [];
    }

    /** `POST /add`: append the new match and answer it. */
    method Add(b: AddBody, id: Text, now: Instant) returns (m: LiveMatch)
      requires Valid()
      modifies this
      ensures Valid()
      ensures m == NewLiveMatch(b, id, now)
      ensures matches == old(matches) + [m]
    {
      m := NewLiveMatch(b, id, now);
      matches := matches + [m];
    }

    /** `PUT /:id`: merge the body into the first match with that id, or
      answer 404 and change nothing. */
    method Update(id: Text, b: UpdateBody, now: Instant) returns (r: Reply<LiveMatch>)
      requires Valid()
      modifies this
      ensures Valid()
      ensures r.Err? <==> forall m :: m in old(matches) ==> m.id != id
      ensures r.Err? ==> r == Err(404, NOT_FOUND) && matches == old(matches)
      ensures r.Ok? ==> exists i :: 0 <= i < |old(matches)| && old(matches)[i].id == id
                         && (forall k :: 0 <= k < i ==> old(matches)[k].id != id)
                         && r == Ok(200, Merge(old(matches)[i], b, now))
                         && matches == old(matches)[i := r.body]
    {
      match FirstIndex(matches, HasId(id)) {
        case None =>
          r := Err(404, NOT_FOUND);
        case Some(i) =>
          var merged := Merge(matches[i], b, now);
          assert WellFormed(matches[i]);
          matches := matches[i := merged];
          r := Ok(200, merged);
      }
    }

    /** `DELETE /:id`: remove the first match with that id and answer it,
      or answer 404 and change nothing. */
    method Delete(id: Text) returns (r: Reply<LiveMatch>)
      requires Valid()
      modifies this
      ensures Valid()
      ensures r.Err? <==> forall m :: m in old(matches) ==> m.id != id
      ensures r.Err? ==> r == Err(404, NOT_FOUND) && matches == old(matches)
      ensures r.Ok? ==> |matches| == |old(matches)| - 1
      ensures r.Ok? ==> exists i :: 0 <= i < |old(matches)| && old(matches)[i] == r.body && r.body.id == id
                         && (forall k :: 0 <= k < i ==> old(matches)[k].id != id)
                         && matches == old(matches)[..i] + old(matches)[i + 1..]
    {
      match FirstIndex(matches, HasId(id)) {
        case None =>
          r := Err(404, NOT_FOUND);
        case Some(i) =>
          r := Ok(200, matches[i]);
          assert forall m :: m in matches[..i] + matches[i + 1..] ==> m in matches;
          matches := matches[..i] + matches[i + 1..];
      }
    }

    /** `GET /`. */
    function List(): (r: seq<LiveMatch>)
      reads this
      ensures r == matches
    {
      matches
    }

    /** `DELETE /`: empty the list. */
    method Clear() returns (message: Text)
      modifies this
      ensures Valid()
      ensures matches == [] && message == CLEARED
    {
      matches := [];
      message := CLEARED;
    }
  }

  /** Deleting the id of a match just added, when no earlier match has
      that id, restores the list. */
  method AddThenDelete(board: LiveBoard, b: AddBody, id: Text, now: Instant)
    requires board.Valid()
    requires forall m :: m in board.matches ==> m.id != id
    modifies board
    ensures board.Valid()
    ensures board.matches == old(board.matches)
  {
    var m := board.Add(b, id, now);
    var r := board.Delete(id);
    assert r.Ok?;
    ghost var i :| 0 <= i < |old(board.matches)| + 1 && (old(board.matches) + [m])[i].id == id
             && (forall k :: 0 <= k < i ==> (old(board.matches) + [m])[k].id != id)
             && board.matches == (old(board.matches) + [m])[..i] + (old(board.matches) + [m])[i + 1..];
    assert forall k :: 0 <= k < |old(board.matches)| ==> (old(board.matches) + [m])[k].id != id by {
      forall k | 0 <= k < |old(board.matches)| ensures (old(board.matches) + [m])[k].id != id {
        assert (old(board.matches) + [m])[k] == old(board.matches)[k] && old(board.matches)[k] in old(board.matches);
      }
    }
    assert i == |old(board.matches)|;
    assert board.matches == old(board.matches);
  }
}
