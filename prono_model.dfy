/** The `Prono` schema (a betting tip) and the collection of tips the
    routes read and write. */
module PronoModel {
  import opened Common
  import opened Collections

  const PUBLIC: Text := "public"
  const VIP: Text := "vip"
  const GAGNANT: Text := "gagnant"
  const PERDANT: Text := "perdant"
  const PENDING: Text := "pending"

  /** The schema's enumeration for `type`. */
  predicate IsVisibility(s: Text) {
    s == PUBLIC || s == VIP
  }

  /** The schema's enumeration for `resultat`. */
  predicate IsOutcome(s: Text) {
    s == GAGNANT || s == PERDANT || s == PENDING
  }

  type TipId = Text

  /** A stored tip. `fixture` is the document's `match` field and
      `visibility` its `type` field (both words are reserved in Dafny).
      The two enumerated fields are kept as text: an update through
      `findByIdAndUpdate` does not run the schema's validators, so it can
      store a value outside the enumeration. */
  datatype Tip = Tip(
    id: TipId,
    league: Option<Text>,
    fixture: Text,
    prono: Text,
    cote: Option<real>,
    date: Instant,
    visibility: Text,
    tag: Option<Text>,
    analyse: Option<Text>,
    resultat: Text,
    createdAt: Instant)

  /** What the schema guarantees of a tip it validated. */
  predicate SchemaValid(t: Tip) {
    t.fixture != "" && t.prono != "" && IsVisibility(t.visibility) && IsOutcome(t.resultat)
  }

  /** The fields handed to `Prono.create`; `None` is a field left out. */
  datatype Draft = Draft(
    league: Option<Text>,
    fixture: Option<Text>,
    prono: Option<Text>,
    cote: Option<real>,
    date: Instant,
    visibility: Option<Text>,
    tag: Option<Text>,
    analyse: Option<Text>,
    resultat: Option<Text>)

  /** A required string path is satisfied by a non-empty string only. */
  predicate Present(f: Option<Text>) {
    f.Some? && f.value != ""
  }

  function OrDefault(f: Option<Text>, default: Text): Text {
    if f.Some? then f.value else default
  }

  /** The validation messages of a draft, in the schema's path order:
      the required `match` and `prono`, then the two enumerations, checked
      after the defaults `public` and `pending` are filled in. */
  function Violations(d: Draft): (errors: seq<Text>)
    ensures errors == [] <==>
      Present(d.fixture) && Present(d.prono)
      && IsVisibility(OrDefault(d.visibility, PUBLIC)) && IsOutcome(OrDefault(d.resultat, PENDING))
  {
    (if Present(d.fixture) then [] else ["Path `match` is required."])
    + (if Present(d.prono) then [] else ["Path `prono` is required."])
    + (if IsVisibility(OrDefault(d.visibility, PUBLIC)) then []
       else ["`" + OrDefault(d.visibility, PUBLIC) + "` is not a valid enum value for path `type`."])
    + (if IsOutcome(OrDefault(d.resultat, PENDING)) then []
       else ["`" + OrDefault(d.resultat, PENDING) + "` is not a valid enum value for path `resultat`."])
  }

  datatype Created = Stored(tip: Tip) | ValidationError(messages: seq<Text>)

  /** `Prono.create(draft)`: fill in the defaults, validate, and build the
      document with the store's fresh `id` and the creation time `now`. */
  function Create(d: Draft, id: TipId, now: Instant): (r: Created)
    ensures r.Stored? <==> Violations(d) == []
    ensures r.Stored? ==> SchemaValid(r.tip) && r.tip.id == id && r.tip.createdAt == now
    ensures r.Stored? ==> Some(r.tip.fixture) == d.fixture && Some(r.tip.prono) == d.prono
    ensures r.Stored? ==> r.tip.league == d.league && r.tip.cote == d.cote && r.tip.date == d.date
    ensures r.Stored? ==> r.tip.tag == d.tag && r.tip.analyse == d.analyse
    ensures r.Stored? ==> r.tip.visibility == (if d.visibility.Some? then d.visibility.value else PUBLIC)
    ensures r.Stored? ==> r.tip.resultat == (if d.resultat.Some? then d.resultat.value else PENDING)
  {
    var errors := Violations(d);
    if errors != [] then ValidationError(errors)
    else Stored(Tip(id, d.league, d.fixture.value, d.prono.value, d.cote, d.date,
                    OrDefault(d.visibility, PUBLIC), d.tag, d.analyse,
                    OrDefault(d.resultat, PENDING), now))
  }

  /** A draft without `type` and `resultat` is stored as a public, pending tip. */
  lemma CreateDefaults(d: Draft, id: TipId, now: Instant)
    requires d.visibility.None? && d.resultat.None?
    requires Present(d.fixture) && Present(d.prono)
    ensures Create(d, id, now).Stored?
    ensures Create(d, id, now).tip.visibility == PUBLIC && Create(d, id, now).tip.resultat == PENDING
  {
  }

  /** An update body for `findByIdAndUpdate`: each field that is present
      replaces the stored one; no validator runs, and `createdAt` may be
      sent like any other field. */
  datatype Patch = Patch(
    league: Option<Option<Text>>,
    fixture: Option<Text>,
    prono: Option<Text>,
    cote: Option<Option<real>>,
    date: Option<Instant>,
    visibility: Option<Text>,
    tag: Option<Option<Text>>,
    analyse: Option<Option<Text>>,
    resultat: Option<Text>,
    createdAt: Option<Instant>)

  const EMPTY_PATCH: Patch := Patch(None, None, None, None, None, None, None, None, None, None)

  function Pick<T>(f: Option<T>, current: T): T {
    if f.Some? then f.value else current
  }

  /** The tip after an update with `p`: every field the patch carries
      takes the patch's value, every other field, and `id`, stays. */
  function ApplyPatch(t: Tip, p: Patch): (r: Tip)
    ensures r.id == t.id
    ensures p.league.Some? ==> r.league == p.league.value
    ensures p.league.None? ==> r.league == t.league
    ensures p.fixture.Some? ==> r.fixture == p.fixture.value
    ensures p.fixture.None? ==> r.fixture == t.fixture
    ensures p.prono.Some? ==> r.prono == p.prono.value
    ensures p.prono.None? ==> r.prono == t.prono
    ensures p.cote.Some? ==> r.cote == p.cote.value
    ensures p.cote.None? ==> r.cote == t.cote
    ensures p.date.Some? ==> r.date == p.date.value
    ensures p.date.None? ==> r.date == t.date
    ensures p.visibility.Some? ==> r.visibility == p.visibility.value
    ensures p.visibility.None? ==> r.visibility == t.visibility
    ensures p.tag.Some? ==> r.tag == p.tag.value
    ensures p.tag.None? ==> r.tag == t.tag
    ensures p.analyse.Some? ==> r.analyse == p.analyse.value
    ensures p.analyse.None? ==> r.analyse == t.analyse
    ensures p.resultat.Some? ==> r.resultat == p.resultat.value
    ensures p.resultat.None? ==> r.resultat == t.resultat
    ensures p.createdAt.Some? ==> r.createdAt == p.createdAt.value
    ensures p.createdAt.None? ==> r.createdAt == t.createdAt
    ensures p == EMPTY_PATCH ==> r == t
  {
    t.(league := Pick(p.league, t.league), fixture := Pick(p.fixture, t.fixture),
       prono := Pick(p.prono, t.prono), cote := Pick(p.cote, t.cote), date := Pick(p.date, t.date),
       visibility := Pick(p.visibility, t.visibility), tag := Pick(p.tag, t.tag),
       analyse := Pick(p.analyse, t.analyse), resultat := Pick(p.resultat, t.resultat),
       createdAt := Pick(p.createdAt, t.createdAt))
  }

  /** A patch that carries every field but the id. */
  predicate FullPatch(p: Patch) {
    p.league.Some? && p.fixture.Some? && p.prono.Some? && p.cote.Some? && p.date.Some?
    && p.visibility.Some? && p.tag.Some? && p.analyse.Some? && p.resultat.Some? && p.createdAt.Some?
  }

  /** Sending the same update twice stores the same tip as sending it once,
      and the result does not depend on the fields the patch replaces. */
  lemma PatchIdempotent(t: Tip, u: Tip, p: Patch)
    ensures ApplyPatch(ApplyPatch(t, p), p) == ApplyPatch(t, p)
    ensures FullPatch(p) && u.id == t.id ==> ApplyPatch(u, p) == ApplyPatch(t, p)
  {
  }

  /** The patch `{ resultat }` that `PUT /api/matches/:id/result` sends. */
  function ResultPatch(resultat: Text): Patch {
    EMPTY_PATCH.(resultat := Some(resultat))
  }

  predicate IdsUnique(tips: seq<Tip>) {
    forall i, j :: 0 <= i < j < |tips| ==> tips[i].id != tips[j].id
  }

  /** The `resultat` field, the key `$group` uses in the result stats. */
  function ResultOf(t: Tip): Text {
    t.resultat
  }

  /** The filter `resultat == r`. */
  function HasOutcome(r: Text): Tip -> bool {
    (t: Tip) => t.resultat == r
  }

  function HasId(id: TipId): Tip -> bool {
    (t: Tip) => t.id == id
  }

  /** The `Prono` collection, in natural (insertion) order. */
  class TipStore {
    var tips: seq<Tip>

    ghost predicate Valid()
      reads this
    {
      IdsUnique(tips)
    }

    constructor ()
      ensures Valid() && tips == []
    {
      tips := [];
    }

    /** Insert a document; the store hands out an id no document has. */
    method Insert(t: Tip)
      requires Valid()
      requires forall u :: u in tips ==> u.id != t.id
      modifies this
      ensures Valid()
      ensures tips == old(tips) + [t]
    {
      tips := tips + [t];
    }

    /** `findById`. */
    function Find(id: TipId): (r: Option<Tip>)
      reads this
      requires Valid()
      ensures r.None? <==> forall t :: t in tips ==> t.id != id
      ensures r.Some? ==> r.value in tips && r.value.id == id
    {
      match FirstIndex(tips, HasId(id))
      case None => None
      case Some(i) => Some(tips[i])
    }

    /** `findByIdAndUpdate(id, p, { new: true })`: the updated tip, or
        `None` (and no change) when no tip has that id. */
    method UpdateById(id: TipId, p: Patch) returns (r: Option<Tip>)
      requires Valid()
      modifies this
      ensures Valid()
      ensures r.None? <==> forall t :: t in old(tips) ==> t.id != id
      ensures r.None? ==> tips == old(tips)
      ensures r.Some? ==> exists i :: 0 <= i < |old(tips)| && old(tips)[i].id == id
                           && r.value == ApplyPatch(old(tips)[i], p) && tips == old(tips)[i := r.value]
    {
      match FirstIndex(tips, HasId(id)) {
        case None =>
          r := None;
        case Some(i) =>
          var updated := ApplyPatch(tips[i], p);
          tips := tips[i := updated];
          r := Some(updated);
      }
    }

    /** `findByIdAndDelete(id)`: the removed tip, or `None` (and no change). */
    method DeleteById(id: TipId) returns (r: Option<Tip>)
      requires Valid()
      modifies this
      ensures Valid()
      ensures r.None? <==> forall t :: t in old(tips) ==> t.id != id
      ensures r.None? ==> tips == old(tips)
      ensures r.Some? ==> exists i :: 0 <= i < |old(tips)| && old(tips)[i] == r.value && r.value.id == id
                           && tips == old(tips)[..i] + old(tips)[i + 1..]
      ensures forall t :: t in tips <==> t in old(tips) && t.id != id
    {
      match FirstIndex(tips, HasId(id)) {
        case None =>
          r := None;
        case Some(i) =>
          r := Some(tips[i]);
          tips := tips[..i] + tips[i + 1..];
      }
    }
  }
}
