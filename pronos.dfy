/** The tip routes: the public, VIP and administrator listings, the
    administrator's `/add` with its validation chain and record
    normalisation, and the administrator's update and delete. */
module Pronos {
  import opened Common
  import opened JsText
  import opened JsNumber
  import opened Collections
  import opened PronoModel
  import opened Auth

  // ----- listings

  /** `sort({ createdAt: -1 })`: `a` may stand before `b`. */
  predicate NewerFirst(a: Tip, b: Tip) {
    Rank(a.createdAt) >= Rank(b.createdAt)
  }

  lemma NewerFirstOrders()
    ensures TotalPreorder(NewerFirst)
  {
  }

  function OfType(visibility: Text): Tip -> bool {
    (t: Tip) => t.visibility == visibility
  }

  /** `Prono.find({ type: visibility }).sort({ createdAt: -1 })`: exactly
      the tips of that type, newest first. */
  function ListByType(tips: seq<Tip>, visibility: Text): (r: seq<Tip>)
    ensures forall t :: t in r <==> t in tips && t.visibility == visibility
    ensures multiset(r) == multiset(Filter(tips, OfType(visibility)))
    ensures SortedBy(r, NewerFirst)
  {
    var selected := Filter(tips, OfType(visibility));
    NewerFirstOrders();
    SortBySorted(selected, NewerFirst);
    SortByMembers(selected, NewerFirst);
    SortBy(selected, NewerFirst)
  }

  /** `Prono.find().sort({ createdAt: -1 })`: every tip, newest first. */
  function ListAll(tips: seq<Tip>): (r: seq<Tip>)
    ensures multiset(r) == multiset(tips)
    ensures SortedBy(r, NewerFirst)
  {
    NewerFirstOrders();
    SortBySorted(tips, NewerFirst);
    SortBy(tips, NewerFirst)
  }

  /** The answer of a route behind `auth` and a role guard. */
  function Behind<T>(header: Option<Text>, verify: Verifier, guard: Guard, handler: T): (r: Reply<T>)
    ensures Guarded(header, verify, guard).Proceed? ==> r == Ok(200, handler)
    ensures Guarded(header, verify, guard).Reject? ==>
              r == Err(Guarded(header, verify, guard).code, Guarded(header, verify, guard).message)
  {
    match Guarded(header, verify, guard)
    case Reject(code, message) => Err(code, message)
    case Proceed(_) => Ok(200, handler)
  }

  /** `GET /public`: open to everyone. */
  function PublicTips(tips: seq<Tip>): (r: Reply<seq<Tip>>)
    ensures r.Ok? && r.code == 200
    ensures forall t :: t in r.body <==> t in tips && t.visibility == PUBLIC
    ensures multiset(r.body) == multiset(Filter(tips, OfType(PUBLIC)))
    ensures SortedBy(r.body, NewerFirst)
  {
    Ok(200, ListByType(tips, PUBLIC))
  }

  /** `GET /vip`: VIP tips, for a VIP or an administrator. */
  function VipTips(tips: seq<Tip>, header: Option<Text>, verify: Verifier): (r: Reply<seq<Tip>>)
    ensures r.Ok? <==> Guarded(header, verify, VipGuard).Proceed?
    ensures r.Ok? ==> r.code == 200 && forall t :: t in r.body <==> t in tips && t.visibility == VIP
    ensures r.Ok? ==> multiset(r.body) == multiset(Filter(tips, OfType(VIP)))
    ensures r.Ok? ==> SortedBy(r.body, NewerFirst)
    ensures r.Err? ==> r == Err(Guarded(header, verify, VipGuard).code, Guarded(header, verify, VipGuard).message)
  {
    Behind(header, verify, VipGuard, ListByType(tips, VIP))
  }

  /** `GET /all`: every tip, for an administrator. */
  function AllTips(tips: seq<Tip>, header: Option<Text>, verify: Verifier): (r: Reply<seq<Tip>>)
    ensures r.Ok? <==> Guarded(header, verify, AdminGuard).Proceed?
    ensures r.Ok? ==> r.code == 200 && multiset(r.body) == multiset(tips)
    ensures r.Ok? ==> SortedBy(r.body, NewerFirst)
    ensures r.Err? ==> r == Err(Guarded(header, verify, AdminGuard).code, Guarded(header, verify, AdminGuard).message)
  {
    Behind(header, verify, AdminGuard, ListAll(tips))
  }

  /** No public listing shows a VIP tip, and a VIP tip is listed to every
      user the VIP guard lets through. */
  lemma VipTipsStayBehindGuard(tips: seq<Tip>, header: Option<Text>, verify: Verifier, t: Tip)
    requires t in tips && t.visibility == VIP
    ensures t !in PublicTips(tips).body
    ensures Guarded(header, verify, VipGuard).Proceed? ==> t in VipTips(tips, header, verify).body
  {
  }

  // ----- `/add`

  /** The `cote` field as sent: a JSON number or a string. */
  datatype CoteInput = NumberCote(n: real) | TextCote(s: Text)

  predicate TruthyCote(c: Value<CoteInput>) {
    c.Defined? && match c.value
      case NumberCote(n) => n != 0.0
      case TextCote(s) => s != ""
  }

  /** `Number(cote)`, the conversion `isNaN` and `<=` apply. */
  function CoteNumber(c: CoteInput): Option<real> {
    match c
    case NumberCote(n) => Some(n)
    case TextCote(s) => ToNumber(s)
  }

  /** `parseFloat(cote)`. */
  function CoteParsed(c: CoteInput): Option<real> {
    match c
    case NumberCote(n) => Some(n)
    case TextCote(s) => ParseFloat(s)
  }

  /** Neither `isNaN(cote)` nor `cote <= 0`. */
  predicate PositiveCote(c: CoteInput) {
    CoteNumber(c).Some? && CoteNumber(c).value > 0.0
  }

  /** The body of `POST /add`; `fixture` is the `match` field and
      `visibility` the `type` field. */
  datatype AddBody = AddBody(
    league: Value<Text>,
    fixture: Value<Text>,
    prono: Value<Text>,
    cote: Value<CoteInput>,
    date: Value<Text>,
    visibility: Value<Text>,
    tag: Value<Text>,
    analyse: Value<Text>,
    resultat: Value<Text>)

  const REQUIRED: Text := "League, match, pronostic et cote sont requis"
  const BAD_COTE: Text := "La cote doit être un nombre positif"
  const BAD_TYPE: Text := "Le type doit être \"public\" ou \"vip\""
  const BAD_RESULTAT: Text := "Le résultat doit être \"gagnant\", \"perdant\" ou \"pending\""

  predicate AllGiven(b: AddBody) {
    Truthy(b.league) && Truthy(b.fixture) && Truthy(b.prono) && TruthyCote(b.cote)
  }

  /** The route's own checks pass: all four fields given, a positive
      number for `cote`, and `type` and `resultat` each exactly one of
      the schema's values (`includes` on a list of strings). */
  predicate Passes(b: AddBody) {
    AllGiven(b) && PositiveCote(b.cote.value)
    && b.visibility.Defined? && IsVisibility(b.visibility.value)
    && b.resultat.Defined? && IsOutcome(b.resultat.value)
  }

  /** The message of the first of the route's checks that fails, in the
      route's order. */
  function FirstFailure(b: AddBody): (e: Option<Text>)
    ensures e.None? <==> Passes(b)
    ensures !AllGiven(b) ==> e == Some(REQUIRED)
    ensures AllGiven(b) && !PositiveCote(b.cote.value) ==> e == Some(BAD_COTE)
    ensures AllGiven(b) && PositiveCote(b.cote.value) && !(b.visibility.Defined? && IsVisibility(b.visibility.value))
            ==> e == Some(BAD_TYPE)
    ensures (AllGiven(b) && PositiveCote(b.cote.value) && b.visibility.Defined? && IsVisibility(b.visibility.value)
             && !(b.resultat.Defined? && IsOutcome(b.resultat.value))) ==> e == Some(BAD_RESULTAT)
  {
    if !AllGiven(b) then Some(REQUIRED)
    else if !PositiveCote(b.cote.value) then Some(BAD_COTE)
    else if !(b.visibility.Defined? && IsVisibility(b.visibility.value)) then Some(BAD_TYPE)
    else if !(b.resultat.Defined? && IsOutcome(b.resultat.value)) then Some(BAD_RESULTAT)
    else None
  }

  /** The store's messages for a value it cannot cast. */
  const CAST_COTE: Text := "Cast to Number failed for value \"NaN\" (type number) at path \"cote\""
  const CAST_DATE: Text := "Cast to date failed for value \"Invalid Date\" (type Date) at path \"date\""

  /** `v ? v.trim() : ''`. */
  function TrimmedOrEmpty(v: Value<Text>): (t: Text)
    ensures Truthy(v) ==> t == Trim(v.value)
    ensures !Truthy(v) ==> t == ""
  {
    if Truthy(v) then Trim(v.value) else ""
  }

  /** `v || fallback`. */
  function TextOr(v: Value<Text>, fallback: Text): Text {
    if Truthy(v) then v.value else fallback
  }

  /** How `cote` is turned into the stored number. */
  type CoteReading = CoteInput -> Option<real>

  /** The record handed to `Prono.create`, and the fields the store could
      not cast (an odds reading of `NaN`, an invalid date). */
  datatype Submission = Submission(draft: Draft, castErrors: seq<Text>)

  /** The record the route builds once its checks pass: trimmed texts, the
      odds as `read` gives them, the parsed date or the current time. */
  function Submit(b: AddBody, parse: Text -> Option<Instant>, now: Instant, read: CoteReading): (s: Submission)
    requires Passes(b)
    ensures s.draft.league == Some(Trim(b.league.value))
    ensures s.draft.fixture == Some(Trim(b.fixture.value)) && s.draft.prono == Some(Trim(b.prono.value))
    ensures s.draft.cote == read(b.cote.value)
    ensures s.draft.tag == Some(TrimmedOrEmpty(b.tag)) && s.draft.analyse == Some(TrimmedOrEmpty(b.analyse))
    ensures s.castErrors == [] <==> read(b.cote.value).Some? && (!Truthy(b.date) || parse(b.date.value).Some?)
    ensures s.castErrors == [] ==> s.draft.date == if Truthy(b.date) then parse(b.date.value).value else now
  {
    var cote := read(b.cote.value);
    var date := if Truthy(b.date) then parse(b.date.value) else Some(now);
    Submission(
      Draft(Some(Trim(b.league.value)), Some(Trim(b.fixture.value)), Some(Trim(b.prono.value)), cote,
            if date.Some? then date.value else now,
            Some(TextOr(b.visibility, PUBLIC)), Some(TrimmedOrEmpty(b.tag)), Some(TrimmedOrEmpty(b.analyse)),
            Some(TextOr(b.resultat, PENDING))),
      (if cote.None? then [CAST_COTE] else []) + (if date.None? then [CAST_DATE] else []))
  }

  /** The defaults `type || 'public'` and `resultat || 'pending'` never
      apply: the checks before them already demand one of the schema's
      values, so the stored fields are the ones sent. */
  lemma DefaultsAreDead(b: AddBody, parse: Text -> Option<Instant>, now: Instant, read: CoteReading)
    requires Passes(b)
    ensures Submit(b, parse, now, read).draft.visibility == Some(b.visibility.value)
    ensures Submit(b, parse, now, read).draft.resultat == Some(b.resultat.value)
  {
  }

  /** A body without `type` or without `resultat` is refused with 400. */
  lemma MissingTypeOrResultRefused(b: AddBody)
    requires b.visibility.Undefined? || b.resultat.Undefined?
    ensures FirstFailure(b).Some?
  {
  }

  /** The reply of `/add` once the administrator is admitted: a failed
      check, a validation error of the store (its messages joined by
      `, `), or 201 with the stored tip. */
  function AddWith(b: AddBody, parse: Text -> Option<Instant>, now: Instant, id: TipId, read: CoteReading): (r: Reply<Tip>)
    ensures FirstFailure(b).Some? ==> r == Err(400, FirstFailure(b).value)
    ensures r.Err? ==> r.code == 400
    ensures r.Ok? <==> Passes(b) && Submit(b, parse, now, read).castErrors == []
                       && Trim(b.fixture.value) != "" && Trim(b.prono.value) != ""
    ensures r.Ok? ==> r.code == 201 && Create(Submit(b, parse, now, read).draft, id, now) == Stored(r.body)
  {
    match FirstFailure(b)
    case Some(message) => Err(400, message)
    case None =>
      var s := Submit(b, parse, now, read);
      var errors := s.castErrors + Violations(s.draft);
      if errors != [] then Err(400, JoinWith(errors, ", "))
      else Ok(201, Create(s.draft, id, now).tip)
  }

  /** `/add` as written: the odds are validated with `Number` but stored
      with `parseFloat`. */
  function AddAsWritten(b: AddBody, parse: Text -> Option<Instant>, now: Instant, id: TipId): (r: Reply<Tip>)
    ensures r.Ok? ==> Passes(b) && r.body.cote == CoteParsed(b.cote.value)
  {
    AddWith(b, parse, now, id, CoteParsed)
  }

  /** The two readings disagree on a `0x` literal: `Number('0x10')` is 16,
      which passes the check, while `parseFloat('0x10')` stops at the `x`
      and stores 0. */
  lemma HexCoteStoredAsZero(b: AddBody, parse: Text -> Option<Instant>, now: Instant, id: TipId)
    requires b.cote == Defined(TextCote("0x10"))
    requires Truthy(b.league) && Truthy(b.fixture) && Truthy(b.prono)
    requires Trim(b.fixture.value) != "" && Trim(b.prono.value) != ""
    requires b.visibility == Defined(PUBLIC) && b.resultat == Defined(PENDING)
    requires !Truthy(b.date)
    ensures CoteNumber(b.cote.value) == Some(16.0)
    ensures AddAsWritten(b, parse, now, id).Ok? && AddAsWritten(b, parse, now, id).code == 201
    ensures AddAsWritten(b, parse, now, id).body.cote == Some(0.0)
  {
    HexLiteralReadings();
    assert PositiveCote(b.cote.value);
    assert Passes(b);
    var sub := Submit(b, parse, now, CoteParsed);
    assert sub.castErrors == [] && sub.draft.cote == Some(0.0);
    DefaultsAreDead(b, parse, now, CoteParsed);
    assert Present(sub.draft.fixture) && Present(sub.draft.prono);
    assert IsVisibility(OrDefault(sub.draft.visibility, PUBLIC)) && IsOutcome(OrDefault(sub.draft.resultat, PENDING));
    assert AddWith(b, parse, now, id, CoteParsed).Ok?;
  }

  lemma HexLiteralReadings()
    ensures ToNumber("0x10") == Some(16.0)
    ensures ParseFloat("0x10") == Some(0.0)
  {
    HexAsNumber();
    HexAsParsed();
  }

  lemma HexAsNumber()
    ensures ToNumber("0x10") == Some(16.0)
  {
    HexIsTrimmed();
    HexDigits();
  }

  lemma HexAsParsed()
    ensures ParseFloat("0x10") == Some(0.0)
  {
    HexIsTrimmed();
    HexDecimalPrefix();
  }

  lemma HexIsTrimmed()
    ensures TrimStart("0x10") == "0x10" && Trim("0x10") == "0x10"
  {
    assert !IsSpace('0');
    assert TrimEnd("0x10") == "0x10";
  }

  lemma HexDigits()
    ensures RunIn("10", 16) == 2 && ValueIn("10", 16) == 16
  {
    assert DigitIn('1', 16) == Some(1) && DigitIn('0', 16) == Some(0);
    assert RunIn("0", 16) == 1;
    assert "10"[..1] == "1" && "1"[..0] == "";
  }

  lemma HexDecimalPrefix()
    ensures ScanUnsigned("0x10") == Some(Scan(0.0, 1))
  {
    assert DigitIn('0', 10) == Some(0) && DigitIn('x', 10).None?;
    assert RunIn("x10", 10) == 0;
    assert RunIn("0x10", 10) == 1;
    assert RunIn("", 10) == 0;
    assert "0x10"[..1] == "0" && "0"[..0] == "";
    assert ValueIn("0", 10) == 0;
    assert "0x10"[1..] == "x10";
    assert ScanExponent("x10") == (0, 0);
  }

  /** `/add` as intended: the odds stored are the number validated. */
  function AddTip(b: AddBody, parse: Text -> Option<Instant>, now: Instant, id: TipId): (r: Reply<Tip>)
    ensures FirstFailure(b).Some? ==> r == Err(400, FirstFailure(b).value)
    ensures r.Ok? <==> Passes(b) && (!Truthy(b.date) || parse(b.date.value).Some?)
                       && Trim(b.fixture.value) != "" && Trim(b.prono.value) != ""
    ensures r.Ok? ==> r.code == 201 && SchemaValid(r.body) && r.body.id == id && r.body.createdAt == now
    ensures r.Ok? ==> r.body.cote == CoteNumber(b.cote.value) && r.body.cote.value > 0.0
    ensures r.Ok? ==> r.body.league == Some(Trim(b.league.value))
                      && r.body.fixture == Trim(b.fixture.value) && r.body.prono == Trim(b.prono.value)
    ensures r.Ok? ==> r.body.tag == Some(TrimmedOrEmpty(b.tag)) && r.body.analyse == Some(TrimmedOrEmpty(b.analyse))
    ensures r.Ok? ==> r.body.visibility == b.visibility.value && r.body.resultat == b.resultat.value
    ensures r.Ok? ==> r.body.date == if Truthy(b.date) then parse(b.date.value).value else now
  {
    var r := AddWith(b, parse, now, id, CoteNumber);
    if r.Ok? then DefaultsAreDead(b, parse, now, CoteNumber); r else r
  }

  /** A numeric `cote` of 0 is missing, not non-positive; the text `"0"`
      is given, and refused as non-positive. */
  lemma ZeroCoteMessages(b: AddBody)
    requires Truthy(b.league) && Truthy(b.fixture) && Truthy(b.prono)
    ensures b.cote == Defined(NumberCote(0.0)) ==> FirstFailure(b) == Some(REQUIRED)
    ensures b.cote == Defined(TextCote("0")) ==> FirstFailure(b) == Some(BAD_COTE)
  {
    if b.cote == Defined(TextCote("0")) {
      ZeroTextIsZero();
      assert AllGiven(b) && !PositiveCote(b.cote.value);
    }
  }

  lemma ZeroTextIsZero()
    ensures CoteNumber(TextCote("0")) == Some(0.0)
  {
    var z := "0";
    assert AllDigits(z);
    DigitsAreTrimmed(z);
    ScanDigits(z);
    assert ValueIn(z, 10) == 0 by {
      assert z[..0] == [];
    }
  }

  /** A `match` of blanks passes the route's checks but is empty once
      trimmed, so the store's `required` check refuses it. */
  lemma BlankMatchRefused(b: AddBody, parse: Text -> Option<Instant>, now: Instant, id: TipId)
    requires Passes(b)
    requires b.fixture.value == " "
    ensures AddTip(b, parse, now, id).Err? && AddTip(b, parse, now, id).code == 400
  {
    assert Trim(" ") == "" by {
      assert IsSpace(' ');
    }
  }

  const DELETED: Text := "Supprimé ✅"

  /** `POST /add` behind `auth` and `isAdmin`, with the odds stored as
      `read` gives them: `CoteParsed` (`parseFloat`) is the route as
      written, `CoteNumber` the corrected `AddTip`. The tip is stored
      exactly when the reply is 201. */
  method Add(store: TipStore, header: Option<Text>, verify: Verifier, b: AddBody,
             parse: Text -> Option<Instant>, now: Instant, id: TipId, read: CoteReading) returns (r: Reply<Tip>)
    requires store.Valid()
    requires forall t :: t in store.tips ==> t.id != id
    modifies store
    ensures store.Valid()
    ensures Guarded(header, verify, AdminGuard).Reject? ==>
              r == Err(Guarded(header, verify, AdminGuard).code, Guarded(header, verify, AdminGuard).message)
    ensures Guarded(header, verify, AdminGuard).Proceed? ==> r == AddWith(b, parse, now, id, read)
    ensures r.Ok? ==> store.tips == old(store.tips) + [r.body]
    ensures r.Err? ==> store.tips == old(store.tips)
  {
    match Guarded(header, verify, AdminGuard) {
      case Reject(code, message) =>
        r := Err(code, message);
      case Proceed(_) =>
        r := AddWith(b, parse, now, id, read);
        if r.Ok? {
          store.Insert(r.body);
        }
    }
  }

  /** `PUT /:id` behind `auth` and `isAdmin`: the updated tip, or `null`
      (`None`) with 200 when no tip has that id; nothing is validated. */
  method Update(store: TipStore, header: Option<Text>, verify: Verifier, id: TipId, p: Patch)
    returns (r: Reply<Option<Tip>>)
    requires store.Valid()
    modifies store
    ensures store.Valid()
    ensures Guarded(header, verify, AdminGuard).Reject? ==> r.Err? && store.tips == old(store.tips)
    ensures Guarded(header, verify, AdminGuard).Reject? ==>
              r == Err(Guarded(header, verify, AdminGuard).code, Guarded(header, verify, AdminGuard).message)
    ensures Guarded(header, verify, AdminGuard).Proceed? ==> r.Ok? && r.code == 200
    ensures r.Ok? && r.body.None? ==> store.tips == old(store.tips) && forall t :: t in old(store.tips) ==> t.id != id
    ensures r.Ok? && r.body.Some? ==>
              exists i :: 0 <= i < |old(store.tips)| && old(store.tips)[i].id == id
                && r.body.value == ApplyPatch(old(store.tips)[i], p) && store.tips == old(store.tips)[i := r.body.value]
  {
    match Guarded(header, verify, AdminGuard) {
      case Reject(code, message) =>
        r := Err(code, message);
      case Proceed(_) =>
        var updated := store.UpdateById(id, p);
        r := Ok(200, updated);
    }
  }

  /** `DELETE /:id` behind `auth` and `isAdmin`: the same confirmation
      whether or not a tip had that id; never 404. */
  method Delete(store: TipStore, header: Option<Text>, verify: Verifier, id: TipId) returns (r: Reply<Text>)
    requires store.Valid()
    modifies store
    ensures store.Valid()
    ensures Guarded(header, verify, AdminGuard).Reject? ==> r.Err? && store.tips == old(store.tips)
    ensures Guarded(header, verify, AdminGuard).Reject? ==>
              r == Err(Guarded(header, verify, AdminGuard).code, Guarded(header, verify, AdminGuard).message)
    ensures Guarded(header, verify, AdminGuard).Proceed? ==> r == Ok(200, DELETED)
    ensures forall t :: t in store.tips <==> t in old(store.tips) && (r.Err? || t.id != id)
    ensures r.Ok? && (forall t :: t in old(store.tips) ==> t.id != id) ==> store.tips == old(store.tips)
    ensures r.Ok? && (exists t :: t in old(store.tips) && t.id == id) ==>
              exists i :: 0 <= i < |old(store.tips)| && old(store.tips)[i].id == id
                && store.tips == old(store.tips)[..i] + old(store.tips)[i + 1..]
  {
    match Guarded(header, verify, AdminGuard) {
      case Reject(code, message) =>
        r := Err(code, message);
      case Proceed(_) =>
        var _ := store.DeleteById(id);
        r := Ok(200, DELETED);
    }
  }
}
