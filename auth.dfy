/** The access-control middleware: `auth` reads the bearer token and
    verifies it, `isAdmin` and `isVIP` check the role flags it carries. */
module Auth {
  import opened Common
  import opened JsText

  /** The payload of a verified token. The role flags are those of the
      user when the token was issued; nothing re-reads them from the store. */
  datatype Claims = Claims(id: Text, username: Option<Text>, email: Text, isVIP: bool, isAdmin: bool)

  /** `jwt.verify` with the server's secret, as an oracle: the payload of a
      valid token, or `None` for a token that is malformed, expired or
      wrongly signed. */
  type Verifier = Text -> Option<Claims>

  /** `h` is a space-free word, a space, `w`, and then either nothing or
      a space and whatever follows. */
  ghost predicate SecondWord(h: Text, w: Text) {
    exists scheme, rest :: ' ' !in scheme && h == scheme + " " + w + rest && (rest == [] || rest[0] == ' ')
  }

  /** `header?.split(' ')[1]`: the second space-separated part of the
      `Authorization` header, if there is one. The header is then the
      first part, a space, the token, and either nothing or a space and
      whatever follows. */
  function BearerToken(header: Option<Text>): (token: Option<Text>)
    ensures token.None? <==> header.None? || ' ' !in header.value
    ensures token.Some? ==> ' ' !in token.value && SecondWord(header.value, token.value)
  {
    if header.None? then None
    else
      var parts := Split(header.value, ' ');
      SplitInTwo(header.value, ' ');
      if |parts| >= 2 then
        SecondPart(header.value);
        Some(parts[1])
      else None
  }

  /** The second part of a split at the spaces: the first part holds no
      space, and the second ends the header or is followed by a space. */
  lemma SecondPart(h: Text)
    requires |Split(h, ' ')| >= 2
    ensures SecondWord(h, Split(h, ' ')[1])
  {
    var parts := Split(h, ' ');
    JoinSplit(h, ' ');
    JoinSecond(parts, ' ');
    var rest := if |parts| == 2 then "" else " " + Join(parts[2..], ' ');
    assert ' ' !in parts[0] && h == parts[0] + " " + parts[1] + rest && (rest == [] || rest[0] == ' ');
  }

  /** The token of `Bearer <token>` is read back exactly. */
  lemma BearerTokenOfHeader(scheme: Text, token: Text)
    requires ' ' !in scheme && ' ' !in token
    ensures BearerToken(Some(scheme + " " + token)) == Some(token)
  {
    SplitJoin([scheme, token], ' ');
    assert Join([scheme, token], ' ') == scheme + " " + token;
  }

  /** A header with no space carries no token. */
  lemma NoSpaceNoToken(header: Text)
    requires ' ' !in header
    ensures BearerToken(Some(header)).None?
  {
    assert Split(header, ' ') == [header];
  }

  /** Whether a middleware lets the request through (`next()`) or answers it. */
  datatype Decision = Proceed(user: Claims) | Reject(code: int, message: Text)

  /** Whether the token part is there and non-empty, as `!token` tests it. */
  predicate HasToken(header: Option<Text>) {
    BearerToken(header).Some? && BearerToken(header).value != ""
  }

  /** `auth`: no token is 401 `Non connecté`; a token that fails
      verification is 401 `Token invalide`; otherwise the claims go on. */
  function Authenticate(header: Option<Text>, verify: Verifier): (d: Decision)
    ensures !HasToken(header) ==> d == Reject(401, "Non connecté")
    ensures HasToken(header) && verify(BearerToken(header).value).None? ==> d == Reject(401, "Token invalide")
    ensures d.Proceed? <==> HasToken(header) && verify(BearerToken(header).value).Some?
    ensures d.Proceed? ==> Some(d.user) == verify(BearerToken(header).value)
  {
    if !HasToken(header) then Reject(401, "Non connecté")
    else
      match verify(BearerToken(header).value)
      case None => Reject(401, "Token invalide")
      case Some(c) => Proceed(c)
  }

  datatype Gate = Pass | Deny(code: int, message: Text)

  /** `isAdmin`: only a truthy `isAdmin` claim passes. */
  function RequireAdmin(user: Option<Claims>): (g: Gate)
    ensures g.Pass? <==> user.Some? && user.value.isAdmin
    ensures g.Deny? ==> g == Deny(403, "Admin requis")
  {
    if user.Some? && user.value.isAdmin then Pass else Deny(403, "Admin requis")
  }

  /** `isVIP`: a VIP or an administrator passes. */
  function RequireVip(user: Option<Claims>): (g: Gate)
    ensures g.Pass? <==> user.Some? && (user.value.isVIP || user.value.isAdmin)
    ensures g.Deny? ==> g == Deny(403, "VIP requis")
  {
    if user.Some? && (user.value.isVIP || user.value.isAdmin) then Pass else Deny(403, "VIP requis")
  }

  /** Every request the admin guard lets through, the VIP guard lets through too. */
  lemma AdminPassesVipGate(user: Option<Claims>)
    requires RequireAdmin(user).Pass?
    ensures RequireVip(user).Pass?
  {
  }

  datatype Guard = AdminGuard | VipGuard

  /** A route protected by `auth` followed by one role guard: the claims
      the handler runs with, or the answer given instead. */
  function Guarded(header: Option<Text>, verify: Verifier, guard: Guard): (d: Decision)
    ensures d.Proceed? ==> Authenticate(header, verify) == d
    ensures Authenticate(header, verify).Reject? ==> d == Authenticate(header, verify)
    ensures Authenticate(header, verify).Proceed? ==>
              var c := Authenticate(header, verify).user;
              (d.Proceed? <==> if guard == AdminGuard then c.isAdmin else c.isVIP || c.isAdmin)
    ensures Authenticate(header, verify).Proceed? && d.Reject? ==>
              d == Reject(403, if guard == AdminGuard then "Admin requis" else "VIP requis")
  {
    match Authenticate(header, verify)
    case Reject(code, message) => Reject(code, message)
    case Proceed(user) =>
      var g := if guard == AdminGuard then RequireAdmin(Some(user)) else RequireVip(Some(user));
      if g.Pass? then Proceed(user) else Reject(g.code, g.message)
  }

  /** The three answers of an admin route: 401 without a token, 403 for a
      valid token of a user who is not an administrator, and the handler
      exactly for an administrator. */
  lemma AdminRouteAnswers(header: Option<Text>, verify: Verifier)
    ensures !HasToken(header) ==> Guarded(header, verify, AdminGuard).Reject?
                                  && Guarded(header, verify, AdminGuard).code == 401
    ensures HasToken(header) && verify(BearerToken(header).value).Some?
            ==> var c := verify(BearerToken(header).value).value;
                (Guarded(header, verify, AdminGuard).Proceed? <==> c.isAdmin)
    ensures HasToken(header) && verify(BearerToken(header).value).Some?
            && !verify(BearerToken(header).value).value.isAdmin
            ==> Guarded(header, verify, AdminGuard) == Reject(403, "Admin requis")
  {
  }

  /** The three answers of a VIP route: 401 without a token, 403 for a
      valid token of a user who is neither VIP nor administrator, and the
      handler for an administrator. */
  lemma VipRouteAnswers(header: Option<Text>, verify: Verifier)
    ensures !HasToken(header) ==> Guarded(header, verify, VipGuard).Reject?
                                  && Guarded(header, verify, VipGuard).code == 401
    ensures HasToken(header) && verify(BearerToken(header).value).Some?
            ==> var c := verify(BearerToken(header).value).value;
                (Guarded(header, verify, VipGuard).Proceed? <==> c.isVIP || c.isAdmin)
    ensures HasToken(header) && verify(BearerToken(header).value).Some?
            && !verify(BearerToken(header).value).value.isVIP
            && !verify(BearerToken(header).value).value.isAdmin
            ==> Guarded(header, verify, VipGuard) == Reject(403, "VIP requis")
  {
  }
}
