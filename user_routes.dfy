/** The account routes: renaming oneself and reading one's profile,
    behind their own token check. */
module UserRoutes {
  import opened Common
  import opened JsText
  import opened Collections
  import opened UserModel
  import opened Auth

  const TOKEN_REQUIRED: Text := "Token requis"
  const TOKEN_INVALID: Text := "Token invalide"
  const NAME_TOO_SHORT: Text := "Le pseudo doit contenir au moins 2 caractères"
  const USER_NOT_FOUND: Text := "Utilisateur non trouvé"
  const RENAMED: Text := "Pseudo mis à jour avec succès"

  /** `authenticateToken`: no token is 401 `Token requis`; a token that
      fails verification is 403 `Token invalide`. */
  function AuthenticateToken(header: Option<Text>, verify: Verifier): (d: Decision)
    ensures !HasToken(header) ==> d == Reject(401, TOKEN_REQUIRED)
    ensures HasToken(header) && verify(BearerToken(header).value).None? ==> d == Reject(403, TOKEN_INVALID)
    ensures d.Proceed? <==> HasToken(header) && verify(BearerToken(header).value).Some?
    ensures d.Proceed? ==> Some(d.user) == verify(BearerToken(header).value)
  {
    if !HasToken(header) then Reject(401, TOKEN_REQUIRED)
    else
      match verify(BearerToken(header).value)
      case None => Reject(403, TOKEN_INVALID)
      case Some(c) => Proceed(c)
  }

  /** The account routes' check and the shared `auth` middleware let the
      same requests through with the same claims; they differ on an
      invalid token, which is 403 here and 401 there. */
  lemma TokenChecksAgree(header: Option<Text>, verify: Verifier)
    ensures AuthenticateToken(header, verify).Proceed? <==> Authenticate(header, verify).Proceed?
    ensures AuthenticateToken(header, verify).Proceed? ==> AuthenticateToken(header, verify) == Authenticate(header, verify)
    ensures HasToken(header) && verify(BearerToken(header).value).None? ==>
              AuthenticateToken(header, verify).code == 403 && Authenticate(header, verify).code == 401
  {
  }

  /** `!username || username.trim().length < 2`: the refused names. The
      length counts UTF-16 code units. */
  predicate NameRefused(username: Value<Text>) {
    !Truthy(username) || Utf16Length(Trim(username.value)) < 2
  }

  /** A name with two visible characters around any spacing is accepted. */
  lemma TwoLettersAccepted(a: char, b: char, pad: Text)
    requires !IsSpace(a) && !IsSpace(b)
    requires AllSpace(pad)
    ensures !NameRefused(Defined(pad + [a, b] + pad))
  {
    TrimAround(pad, [a, b], pad);
  }

  /** Spacing alone is refused however long it is. */
  lemma BlankNameRefused(pad: Text)
    requires AllSpace(pad)
    ensures NameRefused(Defined(pad))
  {
    TrimAround(pad, [], []);
    assert pad + [] + [] == pad;
  }

  /** The user as the account routes answer it: no billing ids. */
  datatype Summary = Summary(username: Option<Text>, email: Text, isVIP: bool, isAdmin: bool)

  /** The profile adds the creation time. */
  datatype Profile = Profile(username: Option<Text>, email: Text, isVIP: bool, isAdmin: bool, createdAt: Instant)

  function SummaryOf(u: User): (s: Summary)
    ensures s.username == u.username && s.email == u.email && s.isVIP == u.isVIP && s.isAdmin == u.isAdmin
  {
    Summary(u.username, u.email, u.isVIP, u.isAdmin)
  }

  function ProfileOf(u: User): (p: Profile)
    ensures p.username == u.username && p.email == u.email && p.isVIP == u.isVIP && p.isAdmin == u.isAdmin
    ensures p.createdAt == u.createdAt
  {
    Profile(u.username, u.email, u.isVIP, u.isAdmin, u.createdAt)
  }

  /** Nothing the routes answer depends on the billing ids. */
  lemma AnswersHideBilling(u: User, customer: Option<Text>, subscription: Option<Text>)
    ensures SummaryOf(u.(stripeCustomerId := customer, stripeSubId := subscription)) == SummaryOf(u)
    ensures ProfileOf(u.(stripeCustomerId := customer, stripeSubId := subscription)) == ProfileOf(u)
  {
  }

  /** The answer of `update-username`: a confirmation and the user. */
  datatype Renamed = Renamed(message: Text, user: Summary)

  /** The change `{ username: username.trim() }`. */
  function Rename(name: Text): User -> User {
    (u: User) => u.(username := Some(name))
  }

  /** `POST /update-username`: the token check, then the name check, then
      the rename of the user the token names; an id no user has is 404. */
  method UpdateUsername(table: UserTable, header: Option<Text>, verify: Verifier, username: Value<Text>)
    returns (r: Reply<Renamed>)
    requires table.Valid()
    modifies table
    ensures table.Valid()
    ensures AuthenticateToken(header, verify).Reject? ==>
              r == Err(AuthenticateToken(header, verify).code, AuthenticateToken(header, verify).message)
    ensures AuthenticateToken(header, verify).Proceed? && NameRefused(username) ==> r == Err(400, NAME_TOO_SHORT)
    ensures r.Err? && r.code != 404 ==> table.users == old(table.users)
    ensures r.Ok? <==> AuthenticateToken(header, verify).Proceed? && !NameRefused(username)
                       && exists u :: u in old(table.users) && u.id == AuthenticateToken(header, verify).user.id
    ensures r.Ok? ==> r.code == 200 && r.body.message == RENAMED
    ensures r.Ok? ==> var id := AuthenticateToken(header, verify).user.id;
                      table.users == UpdateFirst(old(table.users), HasId(id), Rename(Trim(username.value)))
                      && exists i :: 0 <= i < |old(table.users)| && old(table.users)[i].id == id
                           && table.users[i] == old(table.users)[i].(username := Some(Trim(username.value)))
                           && r.body.user == SummaryOf(table.users[i])
    ensures r.Err? && r.code == 404 ==> r.message == USER_NOT_FOUND && table.users == old(table.users)
  {
    match AuthenticateToken(header, verify) {
      case Reject(code, message) =>
        r := Err(code, message);
      case Proceed(claims) =>
        if NameRefused(username) {
          r := Err(400, NAME_TOO_SHORT);
        } else {
          var updated := table.Update(HasId(claims.id), Rename(Trim(username.value)));
          match updated {
            case None =>
              r := Err(404, USER_NOT_FOUND);
            case Some(u) =>
              r := Ok(200, Renamed(RENAMED, SummaryOf(u)));
          }
        }
    }
  }

  /** `GET /profile`: the token check, then the profile of the user the
      token names, or 404. */
  function ProfileAnswer(users: seq<User>, header: Option<Text>, verify: Verifier): (r: Reply<Profile>)
    ensures AuthenticateToken(header, verify).Reject? ==>
              r == Err(AuthenticateToken(header, verify).code, AuthenticateToken(header, verify).message)
    ensures r.Ok? <==> AuthenticateToken(header, verify).Proceed?
                       && exists u :: u in users && u.id == AuthenticateToken(header, verify).user.id
    ensures r.Ok? ==> r.code == 200 && exists u :: u in users && u.id == AuthenticateToken(header, verify).user.id
                                                  && r.body == ProfileOf(u)
    ensures r.Err? && AuthenticateToken(header, verify).Proceed? ==> r == Err(404, USER_NOT_FOUND)
  {
    match AuthenticateToken(header, verify)
    case Reject(code, message) => Err(code, message)
    case Proceed(claims) =>
      match FirstIndex(users, HasId(claims.id))
      case None => Err(404, USER_NOT_FOUND)
      case Some(i) =>
        assert users[i] in users;
        Ok(200, ProfileOf(users[i]))
  }
}
