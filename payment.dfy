/** The billing webhook: a verified event from the payment provider
    turns a user's VIP status on or off. */
module Payment {
  import opened Common
  import opened Collections
  import opened UserModel

  /** An event the payment provider sends, with the fields the webhook
      reads. A completed checkout carries the buyer's email when there is
      one, and the customer and subscription ids (`null` reads as `None`). */
  datatype Event =
    | CheckoutCompleted(customerEmail: Option<Text>, customer: Option<Text>, subscription: Option<Text>)
    | SubscriptionDeleted(subscriptionId: Text)
    | OtherEvent(kind: Text)

  /** `stripe.webhooks.constructEvent` as an oracle: the event when the
      signature header checks out against the raw body, else the error's
      message. */
  datatype Verification = Verified(event: Event) | Refused(reason: Text)

  const WEBHOOK_ERROR: Text := "Webhook Error: "

  /** The filter `{ email }`. */
  function WithEmail(email: Text): User -> bool {
    (u: User) => u.email == email
  }

  /** The filter `{ stripeSubId }`. */
  function WithSubscription(id: Text): User -> bool {
    (u: User) => u.stripeSubId == Some(id)
  }

  /** The change a completed checkout makes: VIP, with both billing ids. */
  function GrantVip(customer: Option<Text>, subscription: Option<Text>): User -> User {
    (u: User) => u.(isVIP := true, stripeCustomerId := customer, stripeSubId := subscription)
  }

  /** The change a deleted subscription makes: no VIP, no billing ids. */
  function RevokeVip(): User -> User {
    (u: User) => u.(isVIP := false, stripeCustomerId := None, stripeSubId := None)
  }

  /** The user table after a verified event. A checkout without an email
      (missing or empty) and an event of any other type change nothing. */
  function Transition(users: seq<User>, e: Event): (r: seq<User>)
    ensures |r| == |users|
    ensures e.OtherEvent? ==> r == users
    ensures e.CheckoutCompleted? && (e.customerEmail.None? || e.customerEmail.value == "") ==> r == users
  {
    match e
    case CheckoutCompleted(email, customer, subscription) =>
      if email.Some? && email.value != "" then UpdateFirst(users, WithEmail(email.value), GrantVip(customer, subscription))
      else users
    case SubscriptionDeleted(id) => UpdateFirst(users, WithSubscription(id), RevokeVip())
    case OtherEvent(_) => users
  }

  /** Only the buyer becomes VIP, with the ids of the checkout; every other
      user and every other field stays as it was, `isAdmin` included. */
  lemma CheckoutGrants(users: seq<User>, email: Text, customer: Option<Text>, subscription: Option<Text>)
    requires email != ""
    ensures forall i :: 0 <= i < |users| && users[i].email != email ==>
              Transition(users, CheckoutCompleted(Some(email), customer, subscription))[i] == users[i]
    ensures forall i :: 0 <= i < |users| && users[i].email == email && (forall k :: 0 <= k < i ==> users[k].email != email) ==>
              Transition(users, CheckoutCompleted(Some(email), customer, subscription))[i]
                == users[i].(isVIP := true, stripeCustomerId := customer, stripeSubId := subscription)
    ensures forall i :: 0 <= i < |users| ==>
              Transition(users, CheckoutCompleted(Some(email), customer, subscription))[i].isAdmin == users[i].isAdmin
  {
    var f := FirstIndex(users, WithEmail(email));
    forall i | 0 <= i < |users| && users[i].email == email && (forall k :: 0 <= k < i ==> users[k].email != email)
      ensures f == Some(i)
    {
      assert WithEmail(email)(users[i]);
    }
  }

  /** The user who held the subscription loses VIP and both billing ids;
      every other user stays as it was. */
  lemma CancellationRevokes(users: seq<User>, id: Text)
    requires Count(users, WithSubscription(id)) <= 1
    ensures forall i :: 0 <= i < |users| && users[i].stripeSubId != Some(id) ==>
              Transition(users, SubscriptionDeleted(id))[i] == users[i]
    ensures forall i :: 0 <= i < |users| && users[i].stripeSubId == Some(id) ==>
              Transition(users, SubscriptionDeleted(id))[i]
                == users[i].(isVIP := false, stripeCustomerId := None, stripeSubId := None)
    ensures forall u :: u in Transition(users, SubscriptionDeleted(id)) ==> u.stripeSubId != Some(id)
  {
    var r := Transition(users, SubscriptionDeleted(id));
    match FirstIndex(users, WithSubscription(id)) {
      case None =>
        assert r == users;
      case Some(f) =>
        assert r == users[f := RevokeVip()(users[f])];
        OnlyHolder(users, id, f);
        RevokedAt(users, r, id, f);
    }
  }

  /** Revoking the only holder at `f` leaves nobody holding `id`. */
  lemma RevokedAt(users: seq<User>, r: seq<User>, id: Text, f: nat)
    requires f < |users| && r == users[f := RevokeVip()(users[f])]
    requires forall i :: 0 <= i < |users| && i != f ==> users[i].stripeSubId != Some(id)
    ensures forall u :: u in r ==> u.stripeSubId != Some(id)
  {
    forall u | u in r ensures u.stripeSubId != Some(id) {
      var i :| 0 <= i < |r| && r[i] == u;
    }
  }

  /** When at most one user holds the subscription, nobody besides the
      holder at `f` does. */
  lemma OnlyHolder(users: seq<User>, id: Text, f: nat)
    requires Count(users, WithSubscription(id)) <= 1
    requires f < |users| && WithSubscription(id)(users[f])
    ensures forall i :: 0 <= i < |users| && i != f ==> users[i].stripeSubId != Some(id)
  {
    forall i | 0 <= i < |users| && i != f ensures users[i].stripeSubId != Some(id) {
      if users[i].stripeSubId == Some(id) {
        assert WithSubscription(id)(users[i]);
        TwoCounted(users, WithSubscription(id), f, i);
      }
    }
  }

  /** Two distinct positions that satisfy `p` are both counted. */
  lemma {:induction false} TwoCounted(s: seq<User>, p: User -> bool, i: nat, j: nat)
    requires i < |s| && j < |s| && i != j && p(s[i]) && p(s[j])
    ensures Count(s, p) >= 2
  {
    var last := |s| - 1;
    if i == last {
      CountWitness(s[..last], p, j);
    } else if j == last {
      CountWitness(s[..last], p, i);
    } else {
      TwoCounted(s[..last], p, i, j);
    }
  }

  /** Replaying a completed checkout leaves the table as the first
      delivery left it. */
  lemma CheckoutIdempotent(users: seq<User>, e: Event)
    requires e.CheckoutCompleted?
    ensures Transition(Transition(users, e), e) == Transition(users, e)
  {
    var once := Transition(users, e);
    if e.customerEmail.Some? && e.customerEmail.value != "" {
      var p := WithEmail(e.customerEmail.value);
      match FirstIndex(users, p) {
        case None =>
        case Some(i) =>
          assert p(once[i]);
          forall k | 0 <= k < i ensures !p(once[k]) {
            assert once[k] == users[k];
          }
          assert once[i] in once;
      }
    }
  }

  /** Replaying a cancellation changes nothing more, provided at most one
      user held the subscription: the field it searches by is cleared. */
  lemma CancellationIdempotent(users: seq<User>, id: Text)
    requires Count(users, WithSubscription(id)) <= 1
    ensures Transition(Transition(users, SubscriptionDeleted(id)), SubscriptionDeleted(id))
              == Transition(users, SubscriptionDeleted(id))
  {
    CancellationRevokes(users, id);
  }

  /** With two users on one subscription, one cancellation revokes only
      the first of them, and a replay revokes the second. */
  lemma CancellationReplayedReachesSecond(a: User, b: User, id: Text)
    requires a.stripeSubId == Some(id) && b.stripeSubId == Some(id) && a.isVIP && b.isVIP
    ensures Transition([a, b], SubscriptionDeleted(id))[1].isVIP
    ensures !Transition(Transition([a, b], SubscriptionDeleted(id)), SubscriptionDeleted(id))[1].isVIP
  {
    var once := Transition([a, b], SubscriptionDeleted(id));
    assert FirstIndex([a, b], WithSubscription(id)) == Some(0);
    assert once == [RevokeVip()(a), b];
    assert FirstIndex(once, WithSubscription(id)) == Some(1);
  }

  /** `POST /webhook`. A refused signature answers 400 with the reason and
      changes nothing; every verified event answers `{ received: true }`,
      whether or not a user matched. */
  method Webhook(table: UserTable, v: Verification) returns (r: Reply<bool>)
    requires table.Valid()
    modifies table
    ensures table.Valid()
    ensures v.Refused? ==> r == Err(400, WEBHOOK_ERROR + v.reason) && table.users == old(table.users)
    ensures v.Verified? ==> r == Ok(200, true) && table.users == Transition(old(table.users), v.event)
  {
    match v {
      case Refused(reason) =>
        r := Err(400, WEBHOOK_ERROR + reason);
      case Verified(e) =>
        match e {
          case CheckoutCompleted(email, customer, subscription) =>
            if email.Some? && email.value != "" {
              var _ := table.Update(WithEmail(email.value), GrantVip(customer, subscription));
            }
          case SubscriptionDeleted(id) =>
            var _ := table.Update(WithSubscription(id), RevokeVip());
          case OtherEvent(_) =>
        }
        r := Ok(200, true);
    }
  }
}
