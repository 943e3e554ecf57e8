/**
 * `handleUpdateData` as the list of requests it issues, in order, for one
 * add / edit / delete of a transaction, subscription or goal. The network is
 * reduced to what decides the control flow: whether the primary response is
 * ok, and whether the profile PATCH or the voucher POST throw in transport.
 *
 * Two details of the source shape the list. The PATCH goes through
 * `handleUpdateProfile`, which refetches by itself unless the PATCH throws, so
 * a successful XP-earning add refetches twice. A transport error in the
 * voucher POST escapes to the outer `catch` and skips the final refetch.
 */
module Orchestrator {
  import opened JsCore
  import opened Gamification

  datatype HttpMethod = Post | Put | Delete | Patch

  /** `/api/{kind}/`, `/api/{kind}/{id}/` and `/api/users/{id}/`. */
  datatype Endpoint = Collection(kind: string) | Member(kind: string, id: string) | UserDetail(userId: string)

  /** What a request carries: the item as submitted, the profile's new XP state,
      the reward transaction, or nothing (`body: null`). */
  datatype Body =
    | NoBody
    | ItemJson
    | ProfileJson(xp: int, level: int, nextLevelXp: int)
    | VoucherJson(title: string, amount: int, txType: string, category: string)

  /** A request sent to the backend, or one run of `fetchUserData` (its four
      parallel GETs of the user, transactions, subscriptions and goals). */
  datatype Request = Send(verb: HttpMethod, endpoint: Endpoint, body: Body) | Refetch

  /** The fields of the submitted item that the handler reads. */
  datatype Item = Item(id: string, amount: Option<real>)

  /** The signed-in user as the handler sees it. */
  datatype User = User(id: string, xp: ProfileXp)

  /** How the backend answers: `primaryOk` is false when the primary request
      throws or its response is not ok. */
  datatype Network = Network(primaryOk: bool, patchThrows: bool, voucherThrows: bool)

  /** The reward transaction (its date comes from the clock and is not modelled). */
  const Voucher: Request :=
    Send(Post, Collection("transactions"), VoucherJson("Amazon Voucher (Reward)", 100, "income", "Gift"))

  /** The create, edit or delete request for the item. An action other than
      "add", "edit" or "delete" falls through both ternaries: DELETE on the
      collection, carrying the item. */
  function PrimaryRequest(kind: string, action: string, item: Item): (r: Request)
    ensures r.Send? && r.body != VoucherJson("Amazon Voucher (Reward)", 100, "income", "Gift")
    ensures action == "add" ==> r == Send(Post, Collection(kind), ItemJson)
    ensures action == "edit" ==> r == Send(Put, Member(kind, item.id), ItemJson)
    ensures action == "delete" ==> r == Send(Delete, Member(kind, item.id), NoBody)
    ensures action != "add" && action != "edit" && action != "delete" ==>
      r == Send(Delete, Collection(kind), ItemJson)
  {
    var verb := if action == "add" then Post else if action == "edit" then Put else Delete;
    var endpoint :=
      if action == "delete" then Member(kind, item.id)
      else if action == "edit" then Member(kind, item.id)
      else Collection(kind);
    Send(verb, endpoint, if action != "delete" then ItemJson else NoBody)
  }

  /** The PATCH that stores the engine's result in the user's profile. */
  function ProfileUpdate(user: User, s: XpState): Request
  {
    Send(Patch, UserDetail(user.id), ProfileJson(s.xp, s.level, s.nextLevelXp))
  }

  /** XP the call earns: only an "add" earns any. */
  function ActionXp(kind: string, action: string, item: Item): (earned: nat)
    ensures action != "add" ==> earned == 0
    ensures action == "add" ==> earned == EarnedXp(kind, item.amount)
  {
    if action == "add" then EarnedXp(kind, item.amount) else 0
  }

  /** Every request one call of `handleUpdateData` issues, in order. */
  function Orchestrate(kind: string, action: string, item: Item, user: User, net: Network): (rs: seq<Request>)
    ensures |rs| >= 1 && rs[0] == PrimaryRequest(kind, action, item)
    ensures !net.primaryOk ==> rs == [PrimaryRequest(kind, action, item)]
    ensures net.primaryOk && ActionXp(kind, action, item) == 0 ==> rs == [PrimaryRequest(kind, action, item), Refetch]
    ensures net.primaryOk && ActionXp(kind, action, item) > 0 ==>
      |rs| >= 3 && rs[1] == ProfileUpdate(user, Gamify(user.xp, ActionXp(kind, action, item)).state)
    // After the PATCH come only refetches and the voucher, the voucher just
    // before the final refetch, or last when its POST throws.
    ensures net.primaryOk && ActionXp(kind, action, item) > 0 ==>
      var out := Gamify(user.xp, ActionXp(kind, action, item));
      && (forall i | 2 <= i < |rs| :: IsVoucher(rs[i]) || IsRefetch(rs[i]))
      && (out.reward && net.voucherThrows ==> rs[|rs| - 1] == Voucher)
      && (out.reward && !net.voucherThrows ==> rs[|rs| - 2] == Voucher && rs[|rs| - 1] == Refetch)
      && (!out.reward ==> rs[|rs| - 1] == Refetch)
  {
    var primary := PrimaryRequest(kind, action, item);
    if !net.primaryOk then [primary]
    else
      var earned := ActionXp(kind, action, item);
      if earned == 0 then [primary, Refetch]
      else
        var out := Gamify(user.xp, earned);
        [primary, ProfileUpdate(user, out.state)]
        + (if net.patchThrows then [] else [Refetch])
        + (if out.reward then [Voucher] else [])
        + (if out.reward && net.voucherThrows then [] else [Refetch])
  }

  predicate IsPatch(r: Request)
  {
    r.Send? && r.verb == Patch
  }

  predicate IsVoucher(r: Request)
  {
    r == Voucher
  }

  predicate IsRefetch(r: Request)
  {
    r.Refetch?
  }

  /** How many requests of `rs` satisfy `p`. */
  function Count(rs: seq<Request>, p: Request -> bool): nat
  {
    if rs == [] then 0 else (if p(rs[0]) then 1 else 0) + Count(rs[1..], p)
  }

  lemma {:induction false} CountAppend(a: seq<Request>, b: seq<Request>, p: Request -> bool)
    ensures Count(a + b, p) == Count(a, p) + Count(b, p)
  {
    if a != [] {
      assert (a + b)[0] == a[0] && (a + b)[1..] == a[1..] + b;
      CountAppend(a[1..], b, p);
    } else {
      assert a + b == b;
    }
  }

  /** The known actions follow the table: POST on the collection with the item,
      PUT on the member with the item, DELETE on the member without a body. So
      the id is in the URL exactly when the method is not POST, and the body is
      missing exactly when the method is DELETE. */
  lemma KnownActionShape(kind: string, action: string, item: Item)
    requires action == "add" || action == "edit" || action == "delete"
    ensures var r := PrimaryRequest(kind, action, item);
      (r.endpoint.Member? <==> r.verb != Post) && (r.body == NoBody <==> r.verb == Delete)
  {
  }

  /** How many PATCHes, vouchers and refetches one call issues. Nothing follows
      a failed primary request; a PATCH follows exactly when XP was earned; a
      voucher follows exactly when the engine wrapped, and never more than one. */
  lemma {:induction false} RequestCounts(kind: string, action: string, item: Item, user: User, net: Network)
    ensures var rs := Orchestrate(kind, action, item, user, net);
      var earned := ActionXp(kind, action, item);
      var wrapped := earned > 0 && Gamify(user.xp, earned).reward;
      && Count(rs, IsPatch) == (if net.primaryOk && earned > 0 then 1 else 0)
      && Count(rs, IsVoucher) == (if net.primaryOk && wrapped then 1 else 0)
      && Count(rs, IsRefetch) ==
           (if !net.primaryOk then 0
            else if earned == 0 then 1
            else (if net.patchThrows then 0 else 1) + (if wrapped && net.voucherThrows then 0 else 1))
  {
    var primary := PrimaryRequest(kind, action, item);
    var earned := ActionXp(kind, action, item);
    if net.primaryOk {
      if earned == 0 {
        CountPair(primary, Refetch, IsPatch);
        CountPair(primary, Refetch, IsVoucher);
        CountPair(primary, Refetch, IsRefetch);
      } else {
        var out := Gamify(user.xp, earned);
        var update := ProfileUpdate(user, out.state);
        var inner: seq<Request> := if net.patchThrows then [] else [Refetch];
        var voucher: seq<Request> := if out.reward then [Voucher] else [];
        var last: seq<Request> := if out.reward && net.voucherThrows then [] else [Refetch];
        CountParts([primary, update], inner, voucher, last, IsPatch);
        CountParts([primary, update], inner, voucher, last, IsVoucher);
        CountParts([primary, update], inner, voucher, last, IsRefetch);
        CountPair(primary, update, IsPatch);
        CountPair(primary, update, IsVoucher);
        CountPair(primary, update, IsRefetch);
      }
    }
  }

  lemma CountPair(x: Request, y: Request, p: Request -> bool)
    ensures Count([x, y], p) == (if p(x) then 1 else 0) + (if p(y) then 1 else 0)
  {
    assert [y][1..] == [];
    assert Count([y], p) == if p(y) then 1 else 0;
    assert [x, y][1..] == [y];
  }

  lemma CountParts(a: seq<Request>, b: seq<Request>, c: seq<Request>, d: seq<Request>, p: Request -> bool)
    ensures Count(a + b + c + d, p) == Count(a, p) + Count(b, p) + Count(c, p) + Count(d, p)
  {
    CountAppend(a + b + c, d, p);
    CountAppend(a + b, c, p);
    CountAppend(a, b, p);
  }

  /** The voucher is posted at most once per call, however many times the level
      wraps during it. */
  lemma AtMostOneVoucher(kind: string, action: string, item: Item, user: User, net: Network)
    ensures Count(Orchestrate(kind, action, item, user, net), IsVoucher) <= 1
  {
    RequestCounts(kind, action, item, user, net);
  }

  /** A goal added successfully earns 150 XP: exactly one PATCH, carrying a
      resolved state, and a voucher exactly when the engine wrapped. */
  lemma GoalAdded(item: Item, user: User, net: Network)
    requires net.primaryOk
    ensures var rs := Orchestrate("goals", "add", item, user, net);
      var out := Gamify(user.xp, GoalXp);
      && Count(rs, IsPatch) == 1
      && rs[1] == ProfileUpdate(user, out.state)
      && out.state.xp < out.state.nextLevelXp
      && Count(rs, IsVoucher) == (if out.reward then 1 else 0)
  {
    RequestCounts("goals", "add", item, user, net);
  }
}
