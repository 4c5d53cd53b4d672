/// The discount-code routes of backend/controller/coupounCode.js over the
/// coupon collection: create (`/create-coupon-code`), list a seller's codes
/// (`/get-coupon/:id`), delete (`/delete-coupon/:id`) and look a code up by
/// name (`/get-coupon-value/:name`). The first three sit behind `isSeller`;
/// the lookup is open to anyone. Creation refuses a name already in use, so
/// names stay unique; nothing checks that the `shopId` a new code carries
/// or the code a seller deletes belongs to that seller.
module Coupons {
  import opened Entities
  import opened Jwt
  import opened Http
  import opened Auth

  /** The request body `CoupounCode.create(req.body)` stores. */
  datatype CouponBody = CouponBody(name: string, value: int, minAmount: int, maxAmount: int,
                                   shopId: Id, selectedProduct: string)

  datatype Coupon = Coupon(id: Id, body: CouponBody)

  predicate NameTaken(coupons: map<Id, Coupon>, name: string) {
    exists id :: id in coupons && coupons[id].body.name == name
  }

  predicate KeyedById(coupons: map<Id, Coupon>) {
    forall id :: id in coupons ==> coupons[id].id == id
  }

  predicate UniqueNames(coupons: map<Id, Coupon>) {
    forall i, j :: i in coupons && j in coupons && coupons[i].body.name == coupons[j].body.name ==> i == j
  }

  /** The invariant every route keeps. */
  predicate Consistent(coupons: map<Id, Coupon>) {
    KeyedById(coupons) && UniqueNames(coupons)
  }

  /** A handler's answer together with the collection it leaves behind. */
  datatype Step<+T> = Step(outcome: Outcome<T>, coupons: map<Id, Coupon>)

  /** `/create-coupon-code`. `insert` is what `CoupounCode.create` did with
      the body: a schema validation failure throws, and the route's `catch`
      turns it into a 400. That `catch` hands the error object itself to
      `ErrorHandler`, so the text `Threw` carries stands for the error's
      string form ("ValidationError: ..."), not only its message. */
  function Create(coupons: map<Id, Coupon>, shops: map<Id, Shop>, jar: Cookies, nowMs: nat,
                  body: CouponBody, insert: Attempt<()>, freshId: Id): Step<Coupon>
  {
    match AuthenticateSeller(jar, shops, nowMs)
    case Reject(e) => Step(Failed(e), coupons)
    case Continue(_) =>
      if NameTaken(coupons, body.name) then Step(Failed(HttpError(400, "Le code de réduction existe déjà !")), coupons)
      else match insert
        case Threw(m) => Step(Failed(HttpError(400, m)), coupons)
        case Returned(_) => Step(Done(201, Coupon(freshId, body)), coupons[freshId := Coupon(freshId, body)])
  }

  /** `/delete-coupon/:id`: `findByIdAndDelete` on the path id, whichever
      shop the code belongs to. */
  function Delete(coupons: map<Id, Coupon>, shops: map<Id, Shop>, jar: Cookies, nowMs: nat,
                  couponId: Id): Step<string>
  {
    match AuthenticateSeller(jar, shops, nowMs)
    case Reject(e) => Step(Failed(e), coupons)
    case Continue(_) =>
      if couponId !in coupons then Step(Failed(HttpError(400, "Le code de réduction n'existe pas !")), coupons)
      else Step(Done(201, "Code de réduction supprimé avec succès !"), coupons - {couponId})
  }

  /** A name in use gives 400 and leaves the collection alone; otherwise,
      unless the insert throws, exactly one code is added, with the body as
      sent (its `shopId` included, whichever shop that names). */
  lemma CreateOutcomes(coupons: map<Id, Coupon>, shops: map<Id, Shop>, jar: Cookies, nowMs: nat,
                       body: CouponBody, insert: Attempt<()>, freshId: Id)
    requires freshId !in coupons
    requires AuthenticateSeller(jar, shops, nowMs).Continue?
    ensures var s := Create(coupons, shops, jar, nowMs, body, insert, freshId);
      && (NameTaken(coupons, body.name) ==>
            s == Step(Failed(HttpError(400, "Le code de réduction existe déjà !")), coupons))
      && (!NameTaken(coupons, body.name) && insert.Threw? ==>
            s == Step(Failed(HttpError(400, insert.message)), coupons))
      && (!NameTaken(coupons, body.name) && insert.Returned? ==>
            && s.outcome == Done(201, Coupon(freshId, body))
            && s.coupons.Keys == coupons.Keys + {freshId}
            && |s.coupons| == |coupons| + 1
            && s.coupons[freshId] == Coupon(freshId, body)
            && forall id :: id in coupons ==> s.coupons[id] == coupons[id])
  {
    if !NameTaken(coupons, body.name) && insert.Returned? {
      var s := Create(coupons, shops, jar, nowMs, body, insert, freshId);
      assert s.coupons.Keys == coupons.Keys + {freshId};
    }
  }

  /** An unknown id gives 400; a known one is removed and no other, even
      when it belongs to another shop than the one logged in. */
  lemma DeleteOutcomes(coupons: map<Id, Coupon>, shops: map<Id, Shop>, jar: Cookies, nowMs: nat, couponId: Id)
    requires AuthenticateSeller(jar, shops, nowMs).Continue?
    ensures var s := Delete(coupons, shops, jar, nowMs, couponId);
      && (couponId !in coupons ==>
            s == Step(Failed(HttpError(400, "Le code de réduction n'existe pas !")), coupons))
      && (couponId in coupons ==>
            && s.outcome == Done(201, "Code de réduction supprimé avec succès !")
            && s.coupons.Keys == coupons.Keys - {couponId}
            && |s.coupons| == |coupons| - 1
            && forall id :: id in s.coupons ==> s.coupons[id] == coupons[id])
  {
  }

  /** Without a valid seller session neither writing route touches the
      collection, and both answer with the gate's rejection. */
  lemma GateProtectsTable(coupons: map<Id, Coupon>, shops: map<Id, Shop>, jar: Cookies, nowMs: nat,
                          body: CouponBody, insert: Attempt<()>, freshId: Id, couponId: Id)
    requires AuthenticateSeller(jar, shops, nowMs).Reject?
    ensures var e := AuthenticateSeller(jar, shops, nowMs).error;
      && Create(coupons, shops, jar, nowMs, body, insert, freshId) == Step(Failed(e), coupons)
      && Delete(coupons, shops, jar, nowMs, couponId) == Step(Failed(e), coupons)
  {
  }

  lemma CreateKeepsConsistent(coupons: map<Id, Coupon>, shops: map<Id, Shop>, jar: Cookies, nowMs: nat,
                              body: CouponBody, insert: Attempt<()>, freshId: Id)
    requires Consistent(coupons)
    ensures Consistent(Create(coupons, shops, jar, nowMs, body, insert, freshId).coupons)
  {
    var s := Create(coupons, shops, jar, nowMs, body, insert, freshId);
    if s.coupons != coupons {
      assert !NameTaken(coupons, body.name);
      assert forall id :: id in coupons ==> coupons[id].body.name != body.name;
    }
  }

  lemma DeleteKeepsConsistent(coupons: map<Id, Coupon>, shops: map<Id, Shop>, jar: Cookies, nowMs: nat,
                              couponId: Id)
    requires Consistent(coupons)
    ensures Consistent(Delete(coupons, shops, jar, nowMs, couponId).coupons)
  {
  }

  // ---------------------------------------------------------------- any sequence of writes

  /** A request to one of the routes that write the coupon collection. Each
      carries the Shop collection as it stands when the request arrives,
      since the seller gate reads it and shops come and go between requests. */
  datatype CouponRequest =
    | CreateRequest(shops: map<Id, Shop>, jar: Cookies, nowMs: nat, body: CouponBody, insert: Attempt<()>, freshId: Id)
    | DeleteRequest(shops: map<Id, Shop>, jar: Cookies, nowMs: nat, couponId: Id)

  function Serve(coupons: map<Id, Coupon>, req: CouponRequest): map<Id, Coupon> {
    match req
    case CreateRequest(shops, jar, nowMs, body, insert, freshId) => Create(coupons, shops, jar, nowMs, body, insert, freshId).coupons
    case DeleteRequest(shops, jar, nowMs, couponId) => Delete(coupons, shops, jar, nowMs, couponId).coupons
  }

  /** The collection after serving the requests one at a time, in order. */
  function ServeAll(coupons: map<Id, Coupon>, reqs: seq<CouponRequest>): map<Id, Coupon>
    decreases |reqs|
  {
    if reqs == [] then coupons else ServeAll(Serve(coupons, reqs[0]), reqs[1..])
  }

  /** Served one at a time, no sequence of creates and deletes ever gives
      two codes the same name. */
  lemma {:induction false} ServeAllKeepsNamesUnique(coupons: map<Id, Coupon>, reqs: seq<CouponRequest>)
    requires Consistent(coupons)
    ensures Consistent(ServeAll(coupons, reqs))
    decreases |reqs|
  {
    if reqs != [] {
      match reqs[0] {
        case CreateRequest(shops, jar, nowMs, body, insert, freshId) =>
          CreateKeepsConsistent(coupons, shops, jar, nowMs, body, insert, freshId);
        case DeleteRequest(shops, jar, nowMs, couponId) =>
          DeleteKeepsConsistent(coupons, shops, jar, nowMs, couponId);
      }
      ServeAllKeepsNamesUnique(Serve(coupons, reqs[0]), reqs[1..]);
    }
  }

  // ---------------------------------------------------------------- the collection

  /** The coupon collection and its four routes. */
  class CouponTable {
    var coupons: map<Id, Coupon>

    ghost predicate Valid()
      reads this
    {
      Consistent(coupons)
    }

    constructor ()
      ensures Valid() && coupons == map[]
    {
      coupons := map[];
    }

    /** `/create-coupon-code`. */
    method CreateCouponCode(shops: map<Id, Shop>, jar: Cookies, nowMs: nat, body: CouponBody,
                            insert: Attempt<()>, freshId: Id) returns (r: Outcome<Coupon>)
      requires Valid() && freshId !in coupons
      modifies this
      ensures Valid()
      ensures Step(r, coupons) == Create(old(coupons), shops, jar, nowMs, body, insert, freshId)
    {
      CreateKeepsConsistent(coupons, shops, jar, nowMs, body, insert, freshId);
      var gate := AuthenticateSeller(jar, shops, nowMs);
      if gate.Reject? {
        return Failed(gate.error);
      }
      if NameTaken(coupons, body.name) {
        return Failed(HttpError(400, "Le code de réduction existe déjà !"));
      }
      if insert.Threw? {
        return Failed(HttpError(400, insert.message));
      }
      var coupon := Coupon(freshId, body);
      coupons := coupons[freshId := coupon];
      r := Done(201, coupon);
    }

    /** `/get-coupon/:id`: the path id is never read; the codes listed are
        those whose `shopId` is the logged-in seller's id, and the status is
        201. */
    function GetCoupons(shops: map<Id, Shop>, jar: Cookies, nowMs: nat, pathId: Id): (r: Outcome<set<Coupon>>)
      reads this
      ensures var g := AuthenticateSeller(jar, shops, nowMs);
        && (g.Reject? ==> r == Failed(g.error))
        && (g.Continue? ==> r.Done? && r.status == 201)
        && (g.Continue? ==> forall c :: c in r.value <==> c in coupons.Values && c.body.shopId == g.principal.id)
    {
      match AuthenticateSeller(jar, shops, nowMs)
      case Reject(e) => Failed(e)
      case Continue(seller) =>
        Done(201, set id | id in coupons && coupons[id].body.shopId == seller.id :: coupons[id])
    }

    /** `/delete-coupon/:id`. */
    method DeleteCoupon(shops: map<Id, Shop>, jar: Cookies, nowMs: nat, couponId: Id) returns (r: Outcome<string>)
      requires Valid()
      modifies this
      ensures Valid()
      ensures Step(r, coupons) == Delete(old(coupons), shops, jar, nowMs, couponId)
    {
      var gate := AuthenticateSeller(jar, shops, nowMs);
      if gate.Reject? {
        return Failed(gate.error);
      }
      if couponId !in coupons {
        return Failed(HttpError(400, "Le code de réduction n'existe pas !"));
      }
      coupons := coupons - {couponId};
      r := Done(201, "Code de réduction supprimé avec succès !");
    }

    /** `/get-coupon-value/:name`, open to anyone: 200 and the code with that
        name, or null when there is none. Names being unique, the code found
        is the only one with that name. */
    method GetCouponValue(name: string) returns (r: Outcome<Option<Coupon>>)
      requires Valid()
      ensures r.Done? && r.status == 200
      ensures r.value.None? <==> !NameTaken(coupons, name)
      ensures forall id :: id in coupons && coupons[id].body.name == name ==> r.value == Some(coupons[id])
    {
      if !NameTaken(coupons, name) {
        return Done(200, None);
      }
      var id :| id in coupons && coupons[id].body.name == name;
      r := Done(200, Some(coupons[id]));
    }
  }
}
