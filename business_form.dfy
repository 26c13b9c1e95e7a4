/** The business-management form: the business and promotion schemas, the owner gate on both
    submit handlers, and the payloads they send. */
module BusinessForm {
  import opened Wrappers
  import opened Types
  import opened Schema
  import Api

  /** The business form's fields. */
  datatype Field = Name | Address | Category | Description | LatitudeField | LongitudeField

  /** The business form's values; latitude and longitude are already numbers. */
  datatype Values = Values(
    name: string,
    address: string,
    category: string,
    description: Option<string>,
    latitude: real,
    longitude: real)

  /** The fields `businessFormSchema` reports errors on. */
  function Errors(v: Values): (errs: set<Field>)
    ensures Name in errs <==> !LengthIn(v.name, 2, 100)
    ensures Address in errs <==> !LengthIn(v.address, 5, 200)
    ensures Category in errs <==> !LengthIn(v.category, 2, 50)
    ensures Description in errs <==> v.description.Some? && |v.description.value| > 500
    ensures LatitudeField in errs <==> !InRange(v.latitude, -90.0, 90.0)
    ensures LongitudeField in errs <==> !InRange(v.longitude, -180.0, 180.0)
  {
    (if LengthIn(v.name, 2, 100) then {} else {Name}) +
    (if LengthIn(v.address, 5, 200) then {} else {Address}) +
    (if LengthIn(v.category, 2, 50) then {} else {Category}) +
    (if v.description.None? || |v.description.value| <= 500 then {} else {Description}) +
    (if InRange(v.latitude, -90.0, 90.0) then {} else {LatitudeField}) +
    (if InRange(v.longitude, -180.0, 180.0) then {} else {LongitudeField})
  }

  /** The promotion form's fields; `expiresAt` is optional and never in error. */
  datatype PromotionField = PromotionTitle | PromotionDetails

  /** The promotion form's values. */
  datatype PromotionValues = PromotionValues(title: string, details: string, expiresAt: Option<Timestamp>)

  /** The fields `promotionFormSchema` reports errors on; the expiry date is not checked against anything. */
  function PromotionErrors(v: PromotionValues): (errs: set<PromotionField>)
    ensures PromotionTitle in errs <==> !LengthIn(v.title, 3, 100)
    ensures PromotionDetails in errs <==> !LengthIn(v.details, 10, 500)
  {
    (if LengthIn(v.title, 3, 100) then {} else {PromotionTitle}) +
    (if LengthIn(v.details, 10, 500) then {} else {PromotionDetails})
  }

  /** Whether a promotion is accepted does not depend on its expiry date. */
  lemma PromotionExpiryUnchecked(v: PromotionValues, expiresAt: Option<Timestamp>)
    ensures PromotionErrors(v.(expiresAt := expiresAt)) == PromotionErrors(v)
  {
  }

  /** The business form's default values: empty texts, San Francisco. */
  const Defaults := Values("", "", "", Some(""), 37.7749, -122.4194)

  /** The defaults fail on name, address and category, and on nothing else. */
  lemma DefaultsRejected()
    ensures Errors(Defaults) == {Name, Address, Category}
  {
  }

  /** The two checks both handlers make, in order: someone is signed in, and is a business owner. */
  datatype Gate = NoUser | NotOwner | Allowed(owner: User)

  /** The two gates both submit handlers apply: no user first, then not a business owner. */
  function CheckOwner(user: Option<User>): (g: Gate)
    ensures g.NoUser? <==> user.None?
    ensures g.NotOwner? <==> user.Some? && user.value.role != BusinessOwner
    ensures g.Allowed? <==> user.Some? && user.value.role == BusinessOwner
    ensures g.Allowed? ==> g.owner == user.value
  {
    if user.None? then NoUser
    else if user.value.role != BusinessOwner then NotOwner
    else Allowed(user.value)
  }

  /** The business `onBusinessSubmit` sends: the values with the coordinates moved into a
      [longitude, latitude] point and the signed-in user as owner. */
  function BusinessPayload(v: Values, owner: User): (p: Api.NewBusiness)
    ensures Latitude(p.location) == v.latitude && Longitude(p.location) == v.longitude
    ensures p.location.coordinates == (v.longitude, v.latitude)
    ensures p.owner == owner.id
    ensures p.name == v.name && p.address == v.address && p.category == v.category
    ensures p.description == v.description && p.currentPromotion.None?
  {
    Api.NewBusiness(v.name, v.address, PointAt(v.latitude, v.longitude), v.category,
                    v.description, None, owner.id)
  }

  /** The promotion `onPromotionSubmit` sends, with the expiry date as an ISO string. */
  function PromotionPayload(v: PromotionValues, toIso: Timestamp -> string): (p: Promotion)
    ensures p.title == v.title && p.details == v.details
    ensures p.expiresAt.Some? <==> v.expiresAt.Some?
    ensures v.expiresAt.Some? ==> p.expiresAt.value == toIso(v.expiresAt.value)
  {
    Promotion(v.title, v.details, if v.expiresAt.Some? then Some(toIso(v.expiresAt.value)) else None)
  }

  /** The one business every promotion update targets, whoever submits it. */
  const PromotionTarget := "biz1"

  /** What the business submit leads to. */
  datatype BusinessOutcome = BusinessAuthError | BusinessDenied | BusinessSaved(business: Business)

  /** `onBusinessSubmit`: nothing is sent unless a business owner is signed in; otherwise the
      payload is appended to the store's businesses. */
  method OnBusinessSubmit(store: Api.MockStore, user: Option<User>, v: Values, stamp: string)
    returns (outcome: BusinessOutcome)
    modifies store
    ensures store.events == old(store.events)
    ensures outcome.BusinessAuthError? <==> user.None?
    ensures outcome.BusinessDenied? <==> user.Some? && user.value.role != BusinessOwner
    ensures !outcome.BusinessSaved? ==> store.businesses == old(store.businesses)
    ensures outcome.BusinessSaved? ==>
              && store.businesses == old(store.businesses) + [outcome.business]
              && outcome.business.id == "biz" + stamp
              && outcome.business.owner == user.value.id
              && outcome.business.location == PointAt(v.latitude, v.longitude)
              && outcome.business.name == v.name && outcome.business.address == v.address
              && outcome.business.category == v.category && outcome.business.description == v.description
              && outcome.business.currentPromotion.None?
  {
    match CheckOwner(user) {
      case NoUser =>
        return BusinessAuthError;
      case NotOwner =>
        return BusinessDenied;
      case Allowed(owner) =>
        var created := store.CreateNewBusiness(BusinessPayload(v, owner), stamp);
        outcome := BusinessSaved(created);
    }
  }

  /** What the promotion submit leads to; a failed update is caught and reported. */
  datatype PromotionOutcome = PromotionAuthError | PromotionDenied | PromotionSaved(business: Business) | PromotionFailed

  /** `onPromotionSubmit`: nothing is sent unless a business owner is signed in; otherwise the
      promotion of business "biz1" is replaced, whoever the owner is. */
  method OnPromotionSubmit(store: Api.MockStore, user: Option<User>, v: PromotionValues, toIso: Timestamp -> string)
    returns (outcome: PromotionOutcome)
    modifies store
    ensures store.events == old(store.events)
    ensures outcome.PromotionAuthError? <==> user.None?
    ensures outcome.PromotionDenied? <==> user.Some? && user.value.role != BusinessOwner
    ensures outcome.PromotionAuthError? || outcome.PromotionDenied? || outcome.PromotionFailed? ==>
              store.businesses == old(store.businesses)
    ensures outcome.PromotionFailed? ==>
              forall k :: 0 <= k < |old(store.businesses)| ==> old(store.businesses)[k].id != PromotionTarget
    ensures outcome.PromotionSaved? ==>
              var i := Api.FindIndex(old(store.businesses), PromotionTarget);
              && 0 <= i
              && store.businesses == old(store.businesses)[i := old(store.businesses)[i].(currentPromotion := Some(PromotionPayload(v, toIso)))]
              && outcome.business == store.businesses[i]
    ensures CheckOwner(user).Allowed? && (exists k :: 0 <= k < |old(store.businesses)| && old(store.businesses)[k].id == PromotionTarget) ==>
              outcome.PromotionSaved?
  {
    match CheckOwner(user) {
      case NoUser =>
        return PromotionAuthError;
      case NotOwner =>
        return PromotionDenied;
      case Allowed(_) =>
        var r := store.UpdatePromotion(PromotionTarget, Some(PromotionPayload(v, toIso)));
        if r.Success? {
          outcome := PromotionSaved(r.value);
        } else {
          outcome := PromotionFailed;
        }
    }
  }

  /** On a store as the module initialises it, a business owner's first promotion update finds
      business "biz1" and replaces its promotion. */
  method PromotionOnSeededStore(owner: User, v: PromotionValues, toIso: Timestamp -> string,
                                promotionExpiry: string, musicStart: string, musicEnd: string, marketStart: string)
    returns (outcome: PromotionOutcome)
    requires owner.role == BusinessOwner
    ensures outcome.PromotionSaved?
    ensures outcome.business.id == PromotionTarget && outcome.business.name == "Cool Cafe"
    ensures outcome.business.currentPromotion == Some(PromotionPayload(v, toIso))
  {
    var store := new Api.MockStore(promotionExpiry, musicStart, musicEnd, marketStart);
    Api.SeedHoldsBiz1(promotionExpiry);
    outcome := OnPromotionSubmit(store, Some(owner), v, toIso);
  }
}
