/**
 * The GraphQL mutations: their login and permission gates, the ownership
 * checks, the wishlist toggle and the "beat your previous offer" rule, and
 * the `{ok, errors}` envelope every mutation answers with.
 *
 * The caller is the id of the logged-in account, or None when the request is
 * anonymous. A refusal reported in the envelope is a `Success` whose errors
 * are non-empty; an exception that escapes `mutate` is a `Failure`.
 */
module Mutation {
  import opened Wrappers
  import opened Models
  import Utils

  /** The envelope of a mutation's answer: the error messages and the object, if any. */
  datatype Payload<T> = Payload(errors: seq<string>, value: Option<T>)

  const NOT_ALLOWED: string := "You are not allowed to perform this action."
  const OTHERS_PROFILE: string := "Users are allowed to update only their respective profile."
  const WISHLIST_PRODUCT_MISSING: string := "Product requested to add, not found "
  const OWN_PRODUCT_WISHLIST: string := "User can't add his product to wishlist."
  const OFFER_PRODUCT_MISSING: string := "Product to offer on, not found"
  const OWN_PRODUCT_OFFER: string := "User cannot offer on their own product"
  const OFFER_TOO_LOW: string := "You cannot offer less than or equal to your previous offer"

  // ---------------------------------------------------------------------
  // The envelope
  // ---------------------------------------------------------------------

  /** `resolve_errors`: the stored errors, an absent list read as empty. */
  function ResolveErrors(errors: Option<seq<string>>): (r: seq<string>)
    ensures errors.Some? ==> r == errors.value
    ensures errors.None? ==> r == []
  {
    if errors.Some? then errors.value else []
  }

  /** `resolve_ok`: true when there are no errors. */
  function ResolveOk(errors: Option<seq<string>>): (ok: bool)
    ensures ok <==> errors.None? || errors.value == []
  {
    |if errors.Some? then errors.value else []| == 0
  }

  /** `ok` and `errors` never disagree: ok exactly when the error list is empty. */
  lemma OkIffNoErrors(errors: Option<seq<string>>)
    ensures ResolveOk(errors) <==> ResolveErrors(errors) == []
    ensures !ResolveOk(errors) ==> |ResolveErrors(errors)| > 0
  {
  }

  /** A payload answers ok exactly when it carries its object. */
  predicate WellFormed<T>(p: Payload<T>)
  {
    ResolveOk(Some(p.errors)) <==> p.value.Some?
  }

  // ---------------------------------------------------------------------
  // Messages
  // ---------------------------------------------------------------------

  /** The decimal digits of `n`, most significant first. */
  function Digits(n: nat): (s: string)
    ensures |s| >= 1
    ensures forall i :: 0 <= i < |s| ==> '0' <= s[i] <= '9'
  {
    var d := ['0', '1', '2', '3', '4', '5', '6', '7', '8', '9'];
    if n < 10 then [d[n]] else Digits(n / 10) + [d[n % 10]]
  }

  /** Python's `str` of an integer. */
  function IntString(i: int): string
  {
    if i < 0 then "-" + Digits(-i) else Digits(i)
  }

  /** The error for an unknown product id in `UpdateProduct`. */
  function ProductMissing(id: int): string
  {
    "Product with primary key " + IntString(id) + " does not exist."
  }

  // ---------------------------------------------------------------------
  // Gates
  // ---------------------------------------------------------------------

  /** The permission level stored for the profile of account `u`. */
  function LevelOf(db: Db, u: int): int
    reads db
    requires db.Valid() && u in db.users
  {
    db.profiles[db.ProfileOf(u)].permissionLevel
  }

  /**
   * What `login_required` and `user_passes_test(level >= minimum)` let
   * through: None when the call proceeds, the exception otherwise.
   */
  function Gate(db: Db, caller: Option<int>, minimum: int): (e: Option<Exc>)
    reads db
    requires db.Valid() && (caller.Some? ==> caller.value in db.users)
    ensures e.None? <==> caller.Some? && LevelOf(db, caller.value) >= minimum
    ensures e.Some? ==> e.value == PermissionDenied
  {
    if caller.None? then Some(PermissionDenied)
    else if LevelOf(db, caller.value) < minimum then Some(PermissionDenied)
    else None
  }

  /** A BUYER or BANNED caller is refused by the SELLER gate; a BANNED one by the BUYER gate too. */
  lemma GateOrder(db: Db, u: int)
    requires db.Valid() && u in db.users
    ensures LevelOf(db, u) <= BUYER ==> Gate(db, Some(u), SELLER) == Some(PermissionDenied)
    ensures LevelOf(db, u) == BANNED ==> Gate(db, Some(u), BUYER) == Some(PermissionDenied)
    ensures Gate(db, Some(u), SELLER).None? ==> Gate(db, Some(u), BUYER).None?
    ensures Gate(db, None, BANNED) == Some(PermissionDenied)
  {
  }

  // ---------------------------------------------------------------------
  // Mutations
  // ---------------------------------------------------------------------

  /**
   * `CreateProduct`: only a logged-in caller of level SELLER or higher may
   * list a product; the caller's profile becomes its seller.
   */
  method CreateProduct(db: Db, caller: Option<int>, input: Option<Utils.ProductInput>)
    returns (r: Result<Payload<int>, Exc>)
    requires db.Valid() && (caller.Some? ==> caller.value in db.users)
    modifies db`products, db`nextProduct
    ensures db.Valid()
    ensures Gate(db, caller, SELLER).Some? ==> r == Failure(PermissionDenied) && unchanged(db)
    ensures Gate(db, caller, SELLER).None? && input.None? ==> r == Failure(AttributeError) && unchanged(db)
    ensures Gate(db, caller, SELLER).None? && input.Some? ==>
              (r.Success? <==> Utils.Storable(input.value))
              && (r.Failure? ==> r.error == IntegrityError)
    ensures r.Failure? ==> unchanged(db)
    ensures r.Success? ==>
              && Gate(db, caller, SELLER).None? && input.Some?
              && r.value.errors == [] && r.value.value.Some? && WellFormed(r.value)
              && r.value.value.value !in old(db.products)
              && db.products == old(db.products)[r.value.value.value :=
                   Utils.NewProduct(db.ProfileOf(caller.value), input.value)]
  {
    var gate := Gate(db, caller, SELLER);
    if gate.Some? {
      return Failure(gate.value);
    }
    var errors: seq<string> := [];
    var seller := db.ProfileOf(caller.value);
    if input.None? {
      return Failure(AttributeError);
    }
    var created := Utils.CreateProduct(db, seller, input.value);
    if created.Failure? {
      return Failure(created.error);
    }
    r := Success(Payload(errors, Some(created.value)));
  }

  /**
   * `UpdateProduct`: an unknown id and a caller who is not the seller are
   * refused in the envelope and change nothing; the seller's patch is
   * applied as `update_product` applies it.
   */
  method UpdateProduct(db: Db, caller: Option<int>, id: int, input: Option<Utils.ProductInput>)
    returns (r: Result<Payload<Product>, Exc>)
    requires db.Valid() && (caller.Some? ==> caller.value in db.users)
    modifies db`products
    ensures db.Valid()
    ensures caller.None? ==> r == Failure(PermissionDenied) && unchanged(db)
    ensures caller.Some? && id !in old(db.products) ==>
              r == Success(Payload([ProductMissing(id)], None)) && unchanged(db)
    ensures caller.Some? && id in old(db.products) && old(db.products)[id].seller != Some(db.ProfileOf(caller.value)) ==>
              r == Success(Payload([NOT_ALLOWED], None)) && unchanged(db)
    ensures caller.Some? && id in old(db.products) && old(db.products)[id].seller == Some(db.ProfileOf(caller.value)) ==>
              if input.None? then r == Failure(AttributeError) && unchanged(db)
              else
                var patched := Utils.PatchedProduct(old(db.products)[id], input.value);
                && (patched.expectedPrice >= 0 ==>
                      r == Success(Payload([], Some(patched))) && db.products == old(db.products)[id := patched])
                && (patched.expectedPrice < 0 ==> r == Failure(IntegrityError) && unchanged(db))
    ensures r.Success? ==> WellFormed(r.value)
  {
    if caller.None? {
      return Failure(PermissionDenied);
    }
    var errors: seq<string> := [];
    if id !in db.products {
      errors := errors + [ProductMissing(id)];
      assert errors == [ProductMissing(id)];
      return Success(Payload(errors, None));
    }
    var product := db.products[id];
    if product.seller != Some(db.ProfileOf(caller.value)) {
      errors := errors + [NOT_ALLOWED];
      assert errors == [NOT_ALLOWED];
      return Success(Payload(errors, None));
    }
    if input.None? {
      return Failure(AttributeError);
    }
    var updated := Utils.UpdateProduct(db, id, input.value);
    if updated.Failure? {
      return Failure(updated.error);
    }
    r := Success(Payload(errors, Some(updated.value)));
  }

  /**
   * `UpdateProfile`: only the owner of the profile may patch it. A missing
   * input and an unknown username are meant to be refused in the envelope,
   * but both error paths evaluate a misspelt name and raise instead.
   */
  method UpdateProfile(db: Db, caller: Option<int>, username: string, input: Option<Utils.ProfileInput>)
    returns (r: Result<Payload<Profile>, Exc>)
    requires db.Valid() && (caller.Some? ==> caller.value in db.users)
    modifies db`profiles
    ensures db.Valid()
    ensures caller.None? ==> r == Failure(PermissionDenied) && unchanged(db)
    ensures caller.Some? && input.None? ==> r == Failure(NameError) && unchanged(db)
    ensures caller.Some? && input.Some? && username !in db.usernames ==> r == Failure(NameError) && unchanged(db)
    ensures caller.Some? && input.Some? && username in db.usernames && db.usernames[username] != caller.value ==>
              r == Success(Payload([OTHERS_PROFILE], None)) && unchanged(db)
    ensures caller.Some? && input.Some? && username in db.usernames && db.usernames[username] == caller.value ==>
              var pid := db.ProfileOf(caller.value);
              var p := Utils.PatchedProfile(old(db.profiles)[pid], input.value);
              && (old(Utils.ContactTaken(db, pid, p.contactNo)) ==> r == Failure(IntegrityError) && unchanged(db))
              && (!old(Utils.ContactTaken(db, pid, p.contactNo)) ==>
                    r == Success(Payload([], Some(p.(permissionLevel := BUYER))))
                    && db.profiles == old(db.profiles)[pid := p.(permissionLevel := BUYER)])
    ensures r.Success? ==> WellFormed(r.value)
  {
    if caller.None? {
      return Failure(PermissionDenied);
    }
    var errors: seq<string> := [];
    if input.None? {
      errors := errors + ["Must provide an input to perform mutation. "];
      return Failure(NameError);     // `erros`
    }
    if username !in db.usernames {
      return Failure(NameError);     // `UpdateProfie`
    }
    var pid := db.ProfileOf(db.usernames[username]);
    if db.profiles[pid].user != caller.value {
      errors := errors + [OTHERS_PROFILE];
      assert errors == [OTHERS_PROFILE];
      return Success(Payload(errors, None));
    }
    var updated := Utils.UpdateProfile(db, pid, input.value);
    if updated.Failure? {
      return Failure(updated.error);
    }
    r := Success(Payload(errors, Some(updated.value)));
  }

  /** The wishlist after toggling `product`: removed when present, added when absent. */
  function Toggled(wishlist: set<int>, product: int): (w: set<int>)
    ensures product in wishlist ==> w == wishlist - {product}
    ensures product !in wishlist ==> w == wishlist + {product}
  {
    if product in wishlist then wishlist - {product} else wishlist + {product}
  }

  /** Toggling the same product twice restores the wishlist. */
  lemma ToggleTwiceIsIdentity(wishlist: set<int>, product: int)
    ensures Toggled(Toggled(wishlist, product), product) == wishlist
  {
  }

  /** A toggle flips the product's membership and touches no other product. */
  lemma ToggleFlipsOnlyItsProduct(wishlist: set<int>, product: int, other: int)
    ensures product in Toggled(wishlist, product) <==> product !in wishlist
    ensures other != product ==> (other in Toggled(wishlist, product) <==> other in wishlist)
  {
  }

  /**
   * `UpdateWishlist`: toggle a product on the caller's wishlist. An unknown
   * product and the caller's own product are refused and change nothing.
   */
  method UpdateWishlist(db: Db, caller: Option<int>, id: int) returns (r: Result<Payload<set<int>>, Exc>)
    requires db.Valid() && (caller.Some? ==> caller.value in db.users)
    modifies db`wishlists
    ensures db.Valid()
    ensures caller.None? ==> r == Failure(PermissionDenied) && unchanged(db)
    ensures caller.Some? && id !in db.products ==>
              r == Success(Payload([WISHLIST_PRODUCT_MISSING], None)) && unchanged(db)
    ensures caller.Some? && id in db.products && db.products[id].seller == Some(db.ProfileOf(caller.value)) ==>
              r == Success(Payload([OWN_PRODUCT_WISHLIST], None)) && unchanged(db)
    ensures caller.Some? && id in db.products && db.products[id].seller != Some(db.ProfileOf(caller.value)) ==>
              var pid := db.ProfileOf(caller.value);
              && db.wishlists == old(db.wishlists)[pid := Toggled(old(db.wishlists)[pid], id)]
              && r == Success(Payload([], Some(db.wishlists[pid])))
    ensures r.Success? ==> WellFormed(r.value)
  {
    if caller.None? {
      return Failure(PermissionDenied);
    }
    var errors: seq<string> := [];
    if id !in db.products {
      errors := errors + [WISHLIST_PRODUCT_MISSING];
      assert errors == [WISHLIST_PRODUCT_MISSING];
      return Success(Payload(errors, None));
    }
    var pid := db.ProfileOf(caller.value);
    if db.products[id].seller == Some(pid) {
      errors := errors + [OWN_PRODUCT_WISHLIST];
      assert errors == [OWN_PRODUCT_WISHLIST];
      return Success(Payload(errors, None));
    }
    var wishlist := db.wishlists[pid];
    if id in wishlist {
      wishlist := wishlist - {id};
    } else {
      wishlist := wishlist + {id};
    }
    db.wishlists := db.wishlists[pid := wishlist];
    r := Success(Payload(errors, Some(wishlist)));
  }

  /**
   * `CreateOffer`: a logged-in caller of level BUYER or higher bids on
   * another seller's product. A bid that does not beat the caller's latest
   * bid on the same product is refused; nothing else is checked (not the
   * asking price, not negotiability). Comparing with a missing amount, or
   * reading a missing input, raises.
   */
  method CreateOffer(db: Db, caller: Option<int>, id: int, input: Option<Utils.OfferInput>)
    returns (r: Result<Payload<Offer>, Exc>)
    requires db.Valid() && (caller.Some? ==> caller.value in db.users)
    modifies db`offers, db`products
    ensures db.Valid()
    ensures Gate(db, caller, BUYER).Some? ==> r == Failure(PermissionDenied) && unchanged(db)
    ensures Gate(db, caller, BUYER).None? && id !in old(db.products) ==>
              r == Success(Payload([OFFER_PRODUCT_MISSING], None)) && unchanged(db)
    ensures Gate(db, caller, BUYER).None? && id in old(db.products)
            && old(db.products)[id].seller == Some(db.ProfileOf(caller.value)) ==>
              r == Success(Payload([OWN_PRODUCT_OFFER], None)) && unchanged(db)
    ensures Gate(db, caller, BUYER).None? && id in old(db.products)
            && old(db.products)[id].seller != Some(db.ProfileOf(caller.value)) ==>
              var prev := PreviousOffer(old(db.offers), db.ProfileOf(caller.value), id);
              && (prev.Some? && input.None? ==> r == Failure(AttributeError))
              && (prev.Some? && input.Some? && input.value.amount.None? ==> r == Failure(TypeError))
              && (prev.Some? && input.Some? && input.value.amount.Some? && prev.value.amount >= input.value.amount.value ==>
                    r == Success(Payload([OFFER_TOO_LOW], None)))
              && (prev.None? && input.None? ==> r == Failure(AttributeError))
              && ((prev.None? || (input.Some? && input.value.amount.Some? && prev.value.amount < input.value.amount.value))
                  && input.Some? ==>
                    if input.value.amount.None? || input.value.message.None? then r == Failure(IntegrityError)
                    else
                      var offer := Offer(db.ProfileOf(caller.value), id, input.value.amount.value, input.value.message.value);
                      && r == Success(Payload([], Some(offer)))
                      && db.offers == old(db.offers) + [offer]
                      && db.products == old(db.products)[id := old(db.products)[id].(numOffers := old(db.products)[id].numOffers + 1)])
    ensures r.Failure? || (r.Success? && r.value.value.None?) ==> unchanged(db)
    ensures r.Success? ==> WellFormed(r.value)
    ensures OffersIncreasing(old(db.offers)) ==> OffersIncreasing(db.offers)
  {
    var gate := Gate(db, caller, BUYER);
    if gate.Some? {
      return Failure(gate.value);
    }
    var errors: seq<string> := [];
    if id !in db.products {
      errors := errors + [OFFER_PRODUCT_MISSING];
      assert errors == [OFFER_PRODUCT_MISSING];
      return Success(Payload(errors, None));
    }
    var profile := db.ProfileOf(caller.value);
    if db.products[id].seller == Some(profile) {
      errors := errors + [OWN_PRODUCT_OFFER];
      assert errors == [OWN_PRODUCT_OFFER];
      return Success(Payload(errors, None));
    }
    var previous := PreviousOffer(db.offers, profile, id);
    if previous.Some? {
      if input.None? {
        return Failure(AttributeError);
      }
      if input.value.amount.None? {
        return Failure(TypeError);
      }
      if previous.value.amount >= input.value.amount.value {
        errors := errors + [OFFER_TOO_LOW];
        assert errors == [OFFER_TOO_LOW];
        return Success(Payload(errors, None));
      }
    }
    if input.None? {
      return Failure(AttributeError);
    }
    ghost var before := db.offers;
    var offer := Utils.CreateOffer(db, profile, id, input.value);
    if offer.Failure? {
      return Failure(offer.error);
    }
    if OffersIncreasing(before) {
      AcceptedOfferKeepsIncreasing(before, offer.value);
    }
    r := Success(Payload(errors, Some(offer.value)));
  }

  /**
   * Negotiability is not enforced: a first bid on a non-negotiable product
   * is stored with the amount the caller gave, not the asking price.
   */
  method NonNegotiableBidKeptAsGiven(db: Db, caller: int, id: int, amount: int, message: string)
    returns (r: Result<Payload<Offer>, Exc>)
    requires db.Valid() && caller in db.users && LevelOf(db, caller) >= BUYER
    requires id in db.products && !db.products[id].isNegotiable
    requires db.products[id].seller != Some(db.ProfileOf(caller))
    requires PreviousOffer(db.offers, db.ProfileOf(caller), id).None?
    modifies db`offers, db`products
    ensures db.Valid()
    ensures r == Success(Payload([], Some(Offer(db.ProfileOf(caller), id, amount, message))))
    ensures db.offers == old(db.offers) + [Offer(db.ProfileOf(caller), id, amount, message)]
    ensures amount != old(db.products)[id].expectedPrice ==>
              db.offers[|db.offers| - 1].amount != old(db.products)[id].expectedPrice
  {
    r := CreateOffer(db, Some(caller), id, Some(Utils.OfferInput(Some(id), Some(amount), Some(message))));
  }

  /**
   * One offer per buyer and product is not enforced: a bid above the
   * caller's previous bid on the same product is accepted and stored beside
   * it.
   */
  method RepeatHigherBidAccepted(db: Db, caller: int, id: int, amount: int, message: string)
    returns (r: Result<Payload<Offer>, Exc>)
    requires db.Valid() && caller in db.users && LevelOf(db, caller) >= BUYER
    requires id in db.products && db.products[id].seller != Some(db.ProfileOf(caller))
    requires var prev := PreviousOffer(db.offers, db.ProfileOf(caller), id);
             prev.Some? && prev.value.amount < amount
    modifies db`offers, db`products
    ensures db.Valid()
    ensures r == Success(Payload([], Some(Offer(db.ProfileOf(caller), id, amount, message))))
    ensures db.offers == old(db.offers) + [Offer(db.ProfileOf(caller), id, amount, message)]
    ensures PreviousOffer(db.offers, db.ProfileOf(caller), id) == Some(Offer(db.ProfileOf(caller), id, amount, message))
    ensures PreviousOffer(old(db.offers), db.ProfileOf(caller), id).value in db.offers
  {
    r := CreateOffer(db, Some(caller), id, Some(Utils.OfferInput(Some(id), Some(amount), Some(message))));
  }
}
