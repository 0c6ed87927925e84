/**
 * The marketplace's tables and the save hooks that keep their derived
 * columns up to date: permission levels, the running rating average, the
 * offer counter and the product-report visibility valve.
 *
 * The database is the class `Db`; each table is a map from primary key to
 * row (or, for the append-only tables, a sequence in insertion order) and
 * each row is a datatype value. A hook that changes a model instance and
 * saves it is a `Db` method that rewrites the row.
 */
module Models {
  import opened Wrappers
  import opened Text

  // ---------------------------------------------------------------------
  // Constants
  // ---------------------------------------------------------------------

  /** Permission levels of a profile, lowest first. */
  const BANNED: int := 0
  const BUYER: int := 1
  const SELLER: int := 2
  const ADMIN: int := 3

  /** The level a profile row gets when none is given. */
  const DEFAULT_LEVEL: int := SELLER

  /** A target reported more often than this is banned or hidden. */
  const MAX_ALLOWED_REPORTS: int := 5

  /** The campus mail domain whose members may sell. */
  const BITS_DOMAIN: string := "pilani.bits-pilani.ac.in"

  /** The permission levels a profile can hold, in increasing order of rights. */
  lemma LevelsTotallyOrdered()
    ensures BANNED < BUYER < SELLER < ADMIN
    ensures DEFAULT_LEVEL == SELLER
  {
  }

  // ---------------------------------------------------------------------
  // Rows
  // ---------------------------------------------------------------------

  /** The exceptions the code lets escape to its caller. */
  datatype Exc =
    | PermissionDenied          // the login / permission decorators refuse
    | DoesNotExist              // `objects.get` found nothing
    | MultipleObjectsReturned   // `objects.get` found several rows
    | IntegrityError            // a NOT NULL, UNIQUE or CHECK constraint fails on save
    | ValueError                // tuple unpacking of the wrong length
    | IndexError                // indexing past the end of a list
    | AttributeError            // attribute of `None`
    | NameError                 // a misspelt name is evaluated
    | TypeError                 // an ordering comparison with `None`

  /** An authentication account. */
  datatype User = User(username: string, email: string, password: string)

  /**
   * A profile. `user` is the account it belongs to; `contactNo` may be NULL.
   * `rating` is kept as an exact rational number.
   */
  datatype Profile = Profile(
    user: int,
    name: string,
    hostel: string,
    contactNo: Option<string>,
    rating: real,
    numRatings: nat,
    email: string,
    permissionLevel: int,
    isComplete: bool)

  /** A product listing; `seller` and `category` are nullable foreign keys. */
  datatype Product = Product(
    name: string,
    images: set<int>,
    seller: Option<int>,
    expectedPrice: int,
    description: string,
    category: Option<int>,
    sold: bool,
    isTicket: bool,
    visible: bool,
    isNegotiable: bool,
    numOffers: nat)

  /** An uploaded product image. */
  datatype Image = Image(file: string)

  /** A bid of `amount` by profile `offerer` on product `product`. */
  datatype Offer = Offer(offerer: int, product: int, amount: int, message: string)

  /** A rating of profile `ratingFor` given by profile `ratedBy`. */
  datatype Rating = Rating(ratingFor: int, ratedBy: int, rating: int)

  /** A report against a product. */
  datatype ProductReport = ProductReport(product: int, message: string, reportedBy: int)

  /** A report against a profile. */
  datatype UserReport = UserReport(reportedBy: int, reportedUser: int, category: Option<int>)

  /** A profile as `Profile.objects.create(user=u)` builds it, before its save hook runs. */
  function DefaultProfile(u: int): Profile
  {
    Profile(u, "", "", None, 0.0, 0, "", DEFAULT_LEVEL, false)
  }

  /**
   * A product as `Product()` builds it once the fields without defaults are
   * filled in: not sold, not a ticket, visible, not negotiable, no offers and
   * no images.
   */
  function FreshProduct(seller: Option<int>, name: string, expectedPrice: int,
                        description: string, category: Option<int>): (p: Product)
    ensures p.seller == seller && p.name == name && p.expectedPrice == expectedPrice
    ensures p.description == description && p.category == category
    ensures !p.sold && !p.isTicket && p.visible && !p.isNegotiable && p.numOffers == 0 && p.images == {}
  {
    Product(name, {}, seller, expectedPrice, description, category,
            false, false, true, false, 0)
  }

  // ---------------------------------------------------------------------
  // Permission level from the email address
  // ---------------------------------------------------------------------

  /** Python's `==` between a list and a string, which is never true. */
  predicate ListEqualsString(list: seq<string>, s: string)
  {
    false
  }

  /**
   * The level `Profile.save` writes. The code compares the LIST of pieces of
   * the address with the domain string, so the comparison never holds.
   */
  function SavedLevel(email: string): (l: int)
    ensures l == SELLER || l == BUYER
  {
    var domain := Split(email, '@');
    if ListEqualsString(domain, BITS_DOMAIN) then SELLER else BUYER
  }

  /** Whatever the address, `Profile.save` writes BUYER. */
  lemma SavedLevelIsBuyer(email: string)
    ensures SavedLevel(email) == BUYER
  {
  }

  /**
   * The domain as the handler in the services module reads it: the second
   * piece of the address split at `@`; absent when there is no `@`.
   */
  function DomainOf(email: string): (d: Option<string>)
    ensures d.None? <==> '@' !in email
    ensures d.Some? ==> '@' !in d.value
  {
    var parts := Split(email, '@');
    OccurrencesPositive(email, '@');
    if |parts| >= 2 then Some(parts[1]) else None
  }

  /**
   * The domain of `local@rest` is the part of `rest` before its next `@`:
   * the second `@`-piece of the whole address.
   */
  lemma {:induction false} DomainIsSecondPiece(local: string, rest: string)
    requires '@' !in local
    ensures DomainOf(local + "@" + rest) == Some(Split(rest, '@')[0])
    ensures DomainOf(local + "@" + rest) == Some(Split(local + "@" + rest, '@')[1])
  {
    SplitAfterHead(local, rest, '@');
  }

  /** A string holds `c` exactly when `c` occurs in it at least once. */
  lemma {:induction false} OccurrencesPositive(s: string, c: char)
    ensures c in s <==> Occurrences(s, c) > 0
  {
    if s != [] {
      OccurrencesPositive(s[1..], c);
      assert s == [s[0]] + s[1..];
    }
  }

  /** The level the derivation was meant to give: SELLER exactly for the campus domain. */
  function IntendedLevel(email: string): (l: int)
    ensures l == SELLER || l == BUYER
    ensures '@' !in email ==> l == BUYER
  {
    if DomainOf(email) == Some(BITS_DOMAIN) then SELLER else BUYER
  }

  /**
   * For every campus address the intended rule grants SELLER while the code
   * as written grants BUYER.
   */
  lemma {:induction false} CampusAddressNotRecognised(local: string)
    requires '@' !in local
    ensures IntendedLevel(local + "@" + BITS_DOMAIN) == SELLER
    ensures SavedLevel(local + "@" + BITS_DOMAIN) == BUYER
  {
    assert '@' !in BITS_DOMAIN;
    SplitAround(local, BITS_DOMAIN, '@');
  }

  /** Any other domain gets BUYER under both rules. */
  lemma {:induction false} OtherDomainIsBuyer(local: string, domain: string)
    requires '@' !in local && '@' !in domain && domain != BITS_DOMAIN
    ensures IntendedLevel(local + "@" + domain) == BUYER
    ensures SavedLevel(local + "@" + domain) == BUYER
  {
    SplitAround(local, domain, '@');
  }

  // ---------------------------------------------------------------------
  // Running rating average
  // ---------------------------------------------------------------------

  /** The new average after a rating `r` joins `n` ratings averaging `avg`. */
  function Rated(avg: real, n: nat, r: int): (mean: real)
    ensures mean * (n + 1) as real == avg * n as real + r as real
    ensures n == 0 ==> mean == r as real
  {
    (avg * n as real + r as real) / (n + 1) as real
  }

  /** The (average, count) pair after the ratings `rs`, in order, from 0 / 0. */
  function Aggregate(rs: seq<int>): (real, nat)
  {
    if rs == [] then (0.0, 0)
    else
      var prev := Aggregate(rs[..|rs| - 1]);
      (Rated(prev.0, prev.1, rs[|rs| - 1]), prev.1 + 1)
  }

  /** The sum of the ratings `rs`. */
  function Sum(rs: seq<int>): int
  {
    if rs == [] then 0 else Sum(rs[..|rs| - 1]) + rs[|rs| - 1]
  }

  /** The exact arithmetic mean of a non-empty sequence of ratings. */
  function Mean(rs: seq<int>): real
    requires rs != []
  {
    Sum(rs) as real / |rs| as real
  }

  /**
   * The incremental average is exact: after the ratings `rs` the count is
   * `|rs|` and the stored average is their arithmetic mean.
   */
  lemma {:induction false} AggregateIsMean(rs: seq<int>)
    ensures Aggregate(rs).1 == |rs|
    ensures rs != [] ==> Aggregate(rs).0 == Mean(rs)
  {
    if rs != [] {
      var init := rs[..|rs| - 1];
      var r := rs[|rs| - 1];
      AggregateIsMean(init);
      var n := |init|;
      var s := Sum(init) as real;
      if n == 0 {
        assert Aggregate(init) == (0.0, 0);
        assert Sum(init) == 0;
      } else {
        assert Aggregate(init).0 == s / n as real;
        assert (s / n as real) * n as real == s;
      }
      assert Aggregate(rs).0 == (s + r as real) / (n + 1) as real;
    }
  }

  // ---------------------------------------------------------------------
  // Offers
  // ---------------------------------------------------------------------

  /** Whether offer `o` was made by `offerer` on `product`. */
  predicate SamePair(o: Offer, offerer: int, product: int)
  {
    o.offerer == offerer && o.product == product
  }

  /**
   * The latest offer by `offerer` on `product` (the last of the filtered
   * list), or nothing when there is none.
   */
  function PreviousOffer(offers: seq<Offer>, offerer: int, product: int): (r: Option<Offer>)
    ensures r.None? <==> forall i :: 0 <= i < |offers| ==> !SamePair(offers[i], offerer, product)
    ensures r.Some? ==> exists k :: 0 <= k < |offers| && offers[k] == r.value
                          && SamePair(offers[k], offerer, product)
                          && forall j :: k < j < |offers| ==> !SamePair(offers[j], offerer, product)
  {
    if offers == [] then None
    else if SamePair(offers[|offers| - 1], offerer, product) then Some(offers[|offers| - 1])
    else
      var r := PreviousOffer(offers[..|offers| - 1], offerer, product);
      assert forall i :: 0 <= i < |offers| - 1 ==> offers[..|offers| - 1][i] == offers[i];
      r
  }

  /** For every (offerer, product) pair, amounts strictly increase in creation order. */
  ghost predicate OffersIncreasing(offers: seq<Offer>)
  {
    forall i, j :: 0 <= i < j < |offers| && offers[i].offerer == offers[j].offerer
                   && offers[i].product == offers[j].product
                   ==> offers[i].amount < offers[j].amount
  }

  /**
   * An offer that beats the latest offer of its own pair (or is the pair's
   * first) keeps the per-pair amounts strictly increasing.
   */
  lemma {:induction false} AcceptedOfferKeepsIncreasing(offers: seq<Offer>, o: Offer)
    requires OffersIncreasing(offers)
    requires var prev := PreviousOffer(offers, o.offerer, o.product);
             prev.None? || prev.value.amount < o.amount
    ensures OffersIncreasing(offers + [o])
  {
    var all := offers + [o];
    var prev := PreviousOffer(offers, o.offerer, o.product);
    forall i | 0 <= i < |offers| && SamePair(offers[i], o.offerer, o.product)
      ensures offers[i].amount < o.amount
    {
      var k :| 0 <= k < |offers| && offers[k] == prev.value
               && SamePair(offers[k], o.offerer, o.product)
               && forall j :: k < j < |offers| ==> !SamePair(offers[j], o.offerer, o.product);
      assert i <= k;
    }
    forall i, j | 0 <= i < j < |all| && all[i].offerer == all[j].offerer && all[i].product == all[j].product
      ensures all[i].amount < all[j].amount
    {
      if j == |offers| {
        assert all[i] == offers[i] && all[j] == o;
      } else {
        assert all[i] == offers[i] && all[j] == offers[j];
      }
    }
  }

  /** The offers on product `product`, in creation order (`product.offers.all()`). */
  function OffersOn(offers: seq<Offer>, product: int): (r: seq<Offer>)
    ensures forall o :: o in r <==> o in offers && o.product == product
    ensures forall o :: multiset(r)[o] == (if o.product == product then multiset(offers)[o] else 0)
    ensures |r| <= |offers|
  {
    if offers == [] then []
    else
      var init := OffersOn(offers[..|offers| - 1], product);
      var last := offers[|offers| - 1];
      assert offers == offers[..|offers| - 1] + [last];
      if last.product == product then init + [last] else init
  }

  // ---------------------------------------------------------------------
  // Reports
  // ---------------------------------------------------------------------

  /** `product.reports.count()`. */
  function ProductReportCount(reports: seq<ProductReport>, product: int): (c: nat)
    ensures c <= |reports|
    ensures c == 0 <==> forall i :: 0 <= i < |reports| ==> reports[i].product != product
  {
    if reports == [] then 0
    else ProductReportCount(reports[..|reports| - 1], product)
         + (if reports[|reports| - 1].product == product then 1 else 0)
  }

  /** `profile.reports.count()`. */
  function UserReportCount(reports: seq<UserReport>, profile: int): (c: nat)
    ensures c <= |reports|
    ensures c == 0 <==> forall i :: 0 <= i < |reports| ==> reports[i].reportedUser != profile
  {
    if reports == [] then 0
    else UserReportCount(reports[..|reports| - 1], profile)
         + (if reports[|reports| - 1].reportedUser == profile then 1 else 0)
  }

  /** A new report adds one to its own product's count and leaves every other count alone. */
  lemma ProductReportCountAppend(reports: seq<ProductReport>, r: ProductReport, product: int)
    ensures ProductReportCount(reports + [r], product)
            == ProductReportCount(reports, product) + (if r.product == product then 1 else 0)
  {
    assert (reports + [r])[..|reports|] == reports;
  }

  /** A new report adds one to its own profile's count and leaves every other count alone. */
  lemma UserReportCountAppend(reports: seq<UserReport>, r: UserReport, profile: int)
    ensures UserReportCount(reports + [r], profile)
            == UserReportCount(reports, profile) + (if r.reportedUser == profile then 1 else 0)
  {
    assert (reports + [r])[..|reports|] == reports;
  }

  /** Report counts never fall as reports are added. */
  lemma {:induction false} ProductReportCountMonotone(reports: seq<ProductReport>, more: seq<ProductReport>, product: int)
    ensures ProductReportCount(reports, product) <= ProductReportCount(reports + more, product)
  {
    if more != [] {
      var init := more[..|more| - 1];
      ProductReportCountMonotone(reports, init, product);
      assert reports + more == (reports + init) + [more[|more| - 1]];
      ProductReportCountAppend(reports + init, more[|more| - 1], product);
    } else {
      assert reports + more == reports;
    }
  }

  /** The visibility valve: more than the allowed number of reports hides a product. */
  function VisibleAfterReports(visible: bool, count: int): (v: bool)
    ensures count > MAX_ALLOWED_REPORTS ==> !v
    ensures count <= MAX_ALLOWED_REPORTS ==> v == visible
  {
    if count > MAX_ALLOWED_REPORTS then false else visible
  }

  /**
   * The valve only closes: it never makes a hidden product visible, applying
   * it again changes nothing, and once past the threshold further reports
   * keep the product hidden.
   */
  lemma VisibilityIsAValve(visible: bool, count: int, more: nat)
    ensures VisibleAfterReports(visible, count) ==> visible
    ensures VisibleAfterReports(VisibleAfterReports(visible, count), count) == VisibleAfterReports(visible, count)
    ensures count > MAX_ALLOWED_REPORTS ==> !VisibleAfterReports(visible, count + more)
  {
  }

  // ---------------------------------------------------------------------
  // The database
  // ---------------------------------------------------------------------

  /**
   * The database: one field per table. `usernames` is the unique index on
   * user names; `profileOf` is the one-to-one link from a user to its
   * profile; `wishlists` maps a profile to the products on its wishlist.
   * The `next…` fields are the auto-increment counters.
   */
  class Db {
    var users: map<int, User>
    var usernames: map<string, int>
    var profileOf: map<int, int>
    var profiles: map<int, Profile>
    var wishlists: map<int, set<int>>
    var products: map<int, Product>
    var images: map<int, Image>
    var offers: seq<Offer>
    var ratings: seq<Rating>
    var productReports: seq<ProductReport>
    var userReports: seq<UserReport>
    var nextUser: int
    var nextProfile: int
    var nextProduct: int
    var nextImage: int

    /**
     * Keys lie below their counters; the username index and the user/profile
     * link are consistent; every user has a profile and every profile a
     * wishlist.
     */
    ghost predicate Valid()
      reads this
    {
      KeysBelowCounters() && UsernamesIndexed() && ProfilesLinked()
    }

    /** Every primary key is below its auto-increment counter. */
    ghost predicate KeysBelowCounters()
      reads this
    {
      && 0 <= nextUser && 0 <= nextProfile && 0 <= nextProduct && 0 <= nextImage
      && (forall u :: u in users ==> 0 <= u < nextUser)
      && (forall p :: p in profiles ==> 0 <= p < nextProfile)
      && (forall p :: p in products ==> 0 <= p < nextProduct)
      && ImagesBelowCounter()
    }

    /** Every image id is below the image counter. */
    ghost predicate ImagesBelowCounter()
      reads this`images, this`nextImage
    {
      0 <= nextImage && forall i :: i in images ==> 0 <= i < nextImage
    }

    /** `usernames` indexes exactly the users, by their unique name. */
    ghost predicate UsernamesIndexed()
      reads this
    {
      && (forall n :: n in usernames ==> usernames[n] in users && users[usernames[n]].username == n)
      && (forall u :: u in users ==> users[u].username in usernames && usernames[users[u].username] == u)
    }

    /**
     * Every user has its own profile, every profile belongs to exactly the
     * user that links to it (the one-to-one `Profile.user`), and every
     * profile has a wishlist.
     */
    ghost predicate ProfilesLinked()
      reads this
    {
      && profileOf.Keys == users.Keys
      && (forall u :: u in profileOf ==> profileOf[u] in profiles && profiles[profileOf[u]].user == u)
      && (forall p :: p in profiles ==> profiles[p].user in profileOf && profileOf[profiles[p].user] == p)
      && wishlists.Keys == profiles.Keys
    }

    /** An empty database. */
    constructor ()
      ensures Valid()
      ensures users == map[] && profiles == map[] && products == map[] && images == map[]
      ensures offers == [] && ratings == [] && productReports == [] && userReports == []
    {
      users, usernames, profileOf, profiles := map[], map[], map[], map[];
      wishlists, products, images := map[], map[], map[];
      offers, ratings, productReports, userReports := [], [], [], [];
      nextUser, nextProfile, nextProduct, nextImage := 0, 0, 0, 0;
    }

    /** The profile of user `u` (`user.profile`). */
    function ProfileOf(u: int): int
      reads this
      requires Valid() && u in users
    {
      profileOf[u]
    }

    /**
     * `Profile.save`: re-derive the permission level from the email address
     * and write the instance `p` as row `pid`. Whatever level the instance
     * carried, BANNED included, is replaced.
     */
    method SaveProfile(pid: int, p: Profile)
      requires Valid() && pid in profiles && p.user == profiles[pid].user
      modifies this`profiles
      ensures Valid()
      ensures profiles == old(profiles)[pid := p.(permissionLevel := SavedLevel(p.email))]
      ensures profiles[pid].permissionLevel == BUYER
    {
      var domain := Split(p.email, '@');
      var level;
      if ListEqualsString(domain, BITS_DOMAIN) {
        level := SELLER;
      } else {
        level := BUYER;
      }
      profiles := profiles[pid := p.(permissionLevel := level)];
    }

    /**
     * Save a new account and run `create_or_update_profile` for it: a profile
     * (saved twice, so its level is re-derived) and an empty wishlist are
     * created. A taken username violates the unique index.
     */
    method SaveNewUser(username: string, email: string) returns (r: Result<int, Exc>)
      requires Valid()
      modifies this`users, this`usernames, this`profileOf, this`profiles, this`wishlists,
               this`nextUser, this`nextProfile
      ensures Valid()
      ensures username in old(usernames) ==> r == Failure(IntegrityError) && unchanged(this)
      ensures username !in old(usernames) ==> r.Success? && r.value !in old(users)
      ensures r.Success? ==> users == old(users)[r.value := User(username, email, "")]
      ensures r.Success? ==> r.value in profileOf && profileOf[r.value] !in old(profiles)
      ensures r.Success? ==> profileOf == old(profileOf)[r.value := profileOf[r.value]]
      ensures r.Success? ==> profiles == old(profiles)[profileOf[r.value] := DefaultProfile(r.value).(permissionLevel := BUYER)]
      ensures r.Success? ==> wishlists == old(wishlists)[profileOf[r.value] := {}]
    {
      if username in usernames {
        return Failure(IntegrityError);
      }
      var u := nextUser;
      nextUser := nextUser + 1;
      users := users[u := User(username, email, "")];
      usernames := usernames[username := u];
      CreateProfile(u);
      // instance.profile.save()
      var pid := profileOf[u];
      SaveProfile(pid, profiles[pid]);
      r := Success(u);
    }

    /**
     * The `created` branch of `create_or_update_profile` for the just-saved
     * user `u`: `Profile.objects.create(user=u)`, whose save re-derives the
     * level, then an empty wishlist for the new profile.
     */
    method CreateProfile(u: int)
      requires KeysBelowCounters() && UsernamesIndexed()
      requires u in users && profileOf.Keys == users.Keys - {u}
      requires forall v :: v in profileOf ==> profileOf[v] in profiles && profiles[profileOf[v]].user == v
      requires forall p :: p in profiles ==> profiles[p].user in profileOf && profileOf[profiles[p].user] == p
      requires wishlists.Keys == profiles.Keys
      modifies this`profileOf, this`profiles, this`wishlists, this`nextProfile
      ensures Valid()
      ensures u in profileOf && profileOf[u] !in old(profiles) && profileOf == old(profileOf)[u := profileOf[u]]
      ensures profiles == old(profiles)[profileOf[u] := DefaultProfile(u).(permissionLevel := BUYER)]
      ensures wishlists == old(wishlists)[profileOf[u] := {}]
    {
      var pid := nextProfile;
      nextProfile := nextProfile + 1;
      var created := DefaultProfile(u);
      profiles := profiles[pid := created.(permissionLevel := SavedLevel(created.email))];
      profileOf := profileOf[u := pid];
      wishlists := wishlists[pid := {}];
    }

    /**
     * Save an existing account and run `create_or_update_profile` for it: no
     * profile or wishlist is created; the existing profile is saved again.
     */
    method SaveExistingUser(u: int, user: User) returns (r: Result<(), Exc>)
      requires Valid() && u in users
      modifies this`users, this`usernames, this`profiles
      ensures Valid()
      ensures user.username in old(usernames) && old(usernames)[user.username] != u ==>
                r == Failure(IntegrityError) && unchanged(this)
      ensures r.Success? ==>
                && users == old(users)[u := user]
                && profiles.Keys == old(profiles).Keys
                && var pid := profileOf[u];
                   profiles == old(profiles)[pid := old(profiles)[pid].(permissionLevel := BUYER)]
      ensures r.Success? <==> !(user.username in old(usernames) && old(usernames)[user.username] != u)
    {
      if user.username in usernames && usernames[user.username] != u {
        return Failure(IntegrityError);
      }
      var oldName := users[u].username;
      users := users[u := user];
      usernames := (usernames - {oldName})[user.username := u];
      var pid := profileOf[u];
      SaveProfile(pid, profiles[pid]);
      r := Success(());
    }

    /**
     * `update_profile_rating`, the hook run after a rating is saved: a newly
     * created rating folds into its target's running average and count, and
     * the target profile is saved; re-saving a rating changes nothing.
     */
    method UpdateProfileRating(rating: Rating, created: bool)
      requires Valid() && rating.ratingFor in profiles
      modifies this`profiles
      ensures Valid()
      ensures !created ==> profiles == old(profiles)
      ensures created ==>
                var p := old(profiles)[rating.ratingFor];
                profiles == old(profiles)[rating.ratingFor := p.(
                  rating := Rated(p.rating, p.numRatings, rating.rating),
                  numRatings := p.numRatings + 1,
                  permissionLevel := SavedLevel(p.email))]
    {
      if created {
        var profile := profiles[rating.ratingFor];
        var numRatings := profile.numRatings;
        profile := profile.(rating := (profile.rating * numRatings as real + rating.rating as real)
                                      / (numRatings + 1) as real);
        profile := profile.(numRatings := profile.numRatings + 1);
        assert profile.rating == Rated(profiles[rating.ratingFor].rating, numRatings, rating.rating);
        SaveProfile(rating.ratingFor, profile);
      }
    }

    /**
     * `update_product_offers`, the hook run after an offer is saved: a newly
     * created offer adds exactly one to its product's offer count; re-saving
     * an offer changes nothing.
     */
    method UpdateProductOffers(offer: Offer, created: bool)
      requires Valid() && offer.product in products
      modifies this`products
      ensures Valid()
      ensures !created ==> products == old(products)
      ensures created ==>
                products == old(products)[offer.product :=
                  old(products)[offer.product].(numOffers := old(products)[offer.product].numOffers + 1)]
    {
      if created {
        var product := products[offer.product];
        product := product.(numOffers := product.numOffers + 1);
        products := products[offer.product := product];
      }
    }

    /**
     * `moderate_product`, the hook run after a product report is saved: with
     * more than the allowed number of reports the product becomes invisible;
     * otherwise nothing changes. Visibility is never switched back on.
     */
    method ModerateProduct(report: ProductReport)
      requires Valid() && report.product in products
      modifies this`products
      ensures Valid()
      ensures products.Keys == old(products).Keys
      ensures ProductReportCount(productReports, report.product) > MAX_ALLOWED_REPORTS ==>
                products == old(products)[report.product := old(products)[report.product].(visible := false)]
      ensures ProductReportCount(productReports, report.product) <= MAX_ALLOWED_REPORTS ==>
                products == old(products)
      ensures products[report.product].visible ==
                VisibleAfterReports(old(products)[report.product].visible,
                                    ProductReportCount(productReports, report.product))
    {
      var product := products[report.product];
      if ProductReportCount(productReports, report.product) > MAX_ALLOWED_REPORTS {
        product := product.(visible := false);
        products := products[report.product := product];
      }
    }

    /** Save a new image row; it gets the next image id. */
    method SaveImage(file: string) returns (id: int)
      requires ImagesBelowCounter()
      modifies this`images, this`nextImage
      ensures ImagesBelowCounter()
      ensures id == old(nextImage) && id !in old(images)
      ensures images == old(images)[id := Image(file)] && nextImage == id + 1
    {
      id := nextImage;
      nextImage := nextImage + 1;
      images := images[id := Image(file)];
    }

    /** Save a new product report and run its hook. */
    method SaveProductReport(report: ProductReport)
      requires Valid() && report.product in products
      modifies this`productReports, this`products
      ensures Valid()
      ensures productReports == old(productReports) + [report]
      ensures products.Keys == old(products).Keys
      ensures ProductReportCount(productReports, report.product) > MAX_ALLOWED_REPORTS ==>
                !products[report.product].visible
      ensures forall q :: q in products ==> (products[q].visible ==> old(products)[q].visible)
      ensures forall q :: q in products && q != report.product ==> products[q] == old(products)[q]
      ensures var before := old(products)[report.product];
              products == old(products)[report.product := before.(visible :=
                VisibleAfterReports(before.visible, ProductReportCount(productReports, report.product)))]
    {
      productReports := productReports + [report];
      ModerateProduct(report);
    }
  }
}
