/**
 * The helpers behind the GraphQL resolvers and mutations: page selection,
 * creating and patching products and profiles, and recording offers,
 * ratings, user reports and product images.
 */
module Utils {
  import opened Wrappers
  import opened Models
  import Services

  // ---------------------------------------------------------------------
  // Inputs (the GraphQL input objects; an absent field is None)
  // ---------------------------------------------------------------------

  datatype ProductInput = ProductInput(
    id: Option<int>,
    name: Option<string>,
    expectedPrice: Option<int>,
    isNegotiable: Option<bool>,
    description: Option<string>,
    categoryId: Option<int>)

  datatype ProfileInput = ProfileInput(
    name: Option<string>,
    hostel: Option<string>,
    contactNo: Option<string>)

  datatype OfferInput = OfferInput(id: Option<int>, amount: Option<int>, message: Option<string>)

  datatype UserReportInput = UserReportInput(reportedUser: Option<string>, category: Option<int>)

  // ---------------------------------------------------------------------
  // Pagination
  // ---------------------------------------------------------------------

  /**
   * One page of a listing of `count` objects: its number, the number of
   * pages, the two navigation flags, and the half-open range
   * [`first`, `last`) of object positions it shows.
   */
  datatype Page = Page(page: int, pages: int, hasNext: bool, hasPrev: bool, first: int, last: int)

  /** The number of pages of `count` objects, `perPage` to a page; an empty listing has one page. */
  function NumPages(count: nat, perPage: int): (n: int)
    requires perPage > 0
    ensures n >= 1
    ensures count == 0 ==> n == 1
    ensures count > 0 ==> (n - 1) * perPage < count <= n * perPage
  {
    var hits := if count > 1 then count else 1;
    (hits + perPage - 1) / perPage
  }

  /**
   * `get_paginator`: the requested page, page 1 when the request is not an
   * integer, and the last page when the requested number is out of range.
   */
  function GetPaginator(count: nat, pageSize: int, page: Option<int>): (r: Page)
    requires pageSize > 0
    ensures r.pages == NumPages(count, pageSize)
    ensures 1 <= r.page <= r.pages
    ensures r.hasPrev <==> r.page > 1
    ensures r.hasNext <==> r.page < r.pages
    ensures page.None? ==> r.page == 1
    ensures page.Some? && 1 <= page.value <= r.pages ==> r.page == page.value
    ensures page.Some? && !(1 <= page.value <= r.pages) ==> r.page == r.pages
    ensures 0 <= r.first <= r.last <= count && r.last - r.first <= pageSize
    ensures r.first == (r.page - 1) * pageSize
    ensures r.last == if r.page * pageSize < count then r.page * pageSize else count
  {
    var pages := NumPages(count, pageSize);
    var number :=
      if page.None? then 1                      // PageNotAnInteger
      else if page.value < 1 then pages         // EmptyPage
      else if page.value > pages then pages     // EmptyPage
      else page.value;
    PageStartInListing(count, pageSize, number);
    var bottom := (number - 1) * pageSize;
    var top := if bottom + pageSize >= count then count else bottom + pageSize;
    Page(number, pages, number < pages, number > 1, bottom, top)
  }

  /**
   * Page `number` of a listing starts inside it (or at 0 for an empty
   * listing), and ends one page size after it starts.
   */
  lemma PageStartInListing(count: nat, pageSize: int, number: int)
    requires pageSize > 0 && 1 <= number <= NumPages(count, pageSize)
    ensures 0 <= (number - 1) * pageSize <= count
    ensures number * pageSize == (number - 1) * pageSize + pageSize
  {
    var n := NumPages(count, pageSize);
    assert (n - 1 - (number - 1)) * pageSize >= 0;
    assert (n - 1) * pageSize - (number - 1) * pageSize == (n - 1 - (number - 1)) * pageSize;
  }

  /** Position `i` lies in the block of `d` positions numbered `i / d`. */
  lemma DivBlock(i: nat, d: int)
    requires d > 0
    ensures (i / d) * d <= i < (i / d) * d + d
  {
  }

  /** Multiplication by a positive number preserves strict order, backwards. */
  lemma MulCancel(a: int, b: int, d: int)
    requires d > 0 && a * d < b * d
    ensures a < b
  {
    assert (b - a) * d == b * d - a * d;
  }

  /**
   * Every object of a listing is shown on the page its position selects,
   * and that page is in range.
   */
  lemma {:induction false} EveryObjectOnItsPage(count: nat, pageSize: int, i: int)
    requires pageSize > 0 && 0 <= i < count
    ensures var p := i / pageSize + 1;
            1 <= p <= NumPages(count, pageSize)
            && GetPaginator(count, pageSize, Some(p)).first <= i < GetPaginator(count, pageSize, Some(p)).last
  {
    var p := i / pageSize + 1;
    var n := NumPages(count, pageSize);
    DivBlock(i, pageSize);
    assert (p - 1) * pageSize < n * pageSize;
    MulCancel(p - 1, n, pageSize);
    var g := GetPaginator(count, pageSize, Some(p));
    assert g.page == p;
    assert g.first == (p - 1) * pageSize;
  }

  // ---------------------------------------------------------------------
  // Products
  // ---------------------------------------------------------------------

  /**
   * Whether a product built from `input` can be saved: every NOT NULL field
   * is given and the price is not negative.
   */
  predicate Storable(input: ProductInput)
  {
    && input.name.Some? && input.expectedPrice.Some? && input.isNegotiable.Some?
    && input.description.Some? && input.expectedPrice.value >= 0
  }

  /** The row `create_product` saves for `seller` and a storable `input`. */
  function NewProduct(seller: int, input: ProductInput): (p: Product)
    requires Storable(input)
    ensures p.seller == Some(seller) && p.name == input.name.value
    ensures p.expectedPrice == input.expectedPrice.value >= 0
    ensures p.isNegotiable == input.isNegotiable.value
    ensures p.description == input.description.value && p.category == input.categoryId
    ensures !p.sold && !p.isTicket && p.visible && p.numOffers == 0 && p.images == {}
  {
    FreshProduct(Some(seller), input.name.value, input.expectedPrice.value,
                 input.description.value, input.categoryId)
    .(isNegotiable := input.isNegotiable.value)
  }

  /**
   * `create_product`: a product of `seller` with the given fields and the
   * model defaults for the rest. A missing name, price, negotiability or
   * description violates NOT NULL, and a negative price violates the
   * non-negative check, when the row is saved.
   */
  method CreateProduct(db: Db, seller: int, input: ProductInput) returns (r: Result<int, Exc>)
    requires db.Valid()
    modifies db`products, db`nextProduct
    ensures db.Valid()
    ensures r.Success? <==> Storable(input)
    ensures r.Failure? ==> r.error == IntegrityError && unchanged(db)
    ensures r.Success? ==>
              && r.value !in old(db.products)
              && db.products == old(db.products)[r.value := NewProduct(seller, input)]
  {
    var name := input.name;
    var expectedPrice := input.expectedPrice;
    var isNegotiable := input.isNegotiable;
    var description := input.description;
    var categoryId := input.categoryId;
    // p.save()
    if name.None? || expectedPrice.None? || isNegotiable.None? || description.None? || expectedPrice.value < 0 {
      return Failure(IntegrityError);
    }
    var id := db.nextProduct;
    db.nextProduct := db.nextProduct + 1;
    var p := FreshProduct(Some(seller), name.value, expectedPrice.value, description.value, categoryId);
    p := p.(isNegotiable := isNegotiable.value);
    assert p == NewProduct(seller, input);
    db.products := db.products[id := p];
    r := Success(id);
  }

  /** The product fields a patch may change, in the order the helper visits them. */
  datatype ProductField = ProductName | ExpectedPrice | ProductDescription | CategoryId

  const PRODUCT_FIELDS: seq<ProductField> := [ProductName, ExpectedPrice, ProductDescription, CategoryId]

  /** `setattr(product, field, update)` when the update is not None. */
  function SetProductField(p: Product, f: ProductField, input: ProductInput): Product
  {
    match f
    case ProductName => if input.name.Some? then p.(name := input.name.value) else p
    case ExpectedPrice => if input.expectedPrice.Some? then p.(expectedPrice := input.expectedPrice.value) else p
    case ProductDescription => if input.description.Some? then p.(description := input.description.value) else p
    case CategoryId => if input.categoryId.Some? then p.(category := input.categoryId) else p
  }

  /** The product after visiting `fields` in order. */
  function SetProductFields(p: Product, fields: seq<ProductField>, input: ProductInput): Product
  {
    if fields == [] then p
    else SetProductField(SetProductFields(p, fields[..|fields| - 1], input), fields[|fields| - 1], input)
  }

  /** The product after the whole patch. */
  function PatchedProduct(p: Product, input: ProductInput): Product
  {
    SetProductFields(p, PRODUCT_FIELDS, input)
  }

  /**
   * A patch sets name, expected price, description and category to the
   * supplied values, leaves a field whose value is None alone, and never
   * touches any other field.
   */
  lemma PatchedProductFields(p: Product, input: ProductInput)
    ensures var q := PatchedProduct(p, input);
            && q.name == (if input.name.Some? then input.name.value else p.name)
            && q.expectedPrice == (if input.expectedPrice.Some? then input.expectedPrice.value else p.expectedPrice)
            && q.description == (if input.description.Some? then input.description.value else p.description)
            && q.category == (if input.categoryId.Some? then input.categoryId else p.category)
            && q.(name := p.name, expectedPrice := p.expectedPrice, description := p.description,
                  category := p.category) == p
  {
    var q1 := SetProductField(p, ProductName, input);
    var q2 := SetProductField(q1, ExpectedPrice, input);
    var q3 := SetProductField(q2, ProductDescription, input);
    assert SetProductFields(p, [ProductName], input) == q1;
    assert [ProductName, ExpectedPrice][..1] == [ProductName];
    assert SetProductFields(p, [ProductName, ExpectedPrice], input) == q2;
    assert [ProductName, ExpectedPrice, ProductDescription][..2] == [ProductName, ExpectedPrice];
    assert SetProductFields(p, [ProductName, ExpectedPrice, ProductDescription], input) == q3;
    assert PRODUCT_FIELDS[..3] == [ProductName, ExpectedPrice, ProductDescription];
  }

  /** Applying the same patch twice is the same as applying it once. */
  lemma PatchedProductIdempotent(p: Product, input: ProductInput)
    ensures PatchedProduct(PatchedProduct(p, input), input) == PatchedProduct(p, input)
  {
    PatchedProductFields(p, input);
    PatchedProductFields(PatchedProduct(p, input), input);
  }

  /** A patch with every field None changes nothing. */
  lemma EmptyPatchIsIdentity(p: Product, id: Option<int>, isNegotiable: Option<bool>)
    ensures PatchedProduct(p, ProductInput(id, None, None, isNegotiable, None, None)) == p
  {
    PatchedProductFields(p, ProductInput(id, None, None, isNegotiable, None, None));
  }

  /**
   * `update_product`: visit the four patchable fields, set each whose update
   * is not None, then save. A negative price fails the non-negative check on
   * save and leaves the row as it was.
   */
  method UpdateProduct(db: Db, id: int, input: ProductInput) returns (r: Result<Product, Exc>)
    requires db.Valid() && id in db.products
    modifies db`products
    ensures db.Valid()
    ensures r.Success? <==> PatchedProduct(old(db.products)[id], input).expectedPrice >= 0
    ensures r.Success? ==> r.value == PatchedProduct(old(db.products)[id], input)
                           && db.products == old(db.products)[id := r.value]
    ensures r.Failure? ==> r.error == IntegrityError && db.products == old(db.products)
  {
    var product := db.products[id];
    ghost var original := product;
    for i := 0 to |PRODUCT_FIELDS|
      invariant product == SetProductFields(original, PRODUCT_FIELDS[..i], input)
    {
      assert PRODUCT_FIELDS[..i + 1][..i] == PRODUCT_FIELDS[..i];
      product := SetProductField(product, PRODUCT_FIELDS[i], input);
    }
    assert PRODUCT_FIELDS[..|PRODUCT_FIELDS|] == PRODUCT_FIELDS;
    // product.save()
    if product.expectedPrice < 0 {
      return Failure(IntegrityError);
    }
    db.products := db.products[id := product];
    r := Success(product);
  }

  /** The `n` consecutive ids from `start`. */
  function IdRange(start: int, n: nat): (ids: set<int>)
  {
    if n == 0 then {} else IdRange(start, n - 1) + {start + n - 1}
  }

  /** The ids of `IdRange(start, n)` are exactly those in `[start, start + n)`. */
  lemma {:induction false} IdRangeMembers(start: int, n: nat)
    ensures forall x :: x in IdRange(start, n) <==> start <= x < start + n
  {
    if n > 0 {
      IdRangeMembers(start, n - 1);
    }
  }

  /** `n` consecutive ids are `n` distinct ids. */
  lemma {:induction false} IdRangeSize(start: int, n: nat)
    ensures |IdRange(start, n)| == n
  {
    if n > 0 {
      IdRangeSize(start, n - 1);
      IdRangeMembers(start, n - 1);
      assert IdRange(start, n) == IdRange(start, n - 1) + {start + n - 1};
    } else {
      assert IdRange(start, n) == {};
    }
  }

  /** The image rows created for `files`, numbered from `start` in order. */
  function ImagesFrom(start: int, files: seq<string>): (m: map<int, Image>)
    ensures m.Keys == IdRange(start, |files|)
  {
    if files == [] then map[]
    else ImagesFrom(start, files[..|files| - 1])[start + |files| - 1 := Image(files[|files| - 1])]
  }

  /** The row numbered `start + k` is the image of the `k`-th file. */
  lemma {:induction false} ImagesFromRows(start: int, files: seq<string>, k: int)
    requires 0 <= k < |files|
    ensures start + k in ImagesFrom(start, files)
    ensures ImagesFrom(start, files)[start + k] == Image(files[k])
  {
    if k < |files| - 1 {
      var prefix := files[..|files| - 1];
      ImagesFromRows(start, prefix, k);
      assert prefix[k] == files[k];
    }
  }

  /** Numbering one more file extends the numbered images by one row. */
  lemma ImagesFromSnoc(start: int, files: seq<string>, f: string)
    ensures ImagesFrom(start, files + [f]) == ImagesFrom(start, files)[start + |files| := Image(f)]
  {
    assert (files + [f])[..|files|] == files;
  }

  /** Ids from a counter on are disjoint from the keys below it. */
  lemma FreshRangeDisjoint(keys: set<int>, next: int, n: nat)
    requires forall x :: x in keys ==> x < next
    ensures keys !! IdRange(next, n)
  {
    IdRangeMembers(next, n);
  }

  /** Updating a key of a merged map is updating the right-hand map. */
  lemma MergeUpdate<K, V>(m: map<K, V>, n: map<K, V>, k: K, v: V)
    ensures (m + n)[k := v] == m + n[k := v]
  {
  }

  /** One more saved file extends the merged image table by one row. */
  lemma ImagesStep(base: map<int, Image>, start: int, files: seq<string>, k: nat)
    requires k < |files|
    ensures base + ImagesFrom(start, files[..k + 1])
            == (base + ImagesFrom(start, files[..k]))[start + k := Image(files[k])]
  {
    var prefix, f := files[..k], files[k];
    var m := ImagesFrom(start, prefix);
    assert ImagesFrom(start, files[..k + 1]) == m[start + k := Image(f)] by {
      assert files[..k + 1] == prefix + [f];
      ImagesFromSnoc(start, prefix, f);
    }
    MergeUpdate(base, m, start + k, Image(f));
  }

  /**
   * The loop of `add_images_to_product`: one new image row per uploaded
   * file, numbered consecutively from the image counter, in file order.
   */
  method SaveImages(db: Db, files: seq<string>) returns (added: set<int>)
    requires db.Valid()
    modifies db`images, db`nextImage
    ensures db.Valid()
    ensures added == IdRange(old(db.nextImage), |files|) && added !! old(db.images).Keys
    ensures db.images == old(db.images) + ImagesFrom(old(db.nextImage), files)
  {
    ghost var start := db.nextImage;
    ghost var base := db.images;
    FreshRangeDisjoint(db.images.Keys, start, |files|);
    added := {};
    for k := 0 to |files|
      invariant db.ImagesBelowCounter()
      invariant db.nextImage == start + k
      invariant db.images == base + ImagesFrom(start, files[..k])
      invariant added == IdRange(start, k)
    {
      ImagesStep(base, start, files, k);
      var image := db.SaveImage(files[k]);
      added := added + {image};
    }
    assert files[..|files|] == files;
  }

  /**
   * `add_images_to_product`: one new image per uploaded file, each linked to
   * the product, then the product is saved; no files leaves the images
   * alone. An unknown product id raises.
   */
  method AddImagesToProduct(db: Db, files: seq<string>, id: int) returns (r: Result<Product, Exc>)
    requires db.Valid()
    modifies db`images, db`products, db`nextImage
    ensures db.Valid()
    ensures id !in old(db.products) <==> r.Failure?
    ensures r.Failure? ==> r.error == DoesNotExist && unchanged(db)
    ensures r.Success? ==>
              && db.images == old(db.images) + ImagesFrom(old(db.nextImage), files)
              && old(db.images).Keys !! IdRange(old(db.nextImage), |files|)
              && r.value == old(db.products)[id].(images := old(db.products)[id].images + IdRange(old(db.nextImage), |files|))
              && db.products == old(db.products)[id := r.value]
  {
    if id !in db.products {
      return Failure(DoesNotExist);
    }
    var product := db.products[id];
    var added := SaveImages(db, files);
    product := product.(images := product.images + added);
    db.products := db.products[id := product];
    r := Success(product);
  }

  // ---------------------------------------------------------------------
  // Profiles
  // ---------------------------------------------------------------------

  /** The profile fields a patch may change, in the order the helper visits them. */
  datatype ProfileField = ProfileName | Hostel | ContactNo

  const PROFILE_FIELDS: seq<ProfileField> := [ProfileName, Hostel, ContactNo]

  /** `setattr(profile, field, update)` when the update is not None. */
  function SetProfileField(p: Profile, f: ProfileField, input: ProfileInput): Profile
  {
    match f
    case ProfileName => if input.name.Some? then p.(name := input.name.value) else p
    case Hostel => if input.hostel.Some? then p.(hostel := input.hostel.value) else p
    case ContactNo => if input.contactNo.Some? then p.(contactNo := input.contactNo) else p
  }

  /** The profile after visiting `fields` in order. */
  function SetProfileFields(p: Profile, fields: seq<ProfileField>, input: ProfileInput): Profile
  {
    if fields == [] then p
    else SetProfileField(SetProfileFields(p, fields[..|fields| - 1], input), fields[|fields| - 1], input)
  }

  /** The profile after the whole patch. */
  function PatchedProfile(p: Profile, input: ProfileInput): Profile
  {
    SetProfileFields(p, PROFILE_FIELDS, input)
  }

  /**
   * A profile patch sets name, hostel and contact number where a value is
   * supplied and never touches any other field.
   */
  lemma PatchedProfileFields(p: Profile, input: ProfileInput)
    ensures var q := PatchedProfile(p, input);
            && q.name == (if input.name.Some? then input.name.value else p.name)
            && q.hostel == (if input.hostel.Some? then input.hostel.value else p.hostel)
            && q.contactNo == (if input.contactNo.Some? then input.contactNo else p.contactNo)
            && q.(name := p.name, hostel := p.hostel, contactNo := p.contactNo) == p
  {
    var q1 := SetProfileField(p, ProfileName, input);
    var q2 := SetProfileField(q1, Hostel, input);
    assert SetProfileFields(p, [ProfileName], input) == q1;
    assert [ProfileName, Hostel][..1] == [ProfileName];
    assert SetProfileFields(p, [ProfileName, Hostel], input) == q2;
    assert PROFILE_FIELDS[..2] == [ProfileName, Hostel];
  }

  /** Whether a profile other than `pid` already holds the contact number `c`. */
  predicate ContactTaken(db: Db, pid: int, c: Option<string>)
    reads db
  {
    c.Some? && exists q :: q in db.profiles && q != pid && db.profiles[q].contactNo == c
  }

  /**
   * `update_profile`: visit the three patchable fields, set each whose
   * update is not None, then save, which re-derives the permission level.
   * A contact number held by another profile fails the unique index.
   */
  method UpdateProfile(db: Db, pid: int, input: ProfileInput) returns (r: Result<Profile, Exc>)
    requires db.Valid() && pid in db.profiles
    modifies db`profiles
    ensures db.Valid()
    ensures var p := PatchedProfile(old(db.profiles)[pid], input);
            && (old(ContactTaken(db, pid, p.contactNo)) ==>
                  r == Failure(IntegrityError) && db.profiles == old(db.profiles))
            && (!old(ContactTaken(db, pid, p.contactNo)) ==>
                  r == Success(p.(permissionLevel := BUYER)) && db.profiles == old(db.profiles)[pid := r.value])
  {
    var profile := db.profiles[pid];
    ghost var original := profile;
    for i := 0 to |PROFILE_FIELDS|
      invariant profile == SetProfileFields(original, PROFILE_FIELDS[..i], input)
    {
      assert PROFILE_FIELDS[..i + 1][..i] == PROFILE_FIELDS[..i];
      profile := SetProfileField(profile, PROFILE_FIELDS[i], input);
    }
    assert PROFILE_FIELDS[..|PROFILE_FIELDS|] == PROFILE_FIELDS;
    PatchedProfileFields(original, input);
    // profile.save()
    if ContactTaken(db, pid, profile.contactNo) {
      return Failure(IntegrityError);
    }
    db.SaveProfile(pid, profile);
    r := Success(db.profiles[pid]);
  }

  // ---------------------------------------------------------------------
  // Offers, ratings, reports
  // ---------------------------------------------------------------------

  /**
   * `create_offer`: an offer with the given amount and message, stored as
   * given (no comparison with the asking price); a missing amount or
   * message violates NOT NULL. Saving it runs the offer-count hook.
   */
  method CreateOffer(db: Db, offerer: int, product: int, input: OfferInput) returns (r: Result<Offer, Exc>)
    requires db.Valid() && product in db.products
    modifies db`offers, db`products
    ensures db.Valid()
    ensures r.Failure? <==> input.amount.None? || input.message.None?
    ensures r.Failure? ==> r.error == IntegrityError && unchanged(db)
    ensures r.Success? ==>
              && r.value == Offer(offerer, product, input.amount.value, input.message.value)
              && db.offers == old(db.offers) + [r.value]
              && db.products == old(db.products)[product :=
                   old(db.products)[product].(numOffers := old(db.products)[product].numOffers + 1)]
  {
    var amount := input.amount;
    var message := input.message;
    // offer.save()
    if amount.None? || message.None? {
      return Failure(IntegrityError);
    }
    var offer := Offer(offerer, product, amount.value, message.value);
    db.offers := db.offers + [offer];
    db.UpdateProductOffers(offer, true);
    r := Success(offer);
  }

  /**
   * `profile_rating`: record a rating; saving it folds the value into the
   * rated profile's running average and count.
   */
  method ProfileRating(db: Db, ratingFor: int, ratedBy: int, rating: int) returns (r: Rating)
    requires db.Valid() && ratingFor in db.profiles
    modifies db`ratings, db`profiles
    ensures db.Valid()
    ensures r == Rating(ratingFor, ratedBy, rating)
    ensures db.ratings == old(db.ratings) + [r]
    ensures var p := old(db.profiles)[ratingFor];
            db.profiles == old(db.profiles)[ratingFor := p.(
              rating := Rated(p.rating, p.numRatings, rating),
              numRatings := p.numRatings + 1,
              permissionLevel := BUYER)]
  {
    r := Rating(ratingFor, ratedBy, rating);
    db.ratings := db.ratings + [r];
    db.UpdateProfileRating(r, true);
  }

  /**
   * `create_user_report`: look the reported account up by username (no such
   * user raises), record the report, and run the moderation hook.
   */
  method CreateUserReport(db: Db, reportedBy: int, input: UserReportInput) returns (r: Result<UserReport, Exc>)
    requires db.Valid()
    modifies db`userReports, db`profiles
    ensures db.Valid()
    ensures r.Failure? <==> input.reportedUser.None? || input.reportedUser.value !in old(db.usernames)
    ensures r.Failure? ==> r.error == DoesNotExist && unchanged(db)
    ensures r.Success? ==>
              && var target := db.ProfileOf(db.usernames[input.reportedUser.value]);
              && r.value == UserReport(reportedBy, target, input.category)
              && db.userReports == old(db.userReports) + [r.value]
              && (UserReportCount(db.userReports, target) <= MAX_ALLOWED_REPORTS ==>
                    db.profiles == old(db.profiles))
              && (UserReportCount(db.userReports, target) > MAX_ALLOWED_REPORTS ==>
                    db.profiles == old(db.profiles)[target := old(db.profiles)[target].(permissionLevel := BUYER)])
  {
    if input.reportedUser.None? || input.reportedUser.value !in db.usernames {
      return Failure(DoesNotExist);
    }
    var reportedUser := db.usernames[input.reportedUser.value];
    var report := UserReport(reportedBy, db.ProfileOf(reportedUser), input.category);
    db.userReports := db.userReports + [report];
    Services.ModerateProfile(db, report);
    r := Success(report);
  }
}
