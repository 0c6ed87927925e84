/**
 * The GraphQL query resolvers: login-gated lookups that change nothing. A
 * lookup that finds no row answers None; only the anonymous caller and an
 * ambiguous lookup by email raise.
 */
module Query {
  import opened Wrappers
  import opened Models
  import Utils

  /** `resolve_product`: the product with the given id, or None. */
  function ResolveProduct(db: Db, caller: Option<int>, id: Option<int>): (r: Result<Option<Product>, Exc>)
    reads db
    ensures caller.None? <==> r.Failure?
    ensures r.Failure? ==> r.error == PermissionDenied
    ensures r.Success? && r.value.Some? <==> caller.Some? && id.Some? && id.value in db.products
    ensures r.Success? && r.value.Some? ==> r.value.value == db.products[id.value]
  {
    if caller.None? then Failure(PermissionDenied)
    else if id.Some? then
      if id.value in db.products then Success(Some(db.products[id.value])) else Success(None)
    else Success(None)
  }

  /** The profiles whose email is `email`. */
  function ProfilesWithEmail(db: Db, email: string): (s: set<int>)
    reads db
    ensures forall p :: p in s <==> p in db.profiles && db.profiles[p].email == email
  {
    set p | p in db.profiles && db.profiles[p].email == email
  }

  /** A set of one element has an element, and is the singleton of any element it has. */
  lemma SingletonUnique(s: set<int>)
    requires |s| == 1
    ensures exists k :: k in s
    ensures forall a :: a in s ==> s == {a}
  {
    if forall k :: k !in s {
      assert false;
    }
    var k: int :| k in s;
    assert s == (s - {k}) + {k};
    assert |s - {k}| == 0;
    assert s == {k};
  }

  /** `Profile.objects.get(email=email)`: none is a miss, several raise. */
  function ProfileByEmail(db: Db, email: string): (r: Result<Option<Profile>, Exc>)
    reads db
    ensures |ProfilesWithEmail(db, email)| == 0 ==> r == Success(None)
    ensures |ProfilesWithEmail(db, email)| > 1 ==> r == Failure(MultipleObjectsReturned)
    ensures |ProfilesWithEmail(db, email)| == 1 ==>
              exists p :: ProfilesWithEmail(db, email) == {p} && r == Success(Some(db.profiles[p]))
  {
    var matches := ProfilesWithEmail(db, email);
    if |matches| == 0 then Success(None)
    else if |matches| > 1 then Failure(MultipleObjectsReturned)
    else
      SingletonUnique(matches);
      var p: int :| p in matches;
      assert matches == {p};
      Success(Some(db.profiles[p]))
  }

  /**
   * `resolve_profile`: the first supplied argument among username, id and
   * email decides; the others are ignored. No argument answers None.
   */
  function ResolveProfile(db: Db, caller: Option<int>, id: Option<int>, username: Option<string>, email: Option<string>)
    : (r: Result<Option<Profile>, Exc>)
    reads db
    requires db.Valid()
    ensures caller.None? ==> r == Failure(PermissionDenied)
    ensures caller.Some? && username.Some? ==>
              if username.value in db.usernames
              then r == Success(Some(db.profiles[db.ProfileOf(db.usernames[username.value])]))
              else r == Success(None)
    ensures caller.Some? && username.None? && id.Some? ==>
              r == Success(if id.value in db.profiles then Some(db.profiles[id.value]) else None)
    ensures caller.Some? && username.None? && id.None? && email.Some? ==> r == ProfileByEmail(db, email.value)
    ensures caller.Some? && username.None? && id.None? && email.None? ==> r == Success(None)
    ensures r.Failure? ==> caller.None? || (username.None? && id.None? && email.Some?
                                           && |ProfilesWithEmail(db, email.value)| > 1)
    ensures r.Success? && r.value.Some? ==> r.value.value in db.profiles.Values
  {
    if caller.None? then Failure(PermissionDenied)
    else if username.Some? then
      if username.value in db.usernames
      then
        var u := db.usernames[username.value];
        Success(Some(db.profiles[db.ProfileOf(u)]))
      else Success(None)
    else if id.Some? then
      if id.value in db.profiles then Success(Some(db.profiles[id.value])) else Success(None)
    else if email.Some? then ProfileByEmail(db, email.value)
    else Success(None)
  }

  /**
   * Lookup precedence: a username overrides id and email, and an id
   * overrides email; a lookup by username finds the profile of that user.
   */
  lemma ResolveProfilePrecedence(db: Db, caller: int, id: Option<int>, id2: Option<int>,
                                 username: string, email: Option<string>, email2: Option<string>)
    requires db.Valid()
    ensures ResolveProfile(db, Some(caller), id, Some(username), email)
            == ResolveProfile(db, Some(caller), id2, Some(username), email2)
    ensures id.Some? ==> ResolveProfile(db, Some(caller), id, None, email)
                         == ResolveProfile(db, Some(caller), id, None, email2)
    ensures var r := ResolveProfile(db, Some(caller), id, Some(username), email);
            r.Success? && r.value.Some? ==> db.users[r.value.value.user].username == username
  {
  }

  /** `resolve_wishlist`: the products on the caller's wishlist. */
  function ResolveWishlist(db: Db, caller: Option<int>): (r: Result<Option<set<int>>, Exc>)
    reads db
    requires db.Valid() && (caller.Some? ==> caller.value in db.users)
    ensures caller.None? <==> r == Failure(PermissionDenied)
    ensures caller.Some? ==> r == Success(Some(db.wishlists[db.ProfileOf(caller.value)]))
  {
    if caller.None? then Failure(PermissionDenied)
    else Success(Some(db.wishlists[db.ProfileOf(caller.value)]))
  }

  /** `resolve_product_offer`: every offer on the given product, or None when there is no such product. */
  function ResolveProductOffer(db: Db, caller: Option<int>, id: Option<int>): (r: Result<Option<seq<Offer>>, Exc>)
    reads db
    ensures caller.None? <==> r.Failure?
    ensures r.Success? && r.value.Some? <==> caller.Some? && id.Some? && id.value in db.products
    ensures r.Success? && r.value.Some? ==>
              forall o :: o in r.value.value <==> o in db.offers && o.product == id.value
    ensures r.Success? && r.value.Some? ==>
              forall o :: multiset(r.value.value)[o] == (if o.product == id.value then multiset(db.offers)[o] else 0)
  {
    if caller.None? then Failure(PermissionDenied)
    else if id.Some? then
      if id.value in db.products then Success(Some(OffersOn(db.offers, id.value))) else Success(None)
    else Success(None)
  }

  /** `resolve_products`: one page of the product listing. */
  function ResolveProducts(db: Db, caller: Option<int>, page: Option<int>, pageSize: int): (r: Result<Utils.Page, Exc>)
    reads db
    requires pageSize > 0
    ensures caller.None? <==> r.Failure?
    ensures r.Success? ==> r.value == Utils.GetPaginator(|db.products|, pageSize, page)
    ensures r.Success? ==> 1 <= r.value.page <= r.value.pages
                           && 0 <= r.value.first <= r.value.last <= |db.products|
  {
    if caller.None? then Failure(PermissionDenied)
    else Success(Utils.GetPaginator(|db.products|, pageSize, page))
  }

  /** `resolve_my_profile`: the caller's own profile. */
  function ResolveMyProfile(db: Db, caller: Option<int>): (r: Result<Profile, Exc>)
    reads db
    requires db.Valid() && (caller.Some? ==> caller.value in db.users)
    ensures caller.None? <==> r == Failure(PermissionDenied)
    ensures r.Success? ==> r.value == db.profiles[db.ProfileOf(caller.value)]
    ensures r.Success? ==> r.value in db.profiles.Values && r.value.user == caller.value
    ensures r.Success? ==> forall p :: p in db.profiles && db.profiles[p].user == caller.value ==>
                             db.profiles[p] == r.value
  {
    if caller.None? then Failure(PermissionDenied)
    else Success(db.profiles[db.ProfileOf(caller.value)])
  }

  /** Every resolver refuses an anonymous caller with PermissionDenied. */
  lemma AnonymousRefused(db: Db, id: Option<int>, username: Option<string>, email: Option<string>, page: Option<int>)
    requires db.Valid()
    ensures ResolveProduct(db, None, id) == Failure(PermissionDenied)
    ensures ResolveProfile(db, None, id, username, email) == Failure(PermissionDenied)
    ensures ResolveWishlist(db, None) == Failure(PermissionDenied)
    ensures ResolveProductOffer(db, None, id) == Failure(PermissionDenied)
    ensures ResolveProducts(db, None, page, 1) == Failure(PermissionDenied)
    ensures ResolveMyProfile(db, None) == Failure(PermissionDenied)
  {
  }
}
