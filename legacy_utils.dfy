/**
 * The helpers of the earlier schema package: building a product from a
 * seller and keyword arguments, and patching a product in place. Its
 * products carry a base price instead of an expected price; every field a
 * keyword argument fills may be None.
 */
module LegacyUtils {
  import opened Wrappers

  /** The keyword arguments the helpers read; an absent one is None. */
  datatype Args = Args(
    name: Option<string>,
    basePrice: Option<int>,
    description: Option<string>,
    categoryId: Option<int>)

  /** The fields of a product, as one value. */
  datatype Row = Row(
    seller: int,
    name: Option<string>,
    basePrice: Option<int>,
    description: Option<string>,
    categoryId: Option<int>)

  /** The fields a patch may change, in the order the helper visits them. */
  datatype Field = Name | BasePrice | Description | CategoryId

  const FIELDS: seq<Field> := [Name, BasePrice, Description, CategoryId]

  /** `setattr(product, field, update)` when the update is not None. */
  function SetField(r: Row, f: Field, args: Args): Row
  {
    match f
    case Name => if args.name.Some? then r.(name := args.name) else r
    case BasePrice => if args.basePrice.Some? then r.(basePrice := args.basePrice) else r
    case Description => if args.description.Some? then r.(description := args.description) else r
    case CategoryId => if args.categoryId.Some? then r.(categoryId := args.categoryId) else r
  }

  /** The row after visiting `fields` in order. */
  function SetFields(r: Row, fields: seq<Field>, args: Args): Row
  {
    if fields == [] then r
    else SetField(SetFields(r, fields[..|fields| - 1], args), fields[|fields| - 1], args)
  }

  /** The row after the whole patch. */
  function Patched(r: Row, args: Args): Row
  {
    SetFields(r, FIELDS, args)
  }

  /**
   * A patch sets name, base price, description and category where the
   * argument is not None, and leaves everything else, the seller included,
   * as it was.
   */
  lemma PatchedFields(r: Row, args: Args)
    ensures var q := Patched(r, args);
            && q.name == (if args.name.Some? then args.name else r.name)
            && q.basePrice == (if args.basePrice.Some? then args.basePrice else r.basePrice)
            && q.description == (if args.description.Some? then args.description else r.description)
            && q.categoryId == (if args.categoryId.Some? then args.categoryId else r.categoryId)
            && q.seller == r.seller
  {
    var q1 := SetField(r, Name, args);
    var q2 := SetField(q1, BasePrice, args);
    var q3 := SetField(q2, Description, args);
    assert SetFields(r, [Name], args) == q1;
    assert [Name, BasePrice][..1] == [Name];
    assert SetFields(r, [Name, BasePrice], args) == q2;
    assert [Name, BasePrice, Description][..2] == [Name, BasePrice];
    assert SetFields(r, [Name, BasePrice, Description], args) == q3;
    assert FIELDS[..3] == [Name, BasePrice, Description];
  }

  /** Applying the same patch twice is the same as applying it once. */
  lemma PatchedIdempotent(r: Row, args: Args)
    ensures Patched(Patched(r, args), args) == Patched(r, args)
  {
    PatchedFields(r, args);
    PatchedFields(Patched(r, args), args);
  }

  /** A patch of all-None arguments changes nothing. */
  lemma EmptyPatchIsIdentity(r: Row)
    ensures Patched(r, Args(None, None, None, None)) == r
  {
    PatchedFields(r, Args(None, None, None, None));
  }

  /** A product instance whose fields the helpers assign one by one. */
  class Product {
    var seller: int
    var name: Option<string>
    var basePrice: Option<int>
    var description: Option<string>
    var categoryId: Option<int>

    /** The current field values. */
    function Fields(): Row
      reads this
    {
      Row(seller, name, basePrice, description, categoryId)
    }

    /** `Product()` for `seller`, before any other field is assigned. */
    constructor (seller: int)
      ensures Fields() == Row(seller, None, None, None, None)
    {
      this.seller := seller;
      name, basePrice, description, categoryId := None, None, None, None;
    }

    /** `setattr(self, field, update)` for a non-None update. */
    method Set(f: Field, args: Args)
      modifies this
      ensures Fields() == SetField(old(Fields()), f, args)
    {
      match f
      case Name => if args.name.Some? { name := args.name; }
      case BasePrice => if args.basePrice.Some? { basePrice := args.basePrice; }
      case Description => if args.description.Some? { description := args.description; }
      case CategoryId => if args.categoryId.Some? { categoryId := args.categoryId; }
    }
  }

  /**
   * `create_product`: a new product of `seller` whose name, base price,
   * description and category are the arguments as given, None included.
   */
  method CreateProduct(seller: int, args: Args) returns (p: Product)
    ensures fresh(p)
    ensures p.Fields() == Row(seller, args.name, args.basePrice, args.description, args.categoryId)
  {
    p := new Product(seller);
    p.name := args.name;
    p.basePrice := args.basePrice;
    p.description := args.description;
    p.categoryId := args.categoryId;
  }

  /**
   * `update_product`: visit the four patchable fields and assign each whose
   * argument is not None, in place.
   */
  method UpdateProduct(product: Product, args: Args)
    modifies product
    ensures product.Fields() == Patched(old(product.Fields()), args)
  {
    ghost var original := product.Fields();
    for i := 0 to |FIELDS|
      invariant product.Fields() == SetFields(original, FIELDS[..i], args)
    {
      assert FIELDS[..i + 1][..i] == FIELDS[..i];
      product.Set(FIELDS[i], args);
    }
    assert FIELDS[..|FIELDS|] == FIELDS;
  }
}
