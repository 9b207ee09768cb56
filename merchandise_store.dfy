/** The merchandise store: a catalogue filtered by category, a cart that
    earns XP, and discounts unlocked by the fan's XP. Prices are exact
    reals here (the source uses binary floating point). */
module MerchandiseStore {
  import opened Common
  import opened AuthContext

  datatype Product = Product(
    id: string,
    name: string,
    category: string,
    price: real,
    xpDiscount: real,
    image: string,
    rating: real,
    reviews: nat,
    featured: bool,
    limited: bool)

  /** The six products the store offers, in display order. */
  function Catalogue(): seq<Product> {
    [ Product("1", "FC Barcelona Home Jersey 24/25", "jerseys", 89.99, 15.0, "/placeholder.svg", 4.8, 1247, true, false),
      Product("2", "Limited Edition Clásico Scarf", "accessories", 34.99, 20.0, "/placeholder.svg", 4.9, 856, false, true),
      Product("3", "Camp Nou Stadium Model", "collectibles", 149.99, 10.0, "/placeholder.svg", 4.7, 423, true, false),
      Product("4", "Barça Training Jacket", "lifestyle", 64.99, 12.0, "/placeholder.svg", 4.6, 789, false, false),
      Product("5", "Pedri #8 Away Jersey", "jerseys", 94.99, 18.0, "/placeholder.svg", 4.9, 2156, true, false),
      Product("6", "Golden Badge Pin Set", "accessories", 19.99, 25.0, "/placeholder.svg", 4.5, 345, false, true) ]
  }

  /** `getXPRequirement(discount) = Math.floor(discount * 100)`: the largest
      whole XP amount not above a hundred XP per discount point. */
  function XpRequirement(discount: real): (required: int)
    ensures required as real <= discount * 100.0 < required as real + 1.0
  {
    (discount * 100.0).Floor
  }

  /** A whole-number discount of d percent costs exactly 100·d XP. */
  lemma XpRequirementOfWholeDiscount(d: int)
    ensures XpRequirement(d as real) == 100 * d
  {
    assert d as real * 100.0 == (100 * d) as real;
  }

  /** What `calculateDiscount` shows for a product. */
  datatype Quote = Quote(discountedPrice: real, savings: real, canAfford: bool)

  /** `calculateDiscount(price, xpDiscount)` for the signed-in `user`. */
  function CalculateDiscount(user: Option<User>, price: real, xpDiscount: real): (q: Quote)
    ensures user.None? ==> q == Quote(price, 0.0, false)
    ensures user.Some? ==> (q.canAfford <==> user.value.xp >= XpRequirement(xpDiscount))
    ensures !q.canAfford ==> q.savings == 0.0 && q.discountedPrice == price
    ensures q.canAfford ==> q.savings == price * xpDiscount / 100.0
    ensures q.discountedPrice + q.savings == price
  {
    if user.None? then Quote(price, 0.0, false)
    else
      var canAfford := user.value.xp >= XpRequirement(xpDiscount);
      var discountAmount := if canAfford then (price * xpDiscount) / 100.0 else 0.0;
      Quote(price - discountAmount, discountAmount, canAfford)
  }

  /** The outcome `buyWithXP` announces. */
  datatype Purchase = SignInRequired | InsufficientXP(required: int, available: int) | Purchased(savings: real)

  function CategoryOf(p: Product): string {
    p.category
  }

  /** The jerseys tab shows the two jerseys, in catalogue order. */
  lemma JerseysTab()
    ensures ByTab(Catalogue(), "jerseys", CategoryOf) == [Catalogue()[0], Catalogue()[4]]
  {
    var c := Catalogue();
    assert ByTab(c[6..], "jerseys", CategoryOf) == [];
    ByTabCons(c[5], c[6..], "jerseys", CategoryOf);
    assert c[5..] == [c[5]] + c[6..];
    ByTabCons(c[4], c[5..], "jerseys", CategoryOf);
    assert c[4..] == [c[4]] + c[5..];
    ByTabCons(c[3], c[4..], "jerseys", CategoryOf);
    assert c[3..] == [c[3]] + c[4..];
    ByTabCons(c[2], c[3..], "jerseys", CategoryOf);
    assert c[2..] == [c[2]] + c[3..];
    ByTabCons(c[1], c[2..], "jerseys", CategoryOf);
    assert c[1..] == [c[1]] + c[2..];
    ByTabCons(c[0], c[1..], "jerseys", CategoryOf);
    assert c[0..] == [c[0]] + c[1..];
  }

  /** The store component's state. */
  class Store {
    const session: Session
    /** The ids of the products added, oldest first. */
    var cart: seq<string>
    var selectedCategory: string

    constructor (session: Session)
      ensures this.session == session && cart == [] && selectedCategory == "all"
    {
      this.session := session;
      cart := [];
      selectedCategory := "all";
    }

    /** The products on display for the selected category tab: the whole
        catalogue under "all", otherwise exactly its products of that
        category. */
    function VisibleProducts(): (shown: seq<Product>)
      reads this
      ensures selectedCategory == "all" ==> shown == Catalogue()
      ensures selectedCategory != "all" ==>
                forall i :: 0 <= i < |shown| ==> shown[i] in Catalogue() && shown[i].category == selectedCategory
      ensures selectedCategory != "all" ==>
                forall i :: 0 <= i < |Catalogue()| && Catalogue()[i].category == selectedCategory ==> Catalogue()[i] in shown
    {
      ByTabExact(Catalogue(), selectedCategory, CategoryOf);
      ByTab(Catalogue(), selectedCategory, CategoryOf)
    }

    method SelectCategory(category: string)
      modifies this`selectedCategory
      ensures selectedCategory == category
    {
      selectedCategory := category;
    }

    /** `addToCart(productId)`: the id goes to the end of the cart, signed in
        or not; a signed-in fan earns 10 XP. */
    method AddToCart(productId: string)
      modifies this`cart, session
      ensures cart == old(cart) + [productId]
      ensures session.GainedXP(10)
    {
      cart := cart + [productId];
      session.AddXP(10);
    }

    /** `buyWithXP(product)`: refused when nobody is signed in or the fan's XP
        is below the requirement; otherwise the savings are announced. It
        changes neither the cart nor the fan's XP. */
    method BuyWithXP(product: Product) returns (result: Purchase)
      ensures session.user.None? ==> result == SignInRequired
      ensures session.user.Some? && session.user.value.xp < XpRequirement(product.xpDiscount) ==>
                result == InsufficientXP(XpRequirement(product.xpDiscount), session.user.value.xp)
      ensures session.user.Some? && session.user.value.xp >= XpRequirement(product.xpDiscount) ==>
                result == Purchased(product.price * product.xpDiscount / 100.0)
    {
      var required := XpRequirement(product.xpDiscount);
      if session.user.None? {
        return SignInRequired;
      }
      if session.user.value.xp < required {
        return InsufficientXP(required, session.user.value.xp);
      }
      result := Purchased(CalculateDiscount(session.user, product.price, product.xpDiscount).savings);
    }
  }
}
