/** The static product catalog: fifty records in five categories. The
    source writes it as one array literal grouped by a comment per category;
    here each group is a ten-entry constant and the catalog is their
    concatenation, in the same order. Prices are integer cents. */
module Catalog {
  import opened Types
  import opened Text
  import opened Seqs

  const Products: seq<Product> :=
    FootwearProducts + ClothingProducts + AccessoriesProducts + HomeProducts + ElectronicsProducts

  /** Every catalog image is an Unsplash photo at a fixed size and crop. */
  function Unsplash(photo: string): string
  {
    "https://images.unsplash.com/photo-" + photo + "?auto=format&fit=crop&w=400&q=80"
  }

  /** The category names in the order they first appear in the catalog. */
  const CategoryNames: seq<string> := ["Footwear", "Clothing", "Accessories", "Home", "Electronics"]

  const FootwearProducts: seq<Product> := [
    Product(StrId("p1"), "Classic White Sneakers", "Footwear", 8999,
      Unsplash("1549298916-b41d501d3772"),
      "Minimalist white leather sneakers."),
    Product(StrId("p2"), "Red Running Shoes", "Footwear", 12000,
      Unsplash("1542291026-7eec264c27ff"),
      "High-performance red running shoes."),
    Product(StrId("p3"), "Leather Boots", "Footwear", 15000,
      Unsplash("1608256246200-53e635b5b69f"),
      "Durable brown leather boots."),
    Product(StrId("p4"), "Summer Sandals", "Footwear", 4500,
      Unsplash("1621251399462-2384742442c6"),
      "Comfortable open-toe sandals."),
    Product(StrId("p5"), "High Top Canvas", "Footwear", 6500,
      Unsplash("1525966222134-fcfa99b8ae77"),
      "Vintage style high top canvas shoes."),
    Product(StrId("p6"), "Formal Oxfords", "Footwear", 18000,
      Unsplash("1614252235316-8c857d38b5f4"),
      "Black polished oxford shoes."),
    Product(StrId("p7"), "Hiking Boots", "Footwear", 13000,
      Unsplash("1628253747716-0c4f5c90fdda"),
      "Rugged waterproof hiking boots."),
    Product(StrId("p8"), "Slip-on Loafers", "Footwear", 9500,
      Unsplash("1533867617858-e7b97e060509"),
      "Casual suede slip-on loafers."),
    Product(StrId("p9"), "Sport Trainers", "Footwear", 11000,
      Unsplash("1606107557195-0e29a4b5b4aa"),
      "Blue athletic training shoes."),
    Product(StrId("p10"), "Ankle Boots", "Footwear", 14000,
      Unsplash("1543163521-1bf539c55dd2"),
      "Stylish black ankle boots.")
  ]

  const ClothingProducts: seq<Product> := [
    Product(StrId("p11"), "Denim Jacket", "Clothing", 7500,
      Unsplash("1611312449408-fcece27cdbb7"),
      "Classic blue denim jacket."),
    Product(StrId("p12"), "Cotton T-Shirt", "Clothing", 2500,
      Unsplash("1521572163474-6864f9cf17ab"),
      "Basic white cotton t-shirt."),
    Product(StrId("p13"), "Summer Dress", "Clothing", 6000,
      Unsplash("1572804013309-59a88b7e92f1"),
      "Floral pattern summer dress."),
    Product(StrId("p14"), "Wool Sweater", "Clothing", 8500,
      Unsplash("1576566588028-4147f3842f27"),
      "Cozy grey wool sweater."),
    Product(StrId("p15"), "Chino Pants", "Clothing", 5500,
      Unsplash("1473966968600-fa801b869a1a"),
      "Beige slim-fit chino pants."),
    Product(StrId("p16"), "Hooded Sweatshirt", "Clothing", 4500,
      Unsplash("1556821840-3a63f95609a7"),
      "Black oversized hoodie."),
    Product(StrId("p17"), "Silk Blouse", "Clothing", 9000,
      Unsplash("1604176354204-9268737828c4"),
      "Elegant emerald green silk blouse."),
    Product(StrId("p18"), "Cargo Shorts", "Clothing", 3500,
      Unsplash("1591195853828-11db59a44f6b"),
      "Practical khaki cargo shorts."),
    Product(StrId("p19"), "Blazer", "Clothing", 15000,
      Unsplash("1591047139829-d91aecb6caea"),
      "Navy blue formal blazer."),
    Product(StrId("p20"), "Rain Coat", "Clothing", 11000,
      Unsplash("1591852504445-5d666d92630a"),
      "Yellow waterproof raincoat.")
  ]

  const AccessoriesProducts: seq<Product> := [
    Product(StrId("p21"), "Leather Tote Bag", "Accessories", 18000,
      Unsplash("1591561954557-26941169b49e"),
      "Spacious brown leather tote."),
    Product(StrId("p22"), "Aviator Sunglasses", "Accessories", 12000,
      Unsplash("1511499767150-a48a237f0083"),
      "Gold frame aviator sunglasses."),
    Product(StrId("p23"), "Silver Watch", "Accessories", 25000,
      Unsplash("1524592094714-0f0654e20314"),
      "Stainless steel analog watch."),
    Product(StrId("p24"), "Baseball Cap", "Accessories", 2500,
      Unsplash("1588850561407-ed78c282e89b"),
      "Classic navy baseball cap."),
    Product(StrId("p25"), "Silk Scarf", "Accessories", 4500,
      Unsplash("1584030373081-f37b7bb4fa8e"),
      "Patterned silk neck scarf."),
    Product(StrId("p26"), "Leather Belt", "Accessories", 4000,
      Unsplash("1624222247344-550fb60583dc"),
      "Black leather belt with silver buckle."),
    Product(StrId("p27"), "Backpack", "Accessories", 6500,
      Unsplash("1553062407-98eeb64c6a62"),
      "Grey laptop backpack."),
    Product(StrId("p28"), "Beanie Hat", "Accessories", 2000,
      Unsplash("1576871337632-b9aef4c17ab9"),
      "Warm knit beanie."),
    Product(StrId("p29"), "Crossbody Bag", "Accessories", 9500,
      Unsplash("1548036328-c9fa89d128fa"),
      "Small black crossbody bag."),
    Product(StrId("p30"), "Gold Necklace", "Accessories", 13000,
      Unsplash("1599643478518-17488fbbcd75"),
      "Minimalist gold chain necklace.")
  ]

  const HomeProducts: seq<Product> := [
    Product(StrId("p31"), "Modern Desk Lamp", "Home", 5500,
      Unsplash("1507473888900-52e1ad145986"),
      "Adjustable LED desk lamp."),
    Product(StrId("p32"), "Ceramic Vase", "Home", 3500,
      Unsplash("1581783342308-f792ca11df53"),
      "Handmade white ceramic vase."),
    Product(StrId("p33"), "Throw Pillow", "Home", 2500,
      Unsplash("1579656381282-b56c5057bc93"),
      "Decorative geometric throw pillow."),
    Product(StrId("p34"), "Wall Clock", "Home", 4500,
      Unsplash("1509048191080-d2984bad6ae5"),
      "Minimalist wooden wall clock."),
    Product(StrId("p35"), "Succulent Pot", "Home", 1500,
      Unsplash("1485955900006-10f4d324d411"),
      "Small concrete planter."),
    Product(StrId("p36"), "Coffee Mug Set", "Home", 3000,
      Unsplash("1514228742587-6b1558fcca3d"),
      "Set of 4 ceramic coffee mugs."),
    Product(StrId("p37"), "Area Rug", "Home", 12000,
      Unsplash("1505409627970-63b5f83d3cbe"),
      "Woven cotton area rug."),
    Product(StrId("p38"), "Table Fan", "Home", 6000,
      Unsplash("1618941716939-553df5c6c27e"),
      "Retro style desk fan."),
    Product(StrId("p39"), "Picture Frame", "Home", 2000,
      Unsplash("1534349762913-96c225508b48"),
      "Black aluminum picture frame."),
    Product(StrId("p40"), "Scented Candle", "Home", 2800,
      Unsplash("1602825389660-3f7f7baf89ad"),
      "Lavender scented soy candle.")
  ]

  const ElectronicsProducts: seq<Product> := [
    Product(StrId("p41"), "Wireless Headphones", "Electronics", 19900,
      Unsplash("1505740420928-5e560c06d30e"),
      "Noise-cancelling over-ear headphones."),
    Product(StrId("p42"), "Smart Speaker", "Electronics", 9900,
      Unsplash("1589492477829-5e65395b66cc"),
      "Voice-controlled smart home speaker."),
    Product(StrId("p43"), "Digital Camera", "Electronics", 45000,
      Unsplash("1516035069371-29a1b244cc32"),
      "Compact mirrorless camera."),
    Product(StrId("p44"), "Tablet Cover", "Electronics", 3000,
      Unsplash("1544244015-0df4b3ffc6b0"),
      "Protective leather tablet case."),
    Product(StrId("p45"), "Power Bank", "Electronics", 4000,
      Unsplash("1609592424303-36c1c1374f14"),
      "High-capacity portable charger."),
    Product(StrId("p46"), "Smart Watch", "Electronics", 25000,
      Unsplash("1523275335684-37898b6baf30"),
      "Fitness tracking smart watch."),
    Product(StrId("p47"), "Bluetooth Earbuds", "Electronics", 12900,
      Unsplash("1572569028738-411a561033f4"),
      "True wireless in-ear headphones."),
    Product(StrId("p48"), "Mouse", "Electronics", 6000,
      Unsplash("1527864550417-7fd91fc51a46"),
      "Ergonomic wireless mouse."),
    Product(StrId("p49"), "Keyboard", "Electronics", 11000,
      Unsplash("1587829741301-dc798b91a05c"),
      "Mechanical gaming keyboard."),
    Product(StrId("p50"), "Webcam", "Electronics", 8000,
      Unsplash("1598965675045-45c5e72077f8"),
      "HD streaming webcam.")
  ]

  /** The catalog holds fifty products. */
  lemma CatalogSize()
    ensures |Products| == 50
  {
  }

  /** Each category block has ten entries. */
  lemma BlockSizes()
    ensures |FootwearProducts| == |ClothingProducts| == |AccessoriesProducts| == 10
    ensures |HomeProducts| == |ElectronicsProducts| == 10
  {
  }

  /** The i-th product (counting from zero) has id `p<i+1>`. */
  lemma IdsInOrder()
    ensures forall i :: 0 <= i < |Products| ==> Products[i].id == StrId("p" + NatToString(i + 1))
  {
    BlockSizes();
    FootwearIds();
    ClothingIds();
    AccessoriesIds();
    HomeIds();
    ElectronicsIds();
    NumberedBlocks(FootwearProducts, ClothingProducts, AccessoriesProducts, HomeProducts, ElectronicsProducts);
  }

  /** Five blocks of ten numbered consecutively from `p1` form a catalog
      numbered by position. */
  lemma NumberedBlocks(f: seq<Product>, l: seq<Product>, a: seq<Product>, h: seq<Product>, e: seq<Product>)
    requires |f| == |l| == |a| == |h| == |e| == 10
    requires forall i :: 0 <= i < 10 ==> f[i].id == StrId("p" + NatToString(i + 1))
    requires forall i :: 0 <= i < 10 ==> l[i].id == StrId("p" + NatToString(i + 11))
    requires forall i :: 0 <= i < 10 ==> a[i].id == StrId("p" + NatToString(i + 21))
    requires forall i :: 0 <= i < 10 ==> h[i].id == StrId("p" + NatToString(i + 31))
    requires forall i :: 0 <= i < 10 ==> e[i].id == StrId("p" + NatToString(i + 41))
    ensures forall i :: 0 <= i < |f + l + a + h + e| ==> (f + l + a + h + e)[i].id == StrId("p" + NatToString(i + 1))
  {
    forall i | 0 <= i < |f + l + a + h + e| ensures (f + l + a + h + e)[i].id == StrId("p" + NatToString(i + 1)) {
      FiveBlocksAt(f, l, a, h, e, i);
      if 10 <= i < 20 {
        assert l[i - 10].id == StrId("p" + NatToString(i - 10 + 11));
      } else if 20 <= i < 30 {
        assert a[i - 20].id == StrId("p" + NatToString(i - 20 + 21));
      } else if 30 <= i < 40 {
        assert h[i - 30].id == StrId("p" + NatToString(i - 30 + 31));
      } else if 40 <= i {
        assert e[i - 40].id == StrId("p" + NatToString(i - 40 + 41));
      }
    }
  }

  /** Where the i-th entry of five ten-entry blocks lives. */
  lemma FiveBlocksAt<T>(f: seq<T>, l: seq<T>, a: seq<T>, h: seq<T>, e: seq<T>, i: nat)
    requires |f| == |l| == |a| == |h| == |e| == 10 && i < 50
    ensures i < 10 ==> (f + l + a + h + e)[i] == f[i]
    ensures 10 <= i < 20 ==> (f + l + a + h + e)[i] == l[i - 10]
    ensures 20 <= i < 30 ==> (f + l + a + h + e)[i] == a[i - 20]
    ensures 30 <= i < 40 ==> (f + l + a + h + e)[i] == h[i - 30]
    ensures 40 <= i ==> (f + l + a + h + e)[i] == e[i - 40]
  {
  }

  lemma FootwearIds()
    ensures forall i :: 0 <= i < 10 ==> FootwearProducts[i].id == StrId("p" + NatToString(i + 1))
  {
  }

  lemma ClothingIds()
    ensures forall i :: 0 <= i < 10 ==> ClothingProducts[i].id == StrId("p" + NatToString(i + 11))
  {
  }

  lemma AccessoriesIds()
    ensures forall i :: 0 <= i < 10 ==> AccessoriesProducts[i].id == StrId("p" + NatToString(i + 21))
  {
  }

  lemma HomeIds()
    ensures forall i :: 0 <= i < 10 ==> HomeProducts[i].id == StrId("p" + NatToString(i + 31))
  {
  }

  lemma ElectronicsIds()
    ensures forall i :: 0 <= i < 10 ==> ElectronicsProducts[i].id == StrId("p" + NatToString(i + 41))
  {
  }

  /** Every catalog id is a string id. */
  lemma IdsAreStrings()
    ensures forall i :: 0 <= i < |Products| ==> Products[i].id.StrId?
  {
    IdsInOrder();
  }

  /** No two catalog entries share an id. */
  lemma IdsDistinct()
    ensures forall i, j :: 0 <= i < j < |Products| ==> Products[i].id != Products[j].id
  {
    IdsInOrder();
    NumberedIdsDistinct(Products);
  }

  /** Ids numbered `p1`, `p2`, ... by position are pairwise distinct. */
  lemma NumberedIdsDistinct(ps: seq<Product>)
    requires forall i :: 0 <= i < |ps| ==> ps[i].id == StrId("p" + NatToString(i + 1))
    ensures forall i, j :: 0 <= i < j < |ps| ==> ps[i].id != ps[j].id
  {
    forall i, j | 0 <= i < j < |ps| ensures ps[i].id != ps[j].id {
      var a, b := NatToString(i + 1), NatToString(j + 1);
      if ps[i].id == ps[j].id {
        assert ("p" + a)[1..] == a && ("p" + b)[1..] == b;
        NatToStringInjective(i + 1, j + 1);
      }
    }
  }

  /** Hence no product appears twice. */
  lemma ProductsDistinct()
    ensures NoDuplicates(Products)
  {
    IdsDistinct();
  }

  /** Each ten-entry block holds one category. */
  lemma BlockCategories()
    ensures forall i :: 0 <= i < |FootwearProducts| ==> FootwearProducts[i].category == "Footwear"
    ensures forall i :: 0 <= i < |ClothingProducts| ==> ClothingProducts[i].category == "Clothing"
    ensures forall i :: 0 <= i < |AccessoriesProducts| ==> AccessoriesProducts[i].category == "Accessories"
    ensures forall i :: 0 <= i < |HomeProducts| ==> HomeProducts[i].category == "Home"
    ensures forall i :: 0 <= i < |ElectronicsProducts| ==> ElectronicsProducts[i].category == "Electronics"
  {
  }

  /** Products 10k..10k+9 form the k-th category, in the order of CategoryNames. */
  lemma CategoriesInBlocks()
    ensures forall i :: 0 <= i < |Products| ==> Products[i].category == CategoryNames[i / 10]
  {
    BlockSizes();
    BlockCategories();
    CategoriesOfBlocks(FootwearProducts, ClothingProducts, AccessoriesProducts, HomeProducts, ElectronicsProducts,
                       CategoryNames);
  }

  /** Five blocks of ten, each of one category, in the order of `names`. */
  lemma CategoriesOfBlocks(f: seq<Product>, l: seq<Product>, a: seq<Product>, h: seq<Product>, e: seq<Product>,
                           names: seq<string>)
    requires |f| == |l| == |a| == |h| == |e| == 10 && |names| == 5
    requires forall i :: 0 <= i < 10 ==> f[i].category == names[0]
    requires forall i :: 0 <= i < 10 ==> l[i].category == names[1]
    requires forall i :: 0 <= i < 10 ==> a[i].category == names[2]
    requires forall i :: 0 <= i < 10 ==> h[i].category == names[3]
    requires forall i :: 0 <= i < 10 ==> e[i].category == names[4]
    ensures forall i :: 0 <= i < |f + l + a + h + e| ==> (f + l + a + h + e)[i].category == names[i / 10]
  {
    forall i | 0 <= i < |f + l + a + h + e| ensures (f + l + a + h + e)[i].category == names[i / 10] {
      FiveBlocksAt(f, l, a, h, e, i);
    }
  }

  /** The category names are pairwise distinct. */
  lemma CategoryNamesDistinct()
    ensures |CategoryNames| == 5 && NoDuplicates(CategoryNames)
  {
  }

  /** A product has the k-th category exactly when it lies in the k-th block
      of ten, so each category is contiguous and has ten products. */
  lemma CategoryContiguous(k: nat, i: nat)
    requires k < |CategoryNames| && i < |Products|
    ensures Products[i].category == CategoryNames[k] <==> 10 * k <= i < 10 * k + 10
  {
    CategoriesInBlocks();
    CategoryNamesDistinct();
  }

  /** Every price is strictly positive. */
  lemma PricesPositive()
    ensures forall i :: 0 <= i < |Products| ==> Products[i].priceCents > 0
  {
    BlockSizes();
    var positive := (p: Product) => p.priceCents > 0;
    assert forall i :: 0 <= i < 10 ==> positive(FootwearProducts[i]);
    assert forall i :: 0 <= i < 10 ==> positive(ClothingProducts[i]);
    assert forall i :: 0 <= i < 10 ==> positive(AccessoriesProducts[i]);
    assert forall i :: 0 <= i < 10 ==> positive(HomeProducts[i]);
    assert forall i :: 0 <= i < 10 ==> positive(ElectronicsProducts[i]);
    AllOfBlocks(FootwearProducts, ClothingProducts, AccessoriesProducts, HomeProducts, ElectronicsProducts, positive);
  }

  /** What holds of every entry of five ten-entry blocks holds of every
      entry of their concatenation. */
  lemma AllOfBlocks<T>(f: seq<T>, l: seq<T>, a: seq<T>, h: seq<T>, e: seq<T>, good: T -> bool)
    requires |f| == |l| == |a| == |h| == |e| == 10
    requires forall i :: 0 <= i < 10 ==> good(f[i]) && good(l[i]) && good(a[i]) && good(h[i]) && good(e[i])
    ensures forall i :: 0 <= i < |f + l + a + h + e| ==> good((f + l + a + h + e)[i])
  {
    forall i | 0 <= i < |f + l + a + h + e| ensures good((f + l + a + h + e)[i]) {
      FiveBlocksAt(f, l, a, h, e, i);
    }
  }

  /** Each category name starts with a capital letter, so none of them is
      its own lower-case form. */
  lemma CategoryNamesCapitalised()
    ensures forall k :: 0 <= k < |CategoryNames| ==>
      |CategoryNames[k]| > 0 && IsUpperAscii(CategoryNames[k][0]) && ToLower(CategoryNames[k]) != CategoryNames[k]
  {
    forall k | 0 <= k < |CategoryNames|
      ensures ToLower(CategoryNames[k]) != CategoryNames[k]
    {
      ToLowerHasNoUpper(CategoryNames[k]);
      assert IsUpperAscii(CategoryNames[k][0]);
    }
  }

  /** The category names start with five different letters, so they stay
      distinct once lower-cased. */
  lemma CategoryNamesLowerDistinct()
    ensures forall i, j :: 0 <= i < j < |CategoryNames| ==> ToLower(CategoryNames[i]) != ToLower(CategoryNames[j])
  {
    forall i, j | 0 <= i < j < |CategoryNames|
      ensures ToLower(CategoryNames[i]) != ToLower(CategoryNames[j])
    {
      var x, y := CategoryNames[i], CategoryNames[j];
      assert x[0] != y[0] && IsUpperAscii(x[0]) && IsUpperAscii(y[0]);
      assert ToLower(x)[0] == LowerChar(x[0]) && ToLower(y)[0] == LowerChar(y[0]);
    }
  }
}
