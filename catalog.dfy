/**
 * The static catalog of the storefront and what the pages derive from it: the
 * in-stock list, the list of categories and the items grouped by category.
 */
module Catalog {
  import opened Wrappers
  import opened Seqs

  /** The unit a catalog item is priced in, or a quantity is counted in. */
  datatype Unit = Kg | G | Piece

  /** A sellable product; `price` is per kg or per piece. */
  datatype VegetableItem = VegetableItem(
    id: string,
    name: string,
    price: real,
    image: string,
    category: string,
    unit: Unit,
    inStock: bool,
    description: Option<string>,
    options: Option<seq<Unit>>)

  predicate IsInStock(v: VegetableItem) {
    v.inStock
  }

  /** The test `veg.category === c` as a function value. */
  function InCategory(c: string): VegetableItem -> bool {
    (v: VegetableItem) => v.category == c
  }

  /** `availableVegetables`: the catalog without its out-of-stock items. */
  function AvailableVegetables(items: seq<VegetableItem>): (r: seq<VegetableItem>)
    ensures forall i :: 0 <= i < |r| ==> r[i].inStock
    ensures forall v :: v in r <==> v in items && v.inStock
  {
    FilterMembers(items, IsInStock);
    Filter(items, IsInStock)
  }

  /**
   * `categories`: the distinct categories of `items`, each once, in the order
   * in which they first occur (the iteration order of a JavaScript Set).
   */
  function Categories(items: seq<VegetableItem>): (r: seq<string>)
    ensures NoDuplicates(r)
    ensures forall i :: 0 <= i < |items| ==> items[i].category in r
  {
    if items == [] then []
    else
      var pre := items[..|items| - 1];
      var rest := Categories(pre);
      var c := items[|items| - 1].category;
      if c in rest then rest else rest + [c]
  }

  /** Every listed category is the category of some catalog item. */
  lemma {:induction false} CategoryHasItem(items: seq<VegetableItem>, c: string)
    requires c in Categories(items)
    ensures exists i :: 0 <= i < |items| && items[i].category == c
  {
    var pre := items[..|items| - 1];
    if c in Categories(pre) {
      CategoryHasItem(pre, c);
      var i :| 0 <= i < |pre| && pre[i].category == c;
      assert items[i] == pre[i];
    } else {
      assert items[|items| - 1].category == c;
    }
  }

  /** The categories of a prefix of the catalog are a prefix of its categories: first-occurrence order. */
  lemma {:induction false} CategoriesOfPrefix(items: seq<VegetableItem>, n: nat)
    requires n <= |items|
    ensures Categories(items[..n]) <= Categories(items)
  {
    if n < |items| {
      var pre := items[..|items| - 1];
      assert pre[..n] == items[..n];
      CategoriesOfPrefix(pre, n);
    } else {
      assert items[..n] == items;
    }
  }

  /** `m` groups `items` by category: one non-empty bucket per category, each in catalog order. */
  ghost predicate GroupedBy(m: map<string, seq<VegetableItem>>, items: seq<VegetableItem>) {
    && m.Keys == (set c | c in Categories(items))
    && (forall c :: c in m ==> m[c] == Filter(items, InCategory(c)))
    && (forall c :: c in m ==> m[c] != [])
  }

  /** Pushing one more item into its bucket (creating the bucket if needed) keeps the grouping. */
  lemma GroupedByPush(m: map<string, seq<VegetableItem>>, pre: seq<VegetableItem>, x: VegetableItem)
    requires GroupedBy(m, pre)
    ensures GroupedBy(m[x.category := (if x.category in m then m[x.category] else []) + [x]], pre + [x])
  {
    var c0 := x.category;
    var m' := m[c0 := (if c0 in m then m[c0] else []) + [x]];
    PushedKeys(pre, x);
    forall c | c in m'
      ensures m'[c] == Filter(pre + [x], InCategory(c)) && m'[c] != []
    {
      PushedBucket(m, pre, x, c);
    }
  }

  /** The categories after one more item: the old ones plus the item's own. */
  lemma PushedKeys(pre: seq<VegetableItem>, x: VegetableItem)
    ensures (set c | c in Categories(pre + [x])) == (set c | c in Categories(pre)) + {x.category}
  {
    var items := pre + [x];
    assert items[..|items| - 1] == pre;
    var cs := Categories(pre);
    assert Categories(items) == if x.category in cs then cs else cs + [x.category];
  }

  /** One bucket after the push: the catalog-order filter of the extended item list. */
  lemma PushedBucket(m: map<string, seq<VegetableItem>>, pre: seq<VegetableItem>, x: VegetableItem, c: string)
    requires GroupedBy(m, pre)
    requires c == x.category || c in m
    ensures (if c == x.category then (if c in m then m[c] else []) + [x] else m[c]) == Filter(pre + [x], InCategory(c))
  {
    FilterAppend(pre, [x], InCategory(c));
    if c == x.category {
      assert Filter([x], InCategory(c)) == [x];
      if c !in m {
        var cs := Categories(pre);
        forall i | 0 <= i < |pre| ensures !InCategory(c)(pre[i]) {
          assert pre[i].category in cs;
        }
        FilterDropsAll(pre, InCategory(c));
      }
    } else {
      assert Filter([x], InCategory(c)) == [];
    }
  }

  /**
   * `categorizeVegetables`: a dictionary from each category to its items,
   * built by one pass that creates a bucket on first sight and pushes into it.
   */
  method CategorizeVegetables(items: seq<VegetableItem>) returns (categorized: map<string, seq<VegetableItem>>)
    ensures categorized.Keys == set c | c in Categories(items)
    ensures forall c :: c in categorized ==> categorized[c] == Filter(items, InCategory(c))
    ensures forall c :: c in categorized ==> categorized[c] != []
  {
    categorized := map[];
    for n := 0 to |items|
      invariant GroupedBy(categorized, items[..n])
    {
      var item := items[n];
      ghost var before := categorized;
      if item.category !in categorized {
        categorized := categorized[item.category := []];
      }
      categorized := categorized[item.category := categorized[item.category] + [item]];
      assert categorized == before[item.category := (if item.category in before then before[item.category] else []) + [item]];
      GroupedByPush(before, items[..n], item);
      assert items[..n + 1] == items[..n] + [item];
    }
    assert items[..|items|] == items;
  }

  /** The total size of the buckets named by `cs`. */
  function BucketSizes(items: seq<VegetableItem>, cs: seq<string>): nat {
    if cs == [] then 0
    else BucketSizes(items, cs[..|cs| - 1]) + |Filter(items, InCategory(cs[|cs| - 1]))|
  }

  lemma {:induction false} BucketSizesSnoc(pre: seq<VegetableItem>, x: VegetableItem, cs: seq<string>)
    requires NoDuplicates(cs)
    ensures BucketSizes(pre + [x], cs) == BucketSizes(pre, cs) + (if x.category in cs then 1 else 0)
  {
    if cs != [] {
      var init, d := cs[..|cs| - 1], cs[|cs| - 1];
      assert cs == init + [d];
      BucketSizesSnoc(pre, x, init);
      FilterAppend(pre, [x], InCategory(d));
      assert Filter([x], InCategory(d)) == if x.category == d then [x] else [];
      assert x.category in cs <==> x.category in init || x.category == d;
      assert d !in init;
    }
  }

  /** Every item lands in exactly one bucket: the bucket sizes add up to the catalog size. */
  lemma {:induction false} BucketSizesSum(items: seq<VegetableItem>)
    ensures BucketSizes(items, Categories(items)) == |items|
  {
    if items != [] {
      var pre, x := items[..|items| - 1], items[|items| - 1];
      assert items == pre + [x];
      var cs := Categories(pre);
      BucketSizesSum(pre);
      BucketSizesSnoc(pre, x, cs);
      if x.category !in cs {
        assert Categories(items) == cs + [x.category];
        assert (cs + [x.category])[..|cs|] == cs;
        forall i | 0 <= i < |pre| ensures !InCategory(x.category)(pre[i]) {
          assert pre[i].category in cs;
        }
        FilterDropsAll(pre, InCategory(x.category));
        FilterAppend(pre, [x], InCategory(x.category));
      }
    }
  }

  /** The shipped catalog has 42 items, all priced per kg. */
  lemma ShippedCatalogFacts()
    ensures |Vegetables| == 42
    ensures forall i :: 0 <= i < |Vegetables| ==> Vegetables[i].unit == Kg
  {
  }

  /** `vegetables`: the catalog as shipped. */
  const Vegetables: seq<VegetableItem> :=
    [
      VegetableItem("001", "ટામેટાં", 30.0,
        "https://images.unsplash.com/photo-1592924357177-827de628f228?q=80&w=500&auto=format&fit=crop",
        "Everyday Vegetables", Kg, true, Some("Fresh, ripe tomatoes."), Some([Kg, G])),
      VegetableItem("002", "ફુલાવર", 50.0,
        "https://images.unsplash.com/photo-1613743795529-27be2a604230?q=80&w=500&auto=format&fit=crop",
        "Everyday Vegetables", Kg, true, Some("Fresh, quality cauliflower."), Some([Kg, G])),
      VegetableItem("003", "દેશી કોબીજ", 30.0,
        "https://images.unsplash.com/photo-1603049830228-f2e7ade9c2ad?q=80&w=500&auto=format&fit=crop",
        "Everyday Vegetables", Kg, true, Some("Fresh, quality cabbage."), Some([Kg, G])),
      VegetableItem("004", "ભીંડા", 90.0,
        "https://images.unsplash.com/photo-1644677999499-dc75507fc34f?q=80&w=500&auto=format&fit=crop",
        "Seasonal Vegetables", Kg, true, Some("Fresh, quality okra."), Some([Kg, G])),
      VegetableItem("005", "વટાણા", 50.0,
        "https://images.unsplash.com/photo-1567375921130-944a280eac2d?q=80&w=500&auto=format&fit=crop",
        "Legumes", Kg, true, Some("Fresh, quality peas."), Some([Kg, G])),
      VegetableItem("006", "કાચા કેળા", 50.0,
        "https://images.unsplash.com/photo-1543218650-43b2bf9441db?q=80&w=500&auto=format&fit=crop",
        "Fruits", Kg, true, Some("Fresh, raw bananas."), Some([Kg, G])),
      VegetableItem("007", "દૂધી", 50.0,
        "https://images.unsplash.com/photo-1594282486552-05a6f9a1e7b7?q=80&w=500&auto=format&fit=crop",
        "Gourds", Kg, true, Some("Fresh, quality bottle gourd."), Some([Kg, G])),
      VegetableItem("008", "દેશી દૂધી", 80.0,
        "https://images.unsplash.com/photo-1622206151226-18ca2c9ab4a1?q=80&w=500&auto=format&fit=crop",
        "Gourds", Kg, true, Some("Fresh, quality native bottle gourd."), Some([Kg, G])),
      VegetableItem("009", "તુરીયું", 80.0,
        "https://images.unsplash.com/photo-1625435426329-421c8b304e07?q=80&w=500&auto=format&fit=crop",
        "Gourds", Kg, true, Some("Fresh, quality ridge gourd."), Some([Kg, G])),
      VegetableItem("010", "કારેલા", 80.0,
        "https://images.unsplash.com/photo-1603207040778-2661d5e9da05?q=80&w=500&auto=format&fit=crop",
        "Gourds", Kg, true, Some("Fresh, quality bitter gourd."), Some([Kg, G])),
      VegetableItem("011", "ટિંડોળા", 120.0,
        "https://images.unsplash.com/photo-1608442430688-a5a625fbcdd2?q=80&w=500&auto=format&fit=crop",
        "Gourds", Kg, true, Some("Fresh, quality ivy gourd."), Some([Kg, G])),
      VegetableItem("012", "ચોળી", 130.0,
        "https://images.unsplash.com/photo-1641932361495-553eb6149dda?q=80&w=500&auto=format&fit=crop",
        "Legumes", Kg, true, Some("Fresh, quality black-eyed peas."), Some([Kg, G])),
      VegetableItem("013", "પાપડી", 160.0,
        "https://images.unsplash.com/photo-1515192767919-6c18839c53b4?q=80&w=500&auto=format&fit=crop",
        "Legumes", Kg, true, Some("Fresh, quality flat beans."), Some([Kg, G])),
      VegetableItem("014", "તુવેર", 130.0,
        "https://images.unsplash.com/photo-1612257999868-02378ebfd8ff?q=80&w=500&auto=format&fit=crop",
        "Legumes", Kg, true, Some("Fresh, quality pigeon peas."), Some([Kg, G])),
      VegetableItem("015", "દેશી કાકડી", 80.0,
        "https://images.unsplash.com/photo-1604541528847-eab72677c449?q=80&w=500&auto=format&fit=crop",
        "Everyday Vegetables", Kg, true, Some("Fresh, quality native cucumber."), Some([Kg, G])),
      VegetableItem("016", "ગવાર", 120.0,
        "https://images.unsplash.com/photo-1567356260295-96e9aee486de?q=80&w=500&auto=format&fit=crop",
        "Legumes", Kg, true, Some("Fresh, quality cluster beans."), Some([Kg, G])),
      VegetableItem("017", "મેથી", 40.0,
        "https://images.unsplash.com/photo-1631119462025-9a839057b1a5?q=80&w=500&auto=format&fit=crop",
        "Leafy Greens", Kg, true, Some("Fresh, quality fenugreek leaves."), Some([Kg, G])),
      VegetableItem("018", "ચોલિયા ની ભાજી", 80.0,
        "https://images.unsplash.com/photo-1576045057995-568f588f82fb?q=80&w=500&auto=format&fit=crop",
        "Leafy Greens", Kg, true, Some("Fresh, quality amaranth leaves."), Some([Kg, G])),
      VegetableItem("019", "મકાઈ", 40.0,
        "https://images.unsplash.com/photo-1551754655-cd27e38d2076?q=80&w=500&auto=format&fit=crop",
        "Everyday Vegetables", Kg, true, Some("Fresh, quality corn."), Some([Kg, G])),
      VegetableItem("020", "લીંબુ", 80.0,
        "https://images.unsplash.com/photo-1590502593747-42a996133562?q=80&w=500&auto=format&fit=crop",
        "Citrus", Kg, true, Some("Fresh, quality lemons."), Some([Kg, G])),
      VegetableItem("021", "કેપ્સિકમ", 60.0,
        "https://images.unsplash.com/photo-1563565375-f3fdfdbefa83?q=80&w=500&auto=format&fit=crop",
        "Everyday Vegetables", Kg, true, Some("Fresh, quality bell peppers."), Some([Kg, G])),
      VegetableItem("022", "કોથમીર", 60.0,
        "https://images.unsplash.com/photo-1615485925547-5166bbfea8e5?q=80&w=500&auto=format&fit=crop",
        "Herbs", Kg, true, Some("Fresh, quality coriander."), Some([Kg, G])),
      VegetableItem("023", "આમળા", 80.0,
        "https://images.unsplash.com/photo-1610569244414-5e9752781cc9?q=80&w=500&auto=format&fit=crop",
        "Seasonal Vegetables", Kg, true, Some("Fresh, quality Indian gooseberry."), Some([Kg, G])),
      VegetableItem("024", "ફણસી", 0.0,
        "https://images.unsplash.com/photo-1581375234833-a22344f2a5fe?q=80&w=500&auto=format&fit=crop",
        "Seasonal Vegetables", Kg, false, Some("Fresh, quality jackfruit."), Some([Kg, G])),
      VegetableItem("025", "લાલ મોગરી", 0.0,
        "https://images.unsplash.com/photo-1576460283274-ea19109bed33?q=80&w=500&auto=format&fit=crop",
        "Everyday Vegetables", Kg, false, Some("Fresh, quality red radish."), Some([Kg, G])),
      VegetableItem("026", "લીલી મોગરી", 0.0,
        "https://images.unsplash.com/photo-1553175005-a1129d5c188c?q=80&w=500&auto=format&fit=crop",
        "Everyday Vegetables", Kg, false, Some("Fresh, quality green radish."), Some([Kg, G])),
      VegetableItem("027", "રેગ્યુલર મરચા", 70.0,
        "https://images.unsplash.com/photo-1588252303782-cb80119abd6d?q=80&w=500&auto=format&fit=crop",
        "Spices", Kg, true, Some("Fresh, quality regular chilies."), Some([Kg, G])),
      VegetableItem("028", "મોરા મરચા", 100.0,
        "https://images.unsplash.com/photo-1588280183581-5d5436084674?q=80&w=500&auto=format&fit=crop",
        "Spices", Kg, true, Some("Fresh, quality Mora chilies."), Some([Kg, G])),
      VegetableItem("029", "લાલ મરચા", 120.0,
        "https://images.unsplash.com/photo-1589466725882-f47191467734?q=80&w=500&auto=format&fit=crop",
        "Spices", Kg, true, Some("Fresh, quality red chilies."), Some([Kg, G])),
      VegetableItem("030", "લવીંગ્યા મરચા", 70.0,
        "https://images.unsplash.com/photo-1599666632698-234e3966c5ab?q=80&w=500&auto=format&fit=crop",
        "Spices", Kg, true, Some("Fresh, quality clove chilies."), Some([Kg, G])),
      VegetableItem("031", "કાચી કેરી", 180.0,
        "https://images.unsplash.com/photo-1601493700590-4593b32c3ced?q=80&w=500&auto=format&fit=crop",
        "Fruits", Kg, true, Some("Fresh, raw mangoes."), Some([Kg, G])),
      VegetableItem("032", "પરવર", 0.0,
        "https://images.unsplash.com/photo-1587334207526-9554fa413d69?q=80&w=500&auto=format&fit=crop",
        "Seasonal Vegetables", Kg, false, Some("Fresh, quality pointed gourd."), Some([Kg, G])),
      VegetableItem("033", "ફુદિનો", 0.0,
        "https://images.unsplash.com/photo-1556116358-c3421fa9db7a?q=80&w=500&auto=format&fit=crop",
        "Herbs", Kg, false, Some("Fresh, quality mint."), Some([Kg, G])),
      VegetableItem("034", "મીઠો લીંમડો", 0.0,
        "https://images.unsplash.com/photo-1563417595724-2cd8c6614cdb?q=80&w=500&auto=format&fit=crop",
        "Herbs", Kg, false, Some("Fresh, quality curry leaves."), Some([Kg, G])),
      VegetableItem("035", "બ્રોકલી", 0.0,
        "https://images.unsplash.com/photo-1459411621453-7b03977f4bfc?q=80&w=500&auto=format&fit=crop",
        "Seasonal Vegetables", Kg, false, Some("Fresh, quality broccoli."), Some([Kg, G])),
      VegetableItem("036", "જુગની", 0.0,
        "https://images.unsplash.com/photo-1599464214847-6f7f3c260a7e?q=80&w=500&auto=format&fit=crop",
        "Legumes", Kg, false, Some("Fresh, quality Jugni beans."), Some([Kg, G])),
      VegetableItem("037", "બેબીકોન", 0.0,
        "https://images.unsplash.com/photo-1596103019639-48f90717b720?q=80&w=500&auto=format&fit=crop",
        "Seasonal Vegetables", Kg, false, Some("Fresh, quality baby corn."), Some([Kg, G])),
      VegetableItem("038", "બેસિલ પત્તા", 0.0,
        "https://images.unsplash.com/photo-1609981134793-75bfa7e4c2d3?q=80&w=500&auto=format&fit=crop",
        "Herbs", Kg, false, Some("Fresh, quality basil leaves."), Some([Kg, G])),
      VegetableItem("039", "લાલ કેપ્સિકમ", 0.0,
        "https://images.unsplash.com/photo-1608030609295-945969c3cd11?q=80&w=500&auto=format&fit=crop",
        "Everyday Vegetables", Kg, false, Some("Fresh, quality red bell peppers."), Some([Kg, G])),
      VegetableItem("040", "પીળું કેપ્સિકમ", 0.0,
        "https://images.unsplash.com/photo-1618512496518-b7b7bf67d900?q=80&w=500&auto=format&fit=crop",
        "Everyday Vegetables", Kg, false, Some("Fresh, quality yellow bell peppers."), Some([Kg, G])),
      VegetableItem("041", "લીલી ચા", 0.0,
        "https://images.unsplash.com/photo-1582793988951-9aed5f8eac6d?q=80&w=500&auto=format&fit=crop",
        "Herbs", Kg, false, Some("Fresh, quality green tea leaves."), Some([Kg, G])),
      VegetableItem("042", "સફરજન", 0.0,
        "https://images.unsplash.com/photo-1570913149827-d2ac84ab3f9a?q=80&w=500&auto=format&fit=crop",
        "Fruits", Kg, false, Some("Fresh, quality apples."), Some([Kg, G]))
    ]
}
