/** `map_result`: one search result flattened into a single-level record. */
module Flatten {
  import opened Wrappers
  import opened Json

  /** `seller.seller_reputation.transactions.ratings` */
  datatype Ratings = Ratings(negative: Value, neutral: Value, positive: Value)

  /** `seller.seller_reputation.transactions` */
  datatype Transactions = Transactions(canceled: Value, completed: Value, total: Value, ratings: Ratings)

  /** `seller.seller_reputation` */
  datatype Reputation = Reputation(levelId: Value, powerSellerStatus: Value, transactions: Transactions)

  /** `seller` */
  datatype Seller = Seller(
    id: Value, nickname: Value, carDealer: Value, realEstateAgency: Value,
    registrationDate: Value, carDealerLogo: Value, permalink: Value,
    reputation: Reputation)

  /** `shipping` */
  datatype Shipping = Shipping(
    storePickUp: Value, freeShipping: Value, logisticType: Value, mode: Value,
    tags: Value, benefits: Value, promise: Value)

  /** `address` */
  datatype Address = Address(stateId: Value, stateName: Value, cityId: Value, cityName: Value)

  /** One entry of `attributes`. */
  datatype Attribute = Attribute(id: Value, valueId: Value, valueName: Value)

  /** One element of a search response's `results`: the fields `map_result` reads. */
  datatype Item = Item(
    id: Value, title: Value, condition: Value, listingTypeId: Value, permalink: Value,
    siteId: Value, categoryId: Value, domainId: Value, thumbnail: Value, currencyId: Value,
    price: Value, originalPrice: Value, salePrice: Value, soldQuantity: Value,
    availableQuantity: Value, officialStoreId: Value, useThumbnailId: Value,
    acceptsMercadopago: Value, tags: Value,
    shipping: Shipping, seller: Seller, address: Address,
    attributes: seq<Attribute>)

  const Brand: Value := Str("BRAND")
  const Model: Value := Str("MODEL")
  const PackageLength: Value := Str("PACKAGE_LENGTH")
  const PackageWeight: Value := Str("PACKAGE_WEIGHT")

  /** `list(filter(lambda x: x['id'] == id, attributes))` */
  function WithId(attributes: seq<Attribute>, id: Value): (r: seq<Attribute>)
    ensures |r| <= |attributes|
    ensures forall i :: 0 <= i < |r| ==> r[i].id == id && r[i] in attributes
    ensures forall i :: 0 <= i < |attributes| && attributes[i].id == id ==> attributes[i] in r
  {
    if attributes == [] then []
    else
      var rest := WithId(attributes[1..], id);
      assert forall i :: 1 <= i < |attributes| ==> attributes[i] == attributes[1..][i - 1];
      if attributes[0].id == id then [attributes[0]] + rest else rest
  }

  /** The first attribute whose `id` is `id`, or `None` if there is none. */
  function FirstWithId(attributes: seq<Attribute>, id: Value): (r: Option<Attribute>)
    ensures r.None? <==> forall i :: 0 <= i < |attributes| ==> attributes[i].id != id
    ensures r.Some? ==> exists i :: 0 <= i < |attributes| && attributes[i] == r.value
                           && attributes[i].id == id
                           && forall j :: 0 <= j < i ==> attributes[j].id != id
  {
    if attributes == [] then None
    else if attributes[0].id == id then Some(attributes[0])
    else
      var r := FirstWithId(attributes[1..], id);
      assert r.Some? ==> exists i :: 1 <= i < |attributes| && attributes[i] == r.value
                           && attributes[i].id == id
                           && forall j :: 0 <= j < i ==> attributes[j].id != id by {
        if r.Some? {
          var i :| 0 <= i < |attributes[1..]| && attributes[1..][i] == r.value
                   && attributes[1..][i].id == id
                   && forall j :: 0 <= j < i ==> attributes[1..][j].id != id;
          assert attributes[i + 1] == r.value;
          forall j | 0 <= j < i + 1 ensures attributes[j].id != id {
            if j > 0 { assert attributes[j] == attributes[1..][j - 1]; }
          }
        }
      }
      r
  }

  /** `filter(...)[0] if filter(...) else ...` picks what `FirstWithId` finds. */
  lemma {:induction false} WithIdFirst(attributes: seq<Attribute>, id: Value)
    ensures |WithId(attributes, id)| > 0 <==> FirstWithId(attributes, id).Some?
    ensures |WithId(attributes, id)| > 0 ==> WithId(attributes, id)[0] == FirstWithId(attributes, id).value
  {
    if attributes != [] && attributes[0].id != id {
      WithIdFirst(attributes[1..], id);
    }
  }

  /** `value_id` of the first filtered attribute, Python's `None` when nothing matched. */
  function ValueIdOf(matches: seq<Attribute>): (v: Value)
  {
    if |matches| > 0 then matches[0].valueId else Null
  }

  /** `value_name` of the first filtered attribute, Python's `None` when nothing matched. */
  function ValueNameOf(matches: seq<Attribute>): (v: Value)
  {
    if |matches| > 0 then matches[0].valueName else Null
  }

  // The keys of a flattened record, in the order the dict literal writes them, a few
  // at a time: a set of string literals is only cheap to reason about when small.

  const ListingHeadKeys: set<string> := {
    "id", "title", "condition", "listing_type_id", "permalink", "site_id"
  }

  const ListingMiddleKeys: set<string> := {
    "category_id", "domain_id", "thumbnail", "currency_id", "price", "original_price",
    "sale_price"
  }

  const ListingTailKeys: set<string> := {
    "sold_quantity", "available_quantity", "official_store_id", "use_thumbnail_id",
    "accepts_mercadopago", "tags"
  }

  /** The keys copied from the listing's own top-level fields. */
  const ListingKeys: set<string> := ListingHeadKeys + (ListingMiddleKeys + ListingTailKeys)

  /** The keys copied from `shipping`. */
  const ShippingKeys: set<string> := {
    "shipping_store_pick_up", "shipping_free_shipping", "shipping_logistic_type",
    "shipping_mode", "shipping_tags", "shipping_benefits", "shipping_promise"
  }

  const SellerOwnKeys: set<string> := {
    "seller_id", "seller_nickname", "seller_car_dealer", "seller_real_estate_agency",
    "seller_registration_date", "seller_car_dealer_logo", "seller_permalink"
  }

  const ReputationKeys: set<string> := {
    "seller_level_id", "seller_power_seller_status",
    "seller_transactions_canceled", "seller_transactions_completed",
    "seller_rating_negative", "seller_rating_neutral", "seller_rating_positive",
    "seller_transactions_total"
  }

  /** The keys copied from `seller` and the reputation, transactions and ratings inside it. */
  const SellerKeys: set<string> := SellerOwnKeys + ReputationKeys

  /** The keys copied from `address`. */
  const AddressKeys: set<string> := {
    "address_state_id", "address_state_name", "address_city_id", "address_city_name"
  }

  const BrandKeys: set<string> := {"brand_id", "brand_name"}
  const ModelKeys: set<string> := {"model_id", "model_name"}
  const LengthKeys: set<string> := {"package_length_unit", "package_length_number"}
  const WeightKeys: set<string> := {"package_weight_number"}

  /** The keys derived from `attributes`. */
  const AttributeKeys: set<string> := BrandKeys + (ModelKeys + (LengthKeys + WeightKeys))

  /** The keys of every flattened record. */
  const FlatKeys: set<string> := ListingKeys + (ShippingKeys + (SellerKeys + (AddressKeys + AttributeKeys)))

  /** Absent from every flattened record: the source's dict literal writes
      `package_weight_number` twice and never a unit key for the weight. */
  const WeightUnitKey: string := "package_weight_unit"

  // The dict literal of `map_result`, a few lines at a time.

  function ListingHead(item: Item): (r: Record)
    ensures r.Keys == ListingHeadKeys
  {
    map[
      "id" := item.id,
      "title" := item.title,
      "condition" := item.condition,
      "listing_type_id" := item.listingTypeId,
      "permalink" := item.permalink,
      "site_id" := item.siteId
    ]
  }

  function ListingMiddle(item: Item): (r: Record)
    ensures r.Keys == ListingMiddleKeys
  {
    map[
      "category_id" := item.categoryId,
      "domain_id" := item.domainId,
      "thumbnail" := item.thumbnail,
      "currency_id" := item.currencyId,
      "price" := item.price,
      "original_price" := item.originalPrice,
      "sale_price" := item.salePrice
    ]
  }

  function ListingTail(item: Item): (r: Record)
    ensures r.Keys == ListingTailKeys
  {
    map[
      "sold_quantity" := item.soldQuantity,
      "available_quantity" := item.availableQuantity,
      "official_store_id" := item.officialStoreId,
      "use_thumbnail_id" := item.useThumbnailId,
      "accepts_mercadopago" := item.acceptsMercadopago,
      "tags" := item.tags
    ]
  }

  function ListingFields(item: Item): (r: Record)
    ensures r.Keys == ListingKeys
  {
    ListingHead(item) + (ListingMiddle(item) + ListingTail(item))
  }

  function ShippingFields(shipping: Shipping): (r: Record)
    ensures r.Keys == ShippingKeys
  {
    map[
      "shipping_store_pick_up" := shipping.storePickUp,
      "shipping_free_shipping" := shipping.freeShipping,
      "shipping_logistic_type" := shipping.logisticType,
      "shipping_mode" := shipping.mode,
      "shipping_tags" := shipping.tags,
      "shipping_benefits" := shipping.benefits,
      "shipping_promise" := shipping.promise
    ]
  }

  function SellerOwnFields(seller: Seller): (r: Record)
    ensures r.Keys == SellerOwnKeys
  {
    map[
      "seller_id" := seller.id,
      "seller_nickname" := seller.nickname,
      "seller_car_dealer" := seller.carDealer,
      "seller_real_estate_agency" := seller.realEstateAgency,
      "seller_registration_date" := seller.registrationDate,
      "seller_car_dealer_logo" := seller.carDealerLogo,
      "seller_permalink" := seller.permalink
    ]
  }

  function ReputationFields(reputation: Reputation): (r: Record)
    ensures r.Keys == ReputationKeys
  {
    map[
      "seller_level_id" := reputation.levelId,
      "seller_power_seller_status" := reputation.powerSellerStatus,
      "seller_transactions_canceled" := reputation.transactions.canceled,
      "seller_transactions_completed" := reputation.transactions.completed,
      "seller_rating_negative" := reputation.transactions.ratings.negative,
      "seller_rating_neutral" := reputation.transactions.ratings.neutral,
      "seller_rating_positive" := reputation.transactions.ratings.positive,
      "seller_transactions_total" := reputation.transactions.total
    ]
  }

  function SellerFields(seller: Seller): (r: Record)
    ensures r.Keys == SellerKeys
  {
    SellerOwnFields(seller) + ReputationFields(seller.reputation)
  }

  function AddressFields(address: Address): (r: Record)
    ensures r.Keys == AddressKeys
  {
    map[
      "address_state_id" := address.stateId,
      "address_state_name" := address.stateName,
      "address_city_id" := address.cityId,
      "address_city_name" := address.cityName
    ]
  }

  /** `r[idKey]` and `r[nameKey]` are the `value_id` and `value_name` of the first
      attribute whose `id` is `id`, and both `None` when there is no such attribute. */
  predicate FirstMatchPair(r: Record, attributes: seq<Attribute>, id: Value, idKey: string, nameKey: string)
  {
    var a := FirstWithId(attributes, id);
    && idKey in r && r[idKey] == (if a.Some? then a.value.valueId else Null)
    && nameKey in r && r[nameKey] == (if a.Some? then a.value.valueName else Null)
  }

  /** `r[nameKey]` is the `value_name` of the first attribute whose `id` is `id`, and
      `None` when there is no such attribute. */
  predicate FirstMatchName(r: Record, attributes: seq<Attribute>, id: Value, nameKey: string)
  {
    var a := FirstWithId(attributes, id);
    nameKey in r && r[nameKey] == (if a.Some? then a.value.valueName else Null)
  }

  /** The attribute-derived entries of a flattened record, as `map_result` promises them. */
  predicate AttributeEntries(r: Record, attributes: seq<Attribute>)
  {
    && FirstMatchPair(r, attributes, Brand, "brand_id", "brand_name")
    && FirstMatchPair(r, attributes, Model, "model_id", "model_name")
    && FirstMatchPair(r, attributes, PackageLength, "package_length_unit", "package_length_number")
    && FirstMatchName(r, attributes, PackageWeight, "package_weight_number")
  }

  /** `brand_id` and `brand_name`. */
  function BrandFields(attributes: seq<Attribute>): (r: Record)
    ensures r.Keys == BrandKeys
    ensures FirstMatchPair(r, attributes, Brand, "brand_id", "brand_name")
  {
    WithIdFirst(attributes, Brand);
    var brandFilter := WithId(attributes, Brand);
    map["brand_id" := ValueIdOf(brandFilter), "brand_name" := ValueNameOf(brandFilter)]
  }

  /** `model_id` and `model_name`. */
  function ModelFields(attributes: seq<Attribute>): (r: Record)
    ensures r.Keys == ModelKeys
    ensures FirstMatchPair(r, attributes, Model, "model_id", "model_name")
  {
    WithIdFirst(attributes, Model);
    var modelFilter := WithId(attributes, Model);
    map["model_id" := ValueIdOf(modelFilter), "model_name" := ValueNameOf(modelFilter)]
  }

  /** `package_length_unit` and `package_length_number`. */
  function LengthFields(attributes: seq<Attribute>): (r: Record)
    ensures r.Keys == LengthKeys
    ensures FirstMatchPair(r, attributes, PackageLength, "package_length_unit", "package_length_number")
  {
    WithIdFirst(attributes, PackageLength);
    var lengthFilter := WithId(attributes, PackageLength);
    map[
      "package_length_unit" := ValueIdOf(lengthFilter),
      "package_length_number" := ValueNameOf(lengthFilter)
    ]
  }

  /** `package_weight_number`. The display repeats the maplet as the dict literal does;
      as in Python, the last occurrence is kept, and no other key results. */
  function WeightFields(attributes: seq<Attribute>): (r: Record)
    ensures r.Keys == WeightKeys
    ensures FirstMatchName(r, attributes, PackageWeight, "package_weight_number")
  {
    WithIdFirst(attributes, PackageWeight);
    var weightFilter := WithId(attributes, PackageWeight);
    map[
      "package_weight_number" := ValueNameOf(weightFilter),
      "package_weight_number" := ValueNameOf(weightFilter)
    ]
  }

  function AttributeFields(attributes: seq<Attribute>): (r: Record)
    ensures r.Keys == AttributeKeys
  {
    BrandFields(attributes) + (ModelFields(attributes) + (LengthFields(attributes) + WeightFields(attributes)))
  }

  /** `map_result(result)`: the same key set whatever the listing. */
  function MapResult(item: Item): (r: Record)
    ensures r.Keys == FlatKeys
  {
    ListingFields(item) + (ShippingFields(item.shipping) + (SellerFields(item.seller)
      + (AddressFields(item.address) + AttributeFields(item.attributes))))
  }

  // Which part of the listing a flattened key comes from, told by its prefix.

  predicate StartsWith(key: string, prefix: string)
  {
    |prefix| <= |key| && key[..|prefix|] == prefix
  }

  /** The part of the listing a flattened key comes from. */
  datatype Origin = Listing | FromShipping | FromSeller | FromAddress | FromAttributes

  /** A device for the proofs below, not part of `map_result`: it sorts a key by its
      first two letters alone. The groups' prefixes already differ in those letters,
      and no key of the listing's own fields begins with any of the pairs, so a key's
      group can be told from two characters instead of comparing whole strings. */
  function OriginOf(key: string): (o: Origin)
  {
    if |key| < 2 then Listing
    else if key[0] == 's' && key[1] == 'h' then FromShipping
    else if key[0] == 's' && key[1] == 'e' then FromSeller
    else if key[0] == 'a' && key[1] == 'd' then FromAddress
    else if key[0] == 'b' && key[1] == 'r' then FromAttributes
    else if key[0] == 'm' && key[1] == 'o' then FromAttributes
    else if key[0] == 'p' && key[1] == 'a' then FromAttributes
    else Listing
  }

  /** Every key of `keys` comes from one of `origins`. */
  predicate From(keys: set<string>, origins: set<Origin>)
  {
    forall k :: k in keys ==> OriginOf(k) in origins
  }

  lemma FromUnion(a: set<string>, oa: set<Origin>, b: set<string>, ob: set<Origin>)
    requires From(a, oa) && From(b, ob)
    ensures From(a + b, oa + ob)
  {
  }

  lemma FromDisjoint(a: set<string>, oa: set<Origin>, b: set<string>, ob: set<Origin>)
    requires From(a, oa) && From(b, ob) && oa !! ob
    ensures a !! b
  {
    forall k | k in a ensures k !in b {
      assert OriginOf(k) in oa;
    }
  }

  // Each chunk of keys checked literal by literal; the groups are put together below
  // by lemmas over arbitrary sets, which never look at the literals again.

  lemma ListingHeadOrigin() ensures From(ListingHeadKeys, {Listing}) {}
  lemma ListingMiddleOrigin() ensures From(ListingMiddleKeys, {Listing}) {}
  lemma ListingTailOrigin() ensures From(ListingTailKeys, {Listing}) {}
  lemma ShippingOrigin() ensures From(ShippingKeys, {FromShipping}) {}
  lemma SellerOwnOrigin() ensures From(SellerOwnKeys, {FromSeller}) {}
  lemma ReputationOrigin() ensures From(ReputationKeys, {FromSeller}) {}
  lemma AddressOrigin() ensures From(AddressKeys, {FromAddress}) {}
  lemma BrandOrigin() ensures From(BrandKeys, {FromAttributes}) {}
  lemma ModelOrigin() ensures From(ModelKeys, {FromAttributes}) {}
  lemma LengthOrigin() ensures From(LengthKeys, {FromAttributes}) {}
  lemma WeightOrigin() ensures From(WeightKeys, {FromAttributes}) {}

  /** The fields of `shipping` are copied under `shipping_` names. */
  lemma ShippingPrefixed()
    ensures forall k :: k in ShippingKeys ==> StartsWith(k, "shipping_")
  {
  }

  /** The fields of `seller` itself are copied under `seller_` names. */
  lemma SellerOwnPrefixed()
    ensures forall k :: k in SellerOwnKeys ==> StartsWith(k, "seller_")
  {
  }

  /** So are those of its reputation, transactions and ratings, with no further prefix
      for the levels in between. */
  lemma ReputationPrefixed()
    ensures forall k :: k in ReputationKeys ==> StartsWith(k, "seller_")
  {
  }

  /** The fields of `address` are copied under `address_` names. */
  lemma AddressPrefixed()
    ensures forall k :: k in AddressKeys ==> StartsWith(k, "address_")
  {
  }

  lemma GroupOrigins()
    ensures From(ListingKeys, {Listing})
    ensures From(ShippingKeys, {FromShipping})
    ensures From(SellerKeys, {FromSeller})
    ensures From(AddressKeys, {FromAddress})
    ensures From(AttributeKeys, {FromAttributes})
  {
    ListingHeadOrigin();
    ListingMiddleOrigin();
    ListingTailOrigin();
    FromUnion(ListingMiddleKeys, {Listing}, ListingTailKeys, {Listing});
    FromUnion(ListingHeadKeys, {Listing}, ListingMiddleKeys + ListingTailKeys, {Listing});
    ShippingOrigin();
    SellerOwnOrigin();
    ReputationOrigin();
    FromUnion(SellerOwnKeys, {FromSeller}, ReputationKeys, {FromSeller});
    AddressOrigin();
    BrandOrigin();
    ModelOrigin();
    LengthOrigin();
    WeightOrigin();
    FromUnion(LengthKeys, {FromAttributes}, WeightKeys, {FromAttributes});
    FromUnion(ModelKeys, {FromAttributes}, LengthKeys + WeightKeys, {FromAttributes});
    FromUnion(BrandKeys, {FromAttributes}, ModelKeys + (LengthKeys + WeightKeys), {FromAttributes});
  }

  /** Key sets whose keys come from five different origins are pairwise disjoint. */
  lemma SeparateGroups(
    listing: set<string>, shipping: set<string>, seller: set<string>,
    address: set<string>, attributes: set<string>)
    requires From(listing, {Listing}) && From(shipping, {FromShipping})
    requires From(seller, {FromSeller}) && From(address, {FromAddress})
    requires From(attributes, {FromAttributes})
    ensures listing !! shipping + (seller + (address + attributes))
    ensures shipping !! seller + (address + attributes)
    ensures seller !! address + attributes
    ensures address !! attributes
  {
    var nested := {FromShipping, FromSeller, FromAddress, FromAttributes};
    FromUnion(address, {FromAddress}, attributes, {FromAttributes});
    FromUnion(seller, {FromSeller}, address + attributes, {FromAddress, FromAttributes});
    FromUnion(shipping, {FromShipping}, seller + (address + attributes), {FromSeller, FromAddress, FromAttributes});
    FromDisjoint(listing, {Listing}, shipping + (seller + (address + attributes)), nested);
    FromDisjoint(shipping, {FromShipping}, seller + (address + attributes), {FromSeller, FromAddress, FromAttributes});
    FromDisjoint(seller, {FromSeller}, address + attributes, {FromAddress, FromAttributes});
    FromDisjoint(address, {FromAddress}, attributes, {FromAttributes});
  }

  lemma GroupsDisjoint()
    ensures ListingKeys !! ShippingKeys + (SellerKeys + (AddressKeys + AttributeKeys))
    ensures ShippingKeys !! SellerKeys + (AddressKeys + AttributeKeys)
    ensures SellerKeys !! AddressKeys + AttributeKeys
    ensures AddressKeys !! AttributeKeys
  {
    GroupOrigins();
    SeparateGroups(ListingKeys, ShippingKeys, SellerKeys, AddressKeys, AttributeKeys);
  }

  lemma ListingChunksDisjoint()
    ensures ListingHeadKeys !! ListingMiddleKeys + ListingTailKeys
  {
  }

  lemma ListingMiddleTailDisjoint()
    ensures ListingMiddleKeys !! ListingTailKeys
  {
  }

  lemma SellerChunksDisjoint()
    ensures SellerOwnKeys !! ReputationKeys
  {
  }

  lemma AttributeChunksDisjoint()
    ensures BrandKeys !! ModelKeys + (LengthKeys + WeightKeys)
    ensures ModelKeys !! LengthKeys + WeightKeys
    ensures LengthKeys !! WeightKeys
  {
  }

  lemma ListingChunkSizes()
    ensures |ListingHeadKeys| == 6 && |ListingMiddleKeys| == 7 && |ListingTailKeys| == 6
  {
  }

  lemma SellerChunkSizes()
    ensures |SellerOwnKeys| == 7 && |ReputationKeys| == 8
  {
  }

  lemma OtherChunkSizes()
    ensures |ShippingKeys| == 7 && |AddressKeys| == 4
    ensures |BrandKeys| == 2 && |ModelKeys| == 2 && |LengthKeys| == 2 && |WeightKeys| == 1
  {
  }

  lemma DisjointUnionSize(a: set<string>, b: set<string>)
    requires a !! b
    ensures |a + b| == |a| + |b|
  {
    assert (a + b) - b == a;
  }

  /** How many distinct keys each part of the dict literal writes. */
  lemma GroupSizes()
    ensures |ListingKeys| == 19 && |ShippingKeys| == 7 && |SellerKeys| == 15
    ensures |AddressKeys| == 4 && |AttributeKeys| == 7
  {
    ListingChunkSizes();
    ListingChunksDisjoint();
    ListingMiddleTailDisjoint();
    DisjointUnionSize(ListingMiddleKeys, ListingTailKeys);
    DisjointUnionSize(ListingHeadKeys, ListingMiddleKeys + ListingTailKeys);
    SellerChunkSizes();
    SellerChunksDisjoint();
    DisjointUnionSize(SellerOwnKeys, ReputationKeys);
    OtherChunkSizes();
    AttributeChunksDisjoint();
    DisjointUnionSize(LengthKeys, WeightKeys);
    DisjointUnionSize(ModelKeys, LengthKeys + WeightKeys);
    DisjointUnionSize(BrandKeys, ModelKeys + (LengthKeys + WeightKeys));
  }

  /** A flattened record has 52 distinct keys. */
  lemma FlatKeyCount()
    ensures |FlatKeys| == 52
  {
    GroupSizes();
    GroupsDisjoint();
    DisjointUnionSize(AddressKeys, AttributeKeys);
    DisjointUnionSize(SellerKeys, AddressKeys + AttributeKeys);
    DisjointUnionSize(ShippingKeys, SellerKeys + (AddressKeys + AttributeKeys));
    DisjointUnionSize(ListingKeys, ShippingKeys + (SellerKeys + (AddressKeys + AttributeKeys)));
  }

  lemma NotInGroups(key: string, listing: set<string>, shipping: set<string>, seller: set<string>,
                    address: set<string>, attributes: set<string>)
    requires key !in listing && key !in shipping && key !in seller && key !in address && key !in attributes
    ensures key !in listing + (shipping + (seller + (address + attributes)))
  {
  }

  // The weight's unit compared with each group of keys in turn.

  lemma WeightUnitNotListing() ensures WeightUnitKey !in ListingKeys {}
  lemma WeightUnitNotShipping() ensures WeightUnitKey !in ShippingKeys {}
  lemma WeightUnitNotSeller() ensures WeightUnitKey !in SellerKeys {}
  lemma WeightUnitNotAddress() ensures WeightUnitKey !in AddressKeys {}
  lemma WeightUnitNotAttribute() ensures WeightUnitKey !in AttributeKeys {}

  /** The weight's unit is not among the keys of a flattened record. */
  lemma NoWeightUnitKey()
    ensures WeightUnitKey !in FlatKeys
  {
    WeightUnitNotListing();
    WeightUnitNotShipping();
    WeightUnitNotSeller();
    WeightUnitNotAddress();
    WeightUnitNotAttribute();
    NotInGroups(WeightUnitKey, ListingKeys, ShippingKeys, SellerKeys, AddressKeys, AttributeKeys);
  }

  // Reading a flattened record back.

  /** Every entry of `part` is in `r`. */
  predicate Extends(r: Record, part: Record)
  {
    forall k :: k in part ==> k in r && r[k] == part[k]
  }

  lemma ExtendsUnion(a: Record, b: Record)
    ensures Extends(a + b, b)
    ensures a.Keys !! b.Keys ==> Extends(a + b, a)
  {
  }

  lemma ExtendsTransitive(r: Record, m: Record, p: Record)
    requires Extends(r, m) && Extends(m, p)
    ensures Extends(r, p)
  {
  }

  lemma NestedUnion(l: Record, s: Record, se: Record, ad: Record, at: Record)
    requires l.Keys !! s.Keys + (se.Keys + (ad.Keys + at.Keys))
    requires s.Keys !! se.Keys + (ad.Keys + at.Keys)
    requires se.Keys !! ad.Keys + at.Keys
    requires ad.Keys !! at.Keys
    ensures var r := l + (s + (se + (ad + at)));
      Extends(r, l) && Extends(r, s) && Extends(r, se) && Extends(r, ad) && Extends(r, at)
  {
    ExtendsUnion(ad, at);
    ExtendsUnion(se, ad + at);
    ExtendsUnion(s, se + (ad + at));
    ExtendsUnion(l, s + (se + (ad + at)));
    var r := l + (s + (se + (ad + at)));
    ExtendsTransitive(r, s + (se + (ad + at)), se + (ad + at));
    ExtendsTransitive(r, se + (ad + at), ad + at);
    ExtendsTransitive(r, ad + at, ad);
    ExtendsTransitive(r, ad + at, at);
  }

  /** No later group of the dict literal overwrites an entry of an earlier one. */
  lemma MapResultGroups(item: Item)
    ensures var r := MapResult(item);
      && Extends(r, ListingFields(item)) && Extends(r, ShippingFields(item.shipping))
      && Extends(r, SellerFields(item.seller)) && Extends(r, AddressFields(item.address))
      && Extends(r, AttributeFields(item.attributes))
  {
    GroupsDisjoint();
    NestedUnion(ListingFields(item), ShippingFields(item.shipping), SellerFields(item.seller),
                AddressFields(item.address), AttributeFields(item.attributes));
  }

  lemma ExtendsUnion2(a: Record, b: Record, c: Record)
    requires a.Keys !! b.Keys + c.Keys && b.Keys !! c.Keys
    ensures Extends(a + (b + c), a) && Extends(a + (b + c), b) && Extends(a + (b + c), c)
  {
    ExtendsUnion(b, c);
    ExtendsUnion(a, b + c);
    ExtendsTransitive(a + (b + c), b + c, b);
    ExtendsTransitive(a + (b + c), b + c, c);
  }

  lemma ListingChunks(item: Item)
    ensures var l := ListingFields(item);
      Extends(l, ListingHead(item)) && Extends(l, ListingMiddle(item)) && Extends(l, ListingTail(item))
  {
    ListingChunksDisjoint();
    ListingMiddleTailDisjoint();
    ExtendsUnion2(ListingHead(item), ListingMiddle(item), ListingTail(item));
  }

  lemma SellerChunks(seller: Seller)
    ensures var s := SellerFields(seller);
      Extends(s, SellerOwnFields(seller)) && Extends(s, ReputationFields(seller.reputation))
  {
    SellerChunksDisjoint();
    ExtendsUnion(SellerOwnFields(seller), ReputationFields(seller.reputation));
  }

  lemma AttributeChunks(attributes: seq<Attribute>)
    ensures var a := AttributeFields(attributes);
      && Extends(a, BrandFields(attributes)) && Extends(a, ModelFields(attributes))
      && Extends(a, LengthFields(attributes)) && Extends(a, WeightFields(attributes))
  {
    AttributeChunksDisjoint();
    var b, m, l, w := BrandFields(attributes), ModelFields(attributes), LengthFields(attributes), WeightFields(attributes);
    ExtendsUnion2(m, l, w);
    ExtendsUnion(b, m + (l + w));
    ExtendsTransitive(b + (m + (l + w)), m + (l + w), m);
    ExtendsTransitive(b + (m + (l + w)), m + (l + w), l);
    ExtendsTransitive(b + (m + (l + w)), m + (l + w), w);
  }

  lemma FirstMatchPairExtends(r: Record, part: Record, attributes: seq<Attribute>, id: Value, idKey: string, nameKey: string)
    requires Extends(r, part) && FirstMatchPair(part, attributes, id, idKey, nameKey)
    ensures FirstMatchPair(r, attributes, id, idKey, nameKey)
  {
  }

  lemma FirstMatchNameExtends(r: Record, part: Record, attributes: seq<Attribute>, id: Value, nameKey: string)
    requires Extends(r, part) && FirstMatchName(part, attributes, id, nameKey)
    ensures FirstMatchName(r, attributes, id, nameKey)
  {
  }

  /** Each attribute pair of a flattened record comes from the first attribute with
      that id, and is `None` when the listing has no such attribute. */
  lemma MapResultAttributes(item: Item)
    ensures AttributeEntries(MapResult(item), item.attributes)
  {
    var r, attributes := MapResult(item), item.attributes;
    var a := AttributeFields(attributes);
    MapResultGroups(item);
    AttributeChunks(attributes);
    ExtendsTransitive(r, a, BrandFields(attributes));
    FirstMatchPairExtends(r, BrandFields(attributes), attributes, Brand, "brand_id", "brand_name");
    ExtendsTransitive(r, a, ModelFields(attributes));
    FirstMatchPairExtends(r, ModelFields(attributes), attributes, Model, "model_id", "model_name");
    ExtendsTransitive(r, a, LengthFields(attributes));
    FirstMatchPairExtends(r, LengthFields(attributes), attributes, PackageLength,
                          "package_length_unit", "package_length_number");
    ExtendsTransitive(r, a, WeightFields(attributes));
    FirstMatchNameExtends(r, WeightFields(attributes), attributes, PackageWeight, "package_weight_number");
  }

  function UnflattenShipping(r: Record): (shipping: Shipping)
    requires ShippingKeys <= r.Keys
  {
    Shipping(
      r["shipping_store_pick_up"], r["shipping_free_shipping"], r["shipping_logistic_type"],
      r["shipping_mode"], r["shipping_tags"], r["shipping_benefits"], r["shipping_promise"])
  }

  function UnflattenSeller(r: Record): (seller: Seller)
    requires SellerKeys <= r.Keys
  {
    Seller(
      r["seller_id"], r["seller_nickname"], r["seller_car_dealer"],
      r["seller_real_estate_agency"], r["seller_registration_date"],
      r["seller_car_dealer_logo"], r["seller_permalink"],
      Reputation(
        r["seller_level_id"], r["seller_power_seller_status"],
        Transactions(
          r["seller_transactions_canceled"], r["seller_transactions_completed"],
          r["seller_transactions_total"],
          Ratings(r["seller_rating_negative"], r["seller_rating_neutral"], r["seller_rating_positive"]))))
  }

  function UnflattenAddress(r: Record): (address: Address)
    requires AddressKeys <= r.Keys
  {
    Address(r["address_state_id"], r["address_state_name"], r["address_city_id"], r["address_city_name"])
  }

  /** The listing a flattened record was made from, minus its attributes (which the
      record keeps only in part and are given back empty). */
  function Unflatten(r: Record): (item: Item)
    requires FlatKeys <= r.Keys
  {
    Item(
      r["id"], r["title"], r["condition"], r["listing_type_id"], r["permalink"],
      r["site_id"], r["category_id"], r["domain_id"], r["thumbnail"], r["currency_id"],
      r["price"], r["original_price"], r["sale_price"], r["sold_quantity"],
      r["available_quantity"], r["official_store_id"], r["use_thumbnail_id"],
      r["accepts_mercadopago"], r["tags"],
      UnflattenShipping(r), UnflattenSeller(r), UnflattenAddress(r),
      [])
  }

  lemma ReadListingHead(r: Record, item: Item)
    requires Extends(r, ListingHead(item))
    ensures && r["id"] == item.id && r["title"] == item.title && r["condition"] == item.condition
      && r["listing_type_id"] == item.listingTypeId && r["permalink"] == item.permalink
      && r["site_id"] == item.siteId
  {
  }

  lemma ReadListingMiddle(r: Record, item: Item)
    requires Extends(r, ListingMiddle(item))
    ensures && r["category_id"] == item.categoryId
      && r["domain_id"] == item.domainId && r["thumbnail"] == item.thumbnail
      && r["currency_id"] == item.currencyId && r["price"] == item.price
      && r["original_price"] == item.originalPrice && r["sale_price"] == item.salePrice
  {
  }

  lemma ReadListingTail(r: Record, item: Item)
    requires Extends(r, ListingTail(item))
    ensures && r["sold_quantity"] == item.soldQuantity
      && r["available_quantity"] == item.availableQuantity
      && r["official_store_id"] == item.officialStoreId
      && r["use_thumbnail_id"] == item.useThumbnailId
      && r["accepts_mercadopago"] == item.acceptsMercadopago && r["tags"] == item.tags
  {
  }

  lemma ReadShipping(r: Record, shipping: Shipping)
    requires Extends(r, ShippingFields(shipping))
    ensures ShippingKeys <= r.Keys && UnflattenShipping(r) == shipping
  {
  }

  lemma ReadSellerOwn(r: Record, seller: Seller)
    requires Extends(r, SellerOwnFields(seller))
    ensures && r["seller_id"] == seller.id && r["seller_nickname"] == seller.nickname
      && r["seller_car_dealer"] == seller.carDealer
      && r["seller_real_estate_agency"] == seller.realEstateAgency
      && r["seller_registration_date"] == seller.registrationDate
      && r["seller_car_dealer_logo"] == seller.carDealerLogo
      && r["seller_permalink"] == seller.permalink
  {
  }

  lemma ReadReputation(r: Record, reputation: Reputation)
    requires Extends(r, ReputationFields(reputation))
    ensures var transactions := reputation.transactions;
      && r["seller_level_id"] == reputation.levelId
      && r["seller_power_seller_status"] == reputation.powerSellerStatus
      && r["seller_transactions_canceled"] == transactions.canceled
      && r["seller_transactions_completed"] == transactions.completed
      && r["seller_transactions_total"] == transactions.total
      && r["seller_rating_negative"] == transactions.ratings.negative
      && r["seller_rating_neutral"] == transactions.ratings.neutral
      && r["seller_rating_positive"] == transactions.ratings.positive
  {
  }

  lemma ReadAddress(r: Record, address: Address)
    requires Extends(r, AddressFields(address))
    ensures AddressKeys <= r.Keys && UnflattenAddress(r) == address
  {
  }

  /** Every copied field lands, unchanged, under a key of its own: reading the
      flattened record back gives the listing minus its attributes. */
  lemma UnflattenMapResult(item: Item)
    ensures Unflatten(MapResult(item)) == item.(attributes := [])
  {
    var r := MapResult(item);
    MapResultGroups(item);
    ListingChunks(item);
    ExtendsTransitive(r, ListingFields(item), ListingHead(item));
    ExtendsTransitive(r, ListingFields(item), ListingMiddle(item));
    ExtendsTransitive(r, ListingFields(item), ListingTail(item));
    ReadListingHead(r, item);
    ReadListingMiddle(r, item);
    ReadListingTail(r, item);
    ReadShipping(r, item.shipping);
    SellerChunks(item.seller);
    ExtendsTransitive(r, SellerFields(item.seller), SellerOwnFields(item.seller));
    ExtendsTransitive(r, SellerFields(item.seller), ReputationFields(item.seller.reputation));
    ReadSellerOwn(r, item.seller);
    ReadReputation(r, item.seller.reputation);
    ReadAddress(r, item.address);
  }
}
