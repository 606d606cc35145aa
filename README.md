# MercadoLibre data download: a verified model

`data/get_data.py` downloads public MercadoLibre marketplace data: the payment
methods and top-level categories of every site (country), and the listings of one
category of one site, flattened into single-level records. This project models the
logic around its HTTP calls and proves what that logic promises:

- `add_country` tags a decoded record with the id of the site it came from
  (`tagging.dfy`). It is modelled as a function on maps and as an in-place update
  of a `Dict` object, as the source writes into the dict it is given.
- `get_payment_type` and `get_categories` loop over the sites, tag every record of
  each response and concatenate them in site order (`catalog.dfy`). The loop is a
  method proved against the recursive specification `Catalog`.
- `map_result` flattens one search result into a record with a fixed key set. It
  copies the scalar fields, prefixes the nested ones, and picks the brand, model and
  package attributes by first match (`flatten.dfy`).
- `get_items_by_cat` pages through the search endpoint (`pagination.dfy`). It steps
  the offset by 50 (`count_per_request`) per request, at offsets 0, 50, 100, …, for
  at most 20 requests, and stops once the advanced offset exceeds the reported
  `paging.total`. The request names no page size, so the bound of 1000 records holds
  only when the server returns at most 50 results a page (`ItemsByCatBound`). The
  loop is a method proved against the recursive specifications `Offsets` (the
  requests sent) and `Crawl` (the listings received).

How the network is modelled:

- A catalog request is a function `fetch(site, resource)`.
- The search endpoint is a `SearchEndpoint` object. It answers by a function
  `answer(query)` and keeps a log of every query sent.
- `None` stands for a request or a JSON decoding that raises. The whole download
  then returns `None`, as the Python call would end in that exception.

Supporting modules: `wrappers.dfy` (`Option` and prepending to an optional
sequence) and `json.dfy` (decoded JSON values and records).

## Model

| member | source | states |
|---|---|---|
| Tagging.AddCountry | data/get_data.py:9-11 | The result maps `country` to the given id. Its keys are the input's keys plus `country`. Every other key keeps its value. |
| Tagging.AddCountryIdempotent | data/get_data.py:9-11 | Tagging twice with the same id gives the same record as tagging once. |
| Tagging.AddCountryLastWins | data/get_data.py:9-11 | Tagging with a second id replaces the first, and the tag read back is the second id. |
| Tagging.Dict.AddCountryInPlace | data/get_data.py:9-11 | The dict passed in is updated in place to the tagged record, and that same object is returned. |
| Catalog.FetchCatalog | data/get_data.py:20-25 | The loop returns exactly `Catalog`: every response tagged with its site, concatenated in site order, or `None` once a request fails. |
| Catalog.GetPaymentType | data/get_data.py:14-27 | `get_payment_type` is the catalog loop over the payment-methods endpoint. |
| Catalog.GetCategories | data/get_data.py:30-42 | `get_categories` is the catalog loop over the categories endpoint. |
| Catalog.CatalogFails | data/get_data.py:21-23 | The result is `None` if and only if the request for some site fails. |
| Catalog.CatalogLength | data/get_data.py:20-25 | Without failures, the output length is the sum of the per-site response lengths. |
| Catalog.CatalogAt | data/get_data.py:21-25 | Record `j` of site `i`'s response sits at position (records of the sites before `i`) + `j`, tagged with site `i`: site order first, then response order. |
| Catalog.CatalogTagged | data/get_data.py:24-25 | Every output record has a `country` key holding the id of one of the sites. |
| Flatten.FirstWithId | data/get_data.py:57-62 | `None` if and only if no attribute has the id. Otherwise it is an attribute with that id, and no earlier attribute has it. |
| Flatten.WithId | data/get_data.py:57-62 | Every attribute the filter keeps has the id and comes from the list; every attribute in the list with the id is kept; the result is no longer than the list. |
| Flatten.WithIdFirst | data/get_data.py:57-62 | The filtered list is non-empty exactly when `FirstWithId` finds an attribute, and its head is that attribute. |
| Flatten.BrandFields | data/get_data.py:110-111 | `brand_id`/`brand_name` are the `value_id`/`value_name` of the first `BRAND` attribute, both `None` without one. |
| Flatten.ModelFields | data/get_data.py:112-113 | The same for `model_id`/`model_name` and `MODEL`. |
| Flatten.LengthFields | data/get_data.py:114-115 | The same for `package_length_unit`/`package_length_number` and `PACKAGE_LENGTH`. |
| Flatten.WeightFields | data/get_data.py:116-117 | The two identical maplets give the one key `package_weight_number`: the first `PACKAGE_WEIGHT` attribute's `value_name`, or `None`. |
| Flatten.AttributeFields | data/get_data.py:110-117 | The attribute-derived entries have exactly the attribute keys. |
| Flatten.ListingHead | data/get_data.py:64-69 | Key set of these entries of the dict literal. |
| Flatten.ListingMiddle | data/get_data.py:70-76 | Key set of these entries of the dict literal. |
| Flatten.ListingTail | data/get_data.py:77-82 | Key set of these entries of the dict literal. |
| Flatten.ListingFields | data/get_data.py:64-82 | The entries copied from the listing's own fields have exactly the listing keys. |
| Flatten.ShippingFields | data/get_data.py:83-89 | The entries copied from `shipping` have exactly the `shipping_` keys. |
| Flatten.SellerOwnFields | data/get_data.py:90-96 | Key set of the entries copied from `seller` itself. |
| Flatten.ReputationFields | data/get_data.py:97-104 | Key set of the entries copied from the seller's reputation, transactions and ratings. |
| Flatten.SellerFields | data/get_data.py:90-104 | The seller entries have exactly the `seller_` keys of the seller and its reputation. |
| Flatten.AddressFields | data/get_data.py:106-109 | The entries copied from `address` have exactly the `address_` keys. |
| Flatten.GroupSizes | data/get_data.py:64-117 | The parts of the dict literal write 19 listing keys, 7 shipping keys, 15 seller keys, 4 address keys and 7 attribute keys, all distinct within each part. |
| Flatten.MapResult | data/get_data.py:64-118 | Every flattened record has the same key set, whatever the listing. |
| Flatten.FlatKeyCount | data/get_data.py:64-118 | That key set has 52 distinct keys. |
| Flatten.NoWeightUnitKey | data/get_data.py:116-117 | No `package_weight_unit` key exists: the repeated literal key leaves the weight without a unit. |
| Flatten.MapResultAttributes | data/get_data.py:110-117 | In the flattened record itself, each attribute entry comes from the first attribute with its id, or is `None` when there is none. |
| Flatten.MapResultGroups | data/get_data.py:64-118 | No later part of the dict literal overwrites an earlier part: each part's entries are in the flattened record unchanged. |
| Flatten.ReadListingHead | data/get_data.py:64-69 | A record holding these entries maps `id`, `title`, `condition`, `listing_type_id`, `permalink` and `site_id` to the listing's fields of the same names. |
| Flatten.ReadListingMiddle | data/get_data.py:70-76 | A record holding these entries maps `category_id` … `sale_price` to the listing's fields of the same names. |
| Flatten.ReadListingTail | data/get_data.py:77-82 | A record holding these entries maps `sold_quantity` … `tags` to the listing's fields of the same names. |
| Flatten.ReadShipping | data/get_data.py:83-89 | A record holding the shipping entries has every `shipping_` key, and reading them back gives the `shipping` object. |
| Flatten.ReadSellerOwn | data/get_data.py:90-96 | A record holding these entries maps each `seller_` key to the seller's field it names. |
| Flatten.ReadReputation | data/get_data.py:97-104 | A record holding these entries maps the level, power-seller status, transaction counts and ratings to the reputation's nested fields. |
| Flatten.ReadAddress | data/get_data.py:106-109 | A record holding the address entries has every `address_` key, and reading them back gives the `address` object. |
| Flatten.UnflattenMapResult | data/get_data.py:64-109 | Every copied field lands unchanged under its own key, e.g. `seller_rating_positive` holds `seller.seller_reputation.transactions.ratings.positive`. Reading the record back gives the listing minus its attributes. |
| Flatten.ShippingPrefixed | data/get_data.py:83-89 | Every key copied from `shipping` starts with `shipping_`. |
| Flatten.SellerOwnPrefixed | data/get_data.py:90-96 | Every key copied from `seller` starts with `seller_`. |
| Flatten.ReputationPrefixed | data/get_data.py:97-104 | Every key copied from the seller's reputation, transactions and ratings starts with `seller_` as well. |
| Flatten.AddressPrefixed | data/get_data.py:106-109 | Every key copied from `address` starts with `address_`. |
| Pagination.SearchEndpoint.Get | data/get_data.py:137-138 | A request logs its query and returns the endpoint's answer to it. |
| Pagination.FetchPages | data/get_data.py:131-144 | The loop sends exactly the queries `Offsets` gives, in order, and returns the listings `Crawl` gives, converted one by one. It returns `None` when a request fails. |
| Pagination.GetItemsByCat | data/get_data.py:121-144 | `get_items_by_cat` is that loop with `map_result` as the conversion. |
| Pagination.OffsetsSpaced | data/get_data.py:132-141 | At most 20 requests, at least one. The `k`-th is sent at offset `50 * k`. |
| Pagination.OffsetsContinue | data/get_data.py:141-143 | After a request another follows if and only if the budget is not spent, the response arrived, and the advanced offset does not exceed `paging.total`. |
| Pagination.CrawlFails | data/get_data.py:136-140 | The download aborts if and only if one of the requests it sends fails. |
| Pagination.CrawlCollects | data/get_data.py:139-140 | The output is the results of the requested pages, page by page in offset order. |
| Pagination.CrawlBound | data/get_data.py:132-140 | With pages of at most 50 results, `left` requests yield at most `50 * left` listings. |
| Pagination.ItemsByCatBound | data/get_data.py:132-143 | With pages of at most 50 results, `get_items_by_cat` returns at most `max_items` = 1000 records. |
| Pagination.SmallTotalOneRequest | data/get_data.py:141-143 | A first page reporting a total below 50 (e.g. 30) ends the loop after that one request, with that page's results. |
| Pagination.ConstantTotalRequests | data/get_data.py:141-143 | When every page reports the same `total`, the loop sends `min(20, total / 50 + 1)` requests. |
| Pagination.FlattenedKeys | data/get_data.py:139-140 | Each output record is `map_result` of the listing at the same position, and has the 52 flat keys. |

## Left out

- The network and JSON decoding (`requests.get(...).json()`) are parameters: `fetch` for the catalogs and `SearchEndpoint.answer` for the search. A raised exception is `None`. Which exception, and its message, are not modelled.
- Catalog.FetchCatalog: which catalog requests are sent is not modelled. A catalog request is a pure function `fetch`, with no request log as `SearchEndpoint` has, so the model states that a failed site makes the result `None` (`CatalogFails`) but not that no later site is requested.
- Flatten.WithId: the contract states which attributes the filter keeps, and `WithIdFirst` states its head, but not that the kept attributes stay in list order; `map_result` reads only the head.
- Building the URL strings is not modelled. A search request is the `Query` value (site, category, offset) that the URL encodes, and a catalog request is the pair (site, resource).
- `DataFrame.from_records`: the pandas table built from the records is not modelled. The catalog functions return the sequence of records the table is built from.
- `constants.countries` is not part of this model. The sites are a parameter holding their ids, i.e. the `country['id']` values.
- `KeyError` on a missing field of a search result: the listing is a typed datatype whose required fields always exist. The copied values stay opaque JSON values; a number keeps its literal text.
- A response that is not a JSON array, or whose `results` or `paging.total` have another shape: the decoded responses are typed (`seq<Record>`, `Page`), and `paging.total` is an integer.
- Catalog.FetchCatalog: the catalog loop works on record values. The source tags each response dict in place, but no caller keeps a response after tagging it, so the sharing cannot be observed. `Tagging.Dict.AddCountryInPlace` models the in-place write itself.
- Pagination.GetItemsByCat: Python's lazy `map` objects are consumed by `extend` at once, so the model converts each page eagerly.
- Flatten.MapResult: the Python dict's key order is not modelled; the record is a map.
- Flatten.WeightFields: the literal key `package_weight_number` is repeated, with the same value both times. The model keeps this as written, so there is no weight unit. `NoWeightUnitKey` states the consequence.
- Pagination.ConstantTotalRequests: the loop stops only once the advanced offset is strictly greater than `total`. A total that is a multiple of 50 (say 100) therefore costs one more request, at offset 100, than the pages it needs. The lemma states the count as the source has it.
