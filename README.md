# Product catalog service, modelled in Dafny

The service holds a fixed catalog: an insertion-ordered dictionary from a
category key (`tv`, `mobile`, `laptop`) to the products declared under it, in
declaration order. Every endpoint is a read-only query over that catalog:

- `GET /products`: every product of every category, each copied and given a
  `category` field. Categories come in declaration order, then products in
  declaration order.
- `GET /products/<category>`: the category is lower-cased. An unknown key
  gives "Category not found" with the list of valid keys. A known key gives
  that category's products, each tagged with the lower-cased key.
- `GET /product/<category>/<id>`: the category is lower-cased. An unknown key
  gives "Category not found" with the key list. Otherwise the first product
  of that category with the id is returned, tagged; if none has it, the answer
  is "Product not found", without a key list.
- `GET /categories`: the keys in declaration order, and their number.
- `GET /` and `GET /health`: constant payloads.

Files and modules:

- `ascii.dfy`, module `Ascii`: ASCII lower-casing (`str.lower()` restricted to ASCII).
- `catalog.dfy`, module `Catalog`: the data model, with product records as
  dictionaries of JSON-like `Value`s and the catalog as a sequence of
  (key, products) pairs. It also holds the copy-and-tag step (`Tag`), the
  key and id searches (`Find`, `FindProduct`) and the flattened listing
  (`Flatten`) with the lemmas that place each product in it.
- `app.dfy`, module `App`: the handlers. `GetAllProducts` and
  `GetProductsByCategory` are methods with the source's loops, proved equal to
  the specification functions `Flatten` and `ProductsByCategory`. The id lookup
  `ProductById`, `Categories`, `Home` and `Health` are functions. The error
  outcomes are `Response.CategoryNotFound` and `Response.ProductNotFound`;
  `Status` and `ErrorPayload` give their status code and JSON body.
- `store.dfy`, module `Store`: the catalog literal `Products` (3 categories, 8 products).
- `store_facts.dfy`, module `StoreFacts`: what the handlers answer for that literal.

The handlers take the catalog as a parameter `cat`; the service passes
`Store.Products`. Products are values here. In the source each handler
copies a stored record before it adds `category`, and that copy is what
makes value semantics a faithful model: no handler can change the stored
catalog. `Tag` states the copy-plus-one-field result.

## Model

| member | source | states |
|---|---|---|
| `Ascii.Lower` | app.py:152 | `category.lower()`: same length, each ASCII capital moved to its small letter, every other character kept |
| `Ascii.LowerIsLowerCase` | app.py:152 | a lower-cased category name has no upper-case letter, so a key with one could never be found |
| `Ascii.LowerOfLowerCase` | app.py:152 | lower-casing leaves a name without upper-case letters unchanged, so stored lower-case keys are found as written |
| `Ascii.LowerIdempotent` | app.py:167 | lower-casing twice is the same as lower-casing once |
| `Catalog.Tag` | app.py:144-145 | the tagged record has every field of the stored one with its value, plus `category` set to the key, and no other field |
| `Catalog.TagAll` | app.py:156-160 | tagging a category keeps its length and order: element i is stored product i tagged with the key |
| `Catalog.Keys` | app.py:154 | `list(products.keys())`: one key per category, in declaration order |
| `Catalog.Find` | app.py:153 | `category not in products` holds exactly when the key is absent; otherwise the position found holds that key and no earlier entry does |
| `Catalog.FindDistinct` | app.py:157 | in a dictionary (distinct keys) looking up the key at position j finds position j |
| `Catalog.HasId` | app.py:171 | `p['id'] == product_id`: a record matches exactly when its `id` is the integer asked for; a record without `id` never matches |
| `Catalog.FindProduct` | app.py:171 | `next(...)`: none exactly when no product of the category has the id; otherwise the first product in declaration order with that id |
| `Catalog.Flatten` | app.py:141-147 | the all-products listing has as many entries as the catalog has products in all |
| `Catalog.FlattenAt` | app.py:142-146 | product k of category j is at position (products before category j) + k of the listing, tagged with category j's key |
| `Catalog.FlattenOrigin` | app.py:142-146 | every entry of the listing is some product k of some category j at that position, tagged with j's key |
| `App.GetAllProducts` | app.py:139-147 | the nested loops build exactly the flattened listing |
| `App.ProductsByCategory` | app.py:150-162 | never "product not found"; "category not found" exactly when the lower-cased key is absent, carrying all keys in order; otherwise as many entries as the category holds, entry i being product i tagged with the lower-cased key |
| `App.GetProductsByCategory` | app.py:150-162 | the loop returns exactly what `ProductsByCategory` specifies |
| `App.ProductsUnder` | app.py:157 | `products[category]` for a present key: the products of the entry that holds that key |
| `App.ListStoredKey` | app.py:152-160 | listing a stored lower-case key returns that key's own products tagged with it |
| `App.ListingIsSliceOfAll` | app.py:141-160 | listing category j returns exactly the run of the all-products listing that holds category j |
| `App.ProductById` | app.py:165-177 | "category not found" exactly when the lowered key is absent, with all keys; "product not found" exactly when the key is present and none of its products has the id; otherwise the first product of that category with the id, tagged with the lowered key, so its id is the one asked for |
| `App.LookupStoredKey` | app.py:167-177 | looking up a stored lower-case key searches only that key's products |
| `App.FoundProductIsListed` | app.py:171-177 | an id lookup never leaks across categories: its result is an entry of the same category's listing, and "product not found" holds exactly when no entry of that listing has the id |
| `App.Categories` | app.py:180-185 | the keys in declaration order, with `count` equal to their number |
| `App.CaseInsensitive` | app.py:150-177 | two category spellings with the same lower-case form get identical answers from both lookups |
| `App.Status` | app.py:154-173 | a success answers 200, either error answers 404 |
| `App.ErrorPayload` | app.py:153-173 | "category not found" answers exactly the fields `error` = "Category not found" and `available_categories` = all keys in order; "product not found" answers exactly `{"error": "Product not found"}` |
| `App.ErrorOutcomes` | app.py:168-173 | both error outcomes are 404, and their messages differ exactly when their kinds differ |
| `App.Home` | app.py:122-136 | `/` answers the fields message, version, endpoints and available_categories, with 6 endpoints and 3 categories |
| `App.Health` | app.py:188-190 | `/health` answers only `status`, set to "healthy" |
| `StoreFacts.StoredIds` | app.py:8-119 | in the literal `Products`, product k of each category has id k + 1, so ids are unique within a category and repeat across categories |
| `StoreFacts.StoredCatalogWellFormed` | app.py:8-119 | the literal has distinct lower-case keys and every product has an integer id |
| `StoreFacts.StoredCategories` | tests/test_app.py:138-149 | `/categories` lists tv, mobile, laptop in that order with count 3 |
| `StoreFacts.HomeListsStoredCategories` | app.py:122-136 | the hand-written category list of `/` equals the catalog's keys; the message is "Product API", the version "1.0.0", and endpoints an object |
| `StoreFacts.HealthPayload` | app.py:188-190 | `/health` answers exactly `{"status": "healthy"}` |
| `StoreFacts.StoredOffsets` | app.py:8-119 | the categories hold 3, 3 and 2 products, 8 in all |
| `StoreFacts.StoredAllProducts` | tests/test_app.py:31-46 | `/products` has 8 entries, the first tv first and the last laptop last |
| `StoreFacts.StoredListingTv` | tests/test_app.py:48-58 | `/products/tv` lists tagged Tv1, Tv2, Tv3 in order, each tagged "tv" and carrying `id` and `name` |
| `StoreFacts.TvFields` | tests/test_app.py:57-58 | every stored television has an `id` and a `name` field |
| `StoreFacts.StoredListingMobile` | tests/test_app.py:60-70 | `/products/mobile` lists 3 products, each tagged "mobile" and carrying `id` and `name`, the second being the Samsung Galaxy S24 |
| `StoreFacts.MobileFields` | tests/test_app.py:68-70 | every stored phone has an `id` and a `name` field |
| `StoreFacts.StoredListingLaptop` | tests/test_app.py:72-82 | `/products/laptop` lists 2 products, each tagged "laptop" |
| `StoreFacts.StoredListingUpperCase` | app.py:152 | `/products/TV` answers as `/products/tv` |
| `StoreFacts.StoredListingUnknown` | tests/test_app.py:84-90 | `/products/invalid` is "category not found" with the 3 keys |
| `StoreFacts.StoredLookupTv` | tests/test_app.py:92-102 | `/product/tv/1` is the first tv tagged "tv" |
| `StoreFacts.StoredLookupMobile` | tests/test_app.py:104-112 | `/product/mobile/2` is the Samsung Galaxy S24 tagged "mobile" |
| `StoreFacts.StoredLookupLaptop` | tests/test_app.py:114-122 | `/product/laptop/1` is the MacBook Pro 14-inch tagged "laptop" |
| `StoreFacts.StoredLookupMissingId` | tests/test_app.py:131-136 | `/product/tv/999` is "product not found" |
| `StoreFacts.StoredLookupUnknownCategory` | tests/test_app.py:124-129 | `/product/invalid/1` is "category not found" with the 3 keys |

## Left out

- Flask routing, `jsonify` serialisation, the HTTP status plumbing and CORS are library calls. A handler returns a `Response`, and `Status`/`ErrorPayload` stand for the status code and error body.
- The `<int:product_id>` converter's rejection of ids that are not non-negative integers (it is unsigned by default, so `/product/tv/-1` never reaches the handler) is routing behaviour of the framework. `ProductById` accepts every `int`.
- `app.run` host and port binding is process start-up.
- Prices are floats in the source. Here they are kept as their decimal text (`Num`), since no endpoint computes with them.
- `str.lower()` is modelled on ASCII only. Non-ASCII letters are left as they are, where Python would lower-case them too.
- JSON object key order and the byte form of responses are not modelled: payloads are Dafny maps.
- Aliasing of Python dictionaries is not modelled: records are values. The source copies each record before it tags it, so no response shares a dictionary with the catalog.
- `Catalog.HasId`: a product without an `id` field counts as not matching, where Python would raise `KeyError`. Only an `Int` id matches, whereas Python's `==` would also let a stored `1.0` or `True` equal the route id 1. Every stored id is a plain integer (`StoreFacts.StoredCatalogWellFormed`, `StoreFacts.StoredIds`), so neither case arises for the literal.
- `if not product` after the search is modelled as "no product found". A stored product is a non-empty dictionary, so it is never falsy.
- The pytest fixture and test client are test machinery. The body assertions of tests/test_app.py are stated by the `StoreFacts` lemmas, except those of the home test, which `App.Home` and `StoreFacts.HomeListsStoredCategories` state together. HTTP status and content-type assertions are outside the model beyond `Status`.
