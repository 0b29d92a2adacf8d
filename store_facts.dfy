/** What the handlers answer for the catalog the service is started with. */
module StoreFacts {
  import opened Ascii
  import opened Catalog
  import opened App
  import opened Store

  lemma StoredKeysDistinct()
    ensures DistinctKeys(Products)
  {
  }

  lemma StoredCatalogWellFormed()
    ensures WellFormed(Products)
  {
  }

  /** GET /categories lists tv, mobile and laptop, in that order, and counts 3. */
  lemma StoredCategories()
    ensures Categories(Products) == CategoryList(["tv", "mobile", "laptop"], 3)
  {
  }

  /** The hand-written category list of GET / agrees with the catalog. */
  lemma HomeListsStoredCategories()
    ensures Home()["available_categories"] == Arr(StrValues(Keys(Products)))
    ensures Home()["message"] == Str("Product API")
    ensures Home()["version"] == Str("1.0.0")
    ensures Home()["endpoints"].Obj?
  {
  }

  /** GET /health answers exactly {"status": "healthy"}. */
  lemma HealthPayload()
    ensures Health() == map["status" := Str("healthy")]
  {
  }

  lemma StoredOffsets()
    ensures Offset(Products, 0) == 0
    ensures Offset(Products, 1) == 3
    ensures Offset(Products, 2) == 6
    ensures Offset(Products, 3) == 8 == TotalCount(Products)
  {
    assert Products[..0] == [];
    OffsetNext(Products, 0);
    OffsetNext(Products, 1);
    OffsetNext(Products, 2);
    assert Products[..3] == Products;
  }

  /** GET /products has 3 + 3 + 2 = 8 entries, starting with the first tv and
      ending with the last laptop. */
  lemma StoredAllProducts()
    ensures |Flatten(Products)| == 8
    ensures Flatten(Products)[0] == Tag(Tv1, "tv")
    ensures Flatten(Products)[7] == Tag(Laptop2, "laptop")
  {
    StoredOffsets();
    FlattenAt(Products, 0, 0);
    FlattenAt(Products, 2, 1);
  }

  /** GET /products/tv lists the three televisions, each tagged "tv". */
  lemma StoredListingTv()
    ensures ProductsByCategory(Products, "tv").Ok?
    ensures var listed := ProductsByCategory(Products, "tv").body;
      |listed| == 3 && listed[0] == Tag(Tv1, "tv") && listed[1] == Tag(Tv2, "tv")
      && listed[2] == Tag(Tv3, "tv")
      && forall i :: 0 <= i < |listed| ==>
           listed[i][CategoryField] == Str("tv") && IdField in listed[i] && "name" in listed[i]
  {
    StoredKeysDistinct();
    ListStoredKey(Products, 0);
    TvFields();
  }

  lemma TvFields()
    ensures |Products[0].1| == 3
    ensures forall k :: 0 <= k < 3 ==> IdField in Products[0].1[k] && "name" in Products[0].1[k]
  {
    assert IdField in Tv1 && "name" in Tv1;
    assert IdField in Tv2 && "name" in Tv2;
    assert IdField in Tv3 && "name" in Tv3;
  }

  /** GET /products/mobile lists the three phones, each tagged "mobile". */
  lemma StoredListingMobile()
    ensures ProductsByCategory(Products, "mobile").Ok?
    ensures var listed := ProductsByCategory(Products, "mobile").body;
      |listed| == 3 && listed[1] == Tag(Mobile2, "mobile")
      && forall i :: 0 <= i < |listed| ==>
           listed[i][CategoryField] == Str("mobile") && IdField in listed[i] && "name" in listed[i]
  {
    StoredKeysDistinct();
    ListStoredKey(Products, 1);
    MobileFields();
  }

  lemma MobileFields()
    ensures |Products[1].1| == 3
    ensures forall k :: 0 <= k < 3 ==> IdField in Products[1].1[k] && "name" in Products[1].1[k]
  {
    assert IdField in Mobile1 && "name" in Mobile1;
    assert IdField in Mobile2 && "name" in Mobile2;
    assert IdField in Mobile3 && "name" in Mobile3;
  }

  /** Ids are unique only within a category: each category numbers its
      products 1, 2, ... in declaration order, so ids repeat across categories. */
  lemma StoredIds()
    ensures forall j, k :: 0 <= j < |Products| && 0 <= k < |Products[j].1| ==>
      HasId(Products[j].1[k], k + 1)
  {
    assert HasId(Tv1, 1) && HasId(Tv2, 2) && HasId(Tv3, 3);
    assert HasId(Mobile1, 1) && HasId(Mobile2, 2) && HasId(Mobile3, 3);
    assert HasId(Laptop1, 1) && HasId(Laptop2, 2);
  }

  /** GET /products/laptop lists the two laptops, each tagged "laptop". */
  lemma StoredListingLaptop()
    ensures ProductsByCategory(Products, "laptop").Ok?
    ensures var listed := ProductsByCategory(Products, "laptop").body;
      |listed| == 2 && listed[0] == Tag(Laptop1, "laptop") && listed[1] == Tag(Laptop2, "laptop")
      && forall i :: 0 <= i < |listed| ==> listed[i][CategoryField] == Str("laptop")
  {
    StoredKeysDistinct();
    ListStoredKey(Products, 2);
  }

  /** "TV" is answered as "tv". */
  lemma StoredListingUpperCase()
    ensures ProductsByCategory(Products, "TV") == ProductsByCategory(Products, "tv")
  {
    assert Lower("TV") == "tv" by {
      assert Lower("TV")[0] == LowerChar('T') == 't';
      assert Lower("TV")[1] == LowerChar('V') == 'v';
    }
    LowerOfLowerCase("tv");
  }

  lemma StoredListingUnknown()
    ensures ProductsByCategory(Products, "invalid") == CategoryNotFound(["tv", "mobile", "laptop"])
  {
  }

  lemma StoredLookupTv()
    ensures ProductById(Products, "tv", 1) == Ok(Tag(Tv1, "tv"))
  {
    StoredKeysDistinct();
    LookupStoredKey(Products, 0, 1);
    assert FindProduct(Products[0].1, 1) == Some(0) by {
      assert HasId(Tv1, 1);
    }
  }

  /** GET /product/mobile/2 answers the Samsung Galaxy S24. */
  lemma StoredLookupMobile()
    ensures ProductById(Products, "mobile", 2) == Ok(Tag(Mobile2, "mobile"))
    ensures Tag(Mobile2, "mobile")["name"] == Str("Samsung Galaxy S24")
  {
    StoredKeysDistinct();
    LookupStoredKey(Products, 1, 2);
    assert FindProduct(Products[1].1, 2) == Some(1) by {
      assert Products[1].1 == [Mobile1, Mobile2, Mobile3];
      assert !HasId(Mobile1, 2) && HasId(Mobile2, 2);
    }
  }

  /** GET /product/laptop/1 answers the MacBook Pro 14-inch. */
  lemma StoredLookupLaptop()
    ensures ProductById(Products, "laptop", 1) == Ok(Tag(Laptop1, "laptop"))
    ensures Tag(Laptop1, "laptop")["name"] == Str("MacBook Pro 14-inch")
  {
    StoredKeysDistinct();
    LookupStoredKey(Products, 2, 1);
    assert FindProduct(Products[2].1, 1) == Some(0) by {
      assert Products[2].1 == [Laptop1, Laptop2];
      assert HasId(Laptop1, 1);
    }
  }

  lemma StoredLookupMissingId()
    ensures ProductById(Products, "tv", 999) == ProductNotFound
  {
    StoredKeysDistinct();
    LookupStoredKey(Products, 0, 999);
    assert FindProduct(Products[0].1, 999) == None by {
      assert Products[0].1 == [Tv1, Tv2, Tv3];
      assert !HasId(Tv1, 999) && !HasId(Tv2, 999) && !HasId(Tv3, 999);
    }
  }

  lemma StoredLookupUnknownCategory()
    ensures ProductById(Products, "invalid", 1) == CategoryNotFound(["tv", "mobile", "laptop"])
  {
  }
}
