/** The catalog the service is started with: three categories, eight products. */
module Store {
  import opened Catalog

  /** One stored record: id, name, price (as decimal text), brand and specs. */
  function Record(id: int, name: string, price: string, brand: string, specs: map<string, Value>): Product {
    map["specs" := Obj(specs), "brand" := Str(brand), "price" := Num(price), "name" := Str(name), "id" := Int(id)]
  }

  const Tv1: Product := Record(1, "Samsung 55-inch QLED TV", "1299.99", "Samsung", map[
      "screen_size" := Str("55 inches"),
      "resolution" := Str("4K UHD"),
      "display_type" := Str("QLED"),
      "smart_tv" := Bool(true),
      "hdr" := Bool(true)])

  const Tv2: Product := Record(2, "LG 65-inch OLED TV", "1999.99", "LG", map[
      "screen_size" := Str("65 inches"),
      "resolution" := Str("4K UHD"),
      "display_type" := Str("OLED"),
      "smart_tv" := Bool(true),
      "hdr" := Bool(true)])

  const Tv3: Product := Record(3, "Sony 43-inch LED TV", "599.99", "Sony", map[
      "screen_size" := Str("43 inches"),
      "resolution" := Str("Full HD"),
      "display_type" := Str("LED"),
      "smart_tv" := Bool(true),
      "hdr" := Bool(false)])

  const Mobile1: Product := Record(1, "iPhone 15 Pro", "999.99", "Apple", map[
      "storage" := Str("128GB"),
      "ram" := Str("8GB"),
      "screen_size" := Str("6.1 inches"),
      "camera" := Str("48MP"),
      "battery" := Str("3274 mAh")])

  const Mobile2: Product := Record(2, "Samsung Galaxy S24", "899.99", "Samsung", map[
      "storage" := Str("256GB"),
      "ram" := Str("8GB"),
      "screen_size" := Str("6.2 inches"),
      "camera" := Str("50MP"),
      "battery" := Str("4000 mAh")])

  const Mobile3: Product := Record(3, "Google Pixel 8", "699.99", "Google", map[
      "storage" := Str("128GB"),
      "ram" := Str("8GB"),
      "screen_size" := Str("6.2 inches"),
      "camera" := Str("50MP"),
      "battery" := Str("4575 mAh")])

  const Laptop1: Product := Record(1, "MacBook Pro 14-inch", "1999.99", "Apple", map[
      "processor" := Str("Apple M3"),
      "ram" := Str("16GB"),
      "storage" := Str("512GB SSD"),
      "screen_size" := Str("14.2 inches"),
      "graphics" := Str("Integrated")])

  const Laptop2: Product := Record(2, "Dell XPS 15", "1799.99", "Dell", map[
      "processor" := Str("Intel Core i7"),
      "ram" := Str("16GB"),
      "storage" := Str("512GB SSD"),
      "screen_size" := Str("15.6 inches"),
      "graphics" := Str("NVIDIA RTX 4050")])

  /** The catalog literal, in declaration order. */
  const Products: Catalog := [
    ("tv", [Tv1, Tv2, Tv3]),
    ("mobile", [Mobile1, Mobile2, Mobile3]),
    ("laptop", [Laptop1, Laptop2])
  ]
}
