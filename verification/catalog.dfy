/** The static product catalog of the mobile app (android/lib/products.ts):
    eight products and the list of category names shown as filter chips. */
module Catalog {
  import opened Seqs

  /** A catalog entry. Prices are exact decimals. */
  datatype Product = Product(
    id: string,
    name: string,
    description: string,
    price: real,
    category: string,
    imageUrl: string,
    inStock: bool)

  const Products: seq<Product> := [
    Product("1", "Wireless Bluetooth Headphones",
      "High-quality wireless headphones with noise cancellation and long battery life. Perfect for music lovers and professionals.",
      129.99, "Electronics",
      "https://images.unsplash.com/photo-1505740420928-5e560c06d30e?w=400&h=400&fit=crop", true),
    Product("2", "Smart Fitness Watch",
      "Advanced fitness tracking with heart rate monitor, GPS, and water resistance. Track your workouts and health metrics.",
      199.99, "Electronics",
      "https://images.unsplash.com/photo-1523275335684-37898b6baf30?w=400&h=400&fit=crop", true),
    Product("3", "Organic Cotton T-Shirt",
      "Comfortable and sustainable cotton t-shirt made from organic materials. Available in multiple colors and sizes.",
      29.99, "Clothing",
      "https://images.unsplash.com/photo-1521572163474-6864f9cf17ab?w=400&h=400&fit=crop", true),
    Product("4", "Stainless Steel Water Bottle",
      "Eco-friendly water bottle that keeps drinks cold for 24 hours and hot for 12 hours. Perfect for outdoor activities.",
      24.99, "Home & Garden",
      "https://images.unsplash.com/photo-1602143407151-7111542de6e8?w=400&h=400&fit=crop", true),
    Product("5", "Portable Bluetooth Speaker",
      "Compact and powerful speaker with 360-degree sound. Waterproof design perfect for outdoor use.",
      79.99, "Electronics",
      "https://images.unsplash.com/photo-1608043152269-423dbba4e7e1?w=400&h=400&fit=crop", false),
    Product("6", "Leather Wallet",
      "Handcrafted genuine leather wallet with multiple card slots and RFID protection. Classic design for everyday use.",
      49.99, "Accessories",
      "https://images.unsplash.com/photo-1627123424574-724758594e93?w=400&h=400&fit=crop", true),
    Product("7", "Wireless Charging Pad",
      "Fast wireless charging pad compatible with all Qi-enabled devices. Sleek design with LED indicator.",
      39.99, "Electronics",
      "https://images.unsplash.com/photo-1586953208448-b95a79798f07?w=400&h=400&fit=crop", true),
    Product("8", "Yoga Mat",
      "Non-slip yoga mat made from eco-friendly materials. Perfect thickness for comfort during practice.",
      34.99, "Sports",
      "https://images.unsplash.com/photo-1544367567-0f2fcb009e0b?w=400&h=400&fit=crop", true)
  ]

  const Categories: seq<string> :=
    ["All", "Electronics", "Clothing", "Home & Garden", "Accessories", "Sports"]

  function Ids(ps: seq<Product>): (r: seq<string>)
    ensures |r| == |ps| && forall i :: 0 <= i < |ps| ==> r[i] == ps[i].id
  {
    seq(|ps|, i requires 0 <= i < |ps| => ps[i].id)
  }

  function CategoryNames(ps: seq<Product>): (r: seq<string>)
    ensures |r| == |ps| && forall i :: 0 <= i < |ps| ==> r[i] == ps[i].category
  {
    seq(|ps|, i requires 0 <= i < |ps| => ps[i].category)
  }

  /** The catalog ids are "1" to "8", each used once. */
  lemma CatalogIdsDistinct()
    ensures Ids(Products) == ["1", "2", "3", "4", "5", "6", "7", "8"]
    ensures NoDuplicates(Ids(Products))
  {
    assert Ids(Products) == ["1", "2", "3", "4", "5", "6", "7", "8"];
  }

  lemma CatalogCategoryNames()
    ensures CategoryNames(Products) == ["Electronics", "Electronics", "Clothing", "Home & Garden",
                                        "Electronics", "Accessories", "Electronics", "Sports"]
  {
  }

  /** Every product's category is one of the listed categories, and the
      list starts with "All" and repeats nothing. */
  lemma CatalogCategoriesListed()
    ensures Categories[0] == "All"
    ensures NoDuplicates(Categories)
    ensures forall i :: 0 <= i < |Products| ==> Products[i].category in Categories[1..]
  {
    assert Categories[1..] == ["Electronics", "Clothing", "Home & Garden", "Accessories", "Sports"];
  }

  /** Product "5" is the only one out of stock. */
  lemma OnlyProductFiveOutOfStock()
    ensures Filter(Products, (p: Product) => !p.inStock) == [Products[4]]
    ensures Products[4].id == "5"
  {
    var stock := seq(|Products|, i requires 0 <= i < |Products| => Products[i].inStock);
    assert stock == [true, true, true, true, false, true, true, true];
    FilterSingle(Products, (p: Product) => !p.inStock, 4);
  }

  /** All prices are positive. */
  lemma CatalogPricesPositive()
    ensures forall i :: 0 <= i < |Products| ==> Products[i].price > 0.0
  {
  }
}
