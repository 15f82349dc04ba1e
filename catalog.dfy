/** The product record as the storefront's pages and routes read it from the `products` table. */
module Catalog {

  /** A row of the `products` table. `createdAt` is the insertion time, any totally ordered clock value. */
  datatype Product = Product(
    id: string,
    name: string,
    description: string,
    price: int,
    imageUrl: string,
    category: string,
    stock: int,
    createdAt: int)

  /** The category filter `p.category === category`, shared by the product page and the products route. */
  function CategoryTest(category: string): Product -> bool
  {
    (p: Product) => p.category == category
  }
}
