/**
 * A product fetched from the product catalogue: its name, its Unique Product
 * Code and its free-text ingredient statement. The fields are set once by the
 * constructor and only read afterwards, so the product is a value.
 */
module FoodProducts {

  /** The destructors `name`, `upc` and `ingredients` are the three getters. */
  datatype FoodProduct = FoodProduct(name: string, upc: string, ingredients: string)

  /** The constructor stores the three strings exactly as given, and the getters return them. */
  lemma ConstructorStoresFields(name: string, upc: string, ingredients: string)
    ensures var p := FoodProduct(name, upc, ingredients);
      p.name == name && p.upc == upc && p.ingredients == ingredients
  {
  }

  /**
   * Being immutable, a product is determined by what its getters return: two
   * products that agree on the three fields are the same product.
   */
  lemma ProductDeterminedByGetters(p: FoodProduct, q: FoodProduct)
    ensures p == q <==> p.name == q.name && p.upc == q.upc && p.ingredients == q.ingredients
  {
  }
}
