/** Values shared by the cart store, its cache decorator and the checkout coordinator. */
module Models {

  /** The nullable reference the repositories return (`ShoppingCart?`). */
  datatype Option<+T> = None | Some(value: T)

  /**
   * A user's cart: the user name it is filed under and the item identifiers in the order
   * they were submitted (duplicates allowed).
   */
  datatype ShoppingCart = ShoppingCart(userName: string, items: seq<string>)
}
