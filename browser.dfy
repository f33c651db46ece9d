/**
  * The browser state the hooks read and write, as plain fields: the three `localStorage`
  * records the storefront uses and `document.title`. A record that is absent is None.
  */
module Browser {
  import opened Wrappers

  /** One line of the cart: a product and how many of it. */
  datatype CartItem = CartItem(productId: int, quantity: int)

  /** What the 'cart' record holds: a JSON array of cart lines, or text that does not parse. */
  datatype CartRecord = Encoded(items: seq<CartItem>) | Unparsable

  class Storage {
    /** The 'cart' record, written by the cart hook. */
    var cart: Option<CartRecord>
    /** The 'authToken' record, written by the API clients. */
    var authToken: Option<string>
    /** The 'token' record, read by the notification service and hook. */
    var token: Option<string>

    constructor (cart: Option<CartRecord>, authToken: Option<string>, token: Option<string>)
      ensures this.cart == cart && this.authToken == authToken && this.token == token
    {
      this.cart := cart;
      this.authToken := authToken;
      this.token := token;
    }
  }

  class Document {
    var title: string

    constructor (title: string)
      ensures this.title == title
    {
      this.title := title;
    }
  }

  /** JavaScript truthiness of a value that is a string or null: null and "" are falsy. */
  predicate Truthy(s: Option<string>) {
    s.Some? && s.value != ""
  }
}
