/** The records the client code passes around (the application's `@/types`),
    with the fields of their rows that the modelled components show or pass on;
    the model itself reads only the ids and a product's prices. */
module Types {

  import opened Wrappers

  /** A track row of the `songs` table. */
  datatype Song = Song(id: string, userId: string, author: string, title: string,
                       songPath: string, imagePath: string)

  /** The signed-in user as the auth provider reports it. */
  datatype User = User(id: string)

  /** A subscription row whose status is `trialing` or `active`. */
  datatype Subscription = Subscription(id: string, status: string)

  /** A price of a product, as listed in the subscribe dialog. */
  datatype Price = Price(id: string, interval: string)

  /** A product with its optional list of prices (`product.prices?`). */
  datatype Product = Product(id: string, prices: Option<seq<Price>>)

  /** A transient notification: `toast.error`, `toast.success` or plain `toast`. */
  datatype Notice = ErrorToast(text: string) | SuccessToast(text: string) | InfoToast(text: string)

  /** What a backend call that reports `{ error }` came back with, or that it threw. */
  datatype Outcome = Ok | Error(message: string) | Threw(message: string)
}
