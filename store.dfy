/*
 * Values shared by the storefront's pages: identifiers, the result of a
 * query against the hosted tables, and a cart row joined with its artwork.
 */
module Store {

  type UserId = string
  type ArtworkId = string

  datatype Option<+T> = None | Some(value: T)

  /** What a table query hands back: an error object, or the selected rows. */
  datatype Query<+T> = QueryError | Data(rows: T)

  /** The `artworks(id, price, artist_id)` part of a joined cart query; prices are in rupees. */
  datatype Artwork = Artwork(id: ArtworkId, price: real, artistId: UserId)

  /** One row of `cart` selected with its artwork: `id, quantity, artworks(...)`. */
  datatype CartLine = CartLine(cartId: nat, quantity: int, artwork: Artwork)
}
