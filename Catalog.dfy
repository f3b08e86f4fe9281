/**
 * The catalog entities read from the product information store. They are
 * snapshots: nothing in the connector changes them during a pass.
 */
module Catalog {

  /** An association of one type from a product to other products (their identifiers). */
  datatype Association = Association(typeCode: string, products: seq<string>)

  /** A product: its identifier (the remote sku), its family code and its associations. */
  datatype Product = Product(identifier: string, family: string, associations: seq<Association>)
}
