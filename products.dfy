/** The read-only records the components are handed by their parents. */
module Products {

  /** A product card entry (`ProductData`). Only the fields that some decision
      of the core depends on are kept. */
  datatype Product = Product(name: string, description: string, imgPath: string, modelPath: string)

  /** One collection slide (`CollectionData`): image source, title, description. */
  datatype CollectionData = CollectionData(src: string, title: string, description: string)
}
