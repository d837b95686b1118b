/** `PartsCollectionShowcase`: three gallery cards whose "Show 3D" trigger
    opens a 3D viewer for the chosen product, and the viewer's close button. */
module Showcase {
  import opened Wrappers
  import opened Products
  import Gallery

  /** The props the viewer is rendered with. */
  datatype ViewerProps = ViewerProps(modelPath: string, product: Product)

  class PartsCollectionShowcase {
    var selectedProduct: Option<Product>
    var show3DViewer: bool

    /** The viewer flag is set exactly when a product is selected. */
    ghost predicate Valid()
      reads this
    {
      show3DViewer <==> selectedProduct.Some?
    }

    constructor ()
      ensures Valid() && selectedProduct == None && !show3DViewer
    {
      selectedProduct := None;
      show3DViewer := false;
    }

    method HandleView3D(product: Product)
      modifies this
      ensures Valid() && selectedProduct == Some(product) && show3DViewer
    {
      selectedProduct := Some(product);
      show3DViewer := true;
    }

    method Close3DViewer()
      modifies this
      ensures Valid() && selectedProduct == None && !show3DViewer
    {
      show3DViewer := false;
      selectedProduct := None;
    }

    /** The viewer is rendered only when both parts of the state are set, and
        it gets the selected product and that product's model path. */
    function RenderViewer(): (r: Option<ViewerProps>)
      reads this
      ensures r.Some? <==> show3DViewer && selectedProduct.Some?
      ensures r.Some? ==> r.value.product == selectedProduct.value
                          && r.value.modelPath == selectedProduct.value.modelPath
    {
      if show3DViewer && selectedProduct.Some? then
        Some(ViewerProps(selectedProduct.value.modelPath, selectedProduct.value))
      else None
    }

    /** A click on a gallery card's "Show 3D" trigger: the card hands over the
        product it is showing, and the viewer opens on it. */
    method ClickView3D(card: Gallery.GalleryCard)
      requires card.Valid() && card.RenderControls().view3D.Some?
      modifies this
      ensures Valid() && RenderViewer() == Some(ViewerProps(card.CurrentProduct().modelPath, card.CurrentProduct()))
    {
      HandleView3D(card.RenderControls().view3D.value);
    }
  }
}
