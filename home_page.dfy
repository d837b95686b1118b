/** `HomePage`: the page that owns the modal state `{isOpen, initialIndex}`,
    renders the four catalog cards (each opening the modal at its own index)
    and keeps one `ImageModal` mounted for the whole page lifetime. */
module Home {
  import opened Wrappers
  import opened Products
  import Modal
  import Carousel

  datatype ModalState = ModalState(isOpen: bool, initialIndex: int)

  /** The catalog, in display order. The long description texts are page
      copy that no decision depends on and are left empty here. */
  const Catalog: seq<CollectionData> := [
    CollectionData("/images/Collections/BlueCollection.png", "Overland Signal Collection", ""),
    CollectionData("/images/Collections/OrangeCollection.png", "Urban Atlas Collection", ""),
    CollectionData("/images/Collections/GrayCollection.png", "Metro Stillness Collection", ""),
    CollectionData("/images/Collections/YellowCollection.png", "Fieldform Archive Collection", "")
  ]

  /** The titles the two lookup tables have a case for. */
  const KnownTitles: set<string> := {
    "Overland Signal Collection", "Urban Atlas Collection", "Metro Stillness Collection", "Bold Collection"
  }

  /** `getColorClass`: blue, orange and yellow each for exactly one title;
      gray for the Metro title and for every title without a case. */
  function ColorClass(title: string): (r: string)
    ensures r == "blue" <==> title == "Overland Signal Collection"
    ensures r == "orange" <==> title == "Urban Atlas Collection"
    ensures r == "yellow" <==> title == "Bold Collection"
    ensures r == "gray" <==> title == "Metro Stillness Collection" || title !in KnownTitles
  {
    match title
    case "Overland Signal Collection" => "blue"
    case "Urban Atlas Collection" => "orange"
    case "Metro Stillness Collection" => "gray"
    case "Bold Collection" => "yellow"
    case _ => "gray"
  }

  const DefaultShortDescription: string := "Explore this collection"

  /** `getShortDescription`: a fixed text per known title, the default text
      for any other. */
  function ShortDescription(title: string): (r: string)
    ensures r == DefaultShortDescription <==> title !in KnownTitles
    ensures title == "Overland Signal Collection" ==> r == "Streetwear & urban style"
    ensures title == "Urban Atlas Collection" ==> r == "Retro-inspired designs"
    ensures title == "Metro Stillness Collection" ==> r == "Clean & sophisticated"
    ensures title == "Bold Collection" ==> r == "Statement pieces"
  {
    match title
    case "Overland Signal Collection" => "Streetwear & urban style"
    case "Urban Atlas Collection" => "Retro-inspired designs"
    case "Metro Stillness Collection" => "Clean & sophisticated"
    case "Bold Collection" => "Statement pieces"
    case _ => DefaultShortDescription
  }

  /** One rendered catalog card: its slide, its colour class, its short
      description and the index its click opens the modal at. */
  datatype CatalogCard = CatalogCard(item: CollectionData, colorClass: string, shortDescription: string, opensAt: int)

  function CatalogCards(): (cards: seq<CatalogCard>)
    ensures |cards| == |Catalog|
    ensures forall k :: 0 <= k < |cards| ==> cards[k].item == Catalog[k] && cards[k].opensAt == k
    ensures forall k :: 0 <= k < |cards| ==>
              cards[k].colorClass == ColorClass(Catalog[k].title)
              && cards[k].shortDescription == ShortDescription(Catalog[k].title)
  {
    seq(|Catalog|, k requires 0 <= k < |Catalog| =>
      CatalogCard(Catalog[k], ColorClass(Catalog[k].title), ShortDescription(Catalog[k].title), k))
  }

  /** The first three cards are blue, orange and gray; the fourth title has
      no case of its own, so it gets the gray default and the default text. */
  lemma CatalogCardLooks()
    ensures CatalogCards()[0].colorClass == "blue"
    ensures CatalogCards()[1].colorClass == "orange"
    ensures CatalogCards()[2].colorClass == "gray"
    ensures CatalogCards()[3].colorClass == "gray"
    ensures CatalogCards()[3].shortDescription == DefaultShortDescription
  {
    assert Catalog[3].title !in KnownTitles;
  }

  class HomePage {
    var modalState: ModalState
    const modal: Modal.ImageModal

    ghost predicate Valid()
      reads this, modal, modal.carousel
    {
      && modal.Valid()
      && modal.collections == Catalog
      && modal.initialIndex == modalState.initialIndex
    }

    constructor ()
      ensures Valid() && fresh(modal) && fresh(modal.carousel)
      ensures modalState == ModalState(false, 0) && modal.carousel.index == 0
    {
      modalState := ModalState(false, 0);
      modal := new Modal.ImageModal(Catalog, 0);
    }

    /** `openModal(i)`, then the modal's reset effect for the new prop. */
    method OpenModal(i: int)
      requires Valid() && 0 <= i < |Catalog|
      modifies this, modal, modal.carousel
      ensures Valid() && modalState == ModalState(true, i)
      ensures modal.carousel.index == if i == old(modalState.initialIndex) then old(modal.carousel.index) else i
      ensures modal.mousePosition == old(modal.mousePosition)
    {
      modalState := ModalState(true, i);
      modal.ReceiveInitialIndex(i);
    }

    /** `closeModal`: only `isOpen` changes; the mounted modal keeps its cursor. */
    method CloseModal()
      requires Valid()
      modifies this
      ensures Valid() && modalState == ModalState(false, old(modalState.initialIndex))
      ensures unchanged(modal, modal.carousel)
    {
      modalState := modalState.(isOpen := false);
    }

    /** A click on catalog card `k`. */
    method ClickCatalogCard(k: int)
      requires Valid() && 0 <= k < |Catalog|
      modifies this, modal, modal.carousel
      ensures Valid() && modalState == ModalState(true, k)
      ensures modal.carousel.index == if k == old(modalState.initialIndex) then old(modal.carousel.index) else k
      ensures modal.mousePosition == old(modal.mousePosition)
    {
      OpenModal(CatalogCards()[k].opensAt);
    }

    /** "Explore All Collections" opens the modal at the first slide. */
    method ClickExploreAll()
      requires Valid()
      modifies this, modal, modal.carousel
      ensures Valid() && modalState == ModalState(true, 0)
      ensures modal.carousel.index == if old(modalState.initialIndex) == 0 then old(modal.carousel.index) else 0
      ensures modal.mousePosition == old(modal.mousePosition)
    {
      OpenModal(0);
    }

    /** A click inside the modal: the scrim and the close button close it. */
    method ClickModal(target: Modal.ClickTarget)
      requires Valid()
      modifies this
      ensures Valid() && unchanged(modal, modal.carousel)
      ensures modalState == if Modal.InvokesOnClose(target) then old(modalState).(isOpen := false) else old(modalState)
    {
      if Modal.InvokesOnClose(target) {
        CloseModal();
      }
    }

    function RenderModal(): (v: Option<Modal.ModalView>)
      reads this, modal, modal.carousel
      requires Valid()
      ensures v.None? <==> !modalState.isOpen
      ensures v.Some? ==> v.value.item == Catalog[modal.carousel.index]
    {
      modal.Render(modalState.isOpen)
    }
  }

  /** Open at card 2, then at card 0: the new `initialIndex` resets the cursor. */
  method ChangedIndexResets() returns (shown: int)
    ensures shown == 0
  {
    var page := new HomePage();
    page.OpenModal(2);
    page.OpenModal(0);
    shown := page.modal.carousel.index;
  }

  /** Open at card 1, step to the next slide, close, open at card 1 again:
      the index did not change, so the reset effect does not run and the
      modal shows slide 2, the one last navigated to. */
  method ReopenKeepsNavigatedSlide() returns (shown: int)
    ensures shown == 2
  {
    var page := new HomePage();
    page.ClickCatalogCard(1);
    page.modal.GoToNext();
    page.ClickModal(Modal.Scrim);
    page.ClickCatalogCard(1);
    shown := page.modal.carousel.index;
  }
}
