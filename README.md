# DesignHub interaction logic in Dafny

DesignHub is a marketing front end written in React. This project models
the small amount of real logic it contains and proves properties about it:

- **The carousel cursor.** It is an index into a fixed, non-empty list of items.
  The same logic is copied into four components: the gallery card, the hero
  rotator (`Collections`), the image modal and the cross-fading collection card.
  - "next" moves to `(c + 1) % n`.
  - "previous" moves to `(c - 1 + n) % n`.
  - An indicator dot jumps straight to its own index.
- **Hover-zone arrows.** The pointer position in a card (`x`, `width`) decides
  whether the left or right arrow is shown. There is a dead zone of ±40 around
  the midline.
- **Cross-fade auto-advance.** A collection card with more than one image has a
  3000 ms interval. Each tick starts a transition and schedules an 800 ms
  timeout that commits the next index.
- **The image modal.** The home page opens and closes it. The modal keeps its
  own cursor, which is reset only when the `initialIndex` prop changes value.
- **Smaller state machines.** These are the 3D-viewer selection in the parts
  showcase, the contact form's submit cycle, and the viewer's error boundary.
- **Pure lookups.** These are the catalog colour classes, the short
  descriptions, and the background colour taken from an image path.

The modules follow the source components:

| module | component |
|---|---|
| `Carousel` | the shared cursor |
| `HoverZone` | the shared arrow flags |
| `Gallery` | `GalleryCard` |
| `CrossFade` | `CollectionCard` |
| `HeroCarousel` | `Collections` |
| `Modal` | `ImageModal` |
| `Home` | `HomePage` |
| `Showcase` | `PartsCollectionShowcase` |
| `Contact` | `JourneyAndContact` |
| `Viewer3D` | `Product3DViewer` |

`Wrappers` and `Products` hold an option type and the records that are passed
around.

How React state is modelled:

- A component whose state is updated in place becomes a class.
- A `useState` field becomes a class field.
- A handler or timer callback becomes a method. Its `ensures` ties the new state
  to the pure functions in `Carousel` and `CrossFade`.
- The lemmas about those functions carry the properties.
- A render-time expression (flags, indicators, what is shown) becomes a
  function that reads the object.

Consequences the proofs bring out:

- **Reopening the modal at the same card.** Suppose the modal is opened at card
  1, moved to slide 2, closed, and opened at card 1 again. It then shows slide
  2, because the reset effect only runs when `initialIndex` changes.
  `Home.ReopenKeepsNavigatedSlide` proves this sequence.
- **The fourth catalog title.** "Fieldform Archive Collection" has no case in
  either lookup table, so it gets the gray default and the default description.
  The tables still have a case for "Bold Collection", which maps to yellow and
  "Statement pieces". The model follows the code here.

Assumptions the model makes:

- **Valid indices only.** The components do no bounds checks. An empty list, or
  an index that is out of range, makes them index past the end of the list. The
  constructors and the `GoToIndex` methods therefore require a valid index. No
  clamping is invented.
- **Callers always pass valid indices.** Every caller in the source does: the
  indicator buttons list exactly the valid indices, and catalog cards 0–3 open
  a four-entry modal.

## Model

| member | source | states |
|---|---|---|
| Carousel.Next | src/components/GalleryCard.tsx:39-41 | next stays in `[0, n)`; it is `c + 1` before the last item and wraps to 0 after it |
| Carousel.Previous | src/components/GalleryCard.tsx:43-45 | previous stays in `[0, n)`; it is `c - 1` after the first item and wraps to `n - 1` from 0 |
| Carousel.NextPreviousInverse | src/components/GalleryCard.tsx:39-45 | previous after next, and next after previous, return to the original cursor |
| Carousel.SingleItemIsFixedPoint | src/components/GalleryCard.tsx:39-45 | with one item, next and previous both leave the cursor at 0 |
| Carousel.Advance | src/components/Collections.tsx:68-70 | any number of consecutive next steps keeps the cursor in `[0, n)` |
| Carousel.Retreat | src/components/Collections.tsx:72-76 | any number of consecutive previous steps keeps the cursor in `[0, n)` |
| Carousel.AdvanceCompose | src/components/Collections.tsx:68-70 | j next steps followed by k next steps equal j + k next steps |
| Carousel.AdvanceBeforeWrap | src/components/Collections.tsx:68-70 | as long as the end is not passed, k next steps move the cursor by exactly k |
| Carousel.FullCycle | src/components/Collections.tsx:68-70 | n consecutive next steps bring the cursor back to its start |
| Carousel.RetreatUndoesAdvance | src/components/GalleryCard.tsx:39-45 | k previous steps undo k next steps, for every k |
| Carousel.RetreatAfterFirstStep | src/components/GalleryCard.tsx:43-45 | the first of k previous steps can be taken separately, before the other k - 1 |
| Carousel.Step | src/components/GalleryCard.tsx:39-49 | one navigation action keeps the cursor in range; an indicator click sets the cursor to exactly its index |
| Carousel.Run | src/components/Collections.tsx:41-76 | any sequence of next, previous and valid indicator clicks keeps the cursor in `[0, n)` |
| Carousel.Indicators | src/components/GalleryCard.tsx:176-178 | there is one dot per item, and only the dot at the cursor is highlighted |
| Carousel.Cursor.constructor | src/components/GalleryCard.tsx:29 | the cursor starts at the given valid index |
| Carousel.Cursor.GoToNext | src/components/GalleryCard.tsx:39-41 | the new cursor is `Next` of the old one and stays valid |
| Carousel.Cursor.GoToPrevious | src/components/GalleryCard.tsx:43-45 | the new cursor is `Previous` of the old one and stays valid |
| Carousel.Cursor.GoToIndex | src/components/GalleryCard.tsx:47-49 | the cursor becomes exactly the given index |
| HoverZone.ShowLeft | src/components/GalleryCard.tsx:63-64 | `showLeftButton` is a sample that lies left of `width/2 - 40`. `NeverBoth`, `DeadZoneShowsNeither`, `OutsideDeadZoneShowsOne` and `NoSampleShowsNeither` state its properties |
| HoverZone.ShowRight | src/components/GalleryCard.tsx:65-66 | `showRightButton` is a sample that lies right of `width/2 + 40`. The same lemmas state its properties |
| HoverZone.NeverBoth | src/components/GalleryCard.tsx:63-66 | the left and right arrows are never shown together |
| HoverZone.DeadZoneShowsNeither | src/components/GalleryCard.tsx:63-66 | neither arrow is shown when `width/2 - 40 <= x <= width/2 + 40` |
| HoverZone.OutsideDeadZoneShowsOne | src/components/ImageModal.tsx:61-64 | left is shown exactly when `x < width/2 - 40`, and right exactly when `x > width/2 + 40`. So outside the dead zone exactly one arrow shows, the one on the pointer's side of the midline |
| HoverZone.NoSampleShowsNeither | src/components/GalleryCard.tsx:59-66 | once the sample is cleared to null, both flags are false |
| HoverZone.WidthTwoHundredExamples | src/components/GalleryCard.tsx:63-66 | at width 200: x = 50 shows left, x = 100 shows neither, x = 160 shows right |
| Gallery.Normalise | src/components/GalleryCard.tsx:35 | a single product becomes a one-element list; an array is used as it is |
| Gallery.GalleryCard.HasMultipleProducts | src/components/GalleryCard.tsx:37 | `hasMultipleProducts` is more than one product. It gates the hover sample (the `Valid` invariant) and the chrome in `RenderControls` |
| Gallery.GalleryCard.CurrentProduct | src/components/GalleryCard.tsx:36 | `currentProduct` is the product at the cursor, so it is always one of the card's products |
| Gallery.GalleryCard.constructor | src/components/GalleryCard.tsx:29-37 | the card starts at product 0 with no pointer sample |
| Gallery.GalleryCard.GoToNext | src/components/GalleryCard.tsx:39-41 | the gallery cursor moves to `Next`; the hover invariant is kept |
| Gallery.GalleryCard.GoToPrevious | src/components/GalleryCard.tsx:43-45 | the gallery cursor moves to `Previous`; the hover invariant is kept |
| Gallery.GalleryCard.GoToIndex | src/components/GalleryCard.tsx:47-49 | the gallery cursor becomes the clicked index |
| Gallery.GalleryCard.HandleMouseMove | src/components/GalleryCard.tsx:51-57 | the sample is stored only when there are several products; otherwise nothing changes |
| Gallery.GalleryCard.HandleMouseLeave | src/components/GalleryCard.tsx:59-61 | the sample is cleared to null |
| Gallery.GalleryCard.RenderControls | src/components/GalleryCard.tsx:125-188 | nav buttons and the tap hint exist exactly when there are several products. With one product, no arrow shows and there are no indicators. The arrows never show together, and only the current dot is highlighted. The 3D trigger exists exactly when `onView3D` is given and the current product has a model path, and it passes the current product |
| CrossFade.AutoAdvanceArmed | src/components/CollectionCard.tsx:35 | the interval is armed exactly for an image array longer than 1. `Tick` requires it, and `UnarmedNeverTransitions` states what holds without it |
| CrossFade.AfterTick | src/components/CollectionCard.tsx:36-40 | a tick sets the next index to `Next(currentIndex)` and starts the transition. It schedules a commit of that index and leaves `currentIndex`, and every index in range |
| CrossFade.AfterCommit | src/components/CollectionCard.tsx:41-44 | a commit sets `currentIndex` to the oldest scheduled index, ends the transition and drops that timeout |
| CrossFade.CommitKeepsRange | src/components/CollectionCard.tsx:41-44 | after a commit, every index is still in range |
| CrossFade.RepeatedTickSameNext | src/components/CollectionCard.tsx:37-44 | a second tick before the commit yields the same next index and still does not move `currentIndex` |
| CrossFade.Fire | src/components/CollectionCard.tsx:36-44 | one tick or timeout keeps every index in `[0, len)` |
| CrossFade.Run | src/components/CollectionCard.tsx:30-44 | any sequence of ticks and commits keeps every index in `[0, len)` |
| CrossFade.TickFromIdle | src/components/CollectionCard.tsx:36-40 | a tick taken while idle starts exactly one transition toward `Next(currentIndex)` |
| CrossFade.CommitEndsTransition | src/components/CollectionCard.tsx:41-44 | the commit that ends a transition returns to idle and moves the cursor by exactly one |
| CrossFade.Cycles | src/components/CollectionCard.tsx:34-45 | real timing (the 3000 ms interval, re-armed after each 800 ms commit) keeps indices in range |
| CrossFade.CyclesAdvance | src/components/CollectionCard.tsx:34-49 | after k tick/commit cycles from the start, the card is idle at `Advance(0, len, k)`, and the next tick is a proper transition |
| CrossFade.CollectionCard.constructor | src/components/CollectionCard.tsx:30-32 | the card starts at index 0, with next index 0, no transition and no timeout |
| CrossFade.CollectionCard.Tick | src/components/CollectionCard.tsx:36-40 | the interval callback exists only for an image array longer than 1. Its new state is `AfterTick` of the old one |
| CrossFade.CollectionCard.Commit | src/components/CollectionCard.tsx:41-44 | the timeout callback's new state is `AfterCommit` of the old one |
| CrossFade.CollectionCard.GetCurrentImage | src/components/CollectionCard.tsx:51-57 | with no image or an empty string, the result is null, and a string is returned as it is. For an array, the result is the current entry, or entry 0 when the current entry is empty, or undefined when the array is empty |
| CrossFade.CollectionCard.GetNextImage | src/components/CollectionCard.tsx:59-62 | there is an overlay image exactly for an array longer than 1, and it is the entry at `nextImageIndex` |
| CrossFade.CollectionCard.HandleCardClick | src/components/CollectionCard.tsx:64-76 | `onClick` runs exactly when it is given and the card is not `isClickable` |
| CrossFade.CollectionCard.IsClickable | src/components/CollectionCard.tsx:76 | `isClickable` holds for a non-empty image array or a truthy `models`. `ClickableCards` and `HandleCardClick` state its consequences |
| CrossFade.ClickableCards | src/components/CollectionCard.tsx:64-76 | every armed card is clickable and ignores `onClick`. An empty `models` array is truthy, so it makes the card clickable. An empty image array is not clickable when `models` is absent or an empty path |
| CrossFade.CollectionCard.RenderIndicators | src/components/CollectionCard.tsx:201-212 | dots exist only for an armed card, and only the current one is highlighted |
| CrossFade.UnarmedNeverTransitions | src/components/CollectionCard.tsx:34-36 | a card without the interval never transitions, stays at index 0 and has no overlay image |
| HeroCarousel.WrapsAtBothEnds | src/components/Collections.tsx:68-76 | previous from 0 gives 3, and next from 3 gives 0 |
| HeroCarousel.FourStepsReturn | src/components/Collections.tsx:41-47 | four ticks or four next clicks return to the starting slide |
| HeroCarousel.Collections.constructor | src/components/Collections.tsx:14 | the rotator starts at slide 0 of the four |
| HeroCarousel.Collections.IntervalTick | src/components/Collections.tsx:41-47 | the 5000 ms tick moves the cursor to `Next`, the same as `goToNext` |
| HeroCarousel.Collections.GoToNext | src/components/Collections.tsx:68-70 | the cursor moves to `(c + 1) % 4` |
| HeroCarousel.Collections.GoToPrevious | src/components/Collections.tsx:72-76 | the cursor moves to `(c - 1 + 4) % 4` |
| HeroCarousel.Collections.SelectIndicator | src/components/Collections.tsx:131 | an indicator click sets the cursor to that dot's index |
| HeroCarousel.Collections.CurrentCollection | src/components/Collections.tsx:78 | the slide shown is the one at the cursor, so it is always one of the four |
| HeroCarousel.Collections.RenderIndicators | src/components/Collections.tsx:128-136 | there are four dots, and only the one at the cursor is highlighted |
| Modal.InvokesOnClose | src/components/ImageModal.tsx:70-81 | `onClose` is wired to the scrim and the close button, and to nothing else. `Home.HomePage.ClickModal` states its effect |
| Modal.ImageModal.HasMultipleCollections | src/components/ImageModal.tsx:33 | `hasMultipleCollections` is more than one slide. It gates the hover sample (the `Valid` invariant) and the chrome in `Render` |
| Modal.ImageModal.constructor | src/components/ImageModal.tsx:22 | the cursor starts at `initialIndex` |
| Modal.ImageModal.ReceiveInitialIndex | src/components/ImageModal.tsx:28-30 | the cursor is reset to the prop exactly when the prop differs from its last value; otherwise the cursor is kept |
| Modal.ImageModal.GoToNext | src/components/ImageModal.tsx:35-37 | the cursor wraps forward modulo N and stays valid |
| Modal.ImageModal.GoToPrevious | src/components/ImageModal.tsx:39-43 | the cursor wraps backward modulo N and stays valid |
| Modal.ImageModal.GoToIndex | src/components/ImageModal.tsx:45-47 | the cursor becomes the clicked index |
| Modal.ImageModal.HandleMouseMove | src/components/ImageModal.tsx:49-55 | a sample is stored only when there are several slides |
| Modal.ImageModal.HandleMouseLeave | src/components/ImageModal.tsx:57-59 | the sample is cleared and both flags become false |
| Modal.ImageModal.Render | src/components/ImageModal.tsx:61-145 | nothing renders exactly when closed. When open, the slide at the cursor is shown. Nav buttons and dots appear only for several slides, and the arrows never show together |
| Home.ColorClass | src/pages/HomePage.tsx:112-125 | each title maps to blue, orange or yellow exactly for its own case. Gray is for the Metro title and every unknown title |
| Home.ShortDescription | src/pages/HomePage.tsx:127-140 | each known title gets its fixed text; "Explore this collection" is returned exactly for titles without a case |
| Home.CatalogCards | src/pages/HomePage.tsx:246-276 | card k shows catalog entry k with that entry's colour and description, and its click opens the modal at k |
| Home.CatalogCardLooks | src/pages/HomePage.tsx:104-125 | the four cards are blue, orange, gray and gray; the Fieldform card falls back to the default description |
| Home.HomePage.constructor | src/pages/HomePage.tsx:8-14 | the modal starts closed at index 0 |
| Home.HomePage.OpenModal | src/pages/HomePage.tsx:48-53 | `isOpen` becomes true and `initialIndex` becomes i; the modal cursor is reset only if i differs from the previous `initialIndex`; the modal's hover sample is kept |
| Home.HomePage.CloseModal | src/pages/HomePage.tsx:55-57 | `isOpen` becomes false and `initialIndex` is kept; the modal's cursor and sample are untouched |
| Home.HomePage.ClickCatalogCard | src/pages/HomePage.tsx:246-250 | clicking card k opens the modal at k; the modal's hover sample is kept |
| Home.HomePage.ClickExploreAll | src/pages/HomePage.tsx:283 | "Explore All" opens the modal at 0; the modal's hover sample is kept |
| Home.HomePage.ClickModal | src/components/ImageModal.tsx:70-81 | the scrim and the close button close the modal; a click on the content changes nothing |
| Home.HomePage.RenderModal | src/pages/HomePage.tsx:415-420 | the modal renders exactly when `isOpen`, and it shows the catalog entry at its cursor |
| Home.ChangedIndexResets | src/components/ImageModal.tsx:28-30 | open at 2 and then at 0: the cursor ends at 0 |
| Home.ReopenKeepsNavigatedSlide | src/pages/HomePage.tsx:48-57 | open at 1, go next, close, open at 1: the modal shows slide 2 |
| Showcase.PartsCollectionShowcase.constructor | src/components/PartsCollectionShowcase.tsx:19-22 | nothing is selected and the viewer is off; the invariant `show3DViewer <==> selectedProduct != null` holds |
| Showcase.PartsCollectionShowcase.HandleView3D | src/components/PartsCollectionShowcase.tsx:32-35 | the product is selected and the viewer is on; the invariant holds |
| Showcase.PartsCollectionShowcase.Close3DViewer | src/components/PartsCollectionShowcase.tsx:37-40 | the selection is null and the viewer is off; the invariant holds |
| Showcase.PartsCollectionShowcase.RenderViewer | src/components/PartsCollectionShowcase.tsx:104-110 | the viewer renders exactly when both parts of the state are set, with the selected product and its model path |
| Showcase.PartsCollectionShowcase.ClickView3D | src/components/PartsCollectionShowcase.tsx:56-66 | a gallery's 3D trigger opens the viewer on that gallery's current product |
| Contact.StatusAfter | src/components/JourneyAndContact.tsx:43-51 | the outcome is success exactly for a response with status 200, and error for any other status or a thrown error |
| Contact.JourneyAndContact.constructor | src/components/JourneyAndContact.tsx:6-14 | the form starts empty, not submitting, with status idle |
| Contact.JourneyAndContact.HandleInputChange | src/components/JourneyAndContact.tsx:16-24 | the named field takes the value, and every other field and flag is unchanged |
| Contact.JourneyAndContact.BeginSubmit | src/components/JourneyAndContact.tsx:26-29 | submitting becomes true, the status becomes idle, and the form data is kept |
| Contact.JourneyAndContact.CompleteSubmit | src/components/JourneyAndContact.tsx:43-54 | status 200 gives success and clears all three fields. Any other outcome gives error and keeps the data. Submitting is false afterwards |
| Contact.JourneyAndContact.RenderSubmitButton | src/components/JourneyAndContact.tsx:163-173 | the button is disabled and shows "Sending..." exactly while submitting |
| Contact.JourneyAndContact.RenderBanners | src/components/JourneyAndContact.tsx:151-161 | each banner shows exactly when the status matches it, so never both |
| Viewer3D.Includes | src/components/Product3DViewer.tsx:25-28 | `includes` is a case-sensitive substring test that tries every starting position. `IncludesIffOccurs` ties it to a definition by position |
| Viewer3D.ShiftOccurrence | src/components/Product3DViewer.tsx:25-28 | an occurrence in the path's tail is an occurrence in the path, one position later |
| Viewer3D.UnshiftOccurrence | src/components/Product3DViewer.tsx:25-28 | an occurrence past the path's first position is an occurrence in its tail, one position earlier |
| Viewer3D.IncludesIffOccurs | src/components/Product3DViewer.tsx:25-28 | the computed case-sensitive `includes` is true exactly when the word occurs in the path at some position |
| Viewer3D.FirstLetterAbsent | src/components/Product3DViewer.tsx:25-28 | a word whose first letter is not in the path does not occur in it |
| Viewer3D.ColorFromImagePath | src/components/Product3DViewer.tsx:24-30 | Yellow is tested first, so "Yellow" anywhere gives `#D2B481`. Blue, Orange and Gray follow, each picked only when no earlier word occurs. When none occurs the result is `#000000` |
| Viewer3D.YellowWinsOverBlue | src/components/Product3DViewer.tsx:25-26 | a path containing both "Blue" and "Yellow" gets the yellow colour |
| Viewer3D.LowerCaseIsNoMatch | src/components/Product3DViewer.tsx:24-29 | matching is case-sensitive, so "yellow" gives black |
| Viewer3D.ChooseScene | src/components/Product3DViewer.tsx:212-216 | the model is loaded exactly for a non-empty path, with that path; otherwise the fallback cube is used |
| Viewer3D.ErrorBoundary.constructor | src/components/Product3DViewer.tsx:259-262 | `hasError` starts false |
| Viewer3D.ErrorBoundary.CatchError | src/components/Product3DViewer.tsx:264-266 | `hasError` becomes true (no member resets it) |
| Viewer3D.ErrorBoundary.Render | src/components/Product3DViewer.tsx:272-278 | the fallback is shown exactly while `hasError`; otherwise the scene chosen for the model path is shown |

## Left out

- **3D rendering.** The scene, camera, lights, GLTF loading, `OrbitControls`, the
  rotating meshes, and the files `src/models/Scene.tsx` and
  `src/models/Backpack.tsx` are calls into a rendering library. They contain no
  decision logic of their own.
- **The lighting sliders** in `Product3DViewer` use `parseFloat` and `toFixed`.
  This is floating-point formatting.
- **The floating lights** on the home page use `Math.random`.
- **Layout and styling.** Tailwind class strings, the medium/large layout
  variants, and the presentational components `InfoPathCard` and
  `SignatureCollections` are not modelled.
- **Browser APIs.** `scrollIntoView`, `document.querySelector`, the
  `IntersectionObserver` visibility flag in `Collections`, and
  `getBoundingClientRect` are left out. Pointer `x` and `width` are taken as
  inputs, already relative to the container.
- **The e-mail service call and environment variables.** The call's outcome is
  a parameter of `CompleteSubmit`: a status code, or a thrown error.
- **Real time.**
  - There is no real clock: ticks and timeouts are events.
  - The intervals are cleared and re-armed when `currentIndex` or `image`
    changes. The re-armed callback reads the index that was just committed,
    and the model reflects this: `AfterTick` always starts from the current
    `currentIndex`. Only the resulting shift in tick timing is left out.
  - `Cycles` assumes the schedule the constants produce, where a commit always
    fires before the next tick.
- **The modal's default index.** `ImageModal` defaults `initialIndex` to 0
  when the prop is omitted. `Modal.ImageModal` always takes an explicit index.
  Its only caller, the home page, always passes one.
- **Error logging.** The `console.error` calls that log a failed send in
  `JourneyAndContact` and a 3D error in `Product3DViewer` are output only.
  They are not modelled.
- **Pointer coordinates are exact.** `HoverZone` takes the pointer's `x` and
  `width` as exact `real` numbers, not JavaScript floating-point numbers. The
  comparisons against `width / 2 ± 40` are therefore exact.
- **Unmounting.** `CollectionCard` clears its interval on unmount but not a
  pending 800 ms timeout. The model makes no claim about unmount safety.
- **The gap between a render and its effect.** React renders once with the new
  `initialIndex` before the modal's reset effect runs. The model applies the
  effect immediately.
- **Static content.** `products.json` is not part of this model. The
  long description texts of the home-page catalog are page copy and are left
  empty there.
- **Unused product fields.** Only the `ProductData` fields that some decision
  depends on are kept. `size`, `price`, `bestseller` and `emoji` only affect
  what text is shown.
- **The `GalleryCard` click handler.** `handleCardClick` calls `onClick` when it
  is given. No state or decision depends on it.
- **`handleInputChange` field names.** JavaScript's computed key names could add
  any field. Only the three inputs the form has are modelled.
