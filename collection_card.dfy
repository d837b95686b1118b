/** `CollectionCard`: a card whose image array, when it holds more than one
    image, auto-advances with a cross-fade. Every 3000 ms interval tick
    computes the next index, marks the card as transitioning and schedules an
    800 ms timeout; that timeout, when it fires, commits the index it captured
    and ends the transition. The timers are modelled as the events `Tick` and
    `Commit`; every scheduled timeout is kept, in firing order, in
    `pendingCommits`. */
module CrossFade {
  import opened Wrappers
  import Carousel

  /** Period of the auto-advance interval, and delay of the commit timeout
      each tick schedules. Time is not modelled; `Cycles` encodes the order the
      two produce. */
  const TickIntervalMs: nat := 3000
  const CommitDelayMs: nat := 800

  /** The `image` prop: absent, one source, or an array of sources. */
  datatype ImageProp = NoImage | OneImage(src: string) | ImageList(srcs: seq<string>)

  /** The `models` prop: absent, one path, or an array of paths. */
  datatype ModelsProp = NoModels | OneModel(path: string) | ModelList(paths: seq<string>)

  /** The interval exists only for an image array of more than one entry. */
  predicate AutoAdvanceArmed(image: ImageProp)
  {
    image.ImageList? && |image.srcs| > 1
  }

  /** `currentIndex`, `nextImageIndex`, `isTransitioning` and the indices
      captured by the timeouts still to fire. */
  datatype FadeState = FadeState(
    currentIndex: int,
    nextImageIndex: int,
    isTransitioning: bool,
    pendingCommits: seq<int>)

  const Initial: FadeState := FadeState(0, 0, false, [])

  /** Every index the state holds or will commit is an index of the array. */
  ghost predicate InRange(s: FadeState, len: int)
  {
    && 0 <= s.currentIndex < len
    && 0 <= s.nextImageIndex < len
    && forall k :: 0 <= k < |s.pendingCommits| ==> 0 <= s.pendingCommits[k] < len
  }

  /** The interval callback: next index from the current one, start the
      transition, schedule the commit of that index. */
  function AfterTick(s: FadeState, len: int): (t: FadeState)
    requires InRange(s, len)
    ensures InRange(t, len)
    ensures t.currentIndex == s.currentIndex && t.isTransitioning
    ensures t.nextImageIndex == Carousel.Next(s.currentIndex, len)
    ensures t.pendingCommits == s.pendingCommits + [t.nextImageIndex]
  {
    var nextIndex := (s.currentIndex + 1) % len;
    FadeState(s.currentIndex, nextIndex, true, s.pendingCommits + [nextIndex])
  }

  /** The oldest scheduled timeout fires: commit its index, end the transition. */
  function AfterCommit(s: FadeState): (t: FadeState)
    requires |s.pendingCommits| > 0
    ensures t.currentIndex == s.pendingCommits[0] && !t.isTransitioning
    ensures t.nextImageIndex == s.nextImageIndex
    ensures t.pendingCommits == s.pendingCommits[1..]
  {
    FadeState(s.pendingCommits[0], s.nextImageIndex, false, s.pendingCommits[1..])
  }

  lemma CommitKeepsRange(s: FadeState, len: int)
    requires InRange(s, len) && |s.pendingCommits| > 0
    ensures InRange(AfterCommit(s), len)
  {
    assert forall k :: 0 <= k < |s.pendingCommits| - 1 ==> s.pendingCommits[1..][k] == s.pendingCommits[k + 1];
  }

  /** A second tick before the commit computes the same next index, because
      the current index only changes at the commit. */
  lemma RepeatedTickSameNext(s: FadeState, len: int)
    requires InRange(s, len)
    ensures AfterTick(AfterTick(s, len), len).nextImageIndex == AfterTick(s, len).nextImageIndex
    ensures AfterTick(AfterTick(s, len), len).currentIndex == s.currentIndex
  {
  }

  datatype TimerEvent = IntervalTick | TimeoutCommit

  /** One timer event. A commit with no timeout scheduled cannot happen; it
      leaves the state as it is. */
  function Fire(s: FadeState, len: int, e: TimerEvent): (t: FadeState)
    requires InRange(s, len)
    ensures InRange(t, len)
  {
    match e
    case IntervalTick => AfterTick(s, len)
    case TimeoutCommit =>
      if |s.pendingCommits| > 0 then CommitKeepsRange(s, len); AfterCommit(s) else s
  }

  /** Any sequence of ticks and commits keeps every index in `[0, len)`. */
  function Run(s: FadeState, len: int, events: seq<TimerEvent>): (t: FadeState)
    requires InRange(s, len)
    ensures InRange(t, len)
    decreases |events|
  {
    if events == [] then s else Run(Fire(s, len, events[0]), len, events[1..])
  }

  /** Idle: one image shown, no timeout outstanding. */
  predicate Idle(s: FadeState)
  {
    !s.isTransitioning && s.pendingCommits == []
  }

  /** Transitioning: exactly one timeout outstanding, committing the index
      that follows the current one. */
  predicate Transitioning(s: FadeState, len: int)
    requires 0 <= s.currentIndex < len
  {
    && s.isTransitioning
    && s.nextImageIndex == Carousel.Next(s.currentIndex, len)
    && s.pendingCommits == [s.nextImageIndex]
  }

  /** A tick taken while idle starts exactly one transition. */
  lemma TickFromIdle(s: FadeState, len: int)
    requires InRange(s, len) && Idle(s)
    ensures Transitioning(AfterTick(s, len), len)
  {
  }

  /** The commit that ends a transition advances the cursor by exactly one. */
  lemma CommitEndsTransition(s: FadeState, len: int)
    requires InRange(s, len) && Transitioning(s, len)
    ensures Idle(AfterCommit(s))
    ensures AfterCommit(s).currentIndex == Carousel.Next(s.currentIndex, len)
  {
  }

  /** The schedule the timer constants produce: since `CommitDelayMs` is
      shorter than `TickIntervalMs`, each commit fires before the next tick,
      and the interval is re-armed when the cursor changes. The state after
      `cycles` tick/commit pairs from the initial state. */
  function Cycles(len: int, cycles: nat): (s: FadeState)
    requires len > 1
    ensures InRange(s, len)
    decreases cycles
  {
    if cycles == 0 then Initial
    else
      var before := Cycles(len, cycles - 1);
      CommitKeepsRange(AfterTick(before, len), len);
      AfterCommit(AfterTick(before, len))
  }

  /** Each cycle moves the cursor on by one and returns to idle; in between
      the card is transitioning. */
  lemma {:induction false} CyclesAdvance(len: int, cycles: nat)
    requires len > 1
    ensures Idle(Cycles(len, cycles))
    ensures Cycles(len, cycles).currentIndex == Carousel.Advance(0, len, cycles)
    ensures Transitioning(AfterTick(Cycles(len, cycles), len), len)
    decreases cycles
  {
    if cycles > 0 {
      CyclesAdvance(len, cycles - 1);
      var before := Cycles(len, cycles - 1);
      TickFromIdle(before, len);
      CommitEndsTransition(AfterTick(before, len), len);
    }
  }

  /** What a click on the card does. */
  datatype ClickOutcome = InvokeOnClick | NoAction

  class CollectionCard {
    const image: ImageProp
    const models: ModelsProp
    const hasOnClick: bool

    var currentIndex: int
    var nextImageIndex: int
    var isTransitioning: bool
    var pendingCommits: seq<int>

    function State(): FadeState
      reads this
    {
      FadeState(currentIndex, nextImageIndex, isTransitioning, pendingCommits)
    }

    /** Without the interval the state never leaves its initial value. */
    ghost predicate Valid()
      reads this
    {
      if AutoAdvanceArmed(image) then InRange(State(), |image.srcs|) else State() == Initial
    }

    constructor (image: ImageProp, models: ModelsProp, hasOnClick: bool)
      ensures Valid() && State() == Initial
      ensures this.image == image && this.models == models && this.hasOnClick == hasOnClick
    {
      this.image := image;
      this.models := models;
      this.hasOnClick := hasOnClick;
      currentIndex, nextImageIndex, isTransitioning, pendingCommits := 0, 0, false, [];
    }

    /** The 3000 ms interval callback; it exists only when armed. */
    method Tick()
      requires Valid() && AutoAdvanceArmed(image)
      modifies this
      ensures Valid() && State() == AfterTick(old(State()), |image.srcs|)
    {
      var nextIndex := (currentIndex + 1) % |image.srcs|;
      nextImageIndex := nextIndex;
      isTransitioning := true;
      pendingCommits := pendingCommits + [nextIndex];
    }

    /** The 800 ms timeout callback of the oldest tick not yet committed. */
    method Commit()
      requires Valid() && |pendingCommits| > 0
      modifies this
      ensures Valid() && State() == AfterCommit(old(State()))
    {
      CommitKeepsRange(State(), |image.srcs|);
      currentIndex := pendingCommits[0];
      isTransitioning := false;
      pendingCommits := pendingCommits[1..];
    }

    /** `getCurrentImage`; None stands for `null` or `undefined`. For an array
        the current entry is used unless it is the empty string, in which case
        the first entry is. */
    function GetCurrentImage(): (r: Option<string>)
      reads this
      requires Valid()
      ensures image.NoImage? ==> r == None
      ensures image.OneImage? ==> r == if image.src == "" then None else Some(image.src)
      ensures image.ImageList? && |image.srcs| == 0 ==> r == None
      ensures image.ImageList? && |image.srcs| > 0 ==>
                r == Some(if image.srcs[currentIndex] != "" then image.srcs[currentIndex] else image.srcs[0])
    {
      match image
      case NoImage => None
      case OneImage(src) => if src == "" then None else Some(src)
      case ImageList(srcs) =>
        if 0 <= currentIndex < |srcs| && srcs[currentIndex] != "" then Some(srcs[currentIndex])
        else if |srcs| > 0 then Some(srcs[0])
        else None
    }

    /** `getNextImage`: only an armed card has an overlay image. */
    function GetNextImage(): (r: Option<string>)
      reads this
      requires Valid()
      ensures r.Some? <==> AutoAdvanceArmed(image)
      ensures r.Some? ==> r.value == image.srcs[nextImageIndex]
    {
      if !image.ImageList? || |image.srcs| <= 1 then None else Some(image.srcs[nextImageIndex])
    }

    /** `isClickable`: a non-empty image array, or a truthy `models`. */
    predicate IsClickable()
    {
      (image.ImageList? && |image.srcs| > 0)
      || (match models
          case NoModels => false
          case OneModel(path) => path != ""
          case ModelList(_) => true)
    }

    /** `handleCardClick`: `onClick` runs exactly for cards that are not
        clickable in the sense of `isClickable`. */
    function HandleCardClick(): (outcome: ClickOutcome)
      ensures outcome == InvokeOnClick <==> hasOnClick && !IsClickable()
    {
      if (image.ImageList? && |image.srcs| > 0) || (models.OneModel? && models.path != "") || models.ModelList? then NoAction
      else if hasOnClick then InvokeOnClick
      else NoAction
    }

    /** The indicator dots, shown only for an armed card. */
    function RenderIndicators(): (r: seq<bool>)
      reads this
      requires Valid()
      ensures !AutoAdvanceArmed(image) ==> r == []
      ensures AutoAdvanceArmed(image) ==> |r| == |image.srcs| && r[currentIndex]
      ensures AutoAdvanceArmed(image) ==> forall i :: 0 <= i < |r| && i != currentIndex ==> !r[i]
    {
      if AutoAdvanceArmed(image) then Carousel.Indicators(currentIndex, |image.srcs|) else []
    }
  }

  /** A card that is not armed never starts a transition: no tick can occur
      and so its state stays initial. */
  lemma UnarmedNeverTransitions(card: CollectionCard)
    requires card.Valid() && !AutoAdvanceArmed(card.image)
    ensures !card.isTransitioning && card.currentIndex == 0
    ensures card.GetNextImage() == None
  {
  }

  /** Which cards count as clickable, and so never pass the click to
      `onClick`. Every armed card does, and so does an empty `models` array,
      which is truthy. A card with an empty image array and an empty model
      path, or with no models at all, does not. */
  lemma ClickableCards(card: CollectionCard)
    ensures AutoAdvanceArmed(card.image) ==> card.IsClickable() && card.HandleCardClick() == NoAction
    ensures card.models == ModelList([]) ==> card.IsClickable()
    ensures card.image == ImageList([]) && (card.models == NoModels || card.models == OneModel("")) ==> !card.IsClickable()
  {
  }
}
