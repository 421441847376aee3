/**
 * The home page: the hero carousel over the configured slides, and the guard
 * that shows a loading notice until a non-empty slide list is known. The
 * registration section is the shared registration form.
 */
module Home {
  import opened Base
  import opened Types

  /** goToNext's new index: wrap from the last slide to the first, otherwise advance. */
  function NextIndex(i: nat, n: nat): nat {
    if i == n - 1 then 0 else i + 1
  }

  /** goToNext applied k times. */
  function Advance(i: nat, n: nat, k: nat): nat
    decreases k
  {
    if k == 0 then i else Advance(NextIndex(i, n), n, k - 1)
  }

  /** The index stays in range however often the carousel advances. */
  lemma {:induction false} AdvanceInRange(i: nat, n: nat, k: nat)
    requires i < n
    ensures Advance(i, n, k) < n
    decreases k
  {
    if k > 0 {
      AdvanceInRange(NextIndex(i, n), n, k - 1);
    }
  }

  lemma {:induction false} AdvanceCompose(i: nat, n: nat, a: nat, b: nat)
    ensures Advance(i, n, a + b) == Advance(Advance(i, n, a), n, b)
    decreases a
  {
    if a > 0 {
      AdvanceCompose(NextIndex(i, n), n, a - 1, b);
    }
  }

  /** Before the last slide is passed, advancing k times moves k slides on. */
  lemma {:induction false} AdvanceWithin(i: nat, n: nat, k: nat)
    requires i + k < n
    ensures Advance(i, n, k) == i + k
    decreases k
  {
    if k > 0 {
      AdvanceWithin(i + 1, n, k - 1);
    }
  }

  /** Advancing once per slide comes back to where it started. */
  lemma FullCycleReturns(i: nat, n: nat)
    requires i < n
    ensures Advance(i, n, n) == i
  {
    AdvanceCompose(i, n, n - 1 - i, 1);
    AdvanceWithin(i, n, n - 1 - i);
    assert Advance(i, n, n - i) == 0;
    AdvanceCompose(i, n, n - i, i);
    AdvanceWithin(0, n, i);
  }

  class HeroCarousel {
    const slides: seq<LandingPage>
    var currentIndex: nat

    ghost predicate Valid()
      reads this
    {
      currentIndex < |slides|
    }

    /** Only ever mounted with at least one slide (see Render). */
    constructor (slides: seq<LandingPage>)
      requires |slides| > 0
      ensures this.slides == slides && currentIndex == 0
      ensures Valid()
    {
      this.slides := slides;
      currentIndex := 0;
    }

    /** goToNext, also what the seven-second timer calls. */
    method GoToNext()
      requires Valid()
      modifies this`currentIndex
      ensures Valid()
      ensures currentIndex == (old(currentIndex) + 1) % |slides|
    {
      if currentIndex == |slides| - 1 {
        currentIndex := 0;
      } else {
        currentIndex := currentIndex + 1;
      }
    }

    /** goToSlide: the dot for slide i selects exactly slide i. */
    method GoToSlide(slideIndex: nat)
      requires slideIndex < |slides|
      modifies this`currentIndex
      ensures currentIndex == slideIndex
      ensures Valid()
    {
      currentIndex := slideIndex;
    }
  }

  // ---------------------------------------------------------------------
  // Loading guard
  // ---------------------------------------------------------------------

  /** The part of the settings the home page keeps; the slide list may be missing from a stored document. */
  datatype HomeSettings = HomeSettings(landingPages: Option<seq<LandingPage>>, serviceCards: seq<ServiceCard>)

  datatype Screen = Loading | Sections(slides: seq<LandingPage>, cards: seq<ServiceCard>)

  /** What the page renders: the sections only with a present, non-empty slide list. */
  function Render(settings: Option<HomeSettings>): (s: Screen)
    ensures s.Sections? <==> settings.Some? && settings.value.landingPages.Some? && |settings.value.landingPages.value| > 0
    ensures s.Sections? ==> |s.slides| > 0 && s.slides == settings.value.landingPages.value
  {
    if settings.None? || settings.value.landingPages.None? || |settings.value.landingPages.value| == 0 then Loading
    else Sections(settings.value.landingPages.value, settings.value.serviceCards)
  }

  /**
   * The mount effect: a fetched document replaces the page's settings with
   * its slides and cards; a null document or a failed fetch leaves them as they were.
   */
  function AfterFetch(current: Option<HomeSettings>, fetched: Result<Option<TempleSettings>>): (r: Option<HomeSettings>)
    ensures fetched.Ok? && fetched.value.Some? ==>
      r == Some(HomeSettings(Some(fetched.value.value.landingPages), fetched.value.value.serviceCards))
    ensures !(fetched.Ok? && fetched.value.Some?) ==> r == current
  {
    match fetched
    case Ok(Some(s)) => Some(HomeSettings(Some(s.landingPages), s.serviceCards))
    case _ => current
  }

  /** A document with slides shows the carousel over exactly those slides. */
  lemma FetchedSlidesShown(current: Option<HomeSettings>, s: TempleSettings)
    requires |s.landingPages| > 0
    ensures Render(AfterFetch(current, Ok(Some(s)))) == Sections(s.landingPages, s.serviceCards)
  {
  }
}
