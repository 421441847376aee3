/**
 * The admin settings editor: a working copy of the settings document, edited
 * field by field (contact details, service cards, hero slides), with slides
 * added and removed, and sent back whole on submit. Every edit builds a new
 * document and replaces the working copy; while no document has been loaded
 * every edit does nothing.
 */
module SettingsEditor {
  import opened Base
  import opened Types
  import opened Seqs

  datatype ContactField = Address | Email | Phone
  datatype CardField = CardTitle | CardDescription | CardIcon
  datatype SlideField = Title | Subtitle | Description | CtaText1 | CtaLink1 | CtaText2 | CtaLink2

  // ---------------------------------------------------------------------
  // Field updates
  // ---------------------------------------------------------------------

  function ContactValue(c: ContactInfo, field: ContactField): string {
    match field
    case Address => c.address
    case Email => c.email
    case Phone => c.phone
  }

  /** `{ ...contactInfo, [name]: value }` */
  function SetContact(c: ContactInfo, field: ContactField, value: string): (r: ContactInfo)
    ensures ContactValue(r, field) == value
    ensures forall g :: g != field ==> ContactValue(r, g) == ContactValue(c, g)
  {
    match field
    case Address => c.(address := value)
    case Email => c.(email := value)
    case Phone => c.(phone := value)
  }

  function CardValue(c: ServiceCard, field: CardField): string {
    match field
    case CardTitle => c.title
    case CardDescription => c.description
    case CardIcon => c.icon
  }

  function SetCard(c: ServiceCard, field: CardField, value: string): (r: ServiceCard)
    ensures CardValue(r, field) == value
    ensures forall g :: g != field ==> CardValue(r, g) == CardValue(c, g)
  {
    match field
    case CardTitle => c.(title := value)
    case CardDescription => c.(description := value)
    case CardIcon => c.(icon := value)
  }

  function SlideValue(p: LandingPage, field: SlideField): string {
    match field
    case Title => p.title
    case Subtitle => p.subtitle
    case Description => p.description
    case CtaText1 => p.ctaText1
    case CtaLink1 => p.ctaLink1
    case CtaText2 => p.ctaText2
    case CtaLink2 => p.ctaLink2
  }

  function SetSlide(p: LandingPage, field: SlideField, value: string): (r: LandingPage)
    ensures SlideValue(r, field) == value
    ensures forall g :: g != field ==> SlideValue(r, g) == SlideValue(p, g)
    ensures r.id == p.id && r.imageUrl == p.imageUrl
  {
    match field
    case Title => p.(title := value)
    case Subtitle => p.(subtitle := value)
    case Description => p.(description := value)
    case CtaText1 => p.(ctaText1 := value)
    case CtaLink1 => p.(ctaLink1 := value)
    case CtaText2 => p.(ctaText2 := value)
    case CtaLink2 => p.(ctaLink2 := value)
  }

  /** handleContactChange on a loaded document: only the named contact field changes. */
  function ContactChanged(s: TempleSettings, field: ContactField, value: string): (r: TempleSettings)
    ensures ContactValue(r.contactInfo, field) == value
    ensures forall g :: g != field ==> ContactValue(r.contactInfo, g) == ContactValue(s.contactInfo, g)
    ensures r.logoUrl == s.logoUrl && r.landingPages == s.landingPages && r.serviceCards == s.serviceCards
  {
    s.(contactInfo := SetContact(s.contactInfo, field, value))
  }

  /** handleServiceCardChange: only the named field of the card at index changes. */
  function CardChanged(s: TempleSettings, index: nat, field: CardField, value: string): (r: TempleSettings)
    requires index < |s.serviceCards|
    ensures |r.serviceCards| == |s.serviceCards|
    ensures CardValue(r.serviceCards[index], field) == value
    ensures forall g :: g != field ==> CardValue(r.serviceCards[index], g) == CardValue(s.serviceCards[index], g)
    ensures forall j :: 0 <= j < |s.serviceCards| && j != index ==> r.serviceCards[j] == s.serviceCards[j]
    ensures r.logoUrl == s.logoUrl && r.landingPages == s.landingPages && r.contactInfo == s.contactInfo
  {
    s.(serviceCards := s.serviceCards[index := SetCard(s.serviceCards[index], field, value)])
  }

  /** handleLandingPageChange: only the named field of the slide at index changes. */
  function SlideChanged(s: TempleSettings, index: nat, field: SlideField, value: string): (r: TempleSettings)
    requires index < |s.landingPages|
    ensures |r.landingPages| == |s.landingPages|
    ensures SlideValue(r.landingPages[index], field) == value
    ensures forall g :: g != field ==> SlideValue(r.landingPages[index], g) == SlideValue(s.landingPages[index], g)
    ensures r.landingPages[index].id == s.landingPages[index].id
    ensures forall j :: 0 <= j < |s.landingPages| && j != index ==> r.landingPages[j] == s.landingPages[j]
    ensures r.logoUrl == s.logoUrl && r.contactInfo == s.contactInfo && r.serviceCards == s.serviceCards
  {
    s.(landingPages := s.landingPages[index := SetSlide(s.landingPages[index], field, value)])
  }

  // ---------------------------------------------------------------------
  // Adding and removing slides
  // ---------------------------------------------------------------------

  /** The slide handleAddSlide creates, its id the clock reading in milliseconds. */
  function NewSlide(now: int): LandingPage {
    LandingPage(now, "/assets/images/hero-placeholder.jpg", "New Slide Title", "New Slide Subtitle",
      "A short description for the new slide.", "Learn More", "/about", "Donate", "/donate")
  }

  function SlideAdded(s: TempleSettings, now: int): (r: TempleSettings)
    ensures |r.landingPages| == |s.landingPages| + 1
    ensures r.landingPages[..|s.landingPages|] == s.landingPages
    ensures r.landingPages[|s.landingPages|] == NewSlide(now)
    ensures r.logoUrl == s.logoUrl && r.contactInfo == s.contactInfo && r.serviceCards == s.serviceCards
  {
    s.(landingPages := s.landingPages + [NewSlide(now)])
  }

  function OtherId(id: int): LandingPage -> bool {
    (p: LandingPage) => p.id != id
  }

  /** handleRemoveSlide's new slide list: refused (unchanged) at one slide or fewer. */
  function SlidesAfterRemove(pages: seq<LandingPage>, id: int): (r: seq<LandingPage>)
    ensures |pages| <= 1 ==> r == pages
    ensures |pages| > 1 ==> forall p :: p in r <==> p in pages && p.id != id
    ensures |pages| > 1 ==> forall p :: multiset(r)[p] == if p.id != id then multiset(pages)[p] else 0
  {
    if |pages| <= 1 then pages else FilterMultiset(pages, OtherId(id)); Filter(pages, OtherId(id))
  }

  /** What survives a removal is the remaining slides in their old order. */
  lemma RemoveKeepsOrder(pages: seq<LandingPage>, id: int)
    ensures IsSubsequence(SlidesAfterRemove(pages, id), pages)
  {
    if |pages| > 1 {
      FilterIsSubsequence(pages, OtherId(id));
    } else {
      FilterKeepsAll(pages, (p: LandingPage) => true);
      FilterIsSubsequence(pages, (p: LandingPage) => true);
    }
  }

  predicate DistinctIds(pages: seq<LandingPage>) {
    forall i, j :: 0 <= i < j < |pages| ==> pages[i].id != pages[j].id
  }

  function CountId(pages: seq<LandingPage>, id: int): nat
    decreases |pages|
  {
    if pages == [] then 0 else (if pages[0].id == id then 1 else 0) + CountId(pages[1..], id)
  }

  lemma {:induction false} FilterOtherIdLength(pages: seq<LandingPage>, id: int)
    ensures |Filter(pages, OtherId(id))| == |pages| - CountId(pages, id)
    decreases |pages|
  {
    if pages != [] {
      FilterOtherIdLength(pages[1..], id);
    }
  }

  lemma {:induction false} DistinctCountOne(pages: seq<LandingPage>, i: nat, id: int)
    requires DistinctIds(pages)
    requires i < |pages| && pages[i].id == id
    ensures CountId(pages, id) == 1
    decreases |pages|
  {
    if i == 0 {
      assert forall k :: 0 <= k < |pages[1..]| ==> pages[1..][k].id != id by {
        forall k | 0 <= k < |pages[1..]| ensures pages[1..][k].id != id {
          assert pages[1..][k] == pages[k + 1];
        }
      }
      CountIdAbsent(pages[1..], id);
    } else {
      assert DistinctIds(pages[1..]) by {
        forall a, b | 0 <= a < b < |pages[1..]| ensures pages[1..][a].id != pages[1..][b].id {
          assert pages[1..][a] == pages[a + 1] && pages[1..][b] == pages[b + 1];
        }
      }
      assert pages[1..][i - 1] == pages[i];
      DistinctCountOne(pages[1..], i - 1, id);
    }
  }

  lemma {:induction false} CountIdAbsent(pages: seq<LandingPage>, id: int)
    requires forall k :: 0 <= k < |pages| ==> pages[k].id != id
    ensures CountId(pages, id) == 0
    decreases |pages|
  {
    if pages != [] {
      CountIdAbsent(pages[1..], id);
    }
  }

  /**
   * With distinct ids, removing a slide that is there (from two or more)
   * removes exactly that one, so at least one slide always remains.
   */
  lemma RemoveOneOfDistinct(pages: seq<LandingPage>, i: nat)
    requires DistinctIds(pages)
    requires |pages| > 1 && i < |pages|
    ensures var r := SlidesAfterRemove(pages, pages[i].id);
      |r| == |pages| - 1 >= 1 && pages[i] !in r
  {
    FilterOtherIdLength(pages, pages[i].id);
    DistinctCountOne(pages, i, pages[i].id);
  }

  /**
   * The one-slide guard looks only at the length: two slides that share an
   * id are both removed, leaving no slide at all.
   */
  lemma SharedIdEmptiesList(a: LandingPage, b: LandingPage)
    requires a.id == b.id
    ensures SlidesAfterRemove([a, b], a.id) == []
  {
    assert [a, b][1..] == [b];
    assert [b][1..] == [];
    assert Filter([b], OtherId(a.id)) == [];
  }

  // ---------------------------------------------------------------------
  // The page's state
  // ---------------------------------------------------------------------

  class SettingsPage {
    var settings: Option<TempleSettings>

    /** Shows "Loading settings..." until a document is loaded. */
    constructor ()
      ensures settings == None
    {
      settings := None;
    }

    /** The mount effect: the document getSettings yields (null when the row holds none). */
    method LoadSettings(fetched: Option<TempleSettings>)
      modifies this
      ensures settings == fetched
    {
      settings := fetched;
    }

    method HandleContactChange(field: ContactField, value: string)
      modifies this
      ensures old(settings).None? ==> settings == None
      ensures old(settings).Some? ==> settings == Some(ContactChanged(old(settings).value, field, value))
    {
      if settings.None? {
        return;
      }
      settings := Some(ContactChanged(settings.value, field, value));
    }

    method HandleServiceCardChange(index: nat, field: CardField, value: string)
      requires settings.Some? ==> index < |settings.value.serviceCards|
      modifies this
      ensures old(settings).None? ==> settings == None
      ensures old(settings).Some? ==> settings == Some(CardChanged(old(settings).value, index, field, value))
    {
      if settings.None? {
        return;
      }
      settings := Some(CardChanged(settings.value, index, field, value));
    }

    method HandleLandingPageChange(index: nat, field: SlideField, value: string)
      requires settings.Some? ==> index < |settings.value.landingPages|
      modifies this
      ensures old(settings).None? ==> settings == None
      ensures old(settings).Some? ==> settings == Some(SlideChanged(old(settings).value, index, field, value))
    {
      if settings.None? {
        return;
      }
      settings := Some(SlideChanged(settings.value, index, field, value));
    }

    method HandleAddSlide(now: int)
      modifies this
      ensures old(settings).None? ==> settings == None
      ensures old(settings).Some? ==> settings == Some(SlideAdded(old(settings).value, now))
    {
      if settings.None? {
        return;
      }
      settings := Some(SlideAdded(settings.value, now));
    }

    /** Returns whether the "at least one slide" notice was shown. */
    method HandleRemoveSlide(id: int) returns (refused: bool)
      modifies this
      ensures old(settings).None? ==> settings == None && !refused
      ensures old(settings).Some? ==>
        var s := old(settings).value;
        && refused == (|s.landingPages| <= 1)
        && settings == Some(s.(landingPages := SlidesAfterRemove(s.landingPages, id)))
    {
      refused := false;
      if settings.None? {
        return;
      }
      var s := settings.value;
      if |s.landingPages| <= 1 {
        refused := true;
        return;
      }
      settings := Some(s.(landingPages := Filter(s.landingPages, OtherId(id))));
    }

    /**
     * Sends the whole working document, whichever section's form was
     * submitted, and names that section in the notice; nothing without a document.
     */
    method HandleSubmit(section: string) returns (sent: Option<TempleSettings>, notice: Option<string>)
      ensures sent == settings
      ensures notice.Some? <==> settings.Some?
      ensures notice.Some? ==> notice.value == section + " settings updated successfully!"
    {
      if settings.Some? {
        sent := settings;
        notice := Some(section + " settings updated successfully!");
      } else {
        sent := None;
        notice := None;
      }
    }
  }
}
