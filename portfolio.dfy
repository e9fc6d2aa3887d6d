/**
 * app/portfolio/page.tsx: the list of project cards. An empty or failed
 * fetch shows an empty state; otherwise each project gets a card linking
 * to its page, with up to three tags and a `+N` badge for the rest.
 *
 * The page reads the capitalised fields `Title`, `Description`, `Date`
 * and `Tags`, which the projects returned by `getProjects` do not have;
 * `CardAsWritten` and `Render` model that reading, and `Card` and
 * `RenderIntended` the evidently intended one on the declared fields.
 */
module Portfolio {
  import opened Common
  import StrapiQueries

  const MaxTags := 3

  /** The tag row: the tags shown and the `+N` badge, if any. */
  datatype TagRow = TagRow(shown: seq<string>, more: Option<nat>)

  /** `Tags && Tags.length > 0 && (…slice(0, 3)…, Tags.length > 3 && +{Tags.length - 3})`. */
  function TagRowOf(tags: Option<seq<string>>): (r: Option<TagRow>)
    ensures r.Some? <==> tags.Some? && |tags.value| > 0
    ensures r.Some? ==> |r.value.shown| == (if |tags.value| < MaxTags then |tags.value| else MaxTags)
    ensures r.Some? ==> forall i :: 0 <= i < |r.value.shown| ==> r.value.shown[i] == tags.value[i]
    ensures r.Some? ==> (r.value.more.Some? <==> |tags.value| > MaxTags)
    ensures r.Some? && r.value.more.Some? ==> r.value.more.value == |tags.value| - MaxTags
  {
    if tags.None? || |tags.value| == 0 then None
    else
      var ts := tags.value;
      var shown := if |ts| < MaxTags then ts else ts[..MaxTags];
      Some(TagRow(shown, if |ts| > MaxTags then Some(|ts| - MaxTags) else None))
  }

  /** Shown tags plus the badge's count account for every tag exactly once. */
  lemma TagRowAccountsForAllTags(tags: seq<string>)
    requires |tags| > 0
    ensures var r := TagRowOf(Some(tags)).value; |r.shown| + r.more.GetOr(0) == |tags|
    ensures var r := TagRowOf(Some(tags)).value; r.shown + tags[|r.shown|..] == tags
  {
  }

  datatype PortfolioCard = PortfolioCard(href: string, title: Option<string>, description: Option<string>, tags: Option<TagRow>)

  datatype PortfolioView = EmptyState | Cards(cards: seq<PortfolioCard>)

  /** `/portfolio/${project.slug}`. */
  function Href(slug: string): (h: string)
    ensures StartsWith(h, "/portfolio/") && h[|"/portfolio/"|..] == slug
  {
    "/portfolio/" + slug
  }

  /** A card as written: the capitalised fields are missing from the fetched record, so they read as `undefined`. */
  function CardAsWritten(p: StrapiQueries.ProjectData): (c: PortfolioCard)
    ensures c.href == Href(p.slug) && c.title.None? && c.description.None? && c.tags.None?
  {
    PortfolioCard(Href(p.slug), None, None, TagRowOf(None))
  }

  /** A card on the declared fields of the project. */
  function Card(p: StrapiQueries.ProjectData): (c: PortfolioCard)
    ensures c.href == Href(p.slug) && c.title == Some(p.title) && c.description == p.description
    ensures c.tags == TagRowOf(Some(p.tags))
  {
    PortfolioCard(Href(p.slug), Some(p.title), p.description, TagRowOf(Some(p.tags)))
  }

  /** As written, a tagged project shows neither its title nor its tags. */
  lemma AsWrittenDropsTitleAndTags(p: StrapiQueries.ProjectData)
    requires |p.tags| > 0
    ensures CardAsWritten(p).tags.None? && Card(p).tags.Some?
    ensures CardAsWritten(p).title.None? && Card(p).title.Some?
  {
  }

  /** The page as written: the empty state for `null` or `[]`, else one `CardAsWritten` per project, in fetched order. */
  function Render(projects: Option<seq<StrapiQueries.ProjectData>>): (v: PortfolioView)
    ensures v.EmptyState? <==> projects.None? || |projects.value| == 0
    ensures v.Cards? ==> |v.cards| == |projects.value|
    ensures v.Cards? ==> forall i :: 0 <= i < |v.cards| ==> v.cards[i] == CardAsWritten(projects.value[i])
  {
    if projects.None? || |projects.value| == 0 then EmptyState
    else Cards(seq(|projects.value|, i requires 0 <= i < |projects.value| => CardAsWritten(projects.value[i])))
  }

  /** The page reading the declared fields: the same list with one `Card` per project. */
  function RenderIntended(projects: Option<seq<StrapiQueries.ProjectData>>): (v: PortfolioView)
    ensures v.EmptyState? <==> projects.None? || |projects.value| == 0
    ensures v.Cards? ==> |v.cards| == |projects.value|
    ensures v.Cards? ==> forall i :: 0 <= i < |v.cards| ==> v.cards[i] == Card(projects.value[i])
  {
    if projects.None? || |projects.value| == 0 then EmptyState
    else Cards(seq(|projects.value|, i requires 0 <= i < |projects.value| => Card(projects.value[i])))
  }

  /**
   * The two pages show the same cards in the same order with the same
   * links; the page as written shows no title, description or tags on any
   * of them.
   */
  lemma RenderDiffersOnlyInCardText(projects: Option<seq<StrapiQueries.ProjectData>>)
    ensures Render(projects).EmptyState? <==> RenderIntended(projects).EmptyState?
    ensures Render(projects).Cards? ==> |Render(projects).cards| == |RenderIntended(projects).cards|
    ensures Render(projects).Cards? ==> forall i :: 0 <= i < |Render(projects).cards| ==>
      Render(projects).cards[i] == RenderIntended(projects).cards[i].(title := None, description := None, tags := None)
  {
  }

  /** Distinct slugs give distinct links. */
  lemma LinksFollowSlugs(projects: seq<StrapiQueries.ProjectData>, i: nat, j: nat)
    requires i < |projects| && j < |projects| && projects[i].slug != projects[j].slug
    ensures Render(Some(projects)).cards[i].href != Render(Some(projects)).cards[j].href
  {
    var hi := Render(Some(projects)).cards[i].href;
    var hj := Render(Some(projects)).cards[j].href;
    assert hi[|"/portfolio/"|..] == projects[i].slug;
    assert hj[|"/portfolio/"|..] == projects[j].slug;
  }
}
