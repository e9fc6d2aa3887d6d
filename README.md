# Portfolio site core, modelled in Dafny

This project models the logic of a personal portfolio site built with Next.js
and a Strapi CMS. The site has three parts:

- **Rendering CMS content.** A project body is a list of typed blocks: rich text,
  image, carousel, video, before/after comparison slider and statistics chart.
  A rich-text tree is turned into elements carrying formatting marks.
- **Talking to the CMS.** The CMS client builds media URLs, request URLs,
  headers and query strings. The query helpers turn failures into empty
  defaults. A webhook revalidates the project pages when the CMS reports a
  change. A bootstrap migration copies legacy project fields.
- **Page behaviour.** This covers:
  - host-based routing of the CV subdomain;
  - the contact form's validation and submission states;
  - the scroll-driven blur, reveal and background effects;
  - the theme toggle;
  - themed logos;
  - the progressive-blur layer stack;
  - typography defaults;
  - page metadata;
  - the loading, error and content states of the home, about and portfolio pages.

There is one Dafny module per source file. Every module except the two scroll-blur ones (`ScrollBlurZones` and `ScrollBlurEffect`) imports `Common`, which
holds `Option`, `Result`, JavaScript truthiness (`Truthy`, `TruthyInt`), the
`||` fallbacks (`OrString`, `OrInt`), the object spread `{...a, ...b}`
(`Spread`), and string helpers.

The modules follow the form of their source:

- **Pure code** becomes datatypes, functions and lemmas: the block renderers,
  the rich-text transform, the middleware, the webhook, metadata, typography,
  the progressive blur and the portfolio page.
- **Code that mutates state** becomes classes with `modifies` clauses. These are:
  - the comparison slider's position and dragging flag;
  - the video element driven by its visibility observer;
  - the scroll scenes, with their trigger registry and section styles;
  - the about-page reveal state;
  - the contact form;
  - the themed logo's mounted/drawer/SVG state;
  - the theme store;
  - the page loading states.
- **Loops** become methods proved against specification functions:
  - the CMS migration runs over an array of documents;
  - `fetchAPI` appends query entries in a loop;
  - the observer processes its entries in a loop;
  - the scroll setup creates triggers in a loop.

Inputs the code reads from the outside world become parameters:

- the environment variables;
- the fetch response;
- the `host` header;
- DOM measurements;
- the `IntersectionObserver` entries;
- whether the browser allows autoplay;
- `window.innerWidth`;
- the resolved theme;
- the email predicate of the validation library.

The slider and blur arithmetic uses `real`.

## Model

| member | source | states |
|---|---|---|
| ProjectBlocks.Key | components/project-blocks/index.tsx:20 | The React key starts with the block's `__component` followed by `-`. |
| ProjectBlocks.SameIdDifferentKindsDifferentKeys | components/project-blocks/index.tsx:20 | Two blocks with the same id but different kinds get different keys. |
| ProjectBlocks.SameKindDifferentIdsDifferentKeys | components/project-blocks/index.tsx:20 | Two blocks of the same kind with different ids get different keys; the id is printed injectively. |
| ProjectBlocks.KnownKindsDifferEarly | components/project-blocks/index.tsx:22-37 | The six known block tags already differ within their first 17 characters. |
| ProjectBlocks.KeysIdentifyKnownBlocks | components/project-blocks/index.tsx:20-37 | Among known blocks, equal keys imply equal kind and equal id, so keys never collide. |
| ProjectBlocks.RenderOne | components/project-blocks/index.tsx:21-43 | Routing is by `__component` alone. Each of the six tags goes to its own renderer, with the title only for image, carousel and slider. An unknown tag gives a null entry. |
| ProjectBlocks.Warnings | components/project-blocks/index.tsx:40-41 | There are at most as many warnings as blocks, and none when every block is known. |
| ProjectBlocks.Render | components/project-blocks/index.tsx:14-47 | A missing or empty list renders nothing. Otherwise there is exactly one entry per block, in order, each keyed and rendered by `RenderOne`, plus the warnings. |
| ProjectBlocks.UnknownBlockDoesNotStopOthers | components/project-blocks/index.tsx:19-44 | Inserting an unknown block adds one null entry. Every other entry is exactly as it would be without it, and the warnings are those of the blocks before, then the unknown block's, then those of the blocks after. |
| ProjectBlocks.WarningsAround | components/project-blocks/index.tsx:19-44 | An unknown block between two runs of blocks puts its one warning between their warnings. |
| ProjectBlocks.WarningsOfConcat | components/project-blocks/index.tsx:19-44 | The warnings of two bodies joined are the two lists of warnings joined, so there is one warning per unknown block, in order. |
| ProjectBlocks.TitleOnlyReachesImagesAndCarousels | components/project-blocks/index.tsx:21-38 | The project title changes the output only for image and carousel blocks. The slider receives it but does not use it. |
| RichTextBlock.Render | components/project-blocks/rich-text-block.tsx:8-16 | The block renders nothing iff `content` is absent. Otherwise its output is the rich-text renderer applied to the array, one element per block and never a legacy image. |
| RichTextBlock.EmptyContentKeepsWrapper | components/project-blocks/rich-text-block.tsx:9-15 | An empty `content` array still renders the wrapper, with no elements inside. |
| RichText.MarkList | lib/strapi-blocks-renderer.tsx:59-73 | Each of the five mark wrappers is present iff its flag is set. |
| RichText.WrapAddsMarks | lib/strapi-blocks-renderer.tsx:57-75 | Wrapping adds exactly the given wrappers, in order, outside the existing ones, and leaves the wrapped node intact. |
| RichText.MarkedTextNesting | lib/strapi-blocks-renderer.tsx:57-75 | Formatted text nests strong, em, u, s and code from inner to outer, around the plain text. |
| RichText.BoldItalic | lib/strapi-blocks-renderer.tsx:59-64 | Bold and italic text gives `<em><strong>text</strong></em>`. |
| RichText.RenderChild | lib/strapi-blocks-renderer.tsx:39-76 | A child renders nothing iff it has neither text nor children. With children it is `li` for `list-item` and `span` otherwise. Text becomes the marked text. |
| RichText.NestedChildrenInOrder | lib/strapi-blocks-renderer.tsx:43-51 | Nested children render one for one, in order. The node's own text and marks are ignored. |
| RichText.RenderChildren | lib/strapi-blocks-renderer.tsx:81 | An absent child list stays absent. A present one renders one node per child, in order. |
| RichText.HeadingLevel | lib/strapi-blocks-renderer.tsx:86 | The level is 2 for a missing or zero level, and otherwise the given level, with no clamping. |
| RichText.RenderBlock | lib/strapi-blocks-renderer.tsx:78-115 | Each block type gets its own element around its rendered children: paragraph `p`, heading `h<level>`, list `ol` iff its format is `ordered` else `ul`, list-item `li`, quote `blockquote`, code `pre`/`code`, link `a` with the block's url. An unknown type is a paragraph. |
| RichText.RenderBlocks | lib/strapi-blocks-renderer.tsx:129 | There is one element per block, in order. |
| RichText.RenderRichText | lib/strapi-blocks-renderer.tsx:117-160 | Nothing is rendered for undefined input or a legacy object without content. The array form renders its blocks with no image. The legacy image appears iff `Image.url` is non-empty. Its source is that URL resolved against the CMS base, and its alt falls back to `Section image`. |
| RichText.WrapKeepsText | lib/strapi-blocks-renderer.tsx:57-75 | Mark wrappers do not change the visible text. |
| RichText.RenderChildKeepsText | lib/strapi-blocks-renderer.tsx:39-76 | Rendering an inline node keeps exactly its text, in document order. |
| ProjectBlockTypes.PictureOf | components/project-blocks/image-block.tsx:22-27 | The source is the resolved media URL. Alt falls back when missing or empty. Width and height fall back to 1920 and 1080 when missing or zero. |
| ProjectBlockTypes.PictureHasPositiveSize | components/project-blocks/image-block.tsx:25-26 | With non-negative stored sizes, the rendered size is always positive. |
| ProjectBlockTypes.Caption | components/project-blocks/image-block.tsx:31-35 | A caption element is present iff the caption is non-empty, and it shows that caption. |
| ImageBlock.Sizes | components/project-blocks/image-block.tsx:15-18 | `full` maps to `100vw` and `small` to the 28rem rule. Anything else, including absent, maps to the contained rule, and the three cases are exclusive. |
| ImageBlock.Render | components/project-blocks/image-block.tsx:10-38 | The block renders nothing iff there is no image. Otherwise the picture falls back to the project title for alt, the sizes follow `Sizes`, and the caption is present iff non-empty, showing the block's own caption text. |
| ImageBlock.AltFallsBackToTitle | components/project-blocks/image-block.tsx:24 | Without alt text, the alt is the project title. With alt text, the title does not matter. |
| CarouselBlock.RenderSlide | components/project-blocks/carousel-block.tsx:26-49 | A slide is a video iff its MIME type starts with `video/`; a missing MIME type gives an image. An image slide uses the title and 1920×1080 fallbacks, with the responsive sizes `SlideSizes`. |
| CarouselBlock.RenderSlides | components/project-blocks/carousel-block.tsx:25-52 | There is one slide per media item, in order. |
| CarouselBlock.Render | components/project-blocks/carousel-block.tsx:11-65 | An absent or empty slide list renders nothing. Otherwise the block shows the rendered slides, with a caption iff it is non-empty; the caption shown is the block's caption text. |
| CarouselBlock.SlidesCompose | components/project-blocks/carousel-block.tsx:25-52 | Rendering a concatenation of slide lists equals concatenating their renderings. |
| CarouselBlock.VideoSlidesByMime | components/project-blocks/carousel-block.tsx:27-49 | Slide i is a video exactly when media i has a `video/` MIME type. |
| VideoBlock.Render | components/project-blocks/video-block.tsx:42-93 | A URL gives the embed mode, even when a file is also present. Otherwise a file gives the hosted video at the resolved URL, and with neither nothing renders. The caption is present iff non-empty, and it is the block's caption text. |
| VideoBlock.ObserverOnlyForHostedVideo | components/project-blocks/video-block.tsx:16-17 | An observer is installed exactly when the hosted player is shown. An embed with a file never gets one. |
| VideoBlock.VideoElement.constructor | components/project-blocks/video-block.tsx:73-80 | The video starts paused, since it is not `autoPlay`. |
| VideoBlock.VideoElement.OnEntries | components/project-blocks/video-block.tsx:21-31 | After a batch of entries, the playing state is their in-order fold. An intersecting entry plays, unless play is refused; any other entry pauses. |
| VideoBlock.LastEntryDecides | components/project-blocks/video-block.tsx:22-30 | A final non-intersecting entry leaves the video paused. A final intersecting entry with autoplay allowed leaves it playing. |
| VideoBlock.RefusedAutoplayNeverStarts | components/project-blocks/video-block.tsx:24-26 | A rejected `play()` is swallowed. A paused video stays paused whatever the entries. |
| ComparisonSliderBlock.Clamp | components/project-blocks/comparison-slider-block.tsx:30 | `min(max(x, lo), hi)` lies in `[lo, hi]`. It is `x` inside the interval and the nearer bound outside it. |
| ComparisonSliderBlock.PositionAt | components/project-blocks/comparison-slider-block.tsx:27-30 | The position lies in [0, 100]. It is 0 left of the container, 100 right of it, and the exact percentage in between. |
| ComparisonSliderBlock.Slider.constructor | components/project-blocks/comparison-slider-block.tsx:15-17 | The slider starts at position 50 and not dragging. |
| ComparisonSliderBlock.Slider.HandleMove | components/project-blocks/comparison-slider-block.tsx:24-31 | With no container the position is unchanged; otherwise it is the clamped percentage. The dragging flag is untouched and the position stays in range. |
| ComparisonSliderBlock.Slider.MouseDown | components/project-blocks/comparison-slider-block.tsx:33-35 | Mousedown or touchstart sets dragging and keeps the position. |
| ComparisonSliderBlock.Slider.MouseUp | components/project-blocks/comparison-slider-block.tsx:37-39 | Mouseup, mouseleave or touchend clears dragging and keeps the position. |
| ComparisonSliderBlock.Slider.MouseMove | components/project-blocks/comparison-slider-block.tsx:41-44 | A mouse move changes the position only while dragging and with a container, and then to `PositionAt`. |
| ComparisonSliderBlock.Slider.TouchMove | components/project-blocks/comparison-slider-block.tsx:46-50 | A touch move follows the first touch point whenever one exists, whether or not the handle was grabbed. |
| ComparisonSliderBlock.Render | components/project-blocks/comparison-slider-block.tsx:19-113 | Nothing renders iff either image is missing. The clip inset is 100 minus the position and the handle sits at the position. Alts fall back to `Before` and `After`. Labels show iff non-empty, and each shows the block's own label text. |
| ComparisonSliderBlock.ClipStaysInside | components/project-blocks/comparison-slider-block.tsx:77-92 | For a valid position, the clip inset and the handle offset both stay within 0..100. |
| ComparisonSliderBlock.Drag | components/project-blocks/comparison-slider-block.tsx:33-61 | Press, move and release leaves the handle under the pointer and the slider not dragging. |
| ComparisonSliderBlock.Hover | components/project-blocks/comparison-slider-block.tsx:41-44 | Moving the mouse without pressing never moves the handle. |
| StatsBlock.ChartType | components/project-blocks/stats-block.tsx:41 | The chart type is `chart_type` when non-empty, else `number-only`. |
| StatsBlock.Variant | components/project-blocks/stats-block.tsx:45 | The variant is the `<chartType>_variant` field when non-empty, else `default`. |
| StatsBlock.FeaturesOf | components/project-blocks/stats-block.tsx:48-52 | Legend, grid and axes are on unless explicitly false. Dots and labels are off unless explicitly true. |
| StatsBlock.DefaultFeatures | components/project-blocks/stats-block.tsx:48-52 | With no toggles set, legend, grid and axes are shown, and dots and labels are not. |
| StatsBlock.CardOf | components/project-blocks/stats-block.tsx:60-77 | A card shows the value, the label, and the suffix iff it is non-empty; the suffix shown is the item's own. Its note is the context when non-empty, else the description. |
| StatsBlock.CurveOf | components/project-blocks/stats-block.tsx:107 | `linear` maps to linear, `step` to step, and anything else to natural. |
| StatsBlock.PieInnerRadius | components/project-blocks/stats-block.tsx:231-264 | The inner radius is 60 iff the variant is donut, donut-text or donut-active, and otherwise 0. |
| StatsBlock.Palette | components/project-blocks/stats-block.tsx:239 | `(i mod 5) + 1` is always in 1..5, and equals i + 1 for the first five items. |
| StatsBlock.PaletteCycles | components/project-blocks/stats-block.tsx:239 | The palette repeats every five items. |
| StatsBlock.ColourConfig | components/project-blocks/stats-block.tsx:234-243 | The pie colour config has exactly one key per distinct item name. |
| StatsBlock.ConfigColourIsLastOccurrence | components/project-blocks/stats-block.tsx:234-243 | Because the reduce spreads by name, a name gets the colour of its last occurrence. |
| StatsBlock.DistinctNamesGetOwnColour | components/project-blocks/stats-block.tsx:234-243 | With distinct names, slice i gets palette colour i. |
| StatsBlock.Names | components/project-blocks/stats-block.tsx:91-95 | The chart data names are the item labels, one per item, in order. |
| StatsBlock.ChartFor | components/project-blocks/stats-block.tsx:54-370 | A chart exists iff the type is `number-only` or one of the six chart kinds. Each type gets its own chart: number-only gives `CardOf` per item; area and line use `CurveOf(variant)`; area is stacked or gradient by variant; bar is horizontal iff the variant says so; line and radar draw dots for the `dots` variant or the toggle; a pie uses `PieInnerRadius` and colours slice i by its name's palette entry; radar sets the circle grid and fill opacity by variant; radial colours bar i with palette colour i. |
| StatsBlock.Render | components/project-blocks/stats-block.tsx:38-371 | Nothing renders for an absent or empty item list or an unknown type. Otherwise the chart is `ChartFor` of the type, variant and toggles. Point i is item i's label and value, and the series label is the first item's suffix or `Value`. The description shows iff non-empty, and it is the block's description text. |
| StatsBlock.NumberCardsInOrder | components/project-blocks/stats-block.tsx:55-77 | Without a chart type, there is one card per item, in order, each built by `CardOf`. |
| StatsBlock.PieSlicesFollowPalette | components/project-blocks/stats-block.tsx:230-243 | A pie whose item labels are distinct colours slice i with palette colour i. |
| ScrollBlurZones.StyleAt | app/components/ScrollBlurEffect.tsx:40-56 | The style is clear on [0.1, 0.9]. Below 0.1 the opacity is p/0.1; above 0.9 the blur is 15·(p−0.9)/0.1. |
| ScrollBlurZones.BlurTracksOpacity | app/components/ScrollBlurEffect.tsx:42-56 | In every zone, blur = 15·(1 − opacity). |
| ScrollBlurZones.StyleInRange | app/components/ScrollBlurEffect.tsx:40-56 | For p in [0, 1], the blur is in [0, 15] and the opacity in [0, 1]. |
| ScrollBlurZones.EndsAreHidden | app/components/ScrollBlurEffect.tsx:42-51 | Both p = 0 and p = 1 give blur 15 and opacity 0. |
| ScrollBlurZones.Symmetric | app/components/ScrollBlurEffect.tsx:42-56 | f(p) = f(1 − p). |
| ScrollBlurZones.ContinuousAtZoneEdges | app/components/ScrollBlurEffect.tsx:42-56 | Both fade formulas meet the clear style exactly at 0.1 and 0.9. |
| ScrollBlurZones.OpacityLipschitz | app/components/ScrollBlurEffect.tsx:42-56 | The opacity changes by at most 10 times the change in progress, so it never jumps. |
| AppScrollBlurEffect.ColourAt | app/components/ScrollBlurEffect.tsx:22-28 | A section has a colour iff its index is within the five-colour palette. |
| AppScrollBlurEffect.NextColour | app/components/ScrollBlurEffect.tsx:74 | As written: the next palette entry if it exists, else the section's own colour. |
| AppScrollBlurEffect.LastOfThreeFadesToAnotherColour | app/components/ScrollBlurEffect.tsx:74 | As written, the last section of a three-section page fades to yellow, not to its own colour. |
| AppScrollBlurEffect.IntendedNextColour | app/components/ScrollBlurEffect.tsx:74 | Corrected: the last section fades to its own colour, and any other section to the next section's colour. |
| AppScrollBlurEffect.IntendedDiffersOnlyOnShortPages | app/components/ScrollBlurEffect.tsx:74 | The corrected and as-written targets differ only for the last section of a page with fewer than five sections. |
| AppScrollBlurEffect.BackgroundAt | app/components/ScrollBlurEffect.tsx:72-86 | As written: below progress 0.5 the background is the section's own colour. From 0.5 on it is a blend from that colour to `NextColour`, with a parameter in [0, 1] over [0.5, 1]. |
| AppScrollBlurEffect.BlendEndpoints | app/components/ScrollBlurEffect.tsx:84 | The blend parameter is 0 at progress 0.5 and 1 at progress 1. |
| AppScrollBlurEffect.IntendedBackgroundAt | app/components/ScrollBlurEffect.tsx:72-86 | Corrected: the same rule, blending towards `IntendedNextColour`. |
| AppScrollBlurEffect.IntendedLastSectionHoldsItsColour | app/components/ScrollBlurEffect.tsx:72-86 | With the corrected target, the last section blends to its own colour. The corrected background differs from the written one only there, and only on a page with fewer than five sections. |
| AppScrollBlurEffect.SectionTriggers | app/components/ScrollBlurEffect.tsx:30-89 | Each section creates two triggers, a blur trigger then a colour trigger, in section order. |
| AppScrollBlurEffect.Scene.constructor | app/components/ScrollBlurEffect.tsx:13-19 | The scene starts with no triggers, no section styles and no background. |
| AppScrollBlurEffect.Scene.Setup | app/components/ScrollBlurEffect.tsx:13-89 | Without refs or sections, no triggers are created. Otherwise exactly `SectionTriggers(n)` are appended, and no styles change. |
| AppScrollBlurEffect.Scene.OnBlurUpdate | app/components/ScrollBlurEffect.tsx:38-62 | The section's style becomes `StyleAt(progress)`, and nothing else changes. |
| AppScrollBlurEffect.Scene.OnColourUpdate | app/components/ScrollBlurEffect.tsx:72-87 | The body background becomes `BackgroundAt`, the rule as written, and nothing else changes. |
| AppScrollBlurEffect.Scene.Teardown | app/components/ScrollBlurEffect.tsx:91-93 | Every registered trigger is killed, including ones this effect did not create. |
| AppScrollBlurEffect.OneBlurTriggerPerSection | app/components/ScrollBlurEffect.tsx:19-63 | Section i has a blur trigger iff i < n, so zero sections give no triggers. |
| ScrollBlurEffect.HiddenIsStartOfFade | components/ScrollBlurEffect.tsx:32 | The initial blur 15 and opacity 0 equal the formula's value at progress 0. |
| ScrollBlurEffect.SmoothScene.constructor | components/ScrollBlurEffect.tsx:12-13 | The scene starts with no triggers, no styles, no smoother and no cleanup. |
| ScrollBlurEffect.SmoothScene.Setup | components/ScrollBlurEffect.tsx:15-63 | With refs attached, the smoother is created. Every section is set hidden and gets one trigger, and a cleanup is installed only when there is a section. Without refs nothing changes. |
| ScrollBlurEffect.SmoothScene.OnUpdate | components/ScrollBlurEffect.tsx:40-61 | The section's style becomes `StyleAt(progress)`, and nothing else changes. |
| ScrollBlurEffect.SmoothScene.Unmount | components/ScrollBlurEffect.tsx:65-70 | With a cleanup installed, all triggers and the smoother are killed; without one, nothing is. |
| ScrollBlurEffect.SmootherLeaksWithoutSections | components/ScrollBlurEffect.tsx:19-29 | With zero sections, the smoother is created but still alive after unmount. |
| ScrollBlurEffect.FullCleanupWithSections | components/ScrollBlurEffect.tsx:19-70 | With at least one section, unmount kills every trigger and the smoother. |
| AboutClient.DecisionFor | app/about/AboutClient.tsx:39-54 | The group reveals iff its top is below 0.7 × the height, hides iff above, and is kept iff exactly at it. |
| AboutClient.Apply | app/about/AboutClient.tsx:33-78 | An unattached group is unchanged. Otherwise the group becomes shown or hidden, or is kept, per `DecisionFor`. |
| AboutClient.ApplyIdempotent | app/about/AboutClient.tsx:33-78 | Two scroll events at the same position have the effect of one. |
| AboutClient.ApplyKeepsTwoStates | app/about/AboutClient.tsx:31-78 | Starting hidden or shown, a group is only ever hidden or shown. |
| AboutClient.RevealState.constructor | app/about/AboutClient.tsx:19-22 | Before the effect runs, the items are visible and no listener is installed. |
| AboutClient.RevealState.HandleScroll | app/about/AboutClient.tsx:33-79 | Each group is updated by `Apply`, and the listener state is unchanged. |
| AboutClient.RevealState.Setup | app/about/AboutClient.tsx:23-83 | Without a scroller nothing changes. Otherwise all items are hidden, one scroll pass runs at once, and the listener is installed. |
| AboutClient.RevealState.Teardown | app/about/AboutClient.tsx:84-86 | The listener is removed and the styles are kept. |
| AboutClient.SetupRevealsOnlyVisibleGroups | app/about/AboutClient.tsx:31-82 | After setup, a group at or below the threshold line stays hidden and one above it is shown. |
| AboutClient.CompanyLogo | app/about/AboutClient.tsx:128-146 | A company shows its logo iff the URL resolves, with the company name as alt; otherwise it shows the name. |
| AboutClient.Render | app/about/AboutClient.tsx:89-172 | The avatar appears iff its URL resolves, at the resolved URL, with alt falling back to the title. The heading and bio are the title and description. The companies section appears iff the experience list is non-empty, with logo i equal to `CompanyLogo` of company i. The skills section appears iff the skills are non-empty, and shows exactly them. |
| AboutClient.EmptyListIsNeverAnimated | app/about/AboutClient.tsx:119-127 | Without experience, the companies ref is never attached, so scrolling never touches its style. |
| Strapi.ApiUrl | lib/strapi.ts:1 | The base is the environment variable when set and non-empty, else `http://localhost:1337`. |
| Strapi.StrapiUrl | lib/strapi.ts:63-65 | The URL is the base followed by the path. |
| Strapi.MediaUrl | lib/strapi.ts:67-71 | The result is null iff the URL is null, undefined or empty. A URL starting with `http` is returned unchanged; any other is the base followed by it. |
| Strapi.MediaUrlIdempotent | lib/strapi.ts:67-71 | With a base starting with `http`, resolving twice equals resolving once. |
| Strapi.Stringify | lib/strapi.ts:30 | `String(value)`: a string is itself, a boolean is `true` or `false`, and a number is its decimal text. |
| Strapi.AppendQuery | lib/strapi.ts:28-32 | The existing parameters are kept, then one stringified parameter is added per query entry, in insertion order. |
| Strapi.Headers | lib/strapi.ts:34-40 | The headers always contain the JSON content type. `Authorization: Bearer <token>` is present iff a token is configured, and there are no other keys. |
| Strapi.PrepareRequest | lib/strapi.ts:23-47 | The request goes to `/api<endpoint>` on the base. It carries the query in order, the headers, the cache mode (default `no-store`) and the tags. |
| Strapi.FetchResult | lib/strapi.ts:42-60 | The call succeeds iff the response is OK with a parsed body, returning its `data`. A non-OK status fails with that status. |
| StrapiQueries.BaseQueryKeys | lib/strapi-queries.ts:277-284 | The fixed query holds body populate, four thumbnail fields and the date sort, with distinct keys and no filter or page-size key. |
| StrapiQueries.ProjectsQuery | lib/strapi-queries.ts:277-292 | The query starts with the fixed part. The tag filter is present iff `tag` is truthy and the page size iff `limit` is truthy, so a limit of 0 adds nothing. Keys stay distinct. |
| StrapiQueries.ProjectBySlugRequest | lib/strapi-queries.ts:308-319 | The request filters on slug equality and is tagged `projects` and `project-<slug>`. |
| StrapiQueries.FixedRequestsTaggedByEndpoint | lib/strapi-queries.ts:259-627 | Every getter with a fixed endpoint tags its cache with that endpoint's name. The singletons use default caching, and career chapters and certificates ask for 1000 entries. |
| StrapiQueries.CatalogueRequests | lib/strapi-queries.ts:421-473 | Tools and businesses are fetched with `populate=*`, page size 1000 and no-store caching. Career chapters share that query. |
| StrapiQueries.OrEmpty | lib/strapi-queries.ts:300-303 | A collection getter's failure becomes `[]`; success passes the data through. |
| StrapiQueries.OrNull | lib/strapi-queries.ts:266-269 | A singleton getter's failure becomes null; success passes the data through. |
| StrapiQueries.GetSingleton | lib/strapi-queries.ts:259-269 | The getter sends its request and returns the data iff the fetch succeeds, else null, and never throws. |
| StrapiQueries.GetCollection | lib/strapi-queries.ts:421-436 | The getter sends its request and returns the data iff the fetch succeeds, else `[]`, and never throws. |
| StrapiQueries.GetProjects | lib/strapi-queries.ts:272-304 | The request goes to `/api/projects`, tagged `projects` and uncached. Its search starts with the stringified fixed query. It then holds the tag filter iff `tag` is truthy and the page size iff `limit` is truthy, and nothing else. The result is the data or `[]`. |
| StrapiQueries.ProjectBySlugResult | lib/strapi-queries.ts:320-324 | The result is the first project iff the fetch succeeded with a non-empty list, else null. |
| StrapiQueries.ProjectBySlugFindsFirst | lib/strapi-queries.ts:306-324 | Against a store filtered by slug, the result is the first stored project with that slug, or null if there is none. |
| Middleware.Decide | middleware.ts:4-25 | Every request gets exactly one outcome. On the cv host, `/` is rewritten to `/cv`. A path not starting with `/cv`, `/_next` or `/api` is redirected with 301, changing only the hostname. Everything else passes through. |
| Middleware.MissingHostPassesThrough | middleware.ts:5 | A missing host header counts as `''` and passes through. |
| Middleware.PrefixIsNotASegment | middleware.ts:17 | The prefix test is a plain `startsWith`, so `/cvx` passes through on the cv host. |
| Middleware.MainHostHeaderIsNotCvHost | middleware.ts:19 | A redirected URL's host header is never the cv host. |
| Middleware.RedirectDoesNotLoop | middleware.ts:17-21 | Following a redirect never redirects again. |
| Middleware.RewriteTargetIsServed | middleware.ts:12-17 | The rewritten `/cv` request is served on the cv host. |
| Middleware.WildcardSkipsOtherPaths | middleware.ts:35 | As written, the matcher's unescaped `.` also excludes `/faviconXico`, which the cv host would otherwise redirect. |
| Middleware.MatcherAsWritten | middleware.ts:35 | As written: a path is selected iff it starts with `/` and does not continue with `_next/static`, `_next/image`, or `favicon`, any character, `ico`. |
| Middleware.Matcher | middleware.ts:35 | Corrected: the same, with the literal `favicon.ico`. |
| Middleware.IntendedSelectsMore | middleware.ts:35 | Every path the written matcher selects is also selected by the corrected one. |
| Middleware.MatcherExcludesAssets | middleware.ts:27-36 | `_next/static`, `_next/image` and `favicon.ico` never reach the middleware, under either matcher. |
| Middleware.Handle | middleware.ts:4-36 | As written: a path the written matcher excludes passes through; any other path gets `Decide`. |
| Middleware.HandleIntended | middleware.ts:4-36 | Corrected: the same with the corrected matcher. |
| Middleware.HandleDiffersOnlyOnSkippedPaths | middleware.ts:4-36 | The two differ only on paths the wildcard wrongly skips, which pass through as written. |
| Middleware.FaviconLookalikeOnCvHost | middleware.ts:4-36 | On the cv host, `/faviconXico` passes through as written and is redirected as intended. |
| RevalidateRoute.SecondSegment | app/api/revalidate/route.ts:32 | `split('.')[1]` is undefined iff the uid has no dot; otherwise it contains no dot. |
| RevalidateRoute.SecondSegmentOfUid | app/api/revalidate/route.ts:30-32 | For a uid `<ns>.<name>`, the segment is the name. |
| RevalidateRoute.ProjectUid | app/api/revalidate/route.ts:30-32 | `api::project.project` gives the model `project`. |
| RevalidateRoute.ModelOf | app/api/revalidate/route.ts:32 | The model is `body.model` when truthy, else the second segment of `entry.uid`. |
| RevalidateRoute.Post | app/api/revalidate/route.ts:4-69 | An unset secret gives 500, and a header other than `Bearer <secret>` gives 401; neither revalidates anything. An authorised request whose body is not valid JSON, or is JSON `null`, gives 500 with no `revalidated` field. The status is 200 iff authorised and the body parses to an object. A project change revalidates exactly `/projects` and `/project`; any other body is echoed with `revalidated: false`. |
| RevalidateRoute.AuthBeforeBody | app/api/revalidate/route.ts:18-27 | A wrongly authorised request gets the same reply whatever its body. |
| RevalidateRoute.MissingSecretFailsAlways | app/api/revalidate/route.ts:10-16 | An unset or empty secret gives the same reply whatever the header and body. |
| RevalidateRoute.SlugIsIgnored | app/api/revalidate/route.ts:33-54 | The slug never affects which paths are revalidated. |
| RevalidateRoute.StrapiProjectEventRevalidates | app/api/revalidate/route.ts:30-54 | A correctly authorised Strapi event for `api::project.project` revalidates the project pages. |
| ContactForm.LengthError | components/contact-client.tsx:20-30 | There is no error iff min ≤ length ≤ max, where the length is JavaScript's `length` in UTF-16 code units. A value that is too short gets the short message, and one that is too long gets the long message. |
| ContactForm.Validate | components/contact-client.tsx:19-31 | The name is valid iff its UTF-16 length is 2..100. The email is valid iff the email predicate holds. The message is valid iff its UTF-16 length is 10..1000. A failing field shows its schema message: too short, too long, or not a valid email. |
| ContactForm.Utf16Length | components/contact-client.tsx:20-30 | The length the schema measures is between the number of characters and twice that. |
| ContactForm.Utf16LengthConcat | components/contact-client.tsx:20-30 | The length of two strings joined is the sum of their lengths. |
| ContactForm.Utf16LengthOfBmp | components/contact-client.tsx:20-30 | On text within the Basic Multilingual Plane the length is the number of characters. |
| ContactForm.FiveEmojiAreALongEnoughMessage | components/contact-client.tsx:27-30 | Five emoji (five characters, ten code units) meet the 10-character message minimum. |
| ContactForm.DefaultsAreInvalid | components/contact-client.tsx:40-44 | The empty defaults fail validation, with the too-short messages for name and message. |
| ContactForm.NameBoundIsInclusive | components/contact-client.tsx:20-23 | A name of 100 code units is accepted, despite the text "less than 100", and the same name plus any one character is refused. |
| ContactForm.ToastFor | components/contact-client.tsx:63-73 | A success toast is shown iff the outcome succeeded; otherwise the failure toast is shown. |
| ContactForm.OnlyOkOr405Succeeds | components/contact-client.tsx:63 | A response succeeds iff its status is 2xx or 405. A thrown fetch never succeeds. |
| ContactForm.ContactClient.constructor | components/contact-client.tsx:36-45 | The form starts with the empty defaults, not submitting, with no errors and no toast. |
| ContactForm.ContactClient.Edit | components/contact-client.tsx:38-45 | Editing changes only the values. |
| ContactForm.ContactClient.Submit | components/contact-client.tsx:38-48 | Submission starts iff the values are valid, and then sets `isSubmitting`. The errors become the validation result. |
| ContactForm.ContactClient.Complete | components/contact-client.tsx:50-76 | `isSubmitting` is cleared on every outcome and the matching toast is shown. On success the form is reset to the defaults; otherwise it is kept. |
| ContactForm.SubmitOnce | components/contact-client.tsx:47-76 | A valid submission disables the button in flight and re-enables it afterwards. It resets the form iff the outcome succeeded. |
| CmsMigration.Migrated | cms/src/index.ts:28-35 | A project with a falsy title and a truthy `project_title` gets `title := project_title` and `description := project_description or ''`. Any other project is unchanged, and the id, slug and legacy fields are always kept. |
| CmsMigration.MigratedNeedsNothing | cms/src/index.ts:28-34 | A migrated project never needs migrating again. |
| CmsMigration.MigrateAll | cms/src/index.ts:26-38 | Every project is migrated independently, with the list length kept. |
| CmsMigration.MigrateAllIdempotent | cms/src/index.ts:26-38 | Migrating twice equals migrating once. |
| CmsMigration.NothingLeftToMigrate | cms/src/index.ts:26-43 | After the migration no project needs migrating. |
| CmsMigration.Summary | cms/src/index.ts:40-44 | The success log carries the count iff the count is positive; otherwise it is the nothing-needed log. |
| CmsMigration.Bootstrap | cms/src/index.ts:19-47 | Without a failing update, every document is migrated and the log reports the number that needed it. If the update at index k throws, documents before k are migrated, the rest are untouched, and the failure is logged without a count. |
| CmsMigration.SecondRunDoesNothing | cms/src/index.ts:40-43 | Running the migration a second time migrates nothing, and its log says so. |
| ThemedLogo.ImageUrl | components/themed-logo.tsx:38 | There is an image URL iff the image has a non-empty URL. |
| ThemedLogo.Style | components/themed-logo.tsx:68-73 | The style is the base variables, overlaid by the dark ones only when mounted, the theme is dark and dark variables exist. |
| ThemedLogo.StyleBeforeMountIgnoresTheme | components/themed-logo.tsx:69-73 | Before mount, the style is the base variables whatever the theme. |
| ThemedLogo.DarkValueWins | components/themed-logo.tsx:70-73 | On a key collision the dark value wins; base-only keys keep their values. |
| ThemedLogo.AriaLabel | components/themed-logo.tsx:82 | The label is `Logo for <name>`. |
| ThemedLogo.ThemedLogoState.constructor | components/themed-logo.tsx:35-37 | The logo starts unmounted, with the drawer choice undefined and no SVG. |
| ThemedLogo.ThemedLogoState.Mount | components/themed-logo.tsx:41-43 | Mounting sets `mounted` only. |
| ThemedLogo.ThemedLogoState.OnWidth | components/themed-logo.tsx:45-54 | The drawer is shown iff the window is narrower than 1280 px. |
| ThemedLogo.ThemedLogoState.OnSvgFetched | components/themed-logo.tsx:56-64 | The SVG is inlined only when a URL exists and `ext` is exactly `.svg`. |
| ThemedLogo.ThemedLogoState.Render | components/themed-logo.tsx:66-141 | Nothing renders without an image URL. Without a description the logo is bare. With one it goes in the drawer iff `showDrawer` is set, else in the hover card. The label and style are always those above. The tile's content is the fetched SVG text when it is non-empty, and nothing otherwise. |
| ThemedLogo.SvgOnlyForSvgLogos | components/themed-logo.tsx:56-88 | After the fetch, the tile has content iff the logo is an `.svg` and the fetched text is non-empty, and that content is the fetched text. |
| ThemedLogo.DrawerFollowsWidth | components/themed-logo.tsx:45-141 | A described logo uses the drawer iff the width is under 1280, else the hover card. |
| AboutThemedLogo.WidthValue | app/about/ThemedLogo.tsx:38 | The width is `auto` iff `imageWidth` is missing or 0, else `<imageWidth>rem`. |
| AboutThemedLogo.InlineStyle | app/about/ThemedLogo.tsx:35-40 | The width and height override the CSS variables, and the height is always `auto`. Any other key comes from the dark map when the theme is dark, else from the base. |
| AboutThemedLogo.DarkAppliesImmediately | app/about/ThemedLogo.tsx:37 | With no mount guard, a dark variable applies as soon as the theme is dark. |
| AboutThemedLogo.ZeroWidthIsAuto | app/about/ThemedLogo.tsx:38 | `imageWidth` 0 gives width `auto`. |
| AboutThemedLogo.Render | app/about/ThemedLogo.tsx:30-59 | Nothing renders without an image URL. Alt falls back to the name and the dimensions to 100×100. |
| ProgressiveBlur.WithDefaults | components/ui/progressive-blur.tsx:17-24 | The defaults are position bottom, orientation vertical, 8 levels, and 30% height and width. Given props are kept. |
| ProgressiveBlur.Size | components/ui/progressive-blur.tsx:44-47 | Vertical gives height 100% for `both`, else `height`, and width 100%; horizontal is symmetric. |
| ProgressiveBlur.KindOf | components/ui/progressive-blur.tsx:56-67 | Bands are used iff the position matches the orientation, and they point toward the chosen edge: bottom, top, right or left. The undirected edge mask is used iff the layout is vertical with `both`. Any other combination gets the edge mask pointing right. |
| ProgressiveBlur.Layers | components/ui/progressive-blur.tsx:26-150 | Fewer than 2 levels throws. Otherwise there is one layer per level: layer i has z-index i+1 and level i, and the first, middle and last masks follow the kind. |
| ProgressiveBlur.ZIndicesIncrease | components/ui/progressive-blur.tsx:53-122 | The z-indices are strictly increasing. |
| ProgressiveBlur.BandsShiftByOneStep | components/ui/progressive-blur.tsx:85-100 | Middle band i starts at i·12.5%, one step after the previous band. |
| ProgressiveBlur.DefaultBandsFitInside | components/ui/progressive-blur.tsx:85-101 | With the default 8 levels every band ends within 100%, while a ninth level pushes a band past it. |
| ProgressiveBlur.BothUsesOneMask | components/ui/progressive-blur.tsx:56-148 | Position `both` gives every layer the same mask. |
| Typography.DefaultElement | components/ui/typography.tsx:56-75 | `h1`..`h6` map to themselves and anything else, including undefined, to `p`. |
| Typography.Render | components/ui/typography.tsx:40-52 | A given `as` overrides the default element. The variant and alignment default to `p` and `left`. |
| Typography.StyleVariantsAreParagraphs | components/ui/typography.tsx:42-75 | The lead, large, small and muted variants render as left-aligned `p`. |
| Typography.BareIsLeftParagraph | components/ui/typography.tsx:27-30 | With no props, the element is a left-aligned `p` of variant `p`. |
| Typography.AsOverridesHeading | components/ui/typography.tsx:42 | `as` wins even over a heading variant. |
| ModeToggle.Toggled | components/mode-toggle.tsx:13 | The new theme is `dark` iff the old one is `light`, and otherwise `light`. |
| ModeToggle.ToggleTwiceRestores | components/mode-toggle.tsx:13 | Two toggles from light or dark return to the start. |
| ModeToggle.SystemIsLeftForGood | components/mode-toggle.tsx:13 | From `system` a toggle gives light and a second gives dark; `system` is never reached again. |
| ModeToggle.TooltipFor | components/mode-toggle.tsx:27-31 | "Too dark?" is shown iff the theme is exactly `dark`. |
| ModeToggle.TooltipMatchesNewTheme | components/mode-toggle.tsx:12-31 | After a toggle the tooltip reads "Too dark?" iff the old theme was light. |
| ModeToggle.ThemeStore.constructor | components/mode-toggle.tsx:10 | The store holds the initial theme. |
| ModeToggle.ThemeStore.Toggle | components/mode-toggle.tsx:12-14 | The stored theme becomes `Toggled` of the old one. |
| ModeToggle.ClickTwice | components/mode-toggle.tsx:12-31 | Two clicks return light to light, while any other stored theme (dark, system or unset) ends dark. After each click the tooltip reads "Too dark?" iff the theme is now dark. |
| Metadata.SiteMetadataRecord | lib/metadata.ts:28-84 | The default title is the site title and the template is `%s \| George Yiakoumi`. The base and Open Graph URLs are the site URL. Open Graph and Twitter share the one default image, and robots allow index and follow. |
| Metadata.TitledPage | lib/metadata.ts:31-34 | A templated title is the page title, then ` \| `, then the site name. |
| Metadata.PageMetadataRecord | lib/metadata.ts:86-134 | The canonical and Open Graph URLs are the site URL plus the path, which defaults to `''`. The image is the given one or the default, with alt equal to the title, and Twitter uses the same image. Robots are present iff `noIndex`, and then forbid both. |
| Metadata.CanonicalDeterminesPath | lib/metadata.ts:99-106 | Equal canonical URLs imply equal paths. |
| Metadata.PageDefaults | lib/metadata.ts:89-100 | An omitted path is the home page, and an empty image is the site image. |
| Metadata.PersonRecord | lib/metadata.ts:136-148 | The Person JSON-LD has the site name and URL and the job title `Product Designer`, with `sameAs` = [linkedin, github] in that order. |
| PageData.FindKind | components/home-client.tsx:55-56 | The result is the first block of the kind, or none iff no block has it. |
| PageData.FirstChildText | components/home-client.tsx:59 | A text is found only as the first child of a present block. |
| PageData.ParagraphTexts | components/home-client.tsx:57-89 | There is one text per paragraph block, in order, with `''` for a missing first child. |
| PageData.FirstParagraphFirst | components/home-client.tsx:85-87 | A leading paragraph block gives the first text. |
| PageData.HeaderOf | app/page.tsx:49-55 | The header uses the first heading's first child text, or the given fallback when that is missing or empty. The avatar comes from the first image, with alt defaulting to `Profile photo`. The paragraphs are all paragraph blocks in order. |
| PageData.AboutHeadingNeverEmpty | app/about/page.tsx:53 | With the fallback, the about heading is always present and non-empty. |
| PageData.ContactOf | app/page.tsx:58-62 | The contact heading and description are the first child texts of the first heading and the first paragraph. |
| PageData.HomeClientState.constructor | components/home-client.tsx:17-20 | The page starts loading, with no data, no tools and no error. |
| PageData.HomeClientState.Settle | components/home-client.tsx:22-33 | Loading ends either way. Success stores the about data and tools; failure sets the error. |
| PageData.HomeClientState.View | components/home-client.tsx:35-114 | The page shows loading while loading. Once loaded it shows the error iff there was an error or the data is null. Content shows the about data's two section headings and takes its tools from the separate fetch. |
| PageData.HomeClientErrorOnlyFromNull | components/home-client.tsx:22-53 | Since both fetchers swallow errors, the error view arises iff the about data is null. |
| PageData.HomeState.constructor | app/page.tsx:17-19 | The page starts loading, with no data and no error. |
| PageData.HomeState.Settle | app/page.tsx:21-26 | Loading ends either way. Success stores the data; failure sets the error. |
| PageData.HomeState.View | app/page.tsx:28-110 | The page shows loading, or the error iff there was an error or no data. Otherwise it shows the content, with the about data's two section headings and tools from the about data itself. |
| PageData.HomePagesDifferOnlyInTools | components/home-client.tsx:22-114 | Settled with the same about data, the two home pages show content together. They differ only in the tools, and agree iff the data is null or the separately fetched tools equal the about data's own. |
| PageData.AboutState.constructor | app/about/page.tsx:17-19 | The page starts loading, with no data and no error. |
| PageData.AboutState.Settle | app/about/page.tsx:21-26 | Loading ends either way. Success stores the data; failure sets the error. |
| PageData.AboutState.View | app/about/page.tsx:28-78 | The page shows loading, the error, or the content read from `content` with the heading fallback. It crashes when `content` is absent. |
| Portfolio.TagRowOf | app/portfolio/page.tsx:55-69 | A tag row appears iff there are tags. It shows the first min(n, 3) in order, with a `+N` badge iff n > 3, where N = n − 3. |
| Portfolio.TagRowAccountsForAllTags | app/portfolio/page.tsx:57-69 | The shown tags plus the badge count add up to all the tags, and the shown tags are a prefix. |
| Portfolio.Href | app/portfolio/page.tsx:36 | The link is `/portfolio/` followed by the slug. |
| Portfolio.CardAsWritten | app/portfolio/page.tsx:40-69 | As written, the capitalised fields read as undefined. The card has no title, description or tags. |
| Portfolio.Card | app/portfolio/page.tsx:40-69 | Corrected: the card shows the declared title, description and tag row. |
| Portfolio.AsWrittenDropsTitleAndTags | app/portfolio/page.tsx:48-55 | A tagged project loses its title and tags as written, and keeps them when corrected. |
| Portfolio.Render | app/portfolio/page.tsx:4-79 | As written: a null or empty list shows the empty state. Otherwise there is one `CardAsWritten` per project, in fetched order. |
| Portfolio.RenderIntended | app/portfolio/page.tsx:4-79 | Corrected: the same list with one `Card` per project. |
| Portfolio.RenderDiffersOnlyInCardText | app/portfolio/page.tsx:40-69 | The two pages show the same cards with the same links in the same order. As written, every card lacks its title, description and tags. |
| Portfolio.LinksFollowSlugs | app/portfolio/page.tsx:33-36 | Projects with different slugs link to different pages. |

## Left out

- Network, caching and the platform: `fetch`, Next.js caching and `revalidatePath`, the Strapi document service and the Netlify form endpoint are not modelled. Their results are parameters: a `Response` value, an array of documents, and an outcome.
- Foreign libraries: GSAP animation timing, scrubbing and colour interpolation, ScrollSmoother internals, IntersectionObserver, `matchMedia`, `getBoundingClientRect`, recharts, next/image, the carousel widget, next-themes and react-hook-form are not modelled. An interpolated colour is kept as its two ends and the mix parameter.
- Floating point: positions and blur values are `real`. A zero-width container (NaN or Infinity) is excluded by `requires`, and rounding is not modelled.
- Timestamps: `Date.now()` in the webhook reply and the date formatting on portfolio cards are left out.
- Console output is left out, except the unknown-block warnings, which are part of the renderer's output.
- Class names, CSS strings and markup that carry no decision are left out. Masks are structured values, not gradient strings.
- ContactForm.Validate: the email rule of the validation library is a parameter, `isEmail`, and is not defined here.
- CmsMigration.Bootstrap: a failure of `findMany` itself is not modelled; only a failing `update` at a given index is.
- RevalidateRoute.Post: only three body shapes are distinguished: unparsable, JSON `null`, and an object. A JSON number, string or array is read as an object with no fields. `event` is assumed to be a string.
- AboutThemedLogo.WidthValue: `imageWidth` is an integer; fractional widths are not modelled.
- StatsBlock.ChartFor: only the choices the component makes are modelled: kind, cards, curve, inner radius, colours and toggles. The chart's drawing is not, and `parseFloat` of string values is not modelled.
- StatsBlock.ColourConfig: duplicate slice labels share a colour, that of the last occurrence, as the reduce produces.
- AppScrollBlurEffect.ColourAt: a page with more than five sections gives sections 6 and up an undefined colour.
- ComparisonSliderBlock.Render: `projectTitle` is passed to the slider but not used.
- PageData.AboutState.View: the about page reads `content`, which `AboutData` does not declare. A response without it crashes while rendering; that crash is the `AboutCrash` view.
- Metadata: `generateWebsiteJsonLd`, the keyword list, icons, authors and the googleBot details are constant data and are left out.
- Strapi.PrepareRequest: the URL is kept as base, path and search parameters. `new URL` normalisation is not modelled.
- Listener registration order in the scroll components is not modelled beyond install and remove.

## Findings

| source | as written | input that shows it | evidently intended | confidence | as-written member | corrected member |
|---|---|---|---|---|---|---|
| app/components/ScrollBlurEffect.tsx:74 | The next colour is `backgroundColors[index + 1] \|\| backgroundColors[index]`, so the fallback applies only at palette index 4. | A page with 3 sections: the last one (index 2) fades to yellow-50, the colour of a section that does not exist. | The last section keeps its own colour. | medium, not executed | AppScrollBlurEffect.LastOfThreeFadesToAnotherColour | AppScrollBlurEffect.IntendedNextColour |
| middleware.ts:35 | The matcher `/((?!_next/static\|_next/image\|favicon.ico).*)` leaves the `.` unescaped, so it matches any character. | On the cv host, `/faviconXico` skips the middleware instead of being redirected. | Exclude only the literal `favicon.ico`. | medium, not executed | Middleware.WildcardSkipsOtherPaths | Middleware.Matcher |
| app/portfolio/page.tsx:48-69 | The page reads `project.Title`, `Description`, `Tags` and `Date`, but `ProjectData` declares lowercase fields. | Any project with a title and tags renders a card with no title, description or tags. | Read `title`, `description`, `tags` and `date`. | high, not executed | Portfolio.CardAsWritten | Portfolio.Card |
