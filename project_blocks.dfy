/**
 * components/project-blocks/index.tsx: `ProjectBlockRenderer`, which maps a
 * project's body blocks to their renderers by the `__component` tag.
 *
 * The output is the list React receives: one keyed entry per block, `null`
 * for a block whose tag is unknown, plus the console warnings issued.
 */
module ProjectBlocks {
  import opened Common
  import opened ProjectBlockTypes
  import RichText
  import RichTextBlock
  import ImageBlock
  import CarouselBlock
  import VideoBlock
  import ComparisonSliderBlock
  import StatsBlock

  const RichTextKind := "project-blocks.rich-text"
  const ImageKind := "project-blocks.image"
  const CarouselKind := "project-blocks.carousel"
  const VideoKind := "project-blocks.video"
  const SliderKind := "project-blocks.comparison-slider"
  const StatsKind := "project-blocks.stats"

  const KnownKinds: set<string> := {RichTextKind, ImageKind, CarouselKind, VideoKind, SliderKind, StatsKind}

  /** What one block renders to; each renderer may itself render nothing. */
  datatype Rendered =
    | NullEntry
    | RichTextEntry(richText: Option<RichText.RichTextOutput>)
    | ImageEntry(image: Option<ImageBlock.ImageView>)
    | CarouselEntry(carousel: Option<CarouselBlock.CarouselView>)
    | VideoEntry(video: Option<VideoBlock.VideoView>)
    | SliderEntry(slider: Option<ComparisonSliderBlock.SliderView>)
    | StatsEntry(stats: Option<StatsBlock.StatsView>)

  datatype Entry = Entry(key: string, rendered: Rendered)

  datatype Output = Output(entries: seq<Entry>, warnings: seq<string>)

  /** The React key `${block.__component}-${block.id}`. */
  function Key(b: ProjectBlock): (k: string)
    ensures StartsWith(k, b.component + "-")
  {
    b.component + "-" + IntToString(b.id)
  }

  /** Two blocks with the same id but different kinds get different keys. */
  lemma SameIdDifferentKindsDifferentKeys(a: ProjectBlock, b: ProjectBlock)
    requires a.id == b.id && a.component != b.component
    ensures Key(a) != Key(b)
  {
    var s := "-" + IntToString(a.id);
    assert Key(a) == a.component + s && Key(b) == b.component + s;
    if |a.component| == |b.component| {
      assert (a.component + s)[..|a.component|] == a.component;
      assert (b.component + s)[..|b.component|] == b.component;
    }
  }

  /** Two blocks of the same kind with different ids get different keys. */
  lemma SameKindDifferentIdsDifferentKeys(a: ProjectBlock, b: ProjectBlock)
    requires a.component == b.component && a.id != b.id
    ensures Key(a) != Key(b)
  {
    var n := |a.component| + 1;
    assert IntToString(a.id) == Key(a)[n..];
    assert IntToString(b.id) == Key(b)[n..];
    if Key(a) == Key(b) {
      IntToStringInjective(a.id, b.id);
    }
  }

  /** The six known tags already differ in their first 17 characters. */
  lemma KnownKindsDifferEarly(c: string, d: string)
    requires c in KnownKinds && d in KnownKinds && c != d
    ensures |c| >= 17 && |d| >= 17 && c[..17] != d[..17]
  {
    assert RichTextKind[..17] == "project-blocks.ri";
    assert ImageKind[..17] == "project-blocks.im";
    assert CarouselKind[..17] == "project-blocks.ca";
    assert VideoKind[..17] == "project-blocks.vi";
    assert SliderKind[..17] == "project-blocks.co";
    assert StatsKind[..17] == "project-blocks.st";
  }

  /**
   * Blocks of known kinds get distinct keys whenever they differ in kind or
   * in id, so the key is a sound React key for a body of well-formed blocks.
   */
  lemma KeysIdentifyKnownBlocks(a: ProjectBlock, b: ProjectBlock)
    requires a.component in KnownKinds && b.component in KnownKinds
    requires a.component != b.component || a.id != b.id
    ensures Key(a) != Key(b)
  {
    if a.component == b.component {
      SameKindDifferentIdsDifferentKeys(a, b);
    } else {
      KnownKindsDifferEarly(a.component, b.component);
      assert Key(a)[..17] == a.component[..17];
      assert Key(b)[..17] == b.component[..17];
    }
  }

  /** The `switch` on `__component`; only the image, carousel and slider renderers receive the title. */
  function RenderOne(base: string, b: ProjectBlock, projectTitle: string): (r: Rendered)
    ensures r.NullEntry? <==> b.component !in KnownKinds
    ensures b.component == RichTextKind ==> r == RichTextEntry(RichTextBlock.Render(base, b.fields))
    ensures b.component == ImageKind ==> r == ImageEntry(ImageBlock.Render(base, b.fields, projectTitle))
    ensures b.component == CarouselKind ==> r == CarouselEntry(CarouselBlock.Render(base, b.fields, projectTitle))
    ensures b.component == VideoKind ==> r == VideoEntry(VideoBlock.Render(base, b.fields))
    ensures b.component == SliderKind ==>
      r == SliderEntry(ComparisonSliderBlock.Render(base, b.fields, projectTitle, ComparisonSliderBlock.InitialPosition))
    ensures b.component == StatsKind ==> r == StatsEntry(StatsBlock.Render(b.fields))
  {
    match b.component
    case "project-blocks.rich-text" => RichTextEntry(RichTextBlock.Render(base, b.fields))
    case "project-blocks.image" => ImageEntry(ImageBlock.Render(base, b.fields, projectTitle))
    case "project-blocks.carousel" => CarouselEntry(CarouselBlock.Render(base, b.fields, projectTitle))
    case "project-blocks.video" => VideoEntry(VideoBlock.Render(base, b.fields))
    case "project-blocks.comparison-slider" =>
      SliderEntry(ComparisonSliderBlock.Render(base, b.fields, projectTitle, ComparisonSliderBlock.InitialPosition))
    case "project-blocks.stats" => StatsEntry(StatsBlock.Render(b.fields))
    case _ => NullEntry
  }

  /** The warning logged for a block of unknown kind. */
  function Warning(b: ProjectBlock): string {
    "Unknown block type: " + b.component
  }

  /** The warnings of a body: one per unknown block, in block order. */
  function Warnings(blocks: seq<ProjectBlock>): (ws: seq<string>)
    ensures |ws| <= |blocks|
    ensures (forall i :: 0 <= i < |blocks| ==> blocks[i].component in KnownKinds) ==> ws == []
  {
    if |blocks| == 0 then []
    else (if blocks[0].component in KnownKinds then [] else [Warning(blocks[0])]) + Warnings(blocks[1..])
  }

  /** `ProjectBlockRenderer`: nothing for a missing or empty body, else one keyed entry per block in order. */
  function Render(base: string, blocks: Option<seq<ProjectBlock>>, projectTitle: string): (r: Option<Output>)
    ensures r.None? <==> blocks.None? || |blocks.value| == 0
    ensures r.Some? ==> |r.value.entries| == |blocks.value|
    ensures r.Some? ==> forall i :: 0 <= i < |blocks.value| ==>
      r.value.entries[i] == Entry(Key(blocks.value[i]), RenderOne(base, blocks.value[i], projectTitle))
    ensures r.Some? ==> r.value.warnings == Warnings(blocks.value)
  {
    if blocks.None? || |blocks.value| == 0 then None
    else
      var bs := blocks.value;
      Some(Output(seq(|bs|, i requires 0 <= i < |bs| => Entry(Key(bs[i]), RenderOne(base, bs[i], projectTitle))),
                  Warnings(bs)))
  }

  /** An unknown block renders as `null` and leaves every other entry exactly as it would be without it. */
  lemma UnknownBlockDoesNotStopOthers(base: string, before: seq<ProjectBlock>, u: ProjectBlock,
                                      after: seq<ProjectBlock>, projectTitle: string)
    requires u.component !in KnownKinds
    ensures var out := Render(base, Some(before + [u] + after), projectTitle).value;
      out.entries[|before|].rendered == NullEntry &&
      (forall i :: 0 <= i < |before| ==> out.entries[i].rendered == RenderOne(base, before[i], projectTitle)) &&
      (forall j :: 0 <= j < |after| ==> out.entries[|before| + 1 + j].rendered == RenderOne(base, after[j], projectTitle))
    ensures Render(base, Some(before + [u] + after), projectTitle).value.warnings ==
      Warnings(before) + [Warning(u)] + Warnings(after)
  {
    var all := before + [u] + after;
    var out := Render(base, Some(all), projectTitle).value;
    assert out.warnings == Warnings(all);
    WarningsAround(before, u, after);
    assert all[|before|] == u;
    assert forall i :: 0 <= i < |before| ==> all[i] == before[i];
    assert forall j :: 0 <= j < |after| ==> all[|before| + 1 + j] == after[j];
  }

  /** Warnings are exactly one per unknown block: a body of known blocks logs nothing, and an unknown block adds its own. */
  lemma {:induction false} WarningsOfConcat(xs: seq<ProjectBlock>, ys: seq<ProjectBlock>)
    ensures Warnings(xs + ys) == Warnings(xs) + Warnings(ys)
    decreases |xs|
  {
    if |xs| == 0 {
      assert xs + ys == ys;
    } else {
      assert (xs + ys)[1..] == xs[1..] + ys;
      WarningsOfConcat(xs[1..], ys);
    }
  }

  /** An unknown block between two runs of blocks adds its one warning between theirs. */
  lemma WarningsAround(before: seq<ProjectBlock>, u: ProjectBlock, after: seq<ProjectBlock>)
    requires u.component !in KnownKinds
    ensures Warnings(before + [u] + after) == Warnings(before) + [Warning(u)] + Warnings(after)
  {
    WarningsOfConcat(before + [u], after);
    WarningsOfConcat(before, [u]);
    assert [u][1..] == [];
    assert Warnings([u]) == [Warning(u)] + Warnings([]);
  }

  /** The project title reaches the output only through image, carousel and comparison-slider blocks, and the slider ignores it. */
  lemma TitleOnlyReachesImagesAndCarousels(base: string, b: ProjectBlock, t1: string, t2: string)
    requires b.component != ImageKind && b.component != CarouselKind
    ensures RenderOne(base, b, t1) == RenderOne(base, b, t2)
  {
  }
}
