/** The prompt builder of the campaign generator (src/generator.py): the
    campaign brief, the template that turns a brief into a prompt, and the
    text that is sent to the hosted model. The call to the model itself is
    not part of this module. */
module Generator {
  import opened Strings

  datatype Option<T> = None | Some(value: T)

  /** A campaign brief (CampaignInput). Goal and tone are free text, as in the
      record; the form only ever offers a fixed list of them. */
  datatype CampaignInput = CampaignInput(
    brandName: string,
    productDescription: string,
    targetAudience: string,
    campaignGoal: string,
    channels: seq<string>,
    tone: string,
    additionalContext: Option<string>)

  const ChannelSeparator: string := ", "

  // Section headings, kept literal so that the lemmas below can name them.
  const BrandHeading: string := "## BRAND & PRODUCT"
  const AudienceHeading: string := "## TARGET AUDIENCE"
  const DetailsHeading: string := "## CAMPAIGN DETAILS"
  const ContextMarker: string := "ADDITIONAL CONTEXT"
  const ContextHeading: string := "## " + ContextMarker
  const TaskHeading: string := "## YOUR TASK"

  // The five output sections the model is asked for.
  const StrategyHeader: string := "### 1. CAMPAIGN STRATEGY"
  const AdCopyHeader: string := "### 2. AD COPY"
  const HashtagsHeader: string := "### 3. HASHTAGS & KEYWORDS"
  const ConceptsHeader: string := "### 4. CREATIVE CONCEPTS"
  const CalendarHeader: string := "### 5. CONTENT CALENDAR"

  // Field labels; each starts a new line of the prompt.
  const BrandNameLabel: string := "\n- **Brand Name:** "
  const ProductLabel: string := "\n- **Product/Service:** "
  const GoalLabel: string := "\n- **Goal:** "
  const ChannelsLabel: string := "\n- **Channels:** "
  const ToneLabel: string := "\n- **Tone/Voice:** "
  const AdCopyLead: string := "\nFor each channel ("

  // Lines longer than forty characters are written as several literals, so
  // that the verifier can see every character of each one.

  const Opening: string :=
    "You are an expert marketing strategist "
    + "and copywriter. \n"
    + "Create a comprehensive marketing campaign "
    + "based on the following brief:\n\n"

  const TaskIntro: string :=
    "\n\n---\n\n" + TaskHeading + "\n\n"
    + "Generate a complete marketing campaign "
    + "with the following sections:\n\n"

  const StrategyBody: string :=
    "\n- Campaign name/theme (something catchy)\n"
    + "- Core message (1-2 sentences)\n"
    + "- Key value propositions (3 bullet points)\n\n"

  const AdCopyBody: string :=
    "), provide:\n"
    + "- 3 different ad copy variations\n"
    + "- Each should have: "
    + "Headline, Body, Call-to-Action\n"
    + "- Respect platform character limits "
    + "and best practices\n\n"

  const HashtagsBody: string :=
    "\n- 10 relevant hashtags for social media\n"
    + "- 5 target keywords for search/SEO\n\n"

  const ConceptsBody: string :=
    "\n- Describe 3 visual/image concepts "
    + "a designer could create\n"
    + "- Include mood, style, "
    + "key elements to feature\n\n"

  const CalendarBody: string :=
    "\n- Suggest a 1-week posting schedule\n"
    + "- Include which content goes "
    + "on which channel and when\n\n"

  const Closing: string :=
    "Be specific, creative, and tailor "
    + "everything to resonate with "
    + "the target audience.\n"
    + "Use the specified tone consistently "
    + "throughout all copy.\n"

  /** The task text up to the AD COPY item's channel line ... */
  const TaskLead: string := TaskIntro + StrategyHeader + StrategyBody + AdCopyHeader
  /** ... and from the end of that line's channel list to the end of the prompt. */
  const TaskTail: string :=
    (AdCopyBody + HashtagsHeader + HashtagsBody + ConceptsHeader)
    + (ConceptsBody + CalendarHeader + CalendarBody + Closing)

  /** The fixed preamble `generate` puts in front of the built prompt. */
  const SystemPreamble: string :=
    "You are a world-class marketing strategist who creates compelling, \n"
    + "conversion-focused campaigns. You write copy that connects emotionally with audiences while driving action.\n\n"

  // Each field is grouped with the label in front of it.

  function BrandSection(brand: string, product: string): string
  {
    BrandHeading + (BrandNameLabel + brand) + (ProductLabel + product) + "\n\n"
  }

  function AudienceSection(audience: string): string
  {
    AudienceHeading + ("\n" + audience) + "\n\n"
  }

  function DetailsSection(goal: string, channelList: string, tone: string): string
  {
    DetailsHeading + (GoalLabel + goal) + (ChannelsLabel + channelList) + (ToneLabel + tone) + "\n\n"
  }

  /** Python truthiness of the optional context: `None` and `""` are false. */
  predicate HasContext(context: Option<string>)
  {
    context.Some? && context.value != ""
  }

  /** The optional block: the heading, a newline and the context text when
      there is context; nothing at all otherwise. */
  function ContextBlock(context: Option<string>): (r: string)
    ensures r == [] <==> !HasContext(context)
    ensures HasContext(context) ==>
      && |r| == |ContextHeading| + 1 + |context.value|
      && OccursAt(r, ContextHeading, 0)
      && r[|ContextHeading|] == '\n'
      && r[|ContextHeading| + 1..] == context.value
  {
    if HasContext(context) then ContextHeading + "\n" + context.value else ""
  }

  function TaskSection(channelList: string): string
  {
    TaskLead + (AdCopyLead + channelList) + TaskTail
  }

  /** `channels_str`: the channels joined with ", ". */
  function ChannelText(inputs: CampaignInput): string
  {
    Join(ChannelSeparator, inputs.channels)
  }

  /** `_build_prompt`: the brief spliced into the fixed template. */
  function BuildPrompt(inputs: CampaignInput): string
  {
    var channelList := ChannelText(inputs);
    Opening
    + BrandSection(inputs.brandName, inputs.productDescription)
    + AudienceSection(inputs.targetAudience)
    + DetailsSection(inputs.campaignGoal, channelList, inputs.tone)
    + ContextBlock(inputs.additionalContext)
    + TaskSection(channelList)
  }

  /** The text `generate` sends to the model: the preamble, then exactly the
      built prompt. */
  function FullPrompt(inputs: CampaignInput): (r: string)
    ensures |r| == |SystemPreamble| + |BuildPrompt(inputs)|
    ensures r[..|SystemPreamble|] == SystemPreamble
    ensures r[|SystemPreamble|..] == BuildPrompt(inputs)
  {
    var prompt := BuildPrompt(inputs);
    PrefixThenSuffix(SystemPreamble, prompt);
    SystemPreamble + prompt
  }

  /** The six pieces of a prompt, in the order they are written. */
  lemma PromptPieces(inputs: CampaignInput)
    ensures BuildPrompt(inputs)
         == Opening + BrandSection(inputs.brandName, inputs.productDescription)
          + AudienceSection(inputs.targetAudience)
          + DetailsSection(inputs.campaignGoal, ChannelText(inputs), inputs.tone)
          + ContextBlock(inputs.additionalContext) + TaskSection(ChannelText(inputs))
  {
  }

  // ---------------------------------------------------------------------
  // Properties of the prompt
  // ---------------------------------------------------------------------

  /** The channel text lists the channels in input order separated by ", ":
      it splits back into the list whenever the list is non-empty and no
      channel name contains ", ". */
  lemma ChannelListRoundTrip(channels: seq<string>)
    requires |channels| > 0
    requires forall k :: 0 <= k < |channels| ==> !Contains(channels[k], ChannelSeparator)
    ensures Split(Join(ChannelSeparator, channels), ChannelSeparator) == channels
  {
    assert Borderless(ChannelSeparator) by {
      forall k | 0 < k < |ChannelSeparator|
        ensures ChannelSeparator[..k] != ChannelSeparator[|ChannelSeparator| - k..]
      {
        assert k == 1;
        assert ChannelSeparator[..k][0] == ',';
      }
    }
    SplitJoinRoundTrip(ChannelSeparator, channels);
  }

  /** A brief without context and the same brief with an empty context give
      the same prompt. */
  lemma EmptyContextIsNoContext(inputs: CampaignInput)
    ensures BuildPrompt(inputs.(additionalContext := None))
         == BuildPrompt(inputs.(additionalContext := Some("")))
  {
  }

  // ---------------------------------------------------------------------
  // Where things sit in the prompt
  // ---------------------------------------------------------------------

  /** An occurrence inside one of six pieces is an occurrence in their
      concatenation, shifted by the pieces before it. */
  lemma InSixPieces(p0: string, p1: string, p2: string, p3: string, p4: string, p5: string,
                      k: nat, sub: string, i: nat)
    requires k < 6 && OccursAt([p0, p1, p2, p3, p4, p5][k], sub, i)
    ensures k == 0 ==> OccursAt(p0 + p1 + p2 + p3 + p4 + p5, sub, i)
    ensures k == 1 ==> OccursAt(p0 + p1 + p2 + p3 + p4 + p5, sub, |p0| + i)
    ensures k == 2 ==> OccursAt(p0 + p1 + p2 + p3 + p4 + p5, sub, |p0 + p1| + i)
    ensures k == 3 ==> OccursAt(p0 + p1 + p2 + p3 + p4 + p5, sub, |p0 + p1 + p2| + i)
    ensures k == 4 ==> OccursAt(p0 + p1 + p2 + p3 + p4 + p5, sub, |p0 + p1 + p2 + p3| + i)
    ensures k == 5 ==> OccursAt(p0 + p1 + p2 + p3 + p4 + p5, sub, |p0 + p1 + p2 + p3 + p4| + i)
  {
    var q1 := p0 + p1;
    var q2 := q1 + p2;
    var q3 := q2 + p3;
    var q4 := q3 + p4;
    if k == 0 {
      ExtendRight(p0, p1, sub, i);
      ExtendRight(q1, p2, sub, i);
      ExtendRight(q2, p3, sub, i);
      ExtendRight(q3, p4, sub, i);
      ExtendRight(q4, p5, sub, i);
    } else if k == 1 {
      ExtendLeft(p0, p1, sub, i);
      ExtendRight(q1, p2, sub, |p0| + i);
      ExtendRight(q2, p3, sub, |p0| + i);
      ExtendRight(q3, p4, sub, |p0| + i);
      ExtendRight(q4, p5, sub, |p0| + i);
    } else if k == 2 {
      ExtendLeft(q1, p2, sub, i);
      ExtendRight(q2, p3, sub, |q1| + i);
      ExtendRight(q3, p4, sub, |q1| + i);
      ExtendRight(q4, p5, sub, |q1| + i);
    } else if k == 3 {
      ExtendLeft(q2, p3, sub, i);
      ExtendRight(q3, p4, sub, |q2| + i);
      ExtendRight(q4, p5, sub, |q2| + i);
    } else if k == 4 {
      ExtendLeft(q3, p4, sub, i);
      ExtendRight(q4, p5, sub, |q3| + i);
    } else {
      ExtendLeft(q4, p5, sub, i);
    }
  }

  /** Each section opens with its heading; the task heading comes right after
      the seven characters of the horizontal rule in front of it. */
  lemma SectionsOpenWithHeadings(brand: string, product: string, audience: string,
                                 goal: string, channelList: string, tone: string,
                                 context: Option<string>)
    ensures OccursAt(BrandSection(brand, product), BrandHeading, 0)
    ensures OccursAt(AudienceSection(audience), AudienceHeading, 0)
    ensures OccursAt(DetailsSection(goal, channelList, tone), DetailsHeading, 0)
    ensures HasContext(context) ==> OccursAt(ContextBlock(context), ContextHeading, 0)
    ensures OccursAt(TaskSection(channelList), TaskHeading, 7)
  {
  }

  /** Headings placed at the start of the pieces they open keep their order
      in the concatenation. */
  lemma HeadingsInOrder(o: string, b: string, a: string, d: string, c: string, t: string,
                        withContext: bool)
    requires OccursAt(b, BrandHeading, 0) && OccursAt(a, AudienceHeading, 0)
    requires OccursAt(d, DetailsHeading, 0) && OccursAt(t, TaskHeading, 7)
    requires withContext ==> OccursAt(c, ContextHeading, 0)
    ensures var p := o + b + a + d + c + t;
      exists bi: nat, ai: nat, di: nat, ti: nat ::
        && bi < ai < di < ti
        && OccursAt(p, BrandHeading, bi)
        && OccursAt(p, AudienceHeading, ai)
        && OccursAt(p, DetailsHeading, di)
        && OccursAt(p, TaskHeading, ti)
        && (withContext ==> exists ci: nat :: di < ci < ti && OccursAt(p, ContextHeading, ci))
  {
    var p := o + b + a + d + c + t;
    InSixPieces(o, b, a, d, c, t, 1, BrandHeading, 0);
    InSixPieces(o, b, a, d, c, t, 2, AudienceHeading, 0);
    InSixPieces(o, b, a, d, c, t, 3, DetailsHeading, 0);
    InSixPieces(o, b, a, d, c, t, 5, TaskHeading, 7);
    var bi, ai, di, ti := |o|, |o + b|, |o + b + a|, |o + b + a + d + c| + 7;
    assert OccursAt(p, BrandHeading, bi) && OccursAt(p, AudienceHeading, ai);
    assert OccursAt(p, DetailsHeading, di) && OccursAt(p, TaskHeading, ti);
    if withContext {
      InSixPieces(o, b, a, d, c, t, 4, ContextHeading, 0);
      assert OccursAt(p, ContextHeading, |o + b + a + d|);
    }
  }

  /** The prompt is assembled in fixed order: brand and product, audience,
      campaign details, the optional context, then the task. */
  lemma SectionsInOrder(inputs: CampaignInput)
    ensures var p := BuildPrompt(inputs);
      exists b: nat, a: nat, d: nat, t: nat ::
        && b < a < d < t
        && OccursAt(p, BrandHeading, b)
        && OccursAt(p, AudienceHeading, a)
        && OccursAt(p, DetailsHeading, d)
        && OccursAt(p, TaskHeading, t)
        && (HasContext(inputs.additionalContext) ==>
              exists c: nat :: d < c < t && OccursAt(p, ContextHeading, c))
  {
    var cl := ChannelText(inputs);
    SectionsOpenWithHeadings(inputs.brandName, inputs.productDescription, inputs.targetAudience,
                             inputs.campaignGoal, cl, inputs.tone, inputs.additionalContext);
    HeadingsInOrder(Opening, BrandSection(inputs.brandName, inputs.productDescription),
                    AudienceSection(inputs.targetAudience),
                    DetailsSection(inputs.campaignGoal, cl, inputs.tone),
                    ContextBlock(inputs.additionalContext), TaskSection(cl),
                    HasContext(inputs.additionalContext));
    assert BuildPrompt(inputs) == Opening + BrandSection(inputs.brandName, inputs.productDescription)
      + AudienceSection(inputs.targetAudience) + DetailsSection(inputs.campaignGoal, cl, inputs.tone)
      + ContextBlock(inputs.additionalContext) + TaskSection(cl);
  }

  /** `h1` … `h5` occur in `p`, each starting after the one before. */
  ghost predicate FiveInOrder(p: string, h1: string, h2: string, h3: string, h4: string, h5: string)
  {
    exists i1: int, i2: int, i3: int, i4: int, i5: int ::
      && 0 <= i1 < i2 < i3 < i4 < i5
      && OccursAt(p, h1, i1) && OccursAt(p, h2, i2) && OccursAt(p, h3, i3)
      && OccursAt(p, h4, i4) && OccursAt(p, h5, i5)
  }

  lemma FiveInOrderIntro(p: string, h1: string, h2: string, h3: string, h4: string, h5: string,
                         i1: nat, i2: nat, i3: nat, i4: nat, i5: nat)
    requires i1 < i2 < i3 < i4 < i5
    requires OccursAt(p, h1, i1) && OccursAt(p, h2, i2) && OccursAt(p, h3, i3)
    requires OccursAt(p, h4, i4) && OccursAt(p, h5, i5)
    ensures FiveInOrder(p, h1, h2, h3, h4, h5)
  {
  }

  /** Text put in front shifts all five occurrences alike. */
  lemma FiveInOrderAfter(x: string, p: string,
                         h1: string, h2: string, h3: string, h4: string, h5: string)
    requires FiveInOrder(p, h1, h2, h3, h4, h5)
    ensures FiveInOrder(x + p, h1, h2, h3, h4, h5)
  {
    var i1: int, i2: int, i3: int, i4: int, i5: int :|
      && 0 <= i1 < i2 < i3 < i4 < i5
      && OccursAt(p, h1, i1) && OccursAt(p, h2, i2) && OccursAt(p, h3, i3)
      && OccursAt(p, h4, i4) && OccursAt(p, h5, i5);
    ExtendLeft(x, p, h1, i1);
    ExtendLeft(x, p, h2, i2);
    ExtendLeft(x, p, h3, i3);
    ExtendLeft(x, p, h4, i4);
    ExtendLeft(x, p, h5, i5);
    FiveInOrderIntro(x + p, h1, h2, h3, h4, h5, |x| + i1, |x| + i2, |x| + i3, |x| + i4, |x| + i5);
  }

  /** The five output headers appear, in the order the model is asked to
      write its sections. */
  ghost predicate HeadersInOrder(p: string)
  {
    FiveInOrder(p, StrategyHeader, AdCopyHeader, HashtagsHeader, ConceptsHeader, CalendarHeader)
  }

  /** In `w + x + y + z` each piece sits after the pieces before it. */
  lemma FourPieces(w: string, x: string, y: string, z: string)
    ensures OccursAt(w + x + y + z, x, |w|)
    ensures OccursAt(w + x + y + z, y, |w + x|)
    ensures OccursAt(w + x + y + z, z, |w + x + y|)
  {
    OccursAtEnd(w, x);
    ExtendRight(w + x, y, x, |w|);
    ExtendRight(w + x + y, z, x, |w|);
    OccursAtEnd(w + x, y);
    ExtendRight(w + x + y, z, y, |w + x|);
    OccursAtEnd(w + x + y, z);
  }

  /** The shape of the task section: a lead holding the first two headers,
      the channel line, and a tail holding the other three. */
  lemma FiveInTask(intro: string, h1: string, b1: string, h2: string, m: string,
                   b2: string, h3: string, b3: string, h4: string,
                   b4: string, h5: string, b5: string, closing: string)
    requires |h1| > 0 && |h2| > 0 && |h3| > 0 && |h4| > 0
    ensures FiveInOrder((intro + h1 + b1 + h2) + m + ((b2 + h3 + b3 + h4) + (b4 + h5 + b5 + closing)),
                        h1, h2, h3, h4, h5)
  {
    var lead, tail1, tail2 := intro + h1 + b1 + h2, b2 + h3 + b3 + h4, b4 + h5 + b5 + closing;
    var tail := tail1 + tail2;
    var t := lead + m + tail;
    FourPieces(intro, h1, b1, h2);
    FourPieces(b2, h3, b3, h4);
    FourPieces(b4, h5, b5, closing);
    ExtendRight(lead, m, h1, |intro|);
    ExtendRight(lead + m, tail, h1, |intro|);
    ExtendRight(lead, m, h2, |intro + h1 + b1|);
    ExtendRight(lead + m, tail, h2, |intro + h1 + b1|);
    ExtendRight(tail1, tail2, h3, |b2|);
    ExtendRight(tail1, tail2, h4, |b2 + h3 + b3|);
    ExtendLeft(tail1, tail2, h5, |b4|);
    ExtendLeft(lead + m, tail, h3, |b2|);
    ExtendLeft(lead + m, tail, h4, |b2 + h3 + b3|);
    ExtendLeft(lead + m, tail, h5, |tail1| + |b4|);
    FiveInOrderIntro(t, h1, h2, h3, h4, h5, |intro|, |intro + h1 + b1|,
                     |lead + m| + |b2|, |lead + m| + |b2 + h3 + b3|, |lead + m| + |tail1| + |b4|);
  }

  /** The task section asks for the five output sections in order, whatever
      the channel list. */
  lemma TaskSectionHeaders(channelList: string)
    ensures HeadersInOrder(TaskSection(channelList))
  {
    FiveInTask(TaskIntro, StrategyHeader, StrategyBody, AdCopyHeader, AdCopyLead + channelList,
               AdCopyBody, HashtagsHeader, HashtagsBody, ConceptsHeader,
               ConceptsBody, CalendarHeader, CalendarBody, Closing);
  }

  /** Every prompt asks for the five output sections, in order. */
  lemma TaskHeadersPresent(inputs: CampaignInput)
    ensures HeadersInOrder(BuildPrompt(inputs))
  {
    var cl := ChannelText(inputs);
    var before := Opening + BrandSection(inputs.brandName, inputs.productDescription)
      + AudienceSection(inputs.targetAudience) + DetailsSection(inputs.campaignGoal, cl, inputs.tone)
      + ContextBlock(inputs.additionalContext);
    TaskSectionHeaders(cl);
    FiveInOrderAfter(before, TaskSection(cl),
      StrategyHeader, AdCopyHeader, HashtagsHeader, ConceptsHeader, CalendarHeader);
    PromptPieces(inputs);
  }

  /** Where the parts of each section land in a concatenation shaped like a
      prompt: the opening, the brand section, the audience section, the
      details section, the context block and the task section. */
  lemma PartsOfSix(o: string, bh: string, bp: string, pp: string, bz: string,
                   ax: string, az: string,
                   dh: string, gp: string, cp: string, tp: string, dz: string,
                   c: string, tl: string, tm: string, tt: string)
    ensures var p := o + (bh + bp + pp + bz) + (ax + az) + (dh + gp + cp + tp + dz) + c + (tl + tm + tt);
      && Contains(p, bp) && Contains(p, pp) && Contains(p, ax)
      && Contains(p, gp) && Contains(p, cp) && Contains(p, tp) && Contains(p, c)
    ensures var p := o + (bh + bp + pp + bz) + (ax + az) + (dh + gp + cp + tp + dz) + c + (tl + tm + tt);
      exists i: nat, j: nat :: i + |cp| <= j && OccursAt(p, cp, i) && OccursAt(p, tm, j)
  {
    var b, a, d, t := bh + bp + pp + bz, ax + az, dh + gp + cp + tp + dz, tl + tm + tt;
    var p := o + b + a + d + c + t;
    FourPieces(bh, bp, pp, bz);
    InSixPieces(o, b, a, d, c, t, 1, bp, |bh|);
    InSixPieces(o, b, a, d, c, t, 1, pp, |bh + bp|);
    OccursAtStart(ax, az);
    InSixPieces(o, b, a, d, c, t, 2, ax, 0);
    FourPieces(dh, gp, cp, tp);
    var dx := dh + gp + cp + tp;
    ExtendRight(dx, dz, gp, |dh|);
    ExtendRight(dx, dz, cp, |dh + gp|);
    ExtendRight(dx, dz, tp, |dh + gp + cp|);
    InSixPieces(o, b, a, d, c, t, 3, gp, |dh|);
    InSixPieces(o, b, a, d, c, t, 3, cp, |dh + gp|);
    InSixPieces(o, b, a, d, c, t, 3, tp, |dh + gp + cp|);
    OccursWhole(c);
    InSixPieces(o, b, a, d, c, t, 4, c, 0);
    OccursAtEnd(tl, tm);
    ExtendRight(tl + tm, tt, tm, |tl|);
    InSixPieces(o, b, a, d, c, t, 5, tm, |tl|);
    assert OccursAt(p, cp, |o + b + a| + |dh + gp|);
    assert OccursAt(p, tm, |o + b + a + d + c| + |tl|);
  }

  /** The channel text appears twice: on the Channels line of the details and
      on the AD COPY item's "For each channel (" line, in that order. */
  lemma ChannelListAppearsTwice(inputs: CampaignInput)
    ensures var p, cl := BuildPrompt(inputs), ChannelText(inputs);
      exists i: nat, j: nat ::
        && i + |ChannelsLabel + cl| <= j
        && OccursAt(p, ChannelsLabel + cl, i)
        && OccursAt(p, AdCopyLead + cl, j)
  {
    var cl := ChannelText(inputs);
    PartsOfSix(Opening, BrandHeading, BrandNameLabel + inputs.brandName,
               ProductLabel + inputs.productDescription, "\n\n",
               AudienceHeading + ("\n" + inputs.targetAudience), "\n\n",
               DetailsHeading, GoalLabel + inputs.campaignGoal, ChannelsLabel + cl,
               ToneLabel + inputs.tone, "\n\n",
               ContextBlock(inputs.additionalContext), TaskLead, AdCopyLead + cl, TaskTail);
    PromptPieces(inputs);
  }

  /** Every field reaches the prompt verbatim, right after its label. */
  lemma FieldsSplicedVerbatim(inputs: CampaignInput)
    ensures var p := BuildPrompt(inputs);
      && Contains(p, BrandNameLabel + inputs.brandName)
      && Contains(p, ProductLabel + inputs.productDescription)
      && Contains(p, AudienceHeading + ("\n" + inputs.targetAudience))
      && Contains(p, GoalLabel + inputs.campaignGoal)
      && Contains(p, ChannelsLabel + ChannelText(inputs))
      && Contains(p, ToneLabel + inputs.tone)
      && (HasContext(inputs.additionalContext) ==>
            Contains(p, ContextHeading + "\n" + inputs.additionalContext.value))
  {
    var cl := ChannelText(inputs);
    PartsOfSix(Opening, BrandHeading, BrandNameLabel + inputs.brandName,
               ProductLabel + inputs.productDescription, "\n\n",
               AudienceHeading + ("\n" + inputs.targetAudience), "\n\n",
               DetailsHeading, GoalLabel + inputs.campaignGoal, ChannelsLabel + cl,
               ToneLabel + inputs.tone, "\n\n",
               ContextBlock(inputs.additionalContext), TaskLead, AdCopyLead + cl, TaskTail);
    PromptPieces(inputs);
  }

  // ---------------------------------------------------------------------
  // The ADDITIONAL CONTEXT marker
  // ---------------------------------------------------------------------

  /** A field in which the context marker does not occur. */
  predicate MarkerFree(s: string)
  {
    !Contains(s, ContextMarker)
  }

  /** None of the fields spliced into the prompt, other than the context
      itself, contains the marker. */
  predicate FieldsMarkerFree(inputs: CampaignInput)
  {
    && MarkerFree(inputs.brandName)
    && MarkerFree(inputs.productDescription)
    && MarkerFree(inputs.targetAudience)
    && MarkerFree(inputs.campaignGoal)
    && MarkerFree(inputs.tone)
    && forall k :: 0 <= k < |inputs.channels| ==> MarkerFree(inputs.channels[k])
  }

  lemma BrandSectionMarkerFree(brand: string, product: string)
    requires MarkerFree(brand) && MarkerFree(product)
    ensures MarkerFree(BrandSection(brand, product))
  {
    MissingCharExcludes(BrandHeading, ContextMarker, 'X');
    AppendLine(BrandHeading, BrandNameLabel, brand, ContextMarker);
    AppendLine(BrandHeading + (BrandNameLabel + brand), ProductLabel, product, ContextMarker);
    MissingCharExcludes("\n\n", ContextMarker, 'X');
    GlueAtBarrier(BrandHeading + (BrandNameLabel + brand) + (ProductLabel + product), "\n\n", ContextMarker);
  }

  lemma AudienceSectionMarkerFree(audience: string)
    requires MarkerFree(audience)
    ensures MarkerFree(AudienceSection(audience))
  {
    MissingCharExcludes(AudienceHeading, ContextMarker, 'X');
    AppendLine(AudienceHeading, "\n", audience, ContextMarker);
    MissingCharExcludes("\n\n", ContextMarker, 'X');
    GlueAtBarrier(AudienceHeading + ("\n" + audience), "\n\n", ContextMarker);
  }

  lemma ChannelTextMarkerFree(inputs: CampaignInput)
    requires forall k :: 0 <= k < |inputs.channels| ==> MarkerFree(inputs.channels[k])
    ensures MarkerFree(ChannelText(inputs))
  {
    JoinExcludes(ChannelSeparator, inputs.channels, ContextMarker);
  }

  lemma DetailsSectionMarkerFree(goal: string, channelList: string, tone: string)
    requires MarkerFree(goal) && MarkerFree(channelList) && MarkerFree(tone)
    ensures MarkerFree(DetailsSection(goal, channelList, tone))
  {
    MissingCharExcludes(DetailsHeading, ContextMarker, 'X');
    var x1 := DetailsHeading + (GoalLabel + goal);
    var x2 := x1 + (ChannelsLabel + channelList);
    var x3 := x2 + (ToneLabel + tone);
    AppendLine(DetailsHeading, GoalLabel, goal, ContextMarker);
    AppendLine(x1, ChannelsLabel, channelList, ContextMarker);
    AppendLine(x2, ToneLabel, tone, ContextMarker);
    MissingCharExcludes("\n\n", ContextMarker, 'X');
    GlueAtBarrier(x3, "\n\n", ContextMarker);
  }

  // The fixed text of the task section has no capital X, a letter of the
  // marker; checked constant by constant.

  lemma TaskIntroLacksX() ensures 'X' !in TaskIntro {}
  lemma StrategyHeaderLacksX() ensures 'X' !in StrategyHeader {}
  lemma StrategyBodyLacksX() ensures 'X' !in StrategyBody {}
  lemma AdCopyHeaderLacksX() ensures 'X' !in AdCopyHeader {}
  lemma AdCopyBodyLacksX() ensures 'X' !in AdCopyBody {}
  lemma HashtagsHeaderLacksX() ensures 'X' !in HashtagsHeader {}
  lemma HashtagsBodyLacksX() ensures 'X' !in HashtagsBody {}
  lemma ConceptsHeaderLacksX() ensures 'X' !in ConceptsHeader {}
  lemma ConceptsBodyLacksX() ensures 'X' !in ConceptsBody {}
  lemma CalendarHeaderLacksX() ensures 'X' !in CalendarHeader {}
  lemma CalendarBodyLacksX() ensures 'X' !in CalendarBody {}
  lemma ClosingLacksX() ensures 'X' !in Closing {}

  lemma TaskTextLacksX()
    ensures 'X' !in TaskLead && 'X' !in TaskTail
  {
    TaskIntroLacksX();
    StrategyHeaderLacksX();
    StrategyBodyLacksX();
    AdCopyHeaderLacksX();
    AdCopyBodyLacksX();
    HashtagsHeaderLacksX();
    HashtagsBodyLacksX();
    ConceptsHeaderLacksX();
    ConceptsBodyLacksX();
    CalendarHeaderLacksX();
    CalendarBodyLacksX();
    ClosingLacksX();
  }

  lemma TaskSectionMarkerFree(channelList: string)
    requires MarkerFree(channelList)
    ensures MarkerFree(TaskSection(channelList))
  {
    TaskTextLacksX();
    MissingCharExcludes(TaskLead, ContextMarker, 'X');
    MissingCharExcludes(TaskTail, ContextMarker, 'X');
    AppendLine(TaskLead, AdCopyLead, channelList, ContextMarker);
    GlueAtBarrier(TaskLead + (AdCopyLead + channelList), TaskTail, ContextMarker);
  }

  lemma OpeningLacksX() ensures 'X' !in Opening {}

  /** With every field free of the marker, the prompt contains the marker
      exactly when the brief has a non-empty additional context. */
  lemma ContextMarkerIffContext(inputs: CampaignInput)
    requires FieldsMarkerFree(inputs)
    ensures Contains(BuildPrompt(inputs), ContextMarker) <==> HasContext(inputs.additionalContext)
  {
    if HasContext(inputs.additionalContext) {
      ContextMarkerWithContext(inputs);
    } else {
      ContextMarkerWithoutContext(inputs);
    }
  }

  /** A non-empty context always brings its heading, and so the marker, into
      the prompt, whatever the other fields hold. */
  lemma ContextMarkerWithContext(inputs: CampaignInput)
    requires HasContext(inputs.additionalContext)
    ensures Contains(BuildPrompt(inputs), ContextMarker)
  {
    var cl := ChannelText(inputs);
    var o := Opening;
    var b := BrandSection(inputs.brandName, inputs.productDescription);
    var a := AudienceSection(inputs.targetAudience);
    var d := DetailsSection(inputs.campaignGoal, cl, inputs.tone);
    var c := ContextBlock(inputs.additionalContext);
    var t := TaskSection(cl);
    assert c == ContextHeading + "\n" + inputs.additionalContext.value;
    OccursAtEnd("## ", ContextMarker);
    ExtendRight(ContextHeading, "\n", ContextMarker, 3);
    ExtendRight(ContextHeading + "\n", inputs.additionalContext.value, ContextMarker, 3);
    InSixPieces(o, b, a, d, c, t, 4, ContextMarker, 3);
    PromptPieces(inputs);
    assert OccursAt(BuildPrompt(inputs), ContextMarker, |o + b + a + d| + 3);
  }

  /** Without context, and with every field free of the marker, the prompt
      does not contain the marker. */
  lemma ContextMarkerWithoutContext(inputs: CampaignInput)
    requires FieldsMarkerFree(inputs) && !HasContext(inputs.additionalContext)
    ensures !Contains(BuildPrompt(inputs), ContextMarker)
  {
    var cl := ChannelText(inputs);
    var o := Opening;
    var b := BrandSection(inputs.brandName, inputs.productDescription);
    var a := AudienceSection(inputs.targetAudience);
    var d := DetailsSection(inputs.campaignGoal, cl, inputs.tone);
    var t := TaskSection(cl);
    OpeningLacksX();
    MissingCharExcludes(o, ContextMarker, 'X');
    BrandSectionMarkerFree(inputs.brandName, inputs.productDescription);
    AudienceSectionMarkerFree(inputs.targetAudience);
    ChannelTextMarkerFree(inputs);
    DetailsSectionMarkerFree(inputs.campaignGoal, cl, inputs.tone);
    TaskSectionMarkerFree(cl);
    SectionsOpenWithHeadings(inputs.brandName, inputs.productDescription, inputs.targetAudience,
                             inputs.campaignGoal, cl, inputs.tone, inputs.additionalContext);
    assert b[0] == '#' && a[0] == '#' && d[0] == '#';
    assert t[0] == '\n';
    AbsentFromFive(o, b, a, d, t, ContextMarker);
    PromptPieces(inputs);
    assert ContextBlock(inputs.additionalContext) == [];
    assert o + b + a + d + [] == o + b + a + d;
  }

  // ---------------------------------------------------------------------
  // A worked brief
  // ---------------------------------------------------------------------

  /** The BrewMate brief. */
  predicate IsBrewMateBrief(inputs: CampaignInput)
  {
    && inputs.brandName == "BrewMate"
    && inputs.productDescription == "cold brew kit"
    && inputs.targetAudience == "urban professionals 25-40"
    && inputs.campaignGoal == "Product Launch"
    && inputs.channels == ["Instagram", "Email"]
    && inputs.tone == "Playful & Witty"
    && inputs.additionalContext == None
  }

  // The brief's fields are free of the marker: all but the audience are
  // shorter than it, and the audience has no capital X.

  lemma BrewMateShortFields(inputs: CampaignInput)
    requires IsBrewMateBrief(inputs)
    ensures && MarkerFree(inputs.brandName) && MarkerFree(inputs.productDescription)
            && MarkerFree(inputs.campaignGoal) && MarkerFree(inputs.tone)
  {
    ShortExcludes(inputs.brandName, ContextMarker);
    ShortExcludes(inputs.productDescription, ContextMarker);
    ShortExcludes(inputs.campaignGoal, ContextMarker);
    ShortExcludes(inputs.tone, ContextMarker);
  }

  lemma BrewMateChannels(inputs: CampaignInput)
    requires IsBrewMateBrief(inputs)
    ensures forall k :: 0 <= k < |inputs.channels| ==> MarkerFree(inputs.channels[k])
  {
    forall k | 0 <= k < |inputs.channels| ensures MarkerFree(inputs.channels[k]) {
      ShortExcludes(inputs.channels[k], ContextMarker);
    }
  }

  lemma BrewMateAudience(inputs: CampaignInput)
    requires IsBrewMateBrief(inputs)
    ensures MarkerFree(inputs.targetAudience)
  {
    MissingCharExcludes(inputs.targetAudience, ContextMarker, 'X');
  }

  lemma BrewMateChannelText(inputs: CampaignInput)
    requires IsBrewMateBrief(inputs)
    ensures ChannelText(inputs) == "Instagram, Email"
  {
  }

  /** A field spliced in after its label can be found in the prompt. */
  lemma FieldFound(p: string, lead: string, field: string)
    requires Contains(p, lead + field)
    ensures Contains(p, field)
  {
    OccursAtEnd(lead, field);
    ContainsThrough(p, lead + field, field, |lead|);
  }

  /** The BrewMate brief's prompt names the brand, lists the two channels as
      "Instagram, Email" and states the tone. */
  lemma BrewMateMentions(inputs: CampaignInput)
    requires IsBrewMateBrief(inputs)
    ensures var p := BuildPrompt(inputs);
      && Contains(p, "BrewMate")
      && Contains(p, "Instagram, Email")
      && Contains(p, "Playful & Witty")
  {
    var p := BuildPrompt(inputs);
    FieldsSplicedVerbatim(inputs);
    BrewMateChannelText(inputs);
    FieldFound(p, BrandNameLabel, inputs.brandName);
    FieldFound(p, ChannelsLabel, ChannelText(inputs));
    FieldFound(p, ToneLabel, inputs.tone);
  }

  /** The BrewMate brief has no context, and its prompt has no context
      heading. */
  lemma BrewMateWithoutContextHeading(inputs: CampaignInput)
    requires IsBrewMateBrief(inputs)
    ensures !Contains(BuildPrompt(inputs), ContextMarker)
  {
    BrewMateShortFields(inputs);
    BrewMateChannels(inputs);
    BrewMateAudience(inputs);
    ContextMarkerWithoutContext(inputs);
  }
}
