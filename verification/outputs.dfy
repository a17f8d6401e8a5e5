/** The response envelope of src/components/basics.rs: the carousel, the
    untagged `Types` sum of every output, `Outputs` and the top-level
    `Template`. */
module Outputs {
  import opened Wrappers
  import opened Json
  import Buttons
  import opened Basics
  import opened Cards

  /* ---------- CarouselHeader ---------- */

  datatype CarouselHeader = CarouselHeader(title: string, description: string, thumbnail: ThumbNail)

  function CarouselHeaderNew(): (r: CarouselHeader)
    ensures r.title == "" && r.description == "" && r.thumbnail == ThumbNailNew("")
  {
    CarouselHeader("", "", ThumbNailNew(""))
  }

  function CarouselHeaderSetTitle(h: CarouselHeader, title: string): (r: CarouselHeader)
    ensures r.title == title && r.(title := h.title) == h
  {
    h.(title := title)
  }

  function CarouselHeaderSetDesc(h: CarouselHeader, desc: string): (r: CarouselHeader)
    ensures r.description == desc && r.(description := h.description) == h
  {
    h.(description := desc)
  }

  const CarouselHeaderNames := ["title", "description", "thumbnail"]

  function CarouselHeaderSlots(h: CarouselHeader): seq<Option<Json>> {
    [StrSlot(h.title), StrSlot(h.description), NestedSlot(h.thumbnail, EncodeThumbNail)]
  }

  function EncodeCarouselHeader(h: CarouselHeader): Json {
    JObj(Fields(CarouselHeaderNames, CarouselHeaderSlots(h)))
  }

  /** A carousel header always emits title, description and thumbnail, in that order. */
  lemma CarouselHeaderForm(h: CarouselHeader)
    ensures Keys(EncodeCarouselHeader(h).members) == CarouselHeaderNames
  {
    FieldsKeysAll(CarouselHeaderNames, CarouselHeaderSlots(h));
  }

  function DecodeCarouselHeader(j: Json): (r: Decoded<CarouselHeader>)
    ensures r.Ok? ==> j.JObj? && KnownKeys(j.members, CarouselHeaderNames)
    ensures r.Ok? ==> HasKey(j.members, "title") && HasKey(j.members, "description") && HasKey(j.members, "thumbnail")
  {
    var s :- DecodeSlots(j, CarouselHeaderNames, true);
    var title :- AsString(s[0], "title");
    var description :- AsString(s[1], "description");
    var thumbnail :- AsNested(s[2], "thumbnail", DecodeThumbNail);
    Ok(CarouselHeader(title, description, thumbnail))
  }

  lemma CarouselHeaderRoundTrip(h: CarouselHeader)
    ensures DecodeCarouselHeader(EncodeCarouselHeader(h)) == Ok(h)
  {
    SlotsRoundTrip(CarouselHeaderNames, CarouselHeaderSlots(h), true);
    ThumbNailRoundTrip(h.thumbnail);
  }

  lemma OptCarouselHeaderRoundTrip(o: Option<CarouselHeader>)
    ensures AsOptNested(OptNestedSlot(o, EncodeCarouselHeader), "header", DecodeCarouselHeader) == Ok(o)
  {
    if o.Some? {
      CarouselHeaderRoundTrip(o.value);
    }
  }

  /* ---------- Carousel ---------- */

  /** `cardType` is the serialized `type`: the kind of card the carousel is
      meant to hold. Nothing checks the items against it. */
  datatype CarouselContent = CarouselContent(cardType: string, items: seq<Card>, header: Option<CarouselHeader>)

  /** The carousel output: its content sits under the key `carousel`. */
  datatype Carousel = Carousel(content: CarouselContent)

  function CarouselNew(): (r: Carousel)
    ensures r.content.cardType == BasicCardId()
    ensures r.content.items == [] && r.content.header == None
  {
    Carousel(CarouselContent("basicCard", [], None))
  }

  /** Appends a card of any kind after the existing ones; nothing else changes. */
  function CarouselAddCard(c: Carousel, card: Card): (r: Carousel)
    ensures r.content.items == c.content.items + [card]
    ensures r.content.(items := c.content.items) == c.content
  {
    Carousel(c.content.(items := c.content.items + [card]))
  }

  function CarouselSetType(c: Carousel, cardType: string): (r: Carousel)
    ensures r.content.cardType == cardType
    ensures r.content.(cardType := c.content.cardType) == c.content
  {
    Carousel(c.content.(cardType := cardType))
  }

  /** The header title setter as written: it unwraps the header, so it fails
      (`None`) on a carousel without one. */
  function CarouselSetHeaderTitle(c: Carousel, title: string): (r: Option<Carousel>)
    ensures r.Some? <==> c.content.header.Some?
    ensures r.Some? ==> r.value.content.header == Some(CarouselHeaderSetTitle(c.content.header.value, title))
    ensures r.Some? ==> r.value.content.(header := c.content.header) == c.content
  {
    match c.content.header
    case None => None
    case Some(h) => Some(Carousel(c.content.(header := Some(h.(title := title)))))
  }

  /** The header description setter as written: fails without a header. */
  function CarouselSetHeaderDesc(c: Carousel, desc: string): (r: Option<Carousel>)
    ensures r.Some? <==> c.content.header.Some?
    ensures r.Some? ==> r.value.content.header == Some(CarouselHeaderSetDesc(c.content.header.value, desc))
    ensures r.Some? ==> r.value.content.(header := c.content.header) == c.content
  {
    match c.content.header
    case None => None
    case Some(h) => Some(Carousel(c.content.(header := Some(h.(description := desc)))))
  }

  /** A call on the public carousel API. */
  datatype CarouselStep =
    | AddCard(card: Card)
    | SetType(cardType: string)
    | SetHeaderTitle(title: string)
    | SetHeaderDesc(desc: string)

  function CarouselApply(c: Carousel, step: CarouselStep): Option<Carousel> {
    match step
    case AddCard(card) => Some(CarouselAddCard(c, card))
    case SetType(t) => Some(CarouselSetType(c, t))
    case SetHeaderTitle(t) => CarouselSetHeaderTitle(c, t)
    case SetHeaderDesc(d) => CarouselSetHeaderDesc(c, d)
  }

  /** The carousel `Carousel::new` followed by `steps` produces, or `None` once
      a step fails. */
  function CarouselBuild(steps: seq<CarouselStep>): Option<Carousel>
    decreases |steps|
  {
    if |steps| == 0 then Some(CarouselNew())
    else
      match CarouselBuild(steps[..|steps| - 1])
      case None => None
      case Some(c) => CarouselApply(c, steps[|steps| - 1])
  }

  /** No builder method creates a header: every carousel built with `new` and the
      builder methods has none (one decoded from JSON may have one). */
  lemma {:induction false} CarouselBuildHasNoHeader(steps: seq<CarouselStep>)
    ensures CarouselBuild(steps).Some? ==> CarouselBuild(steps).value.content.header.None?
  {
    if |steps| > 0 {
      CarouselBuildHasNoHeader(steps[..|steps| - 1]);
    }
  }

  /** Hence setting the header title fails on every carousel built with `new` and
      the builder methods. */
  lemma CarouselHeaderTitleAlwaysFails(steps: seq<CarouselStep>, title: string)
    ensures CarouselBuild(steps + [SetHeaderTitle(title)]) == None
  {
    var all := steps + [SetHeaderTitle(title)];
    assert all[..|all| - 1] == steps;
    CarouselBuildHasNoHeader(steps);
  }

  /** The header title setter as evidently intended: it starts from an empty
      header when there is none. */
  function CarouselSetHeaderTitleFixed(c: Carousel, title: string): (r: Carousel)
    ensures r.content.header.Some? && r.content.header.value.title == title
    ensures c.content.header.Some? ==> r.content.header == Some(CarouselHeaderSetTitle(c.content.header.value, title))
    ensures c.content.header.None? ==> r.content.header == Some(CarouselHeaderSetTitle(CarouselHeaderNew(), title))
    ensures r.content.(header := c.content.header) == c.content
  {
    var h := if c.content.header.Some? then c.content.header.value else CarouselHeaderNew();
    Carousel(c.content.(header := Some(h.(title := title))))
  }

  /** The header description setter as evidently intended. */
  function CarouselSetHeaderDescFixed(c: Carousel, desc: string): (r: Carousel)
    ensures r.content.header.Some? && r.content.header.value.description == desc
    ensures c.content.header.Some? ==> r.content.header == Some(CarouselHeaderSetDesc(c.content.header.value, desc))
    ensures c.content.header.None? ==> r.content.header == Some(CarouselHeaderSetDesc(CarouselHeaderNew(), desc))
    ensures r.content.(header := c.content.header) == c.content
  {
    var h := if c.content.header.Some? then c.content.header.value else CarouselHeaderNew();
    Carousel(c.content.(header := Some(h.(description := desc))))
  }

  /** With the intended setters, a fresh carousel takes a title and then a
      description, and keeps both. */
  lemma CarouselFixedHeaderKeepsBoth(title: string, desc: string)
    ensures var r := CarouselSetHeaderDescFixed(CarouselSetHeaderTitleFixed(CarouselNew(), title), desc);
      r.content.header == Some(CarouselHeader(title, desc, ThumbNailNew("")))
  {
  }

  const CarouselContentNames := ["type", "items", "header"]

  function CarouselContentSlots(c: CarouselContent): seq<Option<Json>> {
    [StrSlot(c.cardType), ArraySlotUnlessEmpty(c.items, EncodeCard), OptNestedSlot(c.header, EncodeCarouselHeader)]
  }

  function EncodeCarouselContent(c: CarouselContent): Json {
    JObj(Fields(CarouselContentNames, CarouselContentSlots(c)))
  }

  function DecodeCarouselContent(j: Json): (r: Decoded<CarouselContent>)
    ensures r.Ok? ==> j.JObj? && KnownKeys(j.members, CarouselContentNames)
    ensures r.Ok? ==> HasKey(j.members, "type")
  {
    var s :- DecodeSlots(j, CarouselContentNames, true);
    var cardType :- AsString(s[0], "type");
    var items :- AsArrayOrEmpty(s[1], "items", DecodeCard);
    var header :- AsOptNested(s[2], "header", DecodeCarouselHeader);
    Ok(CarouselContent(cardType, items, header))
  }

  /** `type` is always emitted, `items` only when non-empty, `header` only when
      present. */
  lemma CarouselContentForm(c: CarouselContent)
    ensures Keys(EncodeCarouselContent(c).members) ==
      Present(CarouselContentNames, [true, |c.items| > 0, c.header.Some?])
  {
    FieldsKeys(CarouselContentNames, CarouselContentSlots(c));
    assert Flags(CarouselContentSlots(c)) == [true, |c.items| > 0, c.header.Some?];
  }

  /** Every card of the carousel is valid. */
  predicate CarouselValid(c: CarouselContent) {
    forall i :: 0 <= i < |c.items| ==> CardValid(c.items[i])
  }

  lemma CarouselContentRoundTrip(c: CarouselContent)
    requires CarouselValid(c)
    ensures DecodeCarouselContent(EncodeCarouselContent(c)) == Ok(c)
  {
    SlotsRoundTrip(CarouselContentNames, CarouselContentSlots(c), true);
    CardsRoundTrip(c.items, "items");
    OptCarouselHeaderRoundTrip(c.header);
  }

  const CarouselNames := ["carousel"]

  function EncodeCarousel(c: Carousel): Json {
    JObj(Fields(CarouselNames, [NestedSlot(c.content, EncodeCarouselContent)]))
  }

  function DecodeCarousel(j: Json): (r: Decoded<Carousel>)
    ensures r.Ok? ==> j.JObj? && KnownKeys(j.members, CarouselNames)
    ensures r.Ok? ==> HasKey(j.members, "carousel")
  {
    var s :- DecodeSlots(j, CarouselNames, true);
    var content :- AsNested(s[0], "carousel", DecodeCarouselContent);
    Ok(Carousel(content))
  }

  lemma CarouselRoundTrip(c: Carousel)
    requires CarouselValid(c.content)
    ensures DecodeCarousel(EncodeCarousel(c)) == Ok(c)
  {
    SlotsRoundTrip(CarouselNames, [NestedSlot(c.content, EncodeCarouselContent)], true);
    CarouselContentRoundTrip(c.content);
  }

  /* ---------- Types: the untagged sum of every output ---------- */

  datatype Types =
    | ListOut(list: ListCard)
    | BasicOut(basic: BasicCard)
    | CommerceOut(commerce: CommerceCard)
    | ItemOut(item: ItemCard)
    | SimpleTextOut(simpleText: SimpleText)
    | SimpleImageOut(simpleImage: SimpleImage)
    | CarouselOut(carousel: Carousel)

  /** Every button and card inside the output is valid. */
  predicate TypesValid(t: Types) {
    match t
    case ListOut(l) => Buttons.AllWellTagged(l.content.buttons)
    case BasicOut(b) => Buttons.AllWellTagged(b.content.buttons)
    case CommerceOut(m) => Buttons.AllWellTagged(m.content.buttons)
    case ItemOut(i) => Buttons.AllWellTagged(i.content.buttons)
    case SimpleTextOut(_) => true
    case SimpleImageOut(_) => true
    case CarouselOut(c) => CarouselValid(c.content)
  }

  /** The single key an output is wrapped under; the card keys are the cards'
      `id()` values. */
  function WrapperKey(t: Types): string {
    match t
    case ListOut(_) => "listCard"
    case BasicOut(_) => BasicCardId()
    case CommerceOut(_) => CommerceCardId()
    case ItemOut(_) => ItemCardId()
    case SimpleTextOut(_) => "simpleText"
    case SimpleImageOut(_) => "simpleImage"
    case CarouselOut(_) => "carousel"
  }

  function EncodeTypes(t: Types): Json {
    match t
    case ListOut(l) => EncodeListCard(l)
    case BasicOut(b) => EncodeBasicCard(b)
    case CommerceOut(m) => EncodeCommerceCard(m)
    case ItemOut(i) => EncodeItemCard(i)
    case SimpleTextOut(x) => EncodeSimpleText(x)
    case SimpleImageOut(x) => EncodeSimpleImage(x)
    case CarouselOut(c) => EncodeCarousel(c)
  }

  /** Tries the variants in declaration order and keeps the first that decodes. */
  function DecodeTypes(j: Json): (r: Decoded<Types>)
    ensures r.Ok? <==>
      || DecodeListCard(j).Ok? || DecodeBasicCard(j).Ok? || DecodeCommerceCard(j).Ok?
      || DecodeItemCard(j).Ok? || DecodeSimpleText(j).Ok? || DecodeSimpleImage(j).Ok?
      || DecodeCarousel(j).Ok?
    ensures DecodeListCard(j).Ok? ==> r == Ok(ListOut(DecodeListCard(j).value))
    ensures r.Ok? && r.value.BasicOut? ==>
      DecodeListCard(j).Err? && DecodeBasicCard(j) == Ok(r.value.basic)
    ensures r.Ok? && r.value.CommerceOut? ==>
      DecodeListCard(j).Err? && DecodeBasicCard(j).Err? && DecodeCommerceCard(j) == Ok(r.value.commerce)
    ensures r.Ok? && r.value.ItemOut? ==>
      DecodeListCard(j).Err? && DecodeBasicCard(j).Err? && DecodeCommerceCard(j).Err?
      && DecodeItemCard(j) == Ok(r.value.item)
    ensures r.Ok? && r.value.SimpleTextOut? ==>
      DecodeListCard(j).Err? && DecodeBasicCard(j).Err? && DecodeCommerceCard(j).Err?
      && DecodeItemCard(j).Err? && DecodeSimpleText(j) == Ok(r.value.simpleText)
    ensures r.Ok? && r.value.SimpleImageOut? ==>
      DecodeListCard(j).Err? && DecodeBasicCard(j).Err? && DecodeCommerceCard(j).Err?
      && DecodeItemCard(j).Err? && DecodeSimpleText(j).Err? && DecodeSimpleImage(j) == Ok(r.value.simpleImage)
    ensures r.Ok? && r.value.CarouselOut? ==>
      DecodeListCard(j).Err? && DecodeBasicCard(j).Err? && DecodeCommerceCard(j).Err?
      && DecodeItemCard(j).Err? && DecodeSimpleText(j).Err? && DecodeSimpleImage(j).Err?
      && DecodeCarousel(j) == Ok(r.value.carousel)
  {
    match DecodeListCard(j)
    case Ok(l) => Ok(ListOut(l))
    case Err(_) =>
    match DecodeBasicCard(j)
    case Ok(b) => Ok(BasicOut(b))
    case Err(_) =>
    match DecodeCommerceCard(j)
    case Ok(m) => Ok(CommerceOut(m))
    case Err(_) =>
    match DecodeItemCard(j)
    case Ok(i) => Ok(ItemOut(i))
    case Err(_) =>
    match DecodeSimpleText(j)
    case Ok(x) => Ok(SimpleTextOut(x))
    case Err(_) =>
    match DecodeSimpleImage(j)
    case Ok(x) => Ok(SimpleImageOut(x))
    case Err(_) =>
    match DecodeCarousel(j)
    case Ok(c) => Ok(CarouselOut(c))
    case Err(_) => Err(NoVariantMatched)
  }

  /** Every output encodes as an object with exactly one member, under its
      wrapper key. */
  lemma TypesWrapped(t: Types)
    ensures EncodeTypes(t).JObj? && Keys(EncodeTypes(t).members) == [WrapperKey(t)]
  {
    match t
    case ListOut(l) => FieldsOne(ListCardNames, [NestedSlot(l.content, EncodeListCardContent)]);
    case BasicOut(b) => FieldsOne(BasicCardNames, [NestedSlot(b.content, EncodeBasicCardContent)]);
    case CommerceOut(m) => FieldsOne(CommerceCardNames, [NestedSlot(m.content, EncodeCommerceCardContent)]);
    case ItemOut(i) => FieldsOne(ItemCardNames, [NestedSlot(i.content, EncodeItemCardContent)]);
    case SimpleTextOut(x) => FieldsOne(SimpleTextNames, [NestedSlot(x.content, EncodeSimpleTextContent)]);
    case SimpleImageOut(x) => FieldsOne(SimpleImageNames, [NestedSlot(x.content, EncodeSimpleImageContent)]);
    case CarouselOut(c) => FieldsOne(CarouselNames, [NestedSlot(c.content, EncodeCarouselContent)]);
  }

  /** The wrapper keys of different variants differ. */
  lemma WrapperKeysDistinct(t: Types, u: Types)
    requires WrapperKey(t) == WrapperKey(u)
    ensures t.ListOut? == u.ListOut? && t.BasicOut? == u.BasicOut? && t.CommerceOut? == u.CommerceOut?
    ensures t.ItemOut? == u.ItemOut? && t.SimpleTextOut? == u.SimpleTextOut?
    ensures t.SimpleImageOut? == u.SimpleImageOut? && t.CarouselOut? == u.CarouselOut?
  {
  }

  /* Each decoder of an earlier variant rejects a one-member object whose key
     it does not declare. */

  lemma NotListCard(k: string, v: Json)
    requires k != "listCard"
    ensures DecodeListCard(JObj([(k, v)])).Err?
  {
    DecodeSlotsDeniesUnknown([(k, v)], 0, ListCardNames);
  }

  lemma NotBasicCard(k: string, v: Json)
    requires k != "basicCard"
    ensures DecodeBasicCard(JObj([(k, v)])).Err?
  {
    DecodeSlotsDeniesUnknown([(k, v)], 0, BasicCardNames);
  }

  lemma NotCommerceCard(k: string, v: Json)
    requires k != "commerceCard"
    ensures DecodeCommerceCard(JObj([(k, v)])).Err?
  {
    DecodeSlotsDeniesUnknown([(k, v)], 0, CommerceCardNames);
  }

  lemma NotItemCard(k: string, v: Json)
    requires k != "itemCard"
    ensures DecodeItemCard(JObj([(k, v)])).Err?
  {
    DecodeSlotsDeniesUnknown([(k, v)], 0, ItemCardNames);
  }

  lemma NotSimpleText(k: string, v: Json)
    requires k != "simpleText"
    ensures DecodeSimpleText(JObj([(k, v)])).Err?
  {
    DecodeSlotsDeniesUnknown([(k, v)], 0, SimpleTextNames);
  }

  lemma NotSimpleImage(k: string, v: Json)
    requires k != "simpleImage"
    ensures DecodeSimpleImage(JObj([(k, v)])).Err?
  {
    DecodeSlotsDeniesUnknown([(k, v)], 0, SimpleImageNames);
  }

  /** Decoding an output's encoding recovers the same variant and content: the
      decoders tried before its own reject it. */
  lemma TypesRoundTrip(t: Types)
    requires TypesValid(t)
    ensures DecodeTypes(EncodeTypes(t)) == Ok(t)
  {
    match t
    case ListOut(l) =>
      ListCardRoundTrip(l);
    case BasicOut(b) =>
      FieldsOne(BasicCardNames, [NestedSlot(b.content, EncodeBasicCardContent)]);
      NotListCard("basicCard", EncodeBasicCardContent(b.content));
      BasicCardRoundTrip(b);
    case CommerceOut(m) =>
      FieldsOne(CommerceCardNames, [NestedSlot(m.content, EncodeCommerceCardContent)]);
      NotListCard("commerceCard", EncodeCommerceCardContent(m.content));
      NotBasicCard("commerceCard", EncodeCommerceCardContent(m.content));
      CommerceCardRoundTrip(m);
    case ItemOut(i) =>
      FieldsOne(ItemCardNames, [NestedSlot(i.content, EncodeItemCardContent)]);
      NotListCard("itemCard", EncodeItemCardContent(i.content));
      NotBasicCard("itemCard", EncodeItemCardContent(i.content));
      NotCommerceCard("itemCard", EncodeItemCardContent(i.content));
      ItemCardRoundTrip(i);
    case SimpleTextOut(x) =>
      FieldsOne(SimpleTextNames, [NestedSlot(x.content, EncodeSimpleTextContent)]);
      NotListCard("simpleText", EncodeSimpleTextContent(x.content));
      NotBasicCard("simpleText", EncodeSimpleTextContent(x.content));
      NotCommerceCard("simpleText", EncodeSimpleTextContent(x.content));
      NotItemCard("simpleText", EncodeSimpleTextContent(x.content));
      SimpleTextRoundTrip(x);
    case SimpleImageOut(x) =>
      FieldsOne(SimpleImageNames, [NestedSlot(x.content, EncodeSimpleImageContent)]);
      NotListCard("simpleImage", EncodeSimpleImageContent(x.content));
      NotBasicCard("simpleImage", EncodeSimpleImageContent(x.content));
      NotCommerceCard("simpleImage", EncodeSimpleImageContent(x.content));
      NotItemCard("simpleImage", EncodeSimpleImageContent(x.content));
      NotSimpleText("simpleImage", EncodeSimpleImageContent(x.content));
      SimpleImageRoundTrip(x);
    case CarouselOut(c) =>
      FieldsOne(CarouselNames, [NestedSlot(c.content, EncodeCarouselContent)]);
      NotListCard("carousel", EncodeCarouselContent(c.content));
      NotBasicCard("carousel", EncodeCarouselContent(c.content));
      NotCommerceCard("carousel", EncodeCarouselContent(c.content));
      NotItemCard("carousel", EncodeCarouselContent(c.content));
      NotSimpleText("carousel", EncodeCarouselContent(c.content));
      NotSimpleImage("carousel", EncodeCarouselContent(c.content));
      CarouselRoundTrip(c);
  }

  /* ---------- Outputs and Template ---------- */

  datatype Outputs = Outputs(outputs: seq<Types>, quickReplies: seq<QuickReply>)

  datatype Template = Template(template: Outputs, version: string)

  /** The skill-response format version every template declares. */
  const TemplateVersion := "2.0"

  function TemplateNew(): (r: Template)
    ensures r.template.outputs == [] && r.template.quickReplies == []
    ensures r.version == TemplateVersion
  {
    Template(Outputs([], []), TemplateVersion)
  }

  /** Appends an output after the existing ones; nothing else changes. */
  function TemplateAddOutput(t: Template, o: Types): (r: Template)
    ensures r.template.outputs == t.template.outputs + [o]
    ensures r.template.quickReplies == t.template.quickReplies && r.version == t.version
  {
    t.(template := t.template.(outputs := t.template.outputs + [o]))
  }

  /** Appends a quick reply after the existing ones; nothing else changes. */
  function TemplateAddQr(t: Template, q: QuickReply): (r: Template)
    ensures r.template.quickReplies == t.template.quickReplies + [q]
    ensures r.template.outputs == t.template.outputs && r.version == t.version
  {
    t.(template := t.template.(quickReplies := t.template.quickReplies + [q]))
  }

  const OutputsNames := ["outputs", "quickReplies"]

  function OutputsSlots(o: Outputs): seq<Option<Json>> {
    [ArraySlot(o.outputs, EncodeTypes), ArraySlotUnlessEmpty(o.quickReplies, EncodeQuickReply)]
  }

  function EncodeOutputs(o: Outputs): Json {
    JObj(Fields(OutputsNames, OutputsSlots(o)))
  }

  function DecodeOutputs(j: Json): (r: Decoded<Outputs>)
    ensures r.Ok? ==> j.JObj? && KnownKeys(j.members, OutputsNames)
    ensures r.Ok? ==> HasKey(j.members, "outputs")
  {
    var s :- DecodeSlots(j, OutputsNames, true);
    var outputs :- AsArray(s[0], "outputs", DecodeTypes);
    var quickReplies :- AsArrayOrEmpty(s[1], "quickReplies", DecodeQuickReply);
    Ok(Outputs(outputs, quickReplies))
  }

  /** `outputs` is always emitted; `quickReplies` exactly when non-empty. */
  lemma OutputsForm(o: Outputs)
    ensures Keys(EncodeOutputs(o).members) == Present(OutputsNames, [true, |o.quickReplies| > 0])
  {
    FieldsKeys(OutputsNames, OutputsSlots(o));
    assert Flags(OutputsSlots(o)) == [true, |o.quickReplies| > 0];
  }

  /** An object without `quickReplies` decodes to no quick replies; it succeeds
      exactly when every output decodes. */
  lemma OutputsMissingQuickReplies(js: seq<Json>)
    ensures DecodeOutputs(JObj([("outputs", JArr(js))])) ==
      match DecodeAll(js, DecodeTypes)
      case Ok(xs) => Ok(Outputs(xs, []))
      case Err(e) => Err(e)
  {
    var n, s := OutputsNames, [Some(JArr(js)), None];
    assert Fields(n[1..], s[1..]) == [] by {
      assert Fields(n[1..][1..], s[1..][1..]) == [];
    }
    assert Fields(n, s) == [("outputs", JArr(js))];
    SlotsRoundTrip(OutputsNames, [Some(JArr(js)), None], true);
  }

  /** Every output of the template is valid. */
  predicate OutputsValid(o: Outputs) {
    forall i :: 0 <= i < |o.outputs| ==> TypesValid(o.outputs[i])
  }

  lemma OutputsRoundTrip(o: Outputs)
    requires OutputsValid(o)
    ensures DecodeOutputs(EncodeOutputs(o)) == Ok(o)
  {
    SlotsRoundTrip(OutputsNames, OutputsSlots(o), true);
    forall i | 0 <= i < |o.outputs| ensures DecodeTypes(EncodeTypes(o.outputs[i])) == Ok(o.outputs[i]) {
      TypesRoundTrip(o.outputs[i]);
    }
    ArrayRoundTrip(o.outputs, "outputs", EncodeTypes, DecodeTypes);
    QuickRepliesRoundTrip(o.quickReplies, "quickReplies");
  }

  const TemplateNames := ["template", "version"]

  function TemplateSlots(t: Template): seq<Option<Json>> {
    [NestedSlot(t.template, EncodeOutputs), StrSlot(t.version)]
  }

  function EncodeTemplate(t: Template): Json {
    JObj(Fields(TemplateNames, TemplateSlots(t)))
  }

  /** A template always emits `template` then `version`. */
  lemma TemplateForm(t: Template)
    ensures Keys(EncodeTemplate(t).members) == TemplateNames
  {
    FieldsKeysAll(TemplateNames, TemplateSlots(t));
  }

  function DecodeTemplate(j: Json): (r: Decoded<Template>)
    ensures r.Ok? ==> j.JObj? && KnownKeys(j.members, TemplateNames)
    ensures r.Ok? ==> HasKey(j.members, "template") && HasKey(j.members, "version")
  {
    var s :- DecodeSlots(j, TemplateNames, true);
    var template :- AsNested(s[0], "template", DecodeOutputs);
    var version :- AsString(s[1], "version");
    Ok(Template(template, version))
  }

  lemma TemplateRoundTrip(t: Template)
    requires OutputsValid(t.template)
    ensures DecodeTemplate(EncodeTemplate(t)) == Ok(t)
  {
    SlotsRoundTrip(TemplateNames, TemplateSlots(t), true);
    OutputsRoundTrip(t.template);
  }

  /** The outputs array of the encoding lists the outputs in append order:
      appending then encoding is encoding then appending. */
  lemma AddOutputEncodesLast(t: Template, o: Types)
    ensures OutputsSlots(TemplateAddOutput(t, o).template)[0] ==
      Some(JArr(EncodeAll(t.template.outputs, EncodeTypes) + [EncodeTypes(o)]))
  {
    var xs := t.template.outputs;
    assert EncodeAll(xs + [o], EncodeTypes) == EncodeAll(xs, EncodeTypes) + [EncodeTypes(o)];
  }

  /** The same for quick replies; the first one also makes the key appear. */
  lemma AddQrEncodesLast(t: Template, q: QuickReply)
    ensures OutputsSlots(TemplateAddQr(t, q).template)[1] ==
      Some(JArr(EncodeAll(t.template.quickReplies, EncodeQuickReply) + [EncodeQuickReply(q)]))
  {
    var xs := t.template.quickReplies;
    assert EncodeAll(xs + [q], EncodeQuickReply) == EncodeAll(xs, EncodeQuickReply) + [EncodeQuickReply(q)];
  }
}
