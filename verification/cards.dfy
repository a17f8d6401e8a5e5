/** The card components (src/components/cards.rs): basic, commerce and item
    cards, their builders, their derived serialization, and the untagged `Card`
    sum a carousel holds. */
module Cards {
  import opened Wrappers
  import opened Json
  import Buttons
  import opened Basics

  /* ---------- BasicCard ---------- */

  datatype BasicCardContent = BasicCardContent(
    title: Option<string>,
    description: Option<string>,
    thumbnail: ThumbNail,
    buttons: seq<Buttons.Button>)

  /** The basic card output: its content sits under the key `basicCard`. */
  datatype BasicCard = BasicCard(content: BasicCardContent)

  /** The wrapper key of a basic card. */
  function BasicCardId(): string {
    "basicCard"
  }

  function BasicCardNew(): (r: BasicCard)
    ensures r.content.title == None && r.content.description == None
    ensures r.content.thumbnail == ThumbNailNew("") && r.content.buttons == []
  {
    BasicCard(BasicCardContent(None, None, ThumbNailNew(""), []))
  }

  /** Appends a button after the existing ones; nothing else changes. */
  function BasicCardAddButton(c: BasicCard, b: Buttons.Button): (r: BasicCard)
    ensures r.content.buttons == c.content.buttons + [b]
    ensures r.content.(buttons := c.content.buttons) == c.content
  {
    BasicCard(c.content.(buttons := c.content.buttons + [b]))
  }

  function BasicCardSetDesc(c: BasicCard, desc: string): (r: BasicCard)
    ensures r.content.description == Some(desc)
    ensures r.content.(description := c.content.description) == c.content
  {
    BasicCard(c.content.(description := Some(desc)))
  }

  /** `set_description` is a second name for `set_desc`. */
  function BasicCardSetDescription(c: BasicCard, desc: string): (r: BasicCard)
    ensures r == BasicCardSetDesc(c, desc)
  {
    BasicCard(c.content.(description := Some(desc)))
  }

  function BasicCardSetTitle(c: BasicCard, title: string): (r: BasicCard)
    ensures r.content.title == Some(title)
    ensures r.content.(title := c.content.title) == c.content
  {
    BasicCard(c.content.(title := Some(title)))
  }

  /** Sets the image URL of the thumbnail, keeping its other fields. */
  function BasicCardSetThumbnail(c: BasicCard, url: string): (r: BasicCard)
    ensures r.content.thumbnail.imageUrl == url
    ensures r.content.thumbnail.(imageUrl := c.content.thumbnail.imageUrl) == c.content.thumbnail
    ensures r.content.(thumbnail := c.content.thumbnail) == c.content
  {
    BasicCard(c.content.(thumbnail := c.content.thumbnail.(imageUrl := url)))
  }

  function BasicCardSetLink(c: BasicCard, link: string): (r: BasicCard)
    ensures r.content.thumbnail.link == Some(Link(link))
    ensures r.content.thumbnail.(link := c.content.thumbnail.link) == c.content.thumbnail
    ensures r.content.(thumbnail := c.content.thumbnail) == c.content
  {
    BasicCard(c.content.(thumbnail := c.content.thumbnail.(link := Some(Link(link)))))
  }

  function BasicCardSetFixedRatio(c: BasicCard, fixed: bool): (r: BasicCard)
    ensures r.content.thumbnail.fixedRatio == fixed
    ensures r.content.thumbnail.(fixedRatio := c.content.thumbnail.fixedRatio) == c.content.thumbnail
    ensures r.content.(thumbnail := c.content.thumbnail) == c.content
  {
    BasicCard(c.content.(thumbnail := c.content.thumbnail.(fixedRatio := fixed)))
  }

  function BasicCardSetWidth(c: BasicCard, width: Int32): (r: BasicCard)
    ensures r.content.thumbnail.width == Some(width)
    ensures r.content.thumbnail.(width := c.content.thumbnail.width) == c.content.thumbnail
    ensures r.content.(thumbnail := c.content.thumbnail) == c.content
  {
    BasicCard(c.content.(thumbnail := c.content.thumbnail.(width := Some(width))))
  }

  function BasicCardSetHeight(c: BasicCard, height: Int32): (r: BasicCard)
    ensures r.content.thumbnail.height == Some(height)
    ensures r.content.thumbnail.(height := c.content.thumbnail.height) == c.content.thumbnail
    ensures r.content.(thumbnail := c.content.thumbnail) == c.content
  {
    BasicCard(c.content.(thumbnail := c.content.thumbnail.(height := Some(height))))
  }

  const BasicCardContentNames := ["title", "description", "thumbnail", "buttons"]

  function BasicCardContentSlots(c: BasicCardContent): seq<Option<Json>> {
    [OptStrSlot(c.title), OptStrSlot(c.description), NestedSlot(c.thumbnail, EncodeThumbNail),
     ArraySlotUnlessEmpty(c.buttons, Buttons.Encode)]
  }

  function EncodeBasicCardContent(c: BasicCardContent): Json {
    JObj(Fields(BasicCardContentNames, BasicCardContentSlots(c)))
  }

  function DecodeBasicCardContent(j: Json): (r: Decoded<BasicCardContent>)
    ensures r.Ok? ==> j.JObj? && KnownKeys(j.members, BasicCardContentNames)
    ensures r.Ok? ==> HasKey(j.members, "thumbnail")
  {
    var s :- DecodeSlots(j, BasicCardContentNames, true);
    BasicCardContentFromSlots(s)
  }

  function BasicCardContentFromSlots(s: seq<Option<Json>>): Decoded<BasicCardContent>
    requires |s| == |BasicCardContentNames|
  {
    var title :- AsOptString(s[0], "title");
    var description :- AsOptString(s[1], "description");
    var thumbnail :- AsNested(s[2], "thumbnail", DecodeThumbNail);
    var buttons :- AsArrayOrEmpty(s[3], "buttons", Buttons.Decode);
    Ok(BasicCardContent(title, description, thumbnail, buttons))
  }

  /** `title` and `description` are emitted only when present, `thumbnail`
      always, and `buttons` only when non-empty. */
  lemma BasicCardContentForm(c: BasicCardContent)
    ensures Keys(EncodeBasicCardContent(c).members) ==
      Present(BasicCardContentNames, [c.title.Some?, c.description.Some?, true, |c.buttons| > 0])
  {
    FieldsKeys(BasicCardContentNames, BasicCardContentSlots(c));
    assert Flags(BasicCardContentSlots(c)) == [c.title.Some?, c.description.Some?, true, |c.buttons| > 0];
  }

  lemma BasicCardContentRoundTrip(c: BasicCardContent)
    requires Buttons.AllWellTagged(c.buttons)
    ensures DecodeBasicCardContent(EncodeBasicCardContent(c)) == Ok(c)
  {
    SlotsRoundTrip(BasicCardContentNames, BasicCardContentSlots(c), true);
    BasicCardContentSlotsRoundTrip(c);
  }

  lemma BasicCardContentSlotsRoundTrip(c: BasicCardContent)
    requires Buttons.AllWellTagged(c.buttons)
    ensures BasicCardContentFromSlots(BasicCardContentSlots(c)) == Ok(c)
  {
    BasicCardContentFields(c);
  }

  /** Each field of a basic card reads back as written. */
  lemma BasicCardContentFields(c: BasicCardContent)
    requires Buttons.AllWellTagged(c.buttons)
    ensures var s := BasicCardContentSlots(c);
      && AsOptString(s[0], "title") == Ok(c.title)
      && AsOptString(s[1], "description") == Ok(c.description)
      && AsNested(s[2], "thumbnail", DecodeThumbNail) == Ok(c.thumbnail)
      && AsArrayOrEmpty(s[3], "buttons", Buttons.Decode) == Ok(c.buttons)
  {
    var s := BasicCardContentSlots(c);
    assert s[2] == NestedSlot(c.thumbnail, EncodeThumbNail);
    assert s[3] == ArraySlotUnlessEmpty(c.buttons, Buttons.Encode);
    ThumbNailRoundTrip(c.thumbnail);
    Buttons.ButtonsRoundTrip(c.buttons, "buttons");
  }

  const BasicCardNames := ["basicCard"]

  function EncodeBasicCard(c: BasicCard): Json {
    JObj(Fields(BasicCardNames, [NestedSlot(c.content, EncodeBasicCardContent)]))
  }

  function DecodeBasicCard(j: Json): (r: Decoded<BasicCard>)
    ensures r.Ok? ==> j.JObj? && KnownKeys(j.members, BasicCardNames)
    ensures r.Ok? ==> HasKey(j.members, "basicCard")
  {
    var s :- DecodeSlots(j, BasicCardNames, true);
    var content :- AsNested(s[0], "basicCard", DecodeBasicCardContent);
    Ok(BasicCard(content))
  }

  lemma BasicCardRoundTrip(c: BasicCard)
    requires Buttons.AllWellTagged(c.content.buttons)
    ensures DecodeBasicCard(EncodeBasicCard(c)) == Ok(c)
  {
    SlotsRoundTrip(BasicCardNames, [NestedSlot(c.content, EncodeBasicCardContent)], true);
    BasicCardContentRoundTrip(c.content);
  }

  /* ---------- CommerceCard ---------- */

  datatype CommerceCardContent = CommerceCardContent(
    description: string,
    price: Int32,
    currency: string,
    discount: Option<Int32>,
    discountRate: Option<Int32>,
    discountedPrice: Option<Int32>,
    thumbnails: seq<ThumbNail>,
    buttons: seq<Buttons.Button>)

  /** The commerce card output: its content sits under the key `commerceCard`. */
  datatype CommerceCard = CommerceCard(content: CommerceCardContent)

  /** The wrapper key of a commerce card. */
  function CommerceCardId(): string {
    "commerceCard"
  }

  /** The discount rate and the discounted price are set together. */
  predicate DiscountPaired(c: CommerceCard) {
    c.content.discountRate.Some? <==> c.content.discountedPrice.Some?
  }

  function CommerceCardNew(): (r: CommerceCard)
    ensures r.content.description == "" && r.content.price == 0 && r.content.currency == ""
    ensures r.content.discount == None && r.content.discountRate == None && r.content.discountedPrice == None
    ensures r.content.thumbnails == [] && r.content.buttons == []
    ensures DiscountPaired(r)
  {
    CommerceCard(CommerceCardContent("", 0, "", None, None, None, [], []))
  }

  /** Appends a button after the existing ones; nothing else changes. */
  function CommerceCardAddButton(c: CommerceCard, b: Buttons.Button): (r: CommerceCard)
    ensures r.content.buttons == c.content.buttons + [b]
    ensures r.content.(buttons := c.content.buttons) == c.content
  {
    CommerceCard(c.content.(buttons := c.content.buttons + [b]))
  }

  function CommerceCardSetDesc(c: CommerceCard, desc: string): (r: CommerceCard)
    ensures r.content.description == desc
    ensures r.content.(description := c.content.description) == c.content
  {
    CommerceCard(c.content.(description := desc))
  }

  /** Every call appends a fresh thumbnail; none is replaced. */
  function CommerceCardSetThumbnail(c: CommerceCard, url: string): (r: CommerceCard)
    ensures r.content.thumbnails == c.content.thumbnails + [ThumbNailNew(url)]
    ensures r.content.(thumbnails := c.content.thumbnails) == c.content
  {
    CommerceCard(c.content.(thumbnails := c.content.thumbnails + [ThumbNailNew(url)]))
  }

  function CommerceCardSetPrice(c: CommerceCard, price: Int32): (r: CommerceCard)
    ensures r.content.price == price
    ensures r.content.(price := c.content.price) == c.content
  {
    CommerceCard(c.content.(price := price))
  }

  function CommerceCardSetCurrency(c: CommerceCard, currency: string): (r: CommerceCard)
    ensures r.content.currency == currency
    ensures r.content.(currency := c.content.currency) == c.content
  {
    CommerceCard(c.content.(currency := currency))
  }

  function CommerceCardSetDiscount(c: CommerceCard, discount: Int32): (r: CommerceCard)
    ensures r.content.discount == Some(discount)
    ensures r.content.(discount := c.content.discount) == c.content
  {
    CommerceCard(c.content.(discount := Some(discount)))
  }

  /** Sets the discount rate and the discounted price in one step, so the pair
      is always complete afterwards. */
  function CommerceCardSetDiscountRatePrice(c: CommerceCard, rate: Int32, priced: Int32): (r: CommerceCard)
    ensures r.content.discountRate == Some(rate) && r.content.discountedPrice == Some(priced)
    ensures r.content.(discountRate := c.content.discountRate, discountedPrice := c.content.discountedPrice) == c.content
    ensures DiscountPaired(r)
  {
    CommerceCard(c.content.(discountRate := Some(rate), discountedPrice := Some(priced)))
  }

  /** One step of the public builder API. */
  datatype CommerceStep =
    | AddButton(button: Buttons.Button)
    | SetDesc(desc: string)
    | SetThumbnail(url: string)
    | SetPrice(price: Int32)
    | SetCurrency(currency: string)
    | SetDiscount(discount: Int32)
    | SetDiscountRatePrice(rate: Int32, priced: Int32)

  function CommerceApply(c: CommerceCard, step: CommerceStep): CommerceCard {
    match step
    case AddButton(b) => CommerceCardAddButton(c, b)
    case SetDesc(d) => CommerceCardSetDesc(c, d)
    case SetThumbnail(u) => CommerceCardSetThumbnail(c, u)
    case SetPrice(p) => CommerceCardSetPrice(c, p)
    case SetCurrency(cur) => CommerceCardSetCurrency(c, cur)
    case SetDiscount(d) => CommerceCardSetDiscount(c, d)
    case SetDiscountRatePrice(rate, priced) => CommerceCardSetDiscountRatePrice(c, rate, priced)
  }

  /** A commerce card built from `new` by any sequence of builder calls. */
  function CommerceBuild(steps: seq<CommerceStep>): CommerceCard {
    if |steps| == 0 then CommerceCardNew()
    else CommerceApply(CommerceBuild(steps[..|steps| - 1]), steps[|steps| - 1])
  }

  /** Through the public builder API the discount rate and the discounted price
      are either both absent or both present. */
  lemma {:induction false} CommerceBuildPaired(steps: seq<CommerceStep>)
    ensures DiscountPaired(CommerceBuild(steps))
  {
    if |steps| > 0 {
      CommerceBuildPaired(steps[..|steps| - 1]);
    }
  }

  /** The first four declared fields of a commerce card. */
  const CommerceLeadNames := ["description", "price", "currency", "discount"]
  /** The last four declared fields of a commerce card. */
  const CommerceTrailNames := ["discountRate", "discountedPrice", "thumbnails", "buttons"]
  const CommerceCardContentNames := CommerceLeadNames + CommerceTrailNames

  function CommerceLeadSlots(c: CommerceCardContent): seq<Option<Json>> {
    [StrSlot(c.description), IntSlot(c.price), StrSlot(c.currency), OptIntSlot(c.discount)]
  }

  function CommerceTrailSlots(c: CommerceCardContent): seq<Option<Json>> {
    [OptIntSlot(c.discountRate), OptIntSlot(c.discountedPrice),
     ArraySlotUnlessEmpty(c.thumbnails, EncodeThumbNail), ArraySlotUnlessEmpty(c.buttons, Buttons.Encode)]
  }

  function CommerceCardContentSlots(c: CommerceCardContent): seq<Option<Json>> {
    CommerceLeadSlots(c) + CommerceTrailSlots(c)
  }

  function EncodeCommerceCardContent(c: CommerceCardContent): Json {
    JObj(Fields(CommerceCardContentNames, CommerceCardContentSlots(c)))
  }

  function DecodeCommerceCardContent(j: Json): (r: Decoded<CommerceCardContent>)
    ensures r.Ok? ==> j.JObj? && KnownKeys(j.members, CommerceCardContentNames)
    ensures r.Ok? ==> HasKey(j.members, "description") && HasKey(j.members, "price") && HasKey(j.members, "currency")
  {
    var s :- DecodeSlots(j, CommerceCardContentNames, true);
    CommerceCardContentFromSlots(s)
  }

  function CommerceCardContentFromSlots(s: seq<Option<Json>>): Decoded<CommerceCardContent>
    requires |s| == |CommerceCardContentNames|
  {
    var description :- AsString(s[0], "description");
    var price :- AsInt32(s[1], "price");
    var currency :- AsString(s[2], "currency");
    var discount :- AsOptInt32(s[3], "discount");
    var discountRate :- AsOptInt32(s[4], "discountRate");
    var discountedPrice :- AsOptInt32(s[5], "discountedPrice");
    var thumbnails :- AsArrayOrEmpty(s[6], "thumbnails", DecodeThumbNail);
    var buttons :- AsArrayOrEmpty(s[7], "buttons", Buttons.Decode);
    Ok(CommerceCardContent(description, price, currency, discount, discountRate, discountedPrice, thumbnails, buttons))
  }

  /** `description`, `price` and `currency` are always emitted, the discounts
      only when present, `thumbnails` and `buttons` only when non-empty. */
  lemma CommerceCardContentForm(c: CommerceCardContent)
    ensures Keys(EncodeCommerceCardContent(c).members) ==
      Present(CommerceLeadNames, [true, true, true, c.discount.Some?])
      + Present(CommerceTrailNames, [c.discountRate.Some?, c.discountedPrice.Some?, |c.thumbnails| > 0, |c.buttons| > 0])
  {
    FieldsKeys2(CommerceLeadNames, CommerceLeadSlots(c), CommerceTrailNames, CommerceTrailSlots(c));
    CommerceLeadFlags(c);
    CommerceTrailFlags(c);
  }

  lemma CommerceLeadFlags(c: CommerceCardContent)
    ensures Flags(CommerceLeadSlots(c)) == [true, true, true, c.discount.Some?]
  {
  }

  lemma CommerceTrailFlags(c: CommerceCardContent)
    ensures Flags(CommerceTrailSlots(c)) == [c.discountRate.Some?, c.discountedPrice.Some?, |c.thumbnails| > 0, |c.buttons| > 0]
  {
  }

  lemma CommerceCardContentRoundTrip(c: CommerceCardContent)
    requires Buttons.AllWellTagged(c.buttons)
    ensures DecodeCommerceCardContent(EncodeCommerceCardContent(c)) == Ok(c)
  {
    SlotsRoundTrip(CommerceCardContentNames, CommerceCardContentSlots(c), true);
    CommerceCardContentSlotsRoundTrip(c);
  }

  lemma CommerceCardContentSlotsRoundTrip(c: CommerceCardContent)
    requires Buttons.AllWellTagged(c.buttons)
    ensures CommerceCardContentFromSlots(CommerceCardContentSlots(c)) == Ok(c)
  {
    CommerceLeadFields(c);
    CommerceTrailFields(c);
  }

  /** The first four fields of a commerce card read back as written. */
  lemma CommerceLeadFields(c: CommerceCardContent)
    ensures var s := CommerceCardContentSlots(c);
      && AsString(s[0], "description") == Ok(c.description)
      && AsInt32(s[1], "price") == Ok(c.price)
      && AsString(s[2], "currency") == Ok(c.currency)
      && AsOptInt32(s[3], "discount") == Ok(c.discount)
  {
  }

  /** The last four fields of a commerce card read back as written. */
  lemma CommerceTrailFields(c: CommerceCardContent)
    requires Buttons.AllWellTagged(c.buttons)
    ensures var s := CommerceCardContentSlots(c);
      && AsOptInt32(s[4], "discountRate") == Ok(c.discountRate)
      && AsOptInt32(s[5], "discountedPrice") == Ok(c.discountedPrice)
      && AsArrayOrEmpty(s[6], "thumbnails", DecodeThumbNail) == Ok(c.thumbnails)
      && AsArrayOrEmpty(s[7], "buttons", Buttons.Decode) == Ok(c.buttons)
  {
    var s := CommerceCardContentSlots(c);
    assert s[6] == ArraySlotUnlessEmpty(c.thumbnails, EncodeThumbNail);
    assert s[7] == ArraySlotUnlessEmpty(c.buttons, Buttons.Encode);
    ThumbNailsRoundTrip(c.thumbnails);
    Buttons.ButtonsRoundTrip(c.buttons, "buttons");
  }

  lemma ThumbNailsRoundTrip(ts: seq<ThumbNail>)
    ensures AsArrayOrEmpty(ArraySlotUnlessEmpty(ts, EncodeThumbNail), "thumbnails", DecodeThumbNail) == Ok(ts)
  {
    forall i | 0 <= i < |ts| ensures DecodeThumbNail(EncodeThumbNail(ts[i])) == Ok(ts[i]) {
      ThumbNailRoundTrip(ts[i]);
    }
    ArrayRoundTrip(ts, "thumbnails", EncodeThumbNail, DecodeThumbNail);
  }

  const CommerceCardNames := ["commerceCard"]

  function EncodeCommerceCard(c: CommerceCard): Json {
    JObj(Fields(CommerceCardNames, [NestedSlot(c.content, EncodeCommerceCardContent)]))
  }

  function DecodeCommerceCard(j: Json): (r: Decoded<CommerceCard>)
    ensures r.Ok? ==> j.JObj? && KnownKeys(j.members, CommerceCardNames)
    ensures r.Ok? ==> HasKey(j.members, "commerceCard")
  {
    var s :- DecodeSlots(j, CommerceCardNames, true);
    var content :- AsNested(s[0], "commerceCard", DecodeCommerceCardContent);
    Ok(CommerceCard(content))
  }

  lemma CommerceCardRoundTrip(c: CommerceCard)
    requires Buttons.AllWellTagged(c.content.buttons)
    ensures DecodeCommerceCard(EncodeCommerceCard(c)) == Ok(c)
  {
    SlotsRoundTrip(CommerceCardNames, [NestedSlot(c.content, EncodeCommerceCardContent)], true);
    CommerceCardContentRoundTrip(c.content);
  }

  /* ---------- the parts of an item card (unknown fields are ignored) ---------- */

  datatype Head = Head(title: string)
  datatype ImageTitle = ImageTitle(title: string, description: Option<string>, imageUrl: Option<string>)
  datatype ItemList = ItemList(title: string, description: string)
  datatype ItemListSummary = ItemListSummary(title: string, description: string)

  const HeadNames := ["title"]
  const ImageTitleNames := ["title", "description", "imageUrl"]
  /** Shared by `ItemList` and `ItemListSummary`, which declare the same fields. */
  const TitledNames := ["title", "description"]

  /** The wrapper key of an item card; the source defines it on `ImageTitle`. */
  function ItemCardId(): string {
    "itemCard"
  }

  function ImageTitleNew(title: string): (r: ImageTitle)
    ensures r.title == title && r.description == None && r.imageUrl == None
  {
    ImageTitle(title, None, None)
  }

  function ImageTitleSetTitle(t: ImageTitle, title: string): (r: ImageTitle)
    ensures r.title == title && r.(title := t.title) == t
  {
    t.(title := title)
  }

  function ImageTitleSetDesc(t: ImageTitle, desc: string): (r: ImageTitle)
    ensures r.description == Some(desc) && r.(description := t.description) == t
  {
    t.(description := Some(desc))
  }

  function ImageTitleSetImage(t: ImageTitle, url: string): (r: ImageTitle)
    ensures r.imageUrl == Some(url) && r.(imageUrl := t.imageUrl) == t
  {
    t.(imageUrl := Some(url))
  }

  function EncodeHead(h: Head): Json {
    JObj(Fields(HeadNames, [StrSlot(h.title)]))
  }

  /** A head always emits exactly `title`. */
  lemma HeadForm(h: Head)
    ensures Keys(EncodeHead(h).members) == HeadNames
  {
    FieldsKeysAll(HeadNames, [StrSlot(h.title)]);
  }

  function DecodeHead(j: Json): (r: Decoded<Head>)
    ensures r.Ok? ==> j.JObj? && HasKey(j.members, "title")
  {
    var s :- DecodeSlots(j, HeadNames, false);
    var title :- AsString(s[0], "title");
    Ok(Head(title))
  }

  lemma HeadRoundTrip(h: Head)
    ensures DecodeHead(EncodeHead(h)) == Ok(h)
  {
    SlotsRoundTrip(HeadNames, [StrSlot(h.title)], false);
  }

  /** An extra member under an undeclared name changes nothing. */
  lemma HeadIgnoresUnknown(fs: Members, k: string, v: Json)
    requires k !in HeadNames
    ensures DecodeHead(JObj(fs + [(k, v)])) == DecodeHead(JObj(fs))
  {
    DecodeSlotsIgnoresUnknown(fs, k, v, HeadNames);
  }

  function ImageTitleSlots(t: ImageTitle): seq<Option<Json>> {
    [StrSlot(t.title), OptStrSlot(t.description), OptStrSlot(t.imageUrl)]
  }

  function EncodeImageTitle(t: ImageTitle): Json {
    JObj(Fields(ImageTitleNames, ImageTitleSlots(t)))
  }

  /** `title` is always emitted; description and imageUrl only when present,
      in that order. */
  lemma ImageTitleForm(t: ImageTitle)
    ensures Keys(EncodeImageTitle(t).members) ==
      Present(ImageTitleNames, [true, t.description.Some?, t.imageUrl.Some?])
  {
    FieldsKeys(ImageTitleNames, ImageTitleSlots(t));
    assert Flags(ImageTitleSlots(t)) == [true, t.description.Some?, t.imageUrl.Some?];
  }

  function DecodeImageTitle(j: Json): (r: Decoded<ImageTitle>)
    ensures r.Ok? ==> j.JObj? && HasKey(j.members, "title")
  {
    var s :- DecodeSlots(j, ImageTitleNames, false);
    var title :- AsString(s[0], "title");
    var description :- AsOptString(s[1], "description");
    var imageUrl :- AsOptString(s[2], "imageUrl");
    Ok(ImageTitle(title, description, imageUrl))
  }

  lemma ImageTitleRoundTrip(t: ImageTitle)
    ensures DecodeImageTitle(EncodeImageTitle(t)) == Ok(t)
  {
    SlotsRoundTrip(ImageTitleNames, ImageTitleSlots(t), false);
  }

  /** An extra member under an undeclared name changes nothing. */
  lemma ImageTitleIgnoresUnknown(fs: Members, k: string, v: Json)
    requires k !in ImageTitleNames
    ensures DecodeImageTitle(JObj(fs + [(k, v)])) == DecodeImageTitle(JObj(fs))
  {
    DecodeSlotsIgnoresUnknown(fs, k, v, ImageTitleNames);
  }

  function EncodeItemList(x: ItemList): Json {
    JObj(Fields(TitledNames, [StrSlot(x.title), StrSlot(x.description)]))
  }

  /** An item list entry always emits `title` then `description`. */
  lemma ItemListForm(x: ItemList)
    ensures Keys(EncodeItemList(x).members) == TitledNames
  {
    FieldsKeysAll(TitledNames, [StrSlot(x.title), StrSlot(x.description)]);
  }

  function DecodeItemList(j: Json): (r: Decoded<ItemList>)
    ensures r.Ok? ==> j.JObj? && HasKey(j.members, "title") && HasKey(j.members, "description")
  {
    var s :- DecodeSlots(j, TitledNames, false);
    var title :- AsString(s[0], "title");
    var description :- AsString(s[1], "description");
    Ok(ItemList(title, description))
  }

  lemma ItemListRoundTrip(x: ItemList)
    ensures DecodeItemList(EncodeItemList(x)) == Ok(x)
  {
    SlotsRoundTrip(TitledNames, [StrSlot(x.title), StrSlot(x.description)], false);
  }

  /** An extra member under an undeclared name changes nothing. */
  lemma ItemListIgnoresUnknown(fs: Members, k: string, v: Json)
    requires k !in TitledNames
    ensures DecodeItemList(JObj(fs + [(k, v)])) == DecodeItemList(JObj(fs))
  {
    DecodeSlotsIgnoresUnknown(fs, k, v, TitledNames);
  }

  function EncodeItemListSummary(x: ItemListSummary): Json {
    JObj(Fields(TitledNames, [StrSlot(x.title), StrSlot(x.description)]))
  }

  /** An item list summary always emits `title` then `description`. */
  lemma ItemListSummaryForm(x: ItemListSummary)
    ensures Keys(EncodeItemListSummary(x).members) == TitledNames
  {
    FieldsKeysAll(TitledNames, [StrSlot(x.title), StrSlot(x.description)]);
  }

  function DecodeItemListSummary(j: Json): (r: Decoded<ItemListSummary>)
    ensures r.Ok? ==> j.JObj? && HasKey(j.members, "title") && HasKey(j.members, "description")
  {
    var s :- DecodeSlots(j, TitledNames, false);
    var title :- AsString(s[0], "title");
    var description :- AsString(s[1], "description");
    Ok(ItemListSummary(title, description))
  }

  lemma ItemListSummaryRoundTrip(x: ItemListSummary)
    ensures DecodeItemListSummary(EncodeItemListSummary(x)) == Ok(x)
  {
    SlotsRoundTrip(TitledNames, [StrSlot(x.title), StrSlot(x.description)], false);
  }

  /** An extra member under an undeclared name changes nothing. */
  lemma ItemListSummaryIgnoresUnknown(fs: Members, k: string, v: Json)
    requires k !in TitledNames
    ensures DecodeItemListSummary(JObj(fs + [(k, v)])) == DecodeItemListSummary(JObj(fs))
  {
    DecodeSlotsIgnoresUnknown(fs, k, v, TitledNames);
  }

  /* ---------- ItemCard ---------- */

  datatype ItemCardContent = ItemCardContent(
    thumbnail: Option<ThumbNail>,
    head: Option<Head>,
    imageTitle: Option<ImageTitle>,
    itemList: seq<ItemList>,
    itemListAlignment: Option<string>,
    itemListSummary: Option<ItemListSummary>,
    title: Option<string>,
    description: Option<string>,
    buttons: seq<Buttons.Button>,
    buttonLayout: Option<string>)

  /** The item card output: its content sits under the key `itemCard`. */
  datatype ItemCard = ItemCard(content: ItemCardContent)

  function ItemCardNew(): (r: ItemCard)
    ensures var c := r.content;
      && c.thumbnail == None && c.head == None && c.imageTitle == None && c.itemList == []
      && c.itemListAlignment == None && c.itemListSummary == None && c.title == None
      && c.description == None && c.buttons == [] && c.buttonLayout == None
  {
    ItemCard(ItemCardContent(None, None, None, [], None, None, None, None, [], None))
  }

  /** Appends a button after the existing ones; nothing else changes. */
  function ItemCardAddButton(c: ItemCard, b: Buttons.Button): (r: ItemCard)
    ensures r.content.buttons == c.content.buttons + [b]
    ensures r.content.(buttons := c.content.buttons) == c.content
  {
    ItemCard(c.content.(buttons := c.content.buttons + [b]))
  }

  function ItemCardSetTitle(c: ItemCard, title: string): (r: ItemCard)
    ensures r.content.title == Some(title)
    ensures r.content.(title := c.content.title) == c.content
  {
    ItemCard(c.content.(title := Some(title)))
  }

  function ItemCardSetDesc(c: ItemCard, desc: string): (r: ItemCard)
    ensures r.content.description == Some(desc)
    ensures r.content.(description := c.content.description) == c.content
  {
    ItemCard(c.content.(description := Some(desc)))
  }

  function ItemCardSetButtonLayout(c: ItemCard, layout: string): (r: ItemCard)
    ensures r.content.buttonLayout == Some(layout)
    ensures r.content.(buttonLayout := c.content.buttonLayout) == c.content
  {
    ItemCard(c.content.(buttonLayout := Some(layout)))
  }

  function ItemCardSetItemListAlignment(c: ItemCard, align: string): (r: ItemCard)
    ensures r.content.itemListAlignment == Some(align)
    ensures r.content.(itemListAlignment := c.content.itemListAlignment) == c.content
  {
    ItemCard(c.content.(itemListAlignment := Some(align)))
  }

  function ItemCardSetItemListSummary(c: ItemCard, title: string, desc: string): (r: ItemCard)
    ensures r.content.itemListSummary == Some(ItemListSummary(title, desc))
    ensures r.content.(itemListSummary := c.content.itemListSummary) == c.content
  {
    ItemCard(c.content.(itemListSummary := Some(ItemListSummary(title, desc))))
  }

  /** Replaces any thumbnail with a new one for `url`. */
  function ItemCardSetThumbnail(c: ItemCard, url: string): (r: ItemCard)
    ensures r.content.thumbnail == Some(ThumbNailNew(url))
    ensures r.content.(thumbnail := c.content.thumbnail) == c.content
  {
    ItemCard(c.content.(thumbnail := Some(ThumbNailNew(url))))
  }

  function ItemCardSetHead(c: ItemCard, title: string): (r: ItemCard)
    ensures r.content.head == Some(Head(title))
    ensures r.content.(head := c.content.head) == c.content
  {
    ItemCard(c.content.(head := Some(Head(title))))
  }

  /** Replaces any image title with a new one holding only `title`. */
  function ItemCardSetImageTitle(c: ItemCard, title: string): (r: ItemCard)
    ensures r.content.imageTitle == Some(ImageTitleNew(title))
    ensures r.content.(imageTitle := c.content.imageTitle) == c.content
  {
    ItemCard(c.content.(imageTitle := Some(ImageTitleNew(title))))
  }

  /** Sets the image title's description; does nothing without an image title. */
  function ItemCardSetImageDesc(c: ItemCard, desc: string): (r: ItemCard)
    ensures c.content.imageTitle.None? ==> r == c
    ensures c.content.imageTitle.Some? ==> r.content.imageTitle == Some(ImageTitleSetDesc(c.content.imageTitle.value, desc))
    ensures r.content.(imageTitle := c.content.imageTitle) == c.content
  {
    match c.content.imageTitle
    case None => c
    case Some(t) => ItemCard(c.content.(imageTitle := Some(t.(description := Some(desc)))))
  }

  /** Sets the image title's image URL; does nothing without an image title. */
  function ItemCardSetImage(c: ItemCard, url: string): (r: ItemCard)
    ensures c.content.imageTitle.None? ==> r == c
    ensures c.content.imageTitle.Some? ==> r.content.imageTitle == Some(ImageTitleSetImage(c.content.imageTitle.value, url))
    ensures r.content.(imageTitle := c.content.imageTitle) == c.content
  {
    match c.content.imageTitle
    case None => c
    case Some(t) => ItemCard(c.content.(imageTitle := Some(t.(imageUrl := Some(url)))))
  }

  /** Sets the thumbnail's height; does nothing without a thumbnail. */
  function ItemCardSetThumbnailHeight(c: ItemCard, height: Int32): (r: ItemCard)
    ensures c.content.thumbnail.None? ==> r == c
    ensures c.content.thumbnail.Some? ==> r.content.thumbnail == Some(ThumbNailSetHeight(c.content.thumbnail.value, height))
    ensures r.content.(thumbnail := c.content.thumbnail) == c.content
  {
    match c.content.thumbnail
    case None => c
    case Some(t) => ItemCard(c.content.(thumbnail := Some(t.(height := Some(height)))))
  }

  /** Sets the thumbnail's width; does nothing without a thumbnail. */
  function ItemCardSetThumbnailWidth(c: ItemCard, width: Int32): (r: ItemCard)
    ensures c.content.thumbnail.None? ==> r == c
    ensures c.content.thumbnail.Some? ==> r.content.thumbnail == Some(ThumbNailSetWidth(c.content.thumbnail.value, width))
    ensures r.content.(thumbnail := c.content.thumbnail) == c.content
  {
    match c.content.thumbnail
    case None => c
    case Some(t) => ItemCard(c.content.(thumbnail := Some(t.(width := Some(width)))))
  }

  /** The first five declared fields of an item card. */
  const ItemCardLeadNames := ["thumbnail", "head", "imageTitle", "itemList", "itemListAlignment"]
  /** The last five declared fields of an item card. */
  const ItemCardTrailNames := ["itemListSummary", "title", "description", "buttons", "buttonLayout"]
  const ItemCardContentNames := ItemCardLeadNames + ItemCardTrailNames

  function ItemCardLeadSlots(c: ItemCardContent): seq<Option<Json>> {
    [OptNestedSlot(c.thumbnail, EncodeThumbNail), OptNestedSlot(c.head, EncodeHead),
     OptNestedSlot(c.imageTitle, EncodeImageTitle), ArraySlot(c.itemList, EncodeItemList),
     OptStrSlot(c.itemListAlignment)]
  }

  function ItemCardTrailSlots(c: ItemCardContent): seq<Option<Json>> {
    [OptNestedSlot(c.itemListSummary, EncodeItemListSummary),
     OptStrSlot(c.title), OptStrSlot(c.description),
     ArraySlotUnlessEmpty(c.buttons, Buttons.Encode), OptStrSlot(c.buttonLayout)]
  }

  function ItemCardContentSlots(c: ItemCardContent): seq<Option<Json>> {
    ItemCardLeadSlots(c) + ItemCardTrailSlots(c)
  }

  function EncodeItemCardContent(c: ItemCardContent): Json {
    JObj(Fields(ItemCardContentNames, ItemCardContentSlots(c)))
  }

  function DecodeItemCardContent(j: Json): (r: Decoded<ItemCardContent>)
    ensures r.Ok? ==> j.JObj? && KnownKeys(j.members, ItemCardContentNames)
    ensures r.Ok? ==> HasKey(j.members, "itemList")
  {
    var s :- DecodeSlots(j, ItemCardContentNames, true);
    ItemCardContentFromSlots(s)
  }

  function ItemCardContentFromSlots(s: seq<Option<Json>>): Decoded<ItemCardContent>
    requires |s| == |ItemCardContentNames|
  {
    var thumbnail :- AsOptNested(s[0], "thumbnail", DecodeThumbNail);
    var head :- AsOptNested(s[1], "head", DecodeHead);
    var imageTitle :- AsOptNested(s[2], "imageTitle", DecodeImageTitle);
    var itemList :- AsArray(s[3], "itemList", DecodeItemList);
    var itemListAlignment :- AsOptString(s[4], "itemListAlignment");
    var itemListSummary :- AsOptNested(s[5], "itemListSummary", DecodeItemListSummary);
    var title :- AsOptString(s[6], "title");
    var description :- AsOptString(s[7], "description");
    var buttons :- AsArrayOrEmpty(s[8], "buttons", Buttons.Decode);
    var buttonLayout :- AsOptString(s[9], "buttonLayout");
    Ok(ItemCardContent(thumbnail, head, imageTitle, itemList, itemListAlignment,
                       itemListSummary, title, description, buttons, buttonLayout))
  }

  /** `itemList` is always emitted, even when empty; `buttons` only when
      non-empty; every other field only when present. */
  lemma ItemCardContentForm(c: ItemCardContent)
    ensures Keys(EncodeItemCardContent(c).members) ==
      Present(ItemCardLeadNames,
        [c.thumbnail.Some?, c.head.Some?, c.imageTitle.Some?, true, c.itemListAlignment.Some?])
      + Present(ItemCardTrailNames,
        [c.itemListSummary.Some?, c.title.Some?, c.description.Some?, |c.buttons| > 0, c.buttonLayout.Some?])
  {
    FieldsKeys2(ItemCardLeadNames, ItemCardLeadSlots(c), ItemCardTrailNames, ItemCardTrailSlots(c));
    ItemCardLeadFlags(c);
    ItemCardTrailFlags(c);
  }

  lemma ItemCardLeadFlags(c: ItemCardContent)
    ensures Flags(ItemCardLeadSlots(c)) ==
      [c.thumbnail.Some?, c.head.Some?, c.imageTitle.Some?, true, c.itemListAlignment.Some?]
  {
  }

  lemma ItemCardTrailFlags(c: ItemCardContent)
    ensures Flags(ItemCardTrailSlots(c)) ==
      [c.itemListSummary.Some?, c.title.Some?, c.description.Some?, |c.buttons| > 0, c.buttonLayout.Some?]
  {
  }

  lemma ItemCardContentRoundTrip(c: ItemCardContent)
    requires Buttons.AllWellTagged(c.buttons)
    ensures DecodeItemCardContent(EncodeItemCardContent(c)) == Ok(c)
  {
    SlotsRoundTrip(ItemCardContentNames, ItemCardContentSlots(c), true);
    ItemCardContentSlotsRoundTrip(c);
  }

  lemma ItemCardContentSlotsRoundTrip(c: ItemCardContent)
    requires Buttons.AllWellTagged(c.buttons)
    ensures ItemCardContentFromSlots(ItemCardContentSlots(c)) == Ok(c)
  {
    ItemCardContentLeadingFields(c);
    ItemCardContentTrailingFields(c);
  }

  /** The first five fields of an item card read back as written. */
  lemma ItemCardContentLeadingFields(c: ItemCardContent)
    ensures var s := ItemCardContentSlots(c);
      && AsOptNested(s[0], "thumbnail", DecodeThumbNail) == Ok(c.thumbnail)
      && AsOptNested(s[1], "head", DecodeHead) == Ok(c.head)
      && AsOptNested(s[2], "imageTitle", DecodeImageTitle) == Ok(c.imageTitle)
      && AsArray(s[3], "itemList", DecodeItemList) == Ok(c.itemList)
      && AsOptString(s[4], "itemListAlignment") == Ok(c.itemListAlignment)
  {
    var s := ItemCardContentSlots(c);
    assert s[0] == OptNestedSlot(c.thumbnail, EncodeThumbNail);
    assert s[1] == OptNestedSlot(c.head, EncodeHead);
    assert s[2] == OptNestedSlot(c.imageTitle, EncodeImageTitle);
    assert s[3] == ArraySlot(c.itemList, EncodeItemList);
    OptThumbNailRoundTrip(c.thumbnail, "thumbnail");
    OptHeadRoundTrip(c.head);
    OptImageTitleRoundTrip(c.imageTitle);
    ItemListsRoundTrip(c.itemList);
  }

  /** The last five fields of an item card read back as written. */
  lemma ItemCardContentTrailingFields(c: ItemCardContent)
    requires Buttons.AllWellTagged(c.buttons)
    ensures var s := ItemCardContentSlots(c);
      && AsOptNested(s[5], "itemListSummary", DecodeItemListSummary) == Ok(c.itemListSummary)
      && AsOptString(s[6], "title") == Ok(c.title)
      && AsOptString(s[7], "description") == Ok(c.description)
      && AsArrayOrEmpty(s[8], "buttons", Buttons.Decode) == Ok(c.buttons)
      && AsOptString(s[9], "buttonLayout") == Ok(c.buttonLayout)
  {
    var s := ItemCardContentSlots(c);
    assert s[5] == OptNestedSlot(c.itemListSummary, EncodeItemListSummary);
    assert s[8] == ArraySlotUnlessEmpty(c.buttons, Buttons.Encode);
    OptItemListSummaryRoundTrip(c.itemListSummary);
    Buttons.ButtonsRoundTrip(c.buttons, "buttons");
  }

  lemma OptHeadRoundTrip(o: Option<Head>)
    ensures AsOptNested(OptNestedSlot(o, EncodeHead), "head", DecodeHead) == Ok(o)
  {
    if o.Some? {
      HeadRoundTrip(o.value);
    }
  }

  lemma OptImageTitleRoundTrip(o: Option<ImageTitle>)
    ensures AsOptNested(OptNestedSlot(o, EncodeImageTitle), "imageTitle", DecodeImageTitle) == Ok(o)
  {
    if o.Some? {
      ImageTitleRoundTrip(o.value);
    }
  }

  lemma OptItemListSummaryRoundTrip(o: Option<ItemListSummary>)
    ensures AsOptNested(OptNestedSlot(o, EncodeItemListSummary), "itemListSummary", DecodeItemListSummary) == Ok(o)
  {
    if o.Some? {
      ItemListSummaryRoundTrip(o.value);
    }
  }

  lemma ItemListsRoundTrip(xs: seq<ItemList>)
    ensures AsArray(ArraySlot(xs, EncodeItemList), "itemList", DecodeItemList) == Ok(xs)
  {
    forall i | 0 <= i < |xs| ensures DecodeItemList(EncodeItemList(xs[i])) == Ok(xs[i]) {
      ItemListRoundTrip(xs[i]);
    }
    ArrayRoundTrip(xs, "itemList", EncodeItemList, DecodeItemList);
  }

  const ItemCardNames := ["itemCard"]

  function EncodeItemCard(c: ItemCard): Json {
    JObj(Fields(ItemCardNames, [NestedSlot(c.content, EncodeItemCardContent)]))
  }

  function DecodeItemCard(j: Json): (r: Decoded<ItemCard>)
    ensures r.Ok? ==> j.JObj? && KnownKeys(j.members, ItemCardNames)
    ensures r.Ok? ==> HasKey(j.members, "itemCard")
  {
    var s :- DecodeSlots(j, ItemCardNames, true);
    var content :- AsNested(s[0], "itemCard", DecodeItemCardContent);
    Ok(ItemCard(content))
  }

  lemma ItemCardRoundTrip(c: ItemCard)
    requires Buttons.AllWellTagged(c.content.buttons)
    ensures DecodeItemCard(EncodeItemCard(c)) == Ok(c)
  {
    SlotsRoundTrip(ItemCardNames, [NestedSlot(c.content, EncodeItemCardContent)], true);
    ItemCardContentRoundTrip(c.content);
  }

  /* ---------- Card: the untagged sum a carousel holds ---------- */

  /** A card inside a carousel: the bare content, with no wrapper key. */
  datatype Card =
    | Basic(basic: BasicCardContent)
    | Commerce(commerce: CommerceCardContent)
    | Item(item: ItemCardContent)

  function BasicBuildCard(c: BasicCard): (r: Card)
    ensures r.Basic? && r.basic == c.content
  {
    Basic(c.content)
  }

  function CommerceBuildCard(c: CommerceCard): (r: Card)
    ensures r.Commerce? && r.commerce == c.content
  {
    Commerce(c.content)
  }

  function ItemBuildCard(c: ItemCard): (r: Card)
    ensures r.Item? && r.item == c.content
  {
    Item(c.content)
  }

  /** Every button inside the card is well tagged. */
  predicate CardValid(c: Card) {
    match c
    case Basic(b) => Buttons.AllWellTagged(b.buttons)
    case Commerce(m) => Buttons.AllWellTagged(m.buttons)
    case Item(i) => Buttons.AllWellTagged(i.buttons)
  }

  function EncodeCard(c: Card): Json {
    match c
    case Basic(b) => EncodeBasicCardContent(b)
    case Commerce(m) => EncodeCommerceCardContent(m)
    case Item(i) => EncodeItemCardContent(i)
  }

  /** Tries the variants in declaration order and keeps the first that decodes. */
  function DecodeCard(j: Json): (r: Decoded<Card>)
    ensures r.Ok? <==> DecodeBasicCardContent(j).Ok? || DecodeCommerceCardContent(j).Ok? || DecodeItemCardContent(j).Ok?
    ensures r.Ok? && r.value.Basic? ==> DecodeBasicCardContent(j) == Ok(r.value.basic)
    ensures r.Ok? && r.value.Commerce? ==>
      DecodeBasicCardContent(j).Err? && DecodeCommerceCardContent(j) == Ok(r.value.commerce)
    ensures r.Ok? && r.value.Item? ==>
      DecodeBasicCardContent(j).Err? && DecodeCommerceCardContent(j).Err? && DecodeItemCardContent(j) == Ok(r.value.item)
  {
    match DecodeBasicCardContent(j)
    case Ok(b) => Ok(Basic(b))
    case Err(_) =>
      match DecodeCommerceCardContent(j)
      case Ok(m) => Ok(Commerce(m))
      case Err(_) =>
        match DecodeItemCardContent(j)
        case Ok(i) => Ok(Item(i))
        case Err(_) => Err(NoVariantMatched)
  }

  /** A commerce card always emits `price`, which a basic card does not declare. */
  lemma CommerceNotBasic(c: CommerceCardContent)
    ensures DecodeBasicCardContent(EncodeCommerceCardContent(c)).Err?
  {
    FieldsHasKey(CommerceCardContentNames, CommerceCardContentSlots(c), 1);
    var fs := EncodeCommerceCardContent(c).members;
    var i :| 0 <= i < |fs| && fs[i].0 == "price";
    DecodeSlotsDeniesUnknown(fs, i, BasicCardContentNames);
  }

  /** An item card always emits `itemList`, even when the list is empty. */
  lemma ItemCardEmitsItemList(c: ItemCardContent)
    ensures HasKey(EncodeItemCardContent(c).members, "itemList")
  {
    FieldsHasKey(ItemCardContentNames, ItemCardContentSlots(c), 3);
  }

  /** ... and neither a basic nor a commerce card declares `itemList`. */
  lemma ItemNotBasicOrCommerce(c: ItemCardContent)
    ensures DecodeBasicCardContent(EncodeItemCardContent(c)).Err?
    ensures DecodeCommerceCardContent(EncodeItemCardContent(c)).Err?
  {
    ItemCardEmitsItemList(c);
    var fs := EncodeItemCardContent(c).members;
    var i :| 0 <= i < |fs| && fs[i].0 == "itemList";
    DecodeSlotsDeniesUnknown(fs, i, BasicCardContentNames);
    DecodeSlotsDeniesUnknown(fs, i, CommerceCardContentNames);
  }

  /** Decoding a card's encoding recovers the same variant and content: the
      earlier variants reject the later ones' content as unknown fields. */
  lemma CardRoundTrip(c: Card)
    requires CardValid(c)
    ensures DecodeCard(EncodeCard(c)) == Ok(c)
  {
    match c
    case Basic(b) =>
      BasicCardContentRoundTrip(b);
    case Commerce(m) =>
      CommerceNotBasic(m);
      CommerceCardContentRoundTrip(m);
    case Item(i) =>
      ItemNotBasicOrCommerce(i);
      ItemCardContentRoundTrip(i);
  }

  /** A list of cards (skipped when empty, empty when missing) reads back the
      list that was written. */
  lemma CardsRoundTrip(cs: seq<Card>, name: string)
    requires forall i :: 0 <= i < |cs| ==> CardValid(cs[i])
    ensures AsArrayOrEmpty(ArraySlotUnlessEmpty(cs, EncodeCard), name, DecodeCard) == Ok(cs)
  {
    forall i | 0 <= i < |cs| ensures DecodeCard(EncodeCard(cs[i])) == Ok(cs[i]) {
      CardRoundTrip(cs[i]);
    }
    ArrayRoundTrip(cs, name, EncodeCard, DecodeCard);
  }
}
