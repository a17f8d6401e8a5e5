/** The leaf components of a skill response (src/components/basics.rs): links,
    list items, quick replies, titles, thumbnails, and the list card, simple
    text and simple image outputs, with their builders and their derived
    serialization. Every struct here denies unknown fields. */
module Basics {
  import opened Wrappers
  import opened Json
  import Buttons

  /* ---------- Link ---------- */

  /** A web link, serialized as `{"web": ...}`. */
  datatype Link = Link(web: string)

  const LinkNames := ["web"]

  function EncodeLink(l: Link): Json {
    JObj(Fields(LinkNames, [StrSlot(l.web)]))
  }

  /** A link always emits exactly its one key. */
  lemma LinkForm(l: Link)
    ensures Keys(EncodeLink(l).members) == LinkNames
  {
    FieldsKeysAll(LinkNames, [StrSlot(l.web)]);
  }

  function DecodeLink(j: Json): (r: Decoded<Link>)
    ensures r.Ok? ==> j.JObj? && KnownKeys(j.members, LinkNames)
    ensures r.Ok? ==> HasKey(j.members, "web")
  {
    var s :- DecodeSlots(j, LinkNames, true);
    var web :- AsString(s[0], "web");
    Ok(Link(web))
  }

  lemma LinkRoundTrip(l: Link)
    ensures DecodeLink(EncodeLink(l)) == Ok(l)
  {
    SlotsRoundTrip(LinkNames, [StrSlot(l.web)], true);
  }

  /* ---------- ListItem ---------- */

  datatype ListItem = ListItem(title: string, description: Option<string>, imageUrl: Option<string>, link: Option<Link>)

  function ListItemNew(title: string): (r: ListItem)
    ensures r.title == title && r.description == None && r.imageUrl == None && r.link == None
  {
    ListItem(title, None, None, None)
  }

  function ListItemSetDesc(x: ListItem, desc: string): (r: ListItem)
    ensures r.description == Some(desc) && r.(description := x.description) == x
  {
    x.(description := Some(desc))
  }

  function ListItemSetImage(x: ListItem, url: string): (r: ListItem)
    ensures r.imageUrl == Some(url) && r.(imageUrl := x.imageUrl) == x
  {
    x.(imageUrl := Some(url))
  }

  /** `set_link(u)` wraps the URL as the link `{"web": u}`. */
  function ListItemSetLink(x: ListItem, url: string): (r: ListItem)
    ensures r.link == Some(Link(url)) && r.(link := x.link) == x
  {
    x.(link := Some(Link(url)))
  }

  const ListItemNames := ["title", "description", "imageUrl", "link"]

  function ListItemSlots(x: ListItem): seq<Option<Json>> {
    [StrSlot(x.title), OptStrSlot(x.description), OptStrSlot(x.imageUrl), OptNestedSlot(x.link, EncodeLink)]
  }

  function EncodeListItem(x: ListItem): Json {
    JObj(Fields(ListItemNames, ListItemSlots(x)))
  }

  function DecodeListItem(j: Json): (r: Decoded<ListItem>)
    ensures r.Ok? ==> j.JObj? && KnownKeys(j.members, ListItemNames)
    ensures r.Ok? ==> HasKey(j.members, "title")
  {
    var s :- DecodeSlots(j, ListItemNames, true);
    ListItemFromSlots(s)
  }

  function ListItemFromSlots(s: seq<Option<Json>>): Decoded<ListItem>
    requires |s| == |ListItemNames|
  {
    var title :- AsString(s[0], "title");
    var description :- AsOptString(s[1], "description");
    var imageUrl :- AsOptString(s[2], "imageUrl");
    var link :- AsOptNested(s[3], "link", DecodeLink);
    Ok(ListItem(title, description, imageUrl, link))
  }

  /** `title` is always emitted; the optional fields only when present. */
  lemma ListItemForm(x: ListItem)
    ensures Keys(EncodeListItem(x).members) ==
      Present(ListItemNames, [true, x.description.Some?, x.imageUrl.Some?, x.link.Some?])
  {
    FieldsKeys(ListItemNames, ListItemSlots(x));
    assert Flags(ListItemSlots(x)) == [true, x.description.Some?, x.imageUrl.Some?, x.link.Some?];
  }

  lemma ListItemRoundTrip(x: ListItem)
    ensures DecodeListItem(EncodeListItem(x)) == Ok(x)
  {
    SlotsRoundTrip(ListItemNames, ListItemSlots(x), true);
    ListItemSlotsRoundTrip(x);
  }

  lemma ListItemSlotsRoundTrip(x: ListItem)
    ensures ListItemFromSlots(ListItemSlots(x)) == Ok(x)
  {
    if x.link.Some? {
      LinkRoundTrip(x.link.value);
    }
    OptNestedRoundTrip(x.link, "link", EncodeLink, DecodeLink);
  }

  /* ---------- QuickReply ---------- */

  datatype QuickReply = QuickReply(action: string, labelText: string, messageText: string, blockId: Option<string>)

  /** The action a quick reply is created with. */
  const DefaultReplyAction := "message"

  function QuickReplyNew(labelText: string, msg: string): (r: QuickReply)
    ensures r.action == DefaultReplyAction && r.blockId == None
    ensures r.labelText == labelText && r.messageText == msg
  {
    QuickReply(DefaultReplyAction, labelText, msg, None)
  }

  function QuickReplySetBlockId(q: QuickReply, id: string): (r: QuickReply)
    ensures r.blockId == Some(id) && r.(blockId := q.blockId) == q
  {
    q.(blockId := Some(id))
  }

  /** The action is only a default: it can be overwritten. */
  function QuickReplySetAction(q: QuickReply, action: string): (r: QuickReply)
    ensures r.action == action && r.(action := q.action) == q
  {
    q.(action := action)
  }

  const QuickReplyNames := ["action", "label", "messageText", "blockId"]

  function QuickReplySlots(q: QuickReply): seq<Option<Json>> {
    [StrSlot(q.action), StrSlot(q.labelText), StrSlot(q.messageText), OptStrSlot(q.blockId)]
  }

  function EncodeQuickReply(q: QuickReply): Json {
    JObj(Fields(QuickReplyNames, QuickReplySlots(q)))
  }

  function DecodeQuickReply(j: Json): (r: Decoded<QuickReply>)
    ensures r.Ok? ==> j.JObj? && KnownKeys(j.members, QuickReplyNames)
    ensures r.Ok? ==> HasKey(j.members, "action") && HasKey(j.members, "label") && HasKey(j.members, "messageText")
  {
    var s :- DecodeSlots(j, QuickReplyNames, true);
    QuickReplyFromSlots(s)
  }

  function QuickReplyFromSlots(s: seq<Option<Json>>): Decoded<QuickReply>
    requires |s| == |QuickReplyNames|
  {
    var action :- AsString(s[0], "action");
    var labelText :- AsString(s[1], "label");
    var messageText :- AsString(s[2], "messageText");
    var blockId :- AsOptString(s[3], "blockId");
    Ok(QuickReply(action, labelText, messageText, blockId))
  }

  /** `action`, `label`, `messageText`, then `blockId` only when present. */
  lemma QuickReplyForm(q: QuickReply)
    ensures Keys(EncodeQuickReply(q).members) ==
      Present(QuickReplyNames, [true, true, true, q.blockId.Some?])
  {
    FieldsKeys(QuickReplyNames, QuickReplySlots(q));
    assert Flags(QuickReplySlots(q)) == [true, true, true, q.blockId.Some?];
  }

  lemma QuickReplyRoundTrip(q: QuickReply)
    ensures DecodeQuickReply(EncodeQuickReply(q)) == Ok(q)
  {
    SlotsRoundTrip(QuickReplyNames, QuickReplySlots(q), true);
    QuickReplySlotsRoundTrip(q);
  }

  lemma QuickReplySlotsRoundTrip(q: QuickReply)
    ensures QuickReplyFromSlots(QuickReplySlots(q)) == Ok(q)
  {
  }

  /** A list of quick replies (skipped when empty, empty when missing) reads
      back the list that was written. */
  lemma QuickRepliesRoundTrip(qs: seq<QuickReply>, name: string)
    ensures AsArrayOrEmpty(ArraySlotUnlessEmpty(qs, EncodeQuickReply), name, DecodeQuickReply) == Ok(qs)
  {
    forall i | 0 <= i < |qs| ensures DecodeQuickReply(EncodeQuickReply(qs[i])) == Ok(qs[i]) {
      QuickReplyRoundTrip(qs[i]);
    }
    ArrayRoundTrip(qs, name, EncodeQuickReply, DecodeQuickReply);
  }

  /* ---------- Title ---------- */

  datatype Title = Title(title: string)

  const TitleNames := ["title"]

  function EncodeTitle(t: Title): Json {
    JObj(Fields(TitleNames, [StrSlot(t.title)]))
  }

  /** A title always emits exactly its one key. */
  lemma TitleForm(t: Title)
    ensures Keys(EncodeTitle(t).members) == TitleNames
  {
    FieldsKeysAll(TitleNames, [StrSlot(t.title)]);
  }

  function DecodeTitle(j: Json): (r: Decoded<Title>)
    ensures r.Ok? ==> j.JObj? && KnownKeys(j.members, TitleNames)
    ensures r.Ok? ==> HasKey(j.members, "title")
  {
    var s :- DecodeSlots(j, TitleNames, true);
    var title :- AsString(s[0], "title");
    Ok(Title(title))
  }

  lemma TitleRoundTrip(t: Title)
    ensures DecodeTitle(EncodeTitle(t)) == Ok(t)
  {
    SlotsRoundTrip(TitleNames, [StrSlot(t.title)], true);
  }

  /* ---------- ThumbNail ---------- */

  datatype ThumbNail = ThumbNail(imageUrl: string, link: Option<Link>, fixedRatio: bool, width: Option<Int32>, height: Option<Int32>)

  function ThumbNailNew(url: string): (r: ThumbNail)
    ensures r.imageUrl == url && !r.fixedRatio
    ensures r.link == None && r.width == None && r.height == None
  {
    ThumbNail(url, None, false, None, None)
  }

  /** `set_link(u)` wraps the URL as the link `{"web": u}`. */
  function ThumbNailSetLink(t: ThumbNail, url: string): (r: ThumbNail)
    ensures r.link == Some(Link(url)) && r.(link := t.link) == t
  {
    t.(link := Some(Link(url)))
  }

  function ThumbNailSetImageUrl(t: ThumbNail, url: string): (r: ThumbNail)
    ensures r.imageUrl == url && r.(imageUrl := t.imageUrl) == t
  {
    t.(imageUrl := url)
  }

  function ThumbNailSetFixedRatio(t: ThumbNail, fixed: bool): (r: ThumbNail)
    ensures r.fixedRatio == fixed && r.(fixedRatio := t.fixedRatio) == t
  {
    t.(fixedRatio := fixed)
  }

  function ThumbNailSetWidth(t: ThumbNail, width: Int32): (r: ThumbNail)
    ensures r.width == Some(width) && r.(width := t.width) == t
  {
    t.(width := Some(width))
  }

  function ThumbNailSetHeight(t: ThumbNail, height: Int32): (r: ThumbNail)
    ensures r.height == Some(height) && r.(height := t.height) == t
  {
    t.(height := Some(height))
  }

  const ThumbNailNames := ["imageUrl", "link", "fixedRatio", "width", "height"]

  function ThumbNailSlots(t: ThumbNail): seq<Option<Json>> {
    [StrSlot(t.imageUrl), OptNestedSlot(t.link, EncodeLink), BoolSlot(t.fixedRatio), OptIntSlot(t.width), OptIntSlot(t.height)]
  }

  function EncodeThumbNail(t: ThumbNail): Json {
    JObj(Fields(ThumbNailNames, ThumbNailSlots(t)))
  }

  function DecodeThumbNail(j: Json): (r: Decoded<ThumbNail>)
    ensures r.Ok? ==> j.JObj? && KnownKeys(j.members, ThumbNailNames)
    ensures r.Ok? ==> HasKey(j.members, "imageUrl") && HasKey(j.members, "fixedRatio")
  {
    var s :- DecodeSlots(j, ThumbNailNames, true);
    ThumbNailFromSlots(s)
  }

  function ThumbNailFromSlots(s: seq<Option<Json>>): Decoded<ThumbNail>
    requires |s| == |ThumbNailNames|
  {
    var imageUrl :- AsString(s[0], "imageUrl");
    var link :- AsOptNested(s[1], "link", DecodeLink);
    var fixedRatio :- AsBool(s[2], "fixedRatio");
    var width :- AsOptInt32(s[3], "width");
    var height :- AsOptInt32(s[4], "height");
    Ok(ThumbNail(imageUrl, link, fixedRatio, width, height))
  }

  /** `imageUrl` and `fixedRatio` are always emitted; `link`, `width` and
      `height` only when present. */
  lemma ThumbNailForm(t: ThumbNail)
    ensures Keys(EncodeThumbNail(t).members) ==
      Present(ThumbNailNames, [true, t.link.Some?, true, t.width.Some?, t.height.Some?])
  {
    FieldsKeys(ThumbNailNames, ThumbNailSlots(t));
    assert Flags(ThumbNailSlots(t)) == [true, t.link.Some?, true, t.width.Some?, t.height.Some?];
  }

  lemma ThumbNailRoundTrip(t: ThumbNail)
    ensures DecodeThumbNail(EncodeThumbNail(t)) == Ok(t)
  {
    SlotsRoundTrip(ThumbNailNames, ThumbNailSlots(t), true);
    ThumbNailSlotsRoundTrip(t);
  }

  lemma ThumbNailSlotsRoundTrip(t: ThumbNail)
    ensures ThumbNailFromSlots(ThumbNailSlots(t)) == Ok(t)
  {
    if t.link.Some? {
      LinkRoundTrip(t.link.value);
    }
    OptNestedRoundTrip(t.link, "link", EncodeLink, DecodeLink);
  }

  /** An optional thumbnail (skipped when absent) reads back as written. */
  lemma OptThumbNailRoundTrip(o: Option<ThumbNail>, name: string)
    ensures AsOptNested(OptNestedSlot(o, EncodeThumbNail), name, DecodeThumbNail) == Ok(o)
  {
    if o.Some? {
      ThumbNailRoundTrip(o.value);
    }
  }

  /* ---------- ListCard ---------- */

  datatype ListCardContent = ListCardContent(buttons: seq<Buttons.Button>, header: Title, items: seq<ListItem>)

  /** The list card output: its content sits under the key `listCard`. */
  datatype ListCard = ListCard(content: ListCardContent)

  function ListCardNew(header: string): (r: ListCard)
    ensures r.content.header == Title(header)
    ensures r.content.buttons == [] && r.content.items == []
  {
    ListCard(ListCardContent([], Title(header), []))
  }

  /** Appends a button after the existing ones; nothing else changes. */
  function ListCardAddButton(c: ListCard, b: Buttons.Button): (r: ListCard)
    ensures r.content.buttons == c.content.buttons + [b]
    ensures r.content.(buttons := c.content.buttons) == c.content
  {
    ListCard(c.content.(buttons := c.content.buttons + [b]))
  }

  /** Appends an item after the existing ones; nothing else changes. */
  function ListCardAddItem(c: ListCard, x: ListItem): (r: ListCard)
    ensures r.content.items == c.content.items + [x]
    ensures r.content.(items := c.content.items) == c.content
  {
    ListCard(c.content.(items := c.content.items + [x]))
  }

  const ListCardContentNames := ["buttons", "header", "items"]

  function ListCardContentSlots(c: ListCardContent): seq<Option<Json>> {
    [ArraySlotUnlessEmpty(c.buttons, Buttons.Encode), NestedSlot(c.header, EncodeTitle), ArraySlot(c.items, EncodeListItem)]
  }

  function EncodeListCardContent(c: ListCardContent): Json {
    JObj(Fields(ListCardContentNames, ListCardContentSlots(c)))
  }

  function DecodeListCardContent(j: Json): (r: Decoded<ListCardContent>)
    ensures r.Ok? ==> j.JObj? && KnownKeys(j.members, ListCardContentNames)
    ensures r.Ok? ==> HasKey(j.members, "header") && HasKey(j.members, "items")
  {
    var s :- DecodeSlots(j, ListCardContentNames, true);
    ListCardContentFromSlots(s)
  }

  function ListCardContentFromSlots(s: seq<Option<Json>>): Decoded<ListCardContent>
    requires |s| == |ListCardContentNames|
  {
    var buttons :- AsArrayOrEmpty(s[0], "buttons", Buttons.Decode);
    var header :- AsNested(s[1], "header", DecodeTitle);
    var items :- AsArray(s[2], "items", DecodeListItem);
    Ok(ListCardContent(buttons, header, items))
  }

  /** `buttons` is emitted only when non-empty; `header` and `items` always. */
  lemma ListCardContentForm(c: ListCardContent)
    ensures Keys(EncodeListCardContent(c).members) ==
      Present(ListCardContentNames, [|c.buttons| > 0, true, true])
  {
    FieldsKeys(ListCardContentNames, ListCardContentSlots(c));
    assert Flags(ListCardContentSlots(c)) == [|c.buttons| > 0, true, true];
  }

  lemma ListCardContentRoundTrip(c: ListCardContent)
    requires Buttons.AllWellTagged(c.buttons)
    ensures DecodeListCardContent(EncodeListCardContent(c)) == Ok(c)
  {
    SlotsRoundTrip(ListCardContentNames, ListCardContentSlots(c), true);
    ListCardContentSlotsRoundTrip(c);
  }

  lemma ListCardContentSlotsRoundTrip(c: ListCardContent)
    requires Buttons.AllWellTagged(c.buttons)
    ensures ListCardContentFromSlots(ListCardContentSlots(c)) == Ok(c)
  {
    Buttons.ButtonsRoundTrip(c.buttons, "buttons");
    TitleRoundTrip(c.header);
    forall i | 0 <= i < |c.items| ensures DecodeListItem(EncodeListItem(c.items[i])) == Ok(c.items[i]) {
      ListItemRoundTrip(c.items[i]);
    }
    ArrayRoundTrip(c.items, "items", EncodeListItem, DecodeListItem);
  }

  const ListCardNames := ["listCard"]

  function EncodeListCard(c: ListCard): Json {
    JObj(Fields(ListCardNames, [NestedSlot(c.content, EncodeListCardContent)]))
  }

  function DecodeListCard(j: Json): (r: Decoded<ListCard>)
    ensures r.Ok? ==> j.JObj? && KnownKeys(j.members, ListCardNames)
    ensures r.Ok? ==> HasKey(j.members, "listCard")
  {
    var s :- DecodeSlots(j, ListCardNames, true);
    var content :- AsNested(s[0], "listCard", DecodeListCardContent);
    Ok(ListCard(content))
  }

  lemma ListCardRoundTrip(c: ListCard)
    requires Buttons.AllWellTagged(c.content.buttons)
    ensures DecodeListCard(EncodeListCard(c)) == Ok(c)
  {
    SlotsRoundTrip(ListCardNames, [NestedSlot(c.content, EncodeListCardContent)], true);
    ListCardContentRoundTrip(c.content);
  }

  /* ---------- SimpleText ---------- */

  datatype SimpleTextContent = SimpleTextContent(text: string)

  /** The simple text output: its content sits under the key `simpleText`. */
  datatype SimpleText = SimpleText(content: SimpleTextContent)

  function SimpleTextNew(text: string): (r: SimpleText)
    ensures r.content.text == text
  {
    SimpleText(SimpleTextContent(text))
  }

  function SimpleTextSetText(t: SimpleText, text: string): (r: SimpleText)
    ensures r.content.text == text
  {
    SimpleText(SimpleTextContent(text))
  }

  const SimpleTextContentNames := ["text"]
  const SimpleTextNames := ["simpleText"]

  function EncodeSimpleTextContent(c: SimpleTextContent): Json {
    JObj(Fields(SimpleTextContentNames, [StrSlot(c.text)]))
  }

  /** Simple text content always emits exactly `text`. */
  lemma SimpleTextContentForm(c: SimpleTextContent)
    ensures Keys(EncodeSimpleTextContent(c).members) == SimpleTextContentNames
  {
    FieldsKeysAll(SimpleTextContentNames, [StrSlot(c.text)]);
  }

  function DecodeSimpleTextContent(j: Json): (r: Decoded<SimpleTextContent>)
    ensures r.Ok? ==> j.JObj? && KnownKeys(j.members, SimpleTextContentNames)
    ensures r.Ok? ==> HasKey(j.members, "text")
  {
    var s :- DecodeSlots(j, SimpleTextContentNames, true);
    var text :- AsString(s[0], "text");
    Ok(SimpleTextContent(text))
  }

  function EncodeSimpleText(t: SimpleText): Json {
    JObj(Fields(SimpleTextNames, [NestedSlot(t.content, EncodeSimpleTextContent)]))
  }

  function DecodeSimpleText(j: Json): (r: Decoded<SimpleText>)
    ensures r.Ok? ==> j.JObj? && KnownKeys(j.members, SimpleTextNames)
    ensures r.Ok? ==> HasKey(j.members, "simpleText")
  {
    var s :- DecodeSlots(j, SimpleTextNames, true);
    var content :- AsNested(s[0], "simpleText", DecodeSimpleTextContent);
    Ok(SimpleText(content))
  }

  lemma SimpleTextRoundTrip(t: SimpleText)
    ensures DecodeSimpleText(EncodeSimpleText(t)) == Ok(t)
  {
    SlotsRoundTrip(SimpleTextContentNames, [StrSlot(t.content.text)], true);
    SlotsRoundTrip(SimpleTextNames, [NestedSlot(t.content, EncodeSimpleTextContent)], true);
  }

  /* ---------- SimpleImage ---------- */

  datatype SimpleImageContent = SimpleImageContent(imageUrl: string, altText: string)

  /** The simple image output: its content sits under the key `simpleImage`. */
  datatype SimpleImage = SimpleImage(content: SimpleImageContent)

  function SimpleImageNew(url: string, text: string): (r: SimpleImage)
    ensures r.content.imageUrl == url && r.content.altText == text
  {
    SimpleImage(SimpleImageContent(url, text))
  }

  function SimpleImageSetImage(t: SimpleImage, url: string): (r: SimpleImage)
    ensures r.content.imageUrl == url && r.content.altText == t.content.altText
  {
    SimpleImage(t.content.(imageUrl := url))
  }

  function SimpleImageSetText(t: SimpleImage, text: string): (r: SimpleImage)
    ensures r.content.altText == text && r.content.imageUrl == t.content.imageUrl
  {
    SimpleImage(t.content.(altText := text))
  }

  const SimpleImageContentNames := ["imageUrl", "altText"]
  const SimpleImageNames := ["simpleImage"]

  function SimpleImageContentSlots(c: SimpleImageContent): seq<Option<Json>> {
    [StrSlot(c.imageUrl), StrSlot(c.altText)]
  }

  function EncodeSimpleImageContent(c: SimpleImageContent): Json {
    JObj(Fields(SimpleImageContentNames, SimpleImageContentSlots(c)))
  }

  /** Simple image content always emits `imageUrl` then `altText`. */
  lemma SimpleImageContentForm(c: SimpleImageContent)
    ensures Keys(EncodeSimpleImageContent(c).members) == SimpleImageContentNames
  {
    FieldsKeysAll(SimpleImageContentNames, SimpleImageContentSlots(c));
  }

  function DecodeSimpleImageContent(j: Json): (r: Decoded<SimpleImageContent>)
    ensures r.Ok? ==> j.JObj? && KnownKeys(j.members, SimpleImageContentNames)
    ensures r.Ok? ==> HasKey(j.members, "imageUrl") && HasKey(j.members, "altText")
  {
    var s :- DecodeSlots(j, SimpleImageContentNames, true);
    SimpleImageContentFromSlots(s)
  }

  function SimpleImageContentFromSlots(s: seq<Option<Json>>): Decoded<SimpleImageContent>
    requires |s| == |SimpleImageContentNames|
  {
    var imageUrl :- AsString(s[0], "imageUrl");
    var altText :- AsString(s[1], "altText");
    Ok(SimpleImageContent(imageUrl, altText))
  }

  function EncodeSimpleImage(t: SimpleImage): Json {
    JObj(Fields(SimpleImageNames, [NestedSlot(t.content, EncodeSimpleImageContent)]))
  }

  function DecodeSimpleImage(j: Json): (r: Decoded<SimpleImage>)
    ensures r.Ok? ==> j.JObj? && KnownKeys(j.members, SimpleImageNames)
    ensures r.Ok? ==> HasKey(j.members, "simpleImage")
  {
    var s :- DecodeSlots(j, SimpleImageNames, true);
    var content :- AsNested(s[0], "simpleImage", DecodeSimpleImageContent);
    Ok(SimpleImage(content))
  }

  lemma SimpleImageRoundTrip(t: SimpleImage)
    ensures DecodeSimpleImage(EncodeSimpleImage(t)) == Ok(t)
  {
    SlotsRoundTrip(SimpleImageContentNames, SimpleImageContentSlots(t.content), true);
    SlotsRoundTrip(SimpleImageNames, [NestedSlot(t.content, EncodeSimpleImageContent)], true);
  }
}
