# kakao-rs skill response, modelled in Dafny

kakao-rs builds the JSON "skill response" of the Kakao i Open Builder chatbot
platform: a `Template` holding a list of outputs (list card, basic card,
commerce card, item card, simple text, simple image, carousel) and optional
quick replies, each output made of builder-constructed values with buttons,
thumbnails and list items. This project models the typed value model of
`src/components/buttons.rs`, `src/components/basics.rs` and
`src/components/cards.rs` and its mapping to and from an abstract JSON tree.

Modules (one concept per module, following the source's structure):

- `Wrappers` — `Option` and `Result` with `:-` support.
- `Json` — the JSON tree (`JNull | JBool | JNum | JStr | JArr | JObj`, object
  members as an ordered sequence of key/value pairs) and a generic model of
  what the serde derive does for a struct: the encoder emits the fields in
  declaration order and drops a field whose `skip_serializing_if` holds
  (`Fields(names, slots)`, a `None` slot being an omitted field); the decoder
  (`DecodeSlots`) demands an object (serde's positional array form is left
  out), refuses keys it does not know when the
  struct has `deny_unknown_fields`, refuses a known key that occurs twice, and
  hands each field's value (missing becomes `None`) to a per-field converter
  (`AsString`, `AsOptString`, `AsInt32`, `AsNested`, `AsArrayOrEmpty`, ...).
  An `Option` field reads `None` when missing or `null`; a `Vec` with
  `default` reads `[]` when missing. Lookup of a key returns its last
  occurrence, as a `serde_json::Map` built by repeated insertion does.
- `Buttons` — the `Button` sum with its four variants, their constructors and
  setters, `init_*`, the hand-written `Deserialize for Button`, and
  `OneButton`/`ButtonType` with its own `Deserialize`.
- `Basics` — the leaves of `basics.rs`: `Link`, `ListItem`, `QuickReply`,
  `Title`, `ThumbNail`, `ListCard`, `SimpleText`, `SimpleImage`.
- `Cards` — `cards.rs`: basic, commerce and item cards, `Head`, `ImageTitle`,
  `ItemList`, `ItemListSummary`, the `id()` keys and the untagged `Card` sum.
- `Outputs` — the rest of `basics.rs`: `Carousel`/`CarouselContent`/
  `CarouselHeader`, the untagged `Types` sum, `Outputs` and `Template`.
  (`basics.rs` and `cards.rs` use each other; Dafny modules may not import
  each other cyclically, so `basics.rs` is split across `Basics` and `Outputs`.)

Builders are value-in/value-out functions; a `&mut self` method becomes a
function returning the updated value. A panic of the source (`unwrap` of a
missing value, `panic!`) becomes an `Err`/`None` result. Every struct's codec
has a round-trip lemma (`Decode(Encode(x)) == Ok(x)`), a lemma stating which
keys the encoding emits and in which order (`...Form`; for the one-key
wrappers of the seven outputs, `Outputs.TypesWrapped`), and a lemma or
contract stating what the decoder accepts and rejects.

Two behaviours of the code are followed as written, though a reader might
expect otherwise: the `Button` decoder ignores keys it does not recognise but
still fails when the value kept under any key, known or not, is not a string,
because it converts every value of the parsed map to a string before looking
at `action` (the map keeps only the last value of a repeated key, so an
earlier non-string value of a repeated key does no harm); and `Head`, `ImageTitle`,
`ItemList` and `ItemListSummary` accept unknown keys since they lack
`deny_unknown_fields`.

## Model

| member | source | states |
|---|---|---|
| Buttons.CallNew | src/components/buttons.rs:261-268 | a new call button carries the "phone" tag, the given label, phone number "0" and no message |
| Buttons.CallSetNumber | src/components/buttons.rs:270-273 | sets the phone number and changes no other field |
| Buttons.CallSetLabel | src/components/buttons.rs:275-278 | sets the label and changes no other field |
| Buttons.CallSetMsg | src/components/buttons.rs:280-283 | makes the message present with the given text and changes no other field |
| Buttons.MsgNew | src/components/buttons.rs:312-318 | a new message button carries the "message" tag, the given label and no message |
| Buttons.MsgSetLabel | src/components/buttons.rs:320-323 | sets the label and changes no other field |
| Buttons.MsgSetMsg | src/components/buttons.rs:325-328 | makes the message present and changes no other field |
| Buttons.LinkNew | src/components/buttons.rs:357-364 | a new link button carries the "webLink" tag, the given label, an empty URL and no message |
| Buttons.LinkSetLink | src/components/buttons.rs:366-369 | sets the URL and changes no other field |
| Buttons.LinkSetLabel | src/components/buttons.rs:371-374 | sets the label and changes no other field |
| Buttons.LinkSetMsg | src/components/buttons.rs:376-379 | makes the message present and changes no other field |
| Buttons.ShareNew | src/components/buttons.rs:407-413 | a new share button carries the "share" tag, the given label and no message |
| Buttons.ShareSetLabel | src/components/buttons.rs:415-418 | sets the label and changes no other field |
| Buttons.ShareSetMsg | src/components/buttons.rs:420-423 | makes the message present and changes no other field |
| Buttons.InitCallButton | src/components/buttons.rs:113-122 | the number comes first: the result is a well-tagged call button with that number and label and no message |
| Buttons.InitLinkButton | src/components/buttons.rs:124-130 | the link comes first: the result is a well-tagged link button with that URL and label and no message |
| Buttons.InitShareButton | src/components/buttons.rs:132-138 | a well-tagged share button with the label and no message |
| Buttons.InitMsgButton | src/components/buttons.rs:140-142 | a well-tagged message button with the label and no message |
| Buttons.EncodeForm | src/components/buttons.rs:239-256 | the encoding is label, action, then phoneNumber (call) or webLinkUrl (link), then messageText only when present |
| Buttons.EncodeOmission | src/components/buttons.rs:250-256 | phoneNumber is emitted iff the button is a call, webLinkUrl iff a link, messageText iff the message is present |
| Buttons.EncodeStrings | src/components/buttons.rs:239-256 | every emitted value is a string and null is never emitted, since every field of the call button struct (and likewise of the message, link and share structs at 302-307, 346-352, 397-402) is a `String` or an `Option<String>` skipped when `None` |
| Buttons.EncodeReadBack | src/components/buttons.rs:239-256 | looking up each emitted key gives back the button's label, stored action and variant fields |
| Buttons.Decode | src/components/buttons.rs:145-163 | succeeds iff the input is an object with an action key in which the value kept under every key (its last occurrence) is a string; webLink, share and phone select link, share and call, any other action selects message; the result is always well-tagged |
| Buttons.RepeatedKeyKeepsLast | src/components/buttons.rs:150-163 | an object whose `action` key occurs first with a number and last with "share" decodes as a share button, for `Button` and for `OneButton`, since only the last value of a repeated key is kept |
| Buttons.DecodeDefaults | src/components/buttons.rs:164-231 | fields are filled by lookup: a missing label becomes "label", a missing phone number "0", a missing URL ""; the message is present exactly when the key is |
| Buttons.FillRestores | src/components/buttons.rs:164-231 | filling the default button for a button's own action from its fields yields that button again |
| Buttons.RoundTrip | src/components/buttons.rs:145-236 | decoding the encoding of a well-tagged button gives the same button |
| Buttons.ButtonsRoundTrip | src/components/cards.rs:115-116 | a button list, omitted when empty, decodes back to the same list |
| Buttons.ButtonVectorEncodes | tests/button.rs:18-22 | each decoded button of the test vector encodes to exactly its input object |
| Buttons.ButtonVectorRoundTrip | tests/button.rs:18-19 | each object of the test vector decodes to the expected button |
| Buttons.ActionType | src/components/buttons.rs:451-457 | an action string maps back to at most one button type, the one whose tag it is |
| Buttons.ActionTypeInverse | src/components/buttons.rs:452-457 | every button type's tag maps back to it; exactly the four tags are recognised |
| Buttons.OneButtonNew | src/components/buttons.rs:451-462 | the action is the type's tag; label "" and all optional fields absent, as `Default` gives |
| Buttons.OneSetNumber | src/components/buttons.rs:464-467 | makes the phone number present and changes no other field |
| Buttons.OneSetLabel | src/components/buttons.rs:469-472 | sets the label and changes no other field |
| Buttons.OneSetMsg | src/components/buttons.rs:474-477 | makes the message present and changes no other field |
| Buttons.OneSetLink | src/components/buttons.rs:479-482 | makes the URL present and changes no other field |
| Buttons.DecodeOneSpec | src/components/buttons.rs:485-519 | succeeds iff the input is an object whose kept values are all strings and whose action is one of the four tags; an unknown action is an error; label defaults to "", and webLinkUrl, messageText and phoneNumber are present whenever their keys are, whatever the action |
| Buttons.EncodeOneForm | src/components/buttons.rs:428-440 | the encoding is label, action, then phoneNumber, webLinkUrl and messageText each only when present |
| Buttons.EncodeOneReadBack | src/components/buttons.rs:428-440 | looking up each emitted key gives back the corresponding field |
| Buttons.OneRoundTrip | src/components/buttons.rs:485-519 | a button with a known action decodes back to itself; one with an unknown action is rejected |
| Buttons.OneVectorEncodes | src/components/buttons.rs:535-540 | each decoded one-button of the test vector encodes to exactly its input object |
| Buttons.OneVectorRoundTrip | src/components/buttons.rs:535-539 | each object of the test vector decodes to the expected one-button |
| Basics.LinkRoundTrip | src/components/basics.rs:7-11 | a link decodes back from its `web` object |
| Basics.LinkForm | src/components/basics.rs:9-11 | a link always emits exactly the key `web` |
| Basics.DecodeLink | src/components/basics.rs:8 | an object is accepted only when `web` is its only key and is present |
| Basics.ListItemNew | src/components/basics.rs:28-35 | the title is set and description, image and link are absent |
| Basics.ListItemSetDesc | src/components/basics.rs:37-40 | makes the description present and changes no other field |
| Basics.ListItemSetImage | src/components/basics.rs:42-45 | makes the image URL present and changes no other field |
| Basics.ListItemSetLink | src/components/basics.rs:47-50 | sets the link to a `Link` with the given web URL and changes no other field |
| Basics.DecodeListItem | src/components/basics.rs:14-25 | unknown keys are refused, and so is an object missing `title` |
| Basics.ListItemForm | src/components/basics.rs:17-25 | title is always emitted; description, imageUrl and link only when present, in that order |
| Basics.ListItemRoundTrip | src/components/basics.rs:14-25 | a list item decodes back from its encoding |
| Basics.QuickReplyNew | src/components/basics.rs:83-90 | the action defaults to "message" and the block id is absent |
| Basics.QuickReplySetBlockId | src/components/basics.rs:92-95 | makes the block id present and changes no other field |
| Basics.QuickReplySetAction | src/components/basics.rs:97-100 | overwrites the action and changes no other field |
| Basics.DecodeQuickReply | src/components/basics.rs:56-80 | unknown keys are refused, and so is an object missing `action`, `label` and `messageText` |
| Basics.QuickReplyForm | src/components/basics.rs:74-80 | action, label and messageText are always emitted, blockId only when present |
| Basics.QuickReplyRoundTrip | src/components/basics.rs:56-80 | a quick reply decodes back from its encoding |
| Basics.QuickRepliesRoundTrip | src/components/basics.rs:227-228 | a quick-reply list, omitted when empty, decodes back to the same list |
| Basics.DecodeTitle | src/components/basics.rs:105-109 | unknown keys are refused, and so is an object missing `title` |
| Basics.TitleRoundTrip | src/components/basics.rs:105-109 | a title decodes back from its encoding |
| Basics.TitleForm | src/components/basics.rs:107-109 | a title always emits exactly the key `title` |
| Basics.ThumbNailNew | src/components/basics.rs:127-134 | the URL is set, fixed ratio is false, and link, width and height are absent |
| Basics.ThumbNailSetLink | src/components/basics.rs:136-139 | sets the link and changes no other field |
| Basics.ThumbNailSetImageUrl | src/components/basics.rs:141-144 | sets the image URL and changes no other field |
| Basics.ThumbNailSetFixedRatio | src/components/basics.rs:146-149 | sets the fixed-ratio flag and changes no other field |
| Basics.ThumbNailSetWidth | src/components/basics.rs:151-154 | makes the width present and changes no other field |
| Basics.ThumbNailSetHeight | src/components/basics.rs:156-159 | makes the height present and changes no other field |
| Basics.DecodeThumbNail | src/components/basics.rs:111-124 | unknown keys are refused, and so is an object missing `imageUrl` and `fixedRatio` |
| Basics.ThumbNailForm | src/components/basics.rs:115-124 | imageUrl and fixedRatio are always emitted; link, width and height only when present, in declaration order |
| Basics.ThumbNailRoundTrip | src/components/basics.rs:111-124 | a thumbnail decodes back from its encoding |
| Basics.OptThumbNailRoundTrip | src/components/cards.rs:368-369 | an optional thumbnail field, omitted when absent, decodes back to the same option |
| Basics.ListCardNew | src/components/basics.rs:415-419 | the header title is set and buttons and items are empty |
| Basics.ListCardAddButton | src/components/basics.rs:421-423 | appends the button at the end and changes nothing else |
| Basics.ListCardAddItem | src/components/basics.rs:425-427 | appends the item at the end and changes nothing else |
| Basics.DecodeListCardContent | src/components/basics.rs:405-412 | unknown keys are refused, and so is an object missing `header` and `items` |
| Basics.ListCardContentForm | src/components/basics.rs:407-412 | buttons are emitted only when non-empty; header and items always |
| Basics.ListCardContentRoundTrip | src/components/basics.rs:405-412 | list card content decodes back from its encoding |
| Basics.DecodeListCard | src/components/basics.rs:368-403 | an object is accepted only when `listCard` is its only key and is present |
| Basics.ListCardRoundTrip | src/components/basics.rs:368-403 | a list card decodes back from its `listCard` wrapper |
| Basics.SimpleTextNew | src/components/basics.rs:475-479 | the text is the given one |
| Basics.SimpleTextSetText | src/components/basics.rs:481-484 | replaces the text |
| Basics.DecodeSimpleText | src/components/basics.rs:444-466 | an object is accepted only when `simpleText` is its only key and is present |
| Basics.SimpleTextRoundTrip | src/components/basics.rs:444-472 | a simple text decodes back from its `simpleText` wrapper |
| Basics.SimpleTextContentForm | src/components/basics.rs:470-472 | simple text content always emits exactly the key `text` |
| Basics.SimpleImageNew | src/components/basics.rs:531-538 | URL and alt text are the given ones |
| Basics.SimpleImageSetImage | src/components/basics.rs:540-543 | replaces the URL and keeps the alt text |
| Basics.SimpleImageSetText | src/components/basics.rs:545-548 | replaces the alt text and keeps the URL |
| Basics.DecodeSimpleImage | src/components/basics.rs:495-520 | an object is accepted only when `simpleImage` is its only key and is present |
| Basics.SimpleImageRoundTrip | src/components/basics.rs:495-528 | a simple image decodes back from its `simpleImage` wrapper |
| Basics.SimpleImageContentForm | src/components/basics.rs:525-528 | simple image content always emits `imageUrl` then `altText`, both unconditionally |
| Cards.BasicCardNew | src/components/cards.rs:39-47 | title and description absent, thumbnail `ThumbNail::new("")`, no buttons |
| Cards.BasicCardAddButton | src/components/cards.rs:49-52 | appends the button at the end and changes nothing else |
| Cards.BasicCardSetDesc | src/components/cards.rs:54-57 | makes the description present and changes nothing else |
| Cards.BasicCardSetDescription | src/components/cards.rs:77-80 | has the same effect as `set_desc` |
| Cards.BasicCardSetTitle | src/components/cards.rs:72-75 | makes the title present and changes nothing else |
| Cards.BasicCardSetThumbnail | src/components/cards.rs:58-62 | changes only the thumbnail's image URL |
| Cards.BasicCardSetLink | src/components/cards.rs:81-84 | changes only the thumbnail's link |
| Cards.BasicCardSetFixedRatio | src/components/cards.rs:85-89 | changes only the thumbnail's fixed-ratio flag |
| Cards.BasicCardSetWidth | src/components/cards.rs:90-94 | changes only the thumbnail's width |
| Cards.BasicCardSetHeight | src/components/cards.rs:95-99 | changes only the thumbnail's height |
| Cards.DecodeBasicCardContent | src/components/cards.rs:106-117 | unknown keys are refused, and so is an object missing `thumbnail` |
| Cards.BasicCardContentForm | src/components/cards.rs:109-117 | title and description only when present, thumbnail always, buttons only when non-empty, in that order |
| Cards.BasicCardContentRoundTrip | src/components/cards.rs:106-117 | basic card content with well-tagged buttons decodes back from its encoding |
| Cards.DecodeBasicCard | src/components/cards.rs:33-36 | an object is accepted only when `basicCard` is its only key and is present |
| Cards.BasicCardRoundTrip | src/components/cards.rs:33-36 | a basic card decodes back from its `basicCard` wrapper |
| Cards.CommerceCardNew | src/components/cards.rs:146-158 | description "", price 0, currency "", no discounts, no thumbnails, no buttons; the discount pair is consistent |
| Cards.CommerceCardAddButton | src/components/cards.rs:160-163 | appends the button at the end and changes nothing else |
| Cards.CommerceCardSetDesc | src/components/cards.rs:165-168 | sets the description and changes nothing else |
| Cards.CommerceCardSetThumbnail | src/components/cards.rs:169-172 | appends a new thumbnail on every call instead of replacing |
| Cards.CommerceCardSetPrice | src/components/cards.rs:182-185 | sets the price and changes nothing else |
| Cards.CommerceCardSetCurrency | src/components/cards.rs:187-190 | sets the currency and changes nothing else |
| Cards.CommerceCardSetDiscount | src/components/cards.rs:192-195 | makes the discount present and changes nothing else |
| Cards.CommerceCardSetDiscountRatePrice | src/components/cards.rs:197-201 | sets discount rate and discounted price together and changes nothing else |
| Cards.CommerceBuildPaired | src/components/cards.rs:146-201 | after any sequence of builder calls, discount rate and discounted price are both absent or both present |
| Cards.DecodeCommerceCardContent | src/components/cards.rs:209-226 | unknown keys are refused, and so is an object missing `description`, `price` and `currency` |
| Cards.CommerceCardContentForm | src/components/cards.rs:212-226 | description, price, currency always; discount, discountRate, discountedPrice when present; thumbnails and buttons when non-empty; in that order |
| Cards.CommerceCardContentRoundTrip | src/components/cards.rs:209-226 | commerce card content decodes back from its encoding |
| Cards.ThumbNailsRoundTrip | src/components/cards.rs:223-224 | a thumbnail list, omitted when empty, decodes back to the same list |
| Cards.DecodeCommerceCard | src/components/cards.rs:121-143 | an object is accepted only when `commerceCard` is its only key and is present |
| Cards.CommerceCardRoundTrip | src/components/cards.rs:121-143 | a commerce card decodes back from its `commerceCard` wrapper |
| Cards.ImageTitleNew | src/components/cards.rs:406-412 | the title is set, description and image absent |
| Cards.ImageTitleSetTitle | src/components/cards.rs:414-416 | sets the title and changes no other field |
| Cards.ImageTitleSetDesc | src/components/cards.rs:418-420 | makes the description present and changes no other field |
| Cards.ImageTitleSetImage | src/components/cards.rs:422-424 | makes the image URL present and changes no other field |
| Cards.HeadRoundTrip | src/components/cards.rs:390-393 | a head decodes back from its encoding |
| Cards.HeadForm | src/components/cards.rs:390-393 | a head always emits exactly the key `title` |
| Cards.HeadIgnoresUnknown | src/components/cards.rs:390-393 | an extra unknown key does not change how a head decodes |
| Cards.ImageTitleRoundTrip | src/components/cards.rs:395-403 | an image title decodes back from its encoding |
| Cards.ImageTitleForm | src/components/cards.rs:395-403 | `title` is always emitted; `description` and `imageUrl` only when present (an absent one is omitted, never written as null), in declaration order |
| Cards.ImageTitleIgnoresUnknown | src/components/cards.rs:395-403 | an extra unknown key does not change how an image title decodes |
| Cards.ItemListRoundTrip | src/components/cards.rs:432-436 | an item-list entry decodes back from its encoding |
| Cards.ItemListForm | src/components/cards.rs:432-436 | an item-list entry always emits `title` then `description` |
| Cards.ItemListIgnoresUnknown | src/components/cards.rs:432-436 | an extra unknown key does not change how an item-list entry decodes |
| Cards.ItemListSummaryRoundTrip | src/components/cards.rs:438-442 | an item-list summary decodes back from its encoding |
| Cards.ItemListSummaryForm | src/components/cards.rs:438-442 | an item-list summary always emits `title` then `description` |
| Cards.ItemListSummaryIgnoresUnknown | src/components/cards.rs:438-442 | an extra unknown key does not change how a summary decodes |
| Cards.ItemCardNew | src/components/cards.rs:266-281 | every optional field absent, item list and buttons empty |
| Cards.ItemCardAddButton | src/components/cards.rs:291-294 | appends the button at the end and changes nothing else |
| Cards.ItemCardSetTitle | src/components/cards.rs:295-298 | makes the title present and changes nothing else |
| Cards.ItemCardSetDesc | src/components/cards.rs:299-302 | makes the description present and changes nothing else |
| Cards.ItemCardSetButtonLayout | src/components/cards.rs:303-306 | makes the button layout present and changes nothing else |
| Cards.ItemCardSetItemListAlignment | src/components/cards.rs:307-310 | makes the alignment present and changes nothing else |
| Cards.ItemCardSetItemListSummary | src/components/cards.rs:311-317 | sets the summary to the given title and description and changes nothing else |
| Cards.ItemCardSetThumbnail | src/components/cards.rs:318-322 | sets the thumbnail to a new one with the URL and changes nothing else |
| Cards.ItemCardSetHead | src/components/cards.rs:323-327 | sets the head and changes nothing else |
| Cards.ItemCardSetImageTitle | src/components/cards.rs:328-332 | sets the image title to a new one and changes nothing else |
| Cards.ItemCardSetImageDesc | src/components/cards.rs:333-339 | does nothing when there is no image title; otherwise sets only its description |
| Cards.ItemCardSetImage | src/components/cards.rs:341-347 | does nothing when there is no image title; otherwise sets only its image URL |
| Cards.ItemCardSetThumbnailHeight | src/components/cards.rs:349-354 | does nothing when there is no thumbnail; otherwise sets only its height |
| Cards.ItemCardSetThumbnailWidth | src/components/cards.rs:356-361 | does nothing when there is no thumbnail; otherwise sets only its width |
| Cards.DecodeItemCardContent | src/components/cards.rs:364-388 | unknown keys are refused, and so is an object missing `itemList` |
| Cards.ItemCardContentForm | src/components/cards.rs:367-388 | itemList is always emitted, even when empty; every option only when present, buttons only when non-empty; in declaration order |
| Cards.ItemCardContentRoundTrip | src/components/cards.rs:364-388 | item card content decodes back from its encoding |
| Cards.OptHeadRoundTrip | src/components/cards.rs:370-371 | an optional head, omitted when absent, decodes back |
| Cards.OptImageTitleRoundTrip | src/components/cards.rs:373-374 | an optional image title, omitted when absent, decodes back |
| Cards.OptItemListSummaryRoundTrip | src/components/cards.rs:378-379 | an optional summary, omitted when absent, decodes back |
| Cards.ItemListsRoundTrip | src/components/cards.rs:375 | the item list, always emitted, decodes back to the same list |
| Cards.DecodeItemCard | src/components/cards.rs:228-263 | an object is accepted only when `itemCard` is its only key and is present |
| Cards.ItemCardRoundTrip | src/components/cards.rs:228-263 | an item card decodes back from its `itemCard` wrapper |
| Cards.BasicBuildCard | src/components/cards.rs:68-70 | moves the content into the basic variant of the card sum |
| Cards.CommerceBuildCard | src/components/cards.rs:178-180 | moves the content into the commerce variant |
| Cards.ItemBuildCard | src/components/cards.rs:287-289 | moves the content into the item variant |
| Cards.DecodeHead | src/components/cards.rs:390-393 | an object missing `title` is refused |
| Cards.DecodeImageTitle | src/components/cards.rs:395-403 | an object missing `title` is refused |
| Cards.DecodeItemList | src/components/cards.rs:432-436 | an object missing `title` or `description` is refused |
| Cards.DecodeItemListSummary | src/components/cards.rs:438-442 | an object missing `title` or `description` is refused |
| Cards.DecodeCard | src/components/cards.rs:6-12 | succeeds iff one of the three contents decodes; the result is the basic content when that decodes, otherwise the commerce content when that decodes, otherwise the item content, each carrying exactly the value its own decoder gives |
| Cards.CommerceNotBasic | src/components/cards.rs:106-117 | encoded commerce content is never read as basic content |
| Cards.ItemCardEmitsItemList | src/components/cards.rs:375 | encoded item content always has the itemList key |
| Cards.ItemNotBasicOrCommerce | src/components/cards.rs:106-117 | encoded item content is read neither as basic nor as commerce content |
| Cards.CardRoundTrip | src/components/cards.rs:6-12 | decoding the bare encoding of a card gives back the same variant and content |
| Cards.CardsRoundTrip | src/components/basics.rs:282-283 | a card list, omitted when empty, decodes back to the same list |
| Outputs.CarouselHeaderNew | src/components/basics.rs:350-356 | empty title and description, thumbnail `ThumbNail::new("")` |
| Outputs.CarouselHeaderSetTitle | src/components/basics.rs:358-360 | sets the title and changes no other field |
| Outputs.CarouselHeaderSetDesc | src/components/basics.rs:362-364 | sets the description and changes no other field |
| Outputs.DecodeCarouselHeader | src/components/basics.rs:340-347 | unknown keys are refused, and so is an object missing `title`, `description` and `thumbnail` |
| Outputs.CarouselHeaderRoundTrip | src/components/basics.rs:340-347 | a carousel header decodes back from its encoding |
| Outputs.CarouselHeaderForm | src/components/basics.rs:343-347 | a carousel header always emits `title`, `description` and `thumbnail`, in that order |
| Outputs.OptCarouselHeaderRoundTrip | src/components/basics.rs:285-286 | an optional header, omitted when absent, decodes back |
| Outputs.CarouselNew | src/components/basics.rs:290-298 | type "basicCard", no items, no header |
| Outputs.CarouselAddCard | src/components/basics.rs:300-301 | appends any card, whatever its kind, and changes nothing else |
| Outputs.CarouselSetType | src/components/basics.rs:319-322 | sets the type and changes nothing else |
| Outputs.CarouselSetHeaderTitle | src/components/basics.rs:324-327 | fails exactly when there is no header; otherwise sets only the header's title |
| Outputs.CarouselSetHeaderDesc | src/components/basics.rs:329-332 | fails exactly when there is no header; otherwise sets only the header's description |
| Outputs.CarouselBuildHasNoHeader | src/components/basics.rs:289-332 | no carousel built with `new` followed by any sequence of builder calls has a header (a carousel decoded from JSON may have one) |
| Outputs.CarouselHeaderTitleAlwaysFails | src/components/basics.rs:324-327 | setting the header title fails on every carousel built with `new` and any sequence of builder calls |
| Outputs.CarouselSetHeaderTitleFixed | src/components/basics.rs:324-327 | always leaves a header with the given title, starting from a new header when there was none |
| Outputs.CarouselSetHeaderDescFixed | src/components/basics.rs:329-332 | always leaves a header with the given description, starting from a new header when there was none |
| Outputs.CarouselFixedHeaderKeepsBoth | src/components/basics.rs:324-332 | with the corrected setters, a title then a description both end up in the header |
| Outputs.DecodeCarouselContent | src/components/basics.rs:276-287 | unknown keys are refused, and so is an object missing `type` |
| Outputs.CarouselContentForm | src/components/basics.rs:279-287 | type always, items only when non-empty, header only when present |
| Outputs.CarouselContentRoundTrip | src/components/basics.rs:276-287 | carousel content decodes back from its encoding |
| Outputs.DecodeCarousel | src/components/basics.rs:248-274 | an object is accepted only when `carousel` is its only key and is present |
| Outputs.CarouselRoundTrip | src/components/basics.rs:248-274 | a carousel decodes back from its `carousel` wrapper |
| Outputs.DecodeTypes | src/components/basics.rs:210-220 | succeeds iff some output decoder succeeds; the variant chosen is the first in declaration order (list, basic, commerce, item, simple text, simple image, carousel) whose decoder succeeds, carrying exactly the value that decoder gives |
| Outputs.TypesWrapped | src/components/basics.rs:210-220 | every output encodes as an object with exactly one key, its wrapper key; for the three cards that key is the card's `id()` ("basicCard", "commerceCard", "itemCard") |
| Outputs.WrapperKeysDistinct | src/components/basics.rs:210-220 | two outputs with the same wrapper key are the same variant |
| Outputs.NotListCard | src/components/basics.rs:368-369 | a one-key object under another key is not a list card |
| Outputs.NotBasicCard | src/components/cards.rs:15-16 | a one-key object under another key is not a basic card |
| Outputs.NotCommerceCard | src/components/cards.rs:122-123 | a one-key object under another key is not a commerce card |
| Outputs.NotItemCard | src/components/cards.rs:229-230 | a one-key object under another key is not an item card |
| Outputs.NotSimpleText | src/components/basics.rs:444-446 | a one-key object under another key is not a simple text |
| Outputs.NotSimpleImage | src/components/basics.rs:495-497 | a one-key object under another key is not a simple image |
| Outputs.TypesRoundTrip | src/components/basics.rs:210-220 | decoding an encoded output, trying variants in order, gives back the same variant and value |
| Outputs.TemplateNew | src/components/basics.rs:186-191 | no outputs, no quick replies, version "2.0" |
| Outputs.TemplateAddOutput | src/components/basics.rs:193-195 | appends the output at the end; quick replies and version unchanged |
| Outputs.TemplateAddQr | src/components/basics.rs:197-199 | appends the quick reply at the end; outputs and version unchanged |
| Outputs.AddOutputEncodesLast | src/components/basics.rs:193-195 | the encoded outputs array is the old array followed by the new output |
| Outputs.AddQrEncodesLast | src/components/basics.rs:197-199 | the encoded quick-reply array is the old array followed by the new reply |
| Outputs.DecodeOutputs | src/components/basics.rs:222-229 | unknown keys are refused, and so is an object missing `outputs` |
| Outputs.OutputsForm | src/components/basics.rs:225-229 | outputs always, quickReplies only when non-empty |
| Outputs.OutputsMissingQuickReplies | src/components/basics.rs:227-228 | an object with only `outputs` decodes with an empty quick-reply list |
| Outputs.OutputsRoundTrip | src/components/basics.rs:222-229 | the outputs object decodes back from its encoding |
| Outputs.DecodeTemplate | src/components/basics.rs:165-183 | unknown keys are refused, and so is an object missing `template` and `version` |
| Outputs.TemplateRoundTrip | src/components/basics.rs:165-183 | a template decodes back from its encoding |
| Outputs.TemplateForm | src/components/basics.rs:180-183 | a template always emits `template` then `version` |
| Json.DecodeSlots | src/components/basics.rs:222-229 | a struct decodes iff the input is an object, every key is known when unknown fields are denied, and no known key repeats; each field reads the value under its key |
| Json.SlotsRoundTrip | src/components/basics.rs:222-229 | the fields a struct emits are read back unchanged |
| Json.DecodeSlotsIgnoresUnknown | src/components/cards.rs:390-393 | without deny_unknown_fields an extra unknown key changes nothing |
| Json.DecodeSlotsDeniesUnknown | src/components/basics.rs:224 | with deny_unknown_fields any unknown key is an error |
| Json.FieldsKeys | src/components/basics.rs:227 | a struct emits exactly the keys of its present fields, in declaration order |
| Json.FieldsKeysAll | src/components/basics.rs:180-183 | a struct none of whose fields is skipped emits every declared key, in declaration order |
| Json.DecodeAll | src/components/basics.rs:226 | an array decodes iff every element does, element by element |
| Json.DecodeAllRoundTrip | src/components/basics.rs:226 | an encoded array decodes back element by element |

## Left out

- JSON text: serde_json rendering (escaping, whitespace, key quoting), `Template::to_string`, `Template::build` and the `html()` helpers. The model stops at the JSON tree with ordered keys.
- Floating-point and non-integral numbers: every numeric field of the core is `i32`; a JSON number is modelled as an integer only.
- Integer width: `Int32` is the range of `i32` as a subtype. Values are stored, never computed, so no wrap-around arises.
- Panics: `unwrap` on a missing value and `panic!` become `Err`/`None` results whose payloads are descriptive only.
- The `build()` methods returning `Types` are the `Types` constructors themselves and get no member of their own.
- The derived `Deserialize` of the four per-variant button structs: nothing decodes them directly, since `Button` has its own decoder.
- `Button::call`, `share`, `link` and `text`, used by one test: they are not defined in `buttons.rs`.
- Commented-out code in `buttons.rs` and `basics.rs`, `src/lib.rs` and `src/prelude.rs` (re-exports only), the benchmarks and examples.
- Rust ownership (`mut self`, `&mut self`): every builder is a pure function returning the new value.
- The carousel field `type` is named `cardType` in the model because `type` is a Dafny keyword; its JSON key is still `type`.
- Buttons.Decode, Buttons.DecodeOne: the source first parses the object into a `serde_json::Map` and then a `HashMap`; the model reads the last occurrence of each key directly from the member list, which is the value those maps keep, rather than modelling the maps.
- Json.DecodeSlots: serde's derived `Deserialize` for a struct also accepts the positional array form (`["u"]` as a `Link`, `{"simpleText":["hi"]}`); the model only decodes the object form, so every struct decoder refuses an array with `NotAnObject`. Nothing in the core emits or reads the array form.
- The `Card` and `Types` round trips need every button inside to carry its variant's tag (`Buttons.WellTagged`); a hand-built button with a foreign tag decodes as the variant its tag names, as `Buttons.Decode` states.

## Findings

| source | as written | input that shows it | evidently intended | confidence | as-written member | corrected member |
|---|---|---|---|---|---|---|
| src/components/basics.rs:324-332 | `set_header_title` and `set_header_desc` unwrap the carousel header, but no carousel built with `new` and the builder methods has one, so on every such carousel both panic; a carousel decoded from JSON with a header does not | `Carousel::new().set_header_title("t")` | create a default header when there is none, then set the field | not executed | Outputs.CarouselHeaderTitleAlwaysFails | Outputs.CarouselSetHeaderTitleFixed |
