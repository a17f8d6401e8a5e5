/** The four button kinds of a skill response (src/components/buttons.rs): their
    builders, their serialization, the hand-written decoder that picks the kind
    from the `action` string, and the looser single-struct `OneButton`. */
module Buttons {
  import opened Wrappers
  import opened Json

  /* ---------- data model ---------- */

  datatype CallButton = CallButton(labelText: string, action: string, phoneNumber: string, messageText: Option<string>)
  datatype MsgButton = MsgButton(labelText: string, action: string, messageText: Option<string>)
  datatype LinkButton = LinkButton(labelText: string, action: string, webLinkUrl: string, messageText: Option<string>)
  datatype ShareButton = ShareButton(labelText: string, action: string, messageText: Option<string>)

  /** A button is exactly one of the four kinds; it is serialized as the bare
      struct of its kind, with no tag added. */
  datatype Button =
    | Call(call: CallButton)
    | Link(link: LinkButton)
    | Share(share: ShareButton)
    | Msg(msg: MsgButton)

  /** The `action` tag each kind is built with. */
  const PhoneAction := "phone"
  const MessageAction := "message"
  const WebLinkAction := "webLink"
  const ShareAction := "share"

  /** The tag that belongs to the kind of `b`. */
  function KindAction(b: Button): string {
    match b
    case Call(_) => PhoneAction
    case Link(_) => WebLinkAction
    case Share(_) => ShareAction
    case Msg(_) => MessageAction
  }

  /** The `action` field stored in `b`. */
  function StoredAction(b: Button): string {
    match b
    case Call(c) => c.action
    case Link(l) => l.action
    case Share(s) => s.action
    case Msg(m) => m.action
  }

  function Label(b: Button): string {
    match b
    case Call(c) => c.labelText
    case Link(l) => l.labelText
    case Share(s) => s.labelText
    case Msg(m) => m.labelText
  }

  function MessageText(b: Button): Option<string> {
    match b
    case Call(c) => c.messageText
    case Link(l) => l.messageText
    case Share(s) => s.messageText
    case Msg(m) => m.messageText
  }

  /** The stored tag agrees with the kind: true of every button the builders make. */
  predicate WellTagged(b: Button) {
    StoredAction(b) == KindAction(b)
  }

  /* ---------- builders ---------- */

  function CallNew(labelText: string): (r: CallButton)
    ensures WellTagged(Call(r))
    ensures r.labelText == labelText && r.phoneNumber == "0" && r.messageText == None
  {
    CallButton(labelText, PhoneAction, "0", None)
  }

  function CallSetNumber(b: CallButton, number: string): (r: CallButton)
    ensures r.phoneNumber == number && r.(phoneNumber := b.phoneNumber) == b
  {
    b.(phoneNumber := number)
  }

  function CallSetLabel(b: CallButton, labelText: string): (r: CallButton)
    ensures r.labelText == labelText && r.(labelText := b.labelText) == b
  {
    b.(labelText := labelText)
  }

  function CallSetMsg(b: CallButton, msg: string): (r: CallButton)
    ensures r.messageText == Some(msg) && r.(messageText := b.messageText) == b
  {
    b.(messageText := Some(msg))
  }

  function MsgNew(labelText: string): (r: MsgButton)
    ensures WellTagged(Msg(r))
    ensures r.labelText == labelText && r.messageText == None
  {
    MsgButton(labelText, MessageAction, None)
  }

  function MsgSetLabel(b: MsgButton, labelText: string): (r: MsgButton)
    ensures r.labelText == labelText && r.(labelText := b.labelText) == b
  {
    b.(labelText := labelText)
  }

  function MsgSetMsg(b: MsgButton, msg: string): (r: MsgButton)
    ensures r.messageText == Some(msg) && r.(messageText := b.messageText) == b
  {
    b.(messageText := Some(msg))
  }

  function LinkNew(labelText: string): (r: LinkButton)
    ensures WellTagged(Link(r))
    ensures r.labelText == labelText && r.webLinkUrl == "" && r.messageText == None
  {
    LinkButton(labelText, WebLinkAction, "", None)
  }

  function LinkSetLink(b: LinkButton, link: string): (r: LinkButton)
    ensures r.webLinkUrl == link && r.(webLinkUrl := b.webLinkUrl) == b
  {
    b.(webLinkUrl := link)
  }

  function LinkSetLabel(b: LinkButton, labelText: string): (r: LinkButton)
    ensures r.labelText == labelText && r.(labelText := b.labelText) == b
  {
    b.(labelText := labelText)
  }

  function LinkSetMsg(b: LinkButton, msg: string): (r: LinkButton)
    ensures r.messageText == Some(msg) && r.(messageText := b.messageText) == b
  {
    b.(messageText := Some(msg))
  }

  function ShareNew(labelText: string): (r: ShareButton)
    ensures WellTagged(Share(r))
    ensures r.labelText == labelText && r.messageText == None
  {
    ShareButton(labelText, ShareAction, None)
  }

  function ShareSetLabel(b: ShareButton, labelText: string): (r: ShareButton)
    ensures r.labelText == labelText && r.(labelText := b.labelText) == b
  {
    b.(labelText := labelText)
  }

  function ShareSetMsg(b: ShareButton, msg: string): (r: ShareButton)
    ensures r.messageText == Some(msg) && r.(messageText := b.messageText) == b
  {
    b.(messageText := Some(msg))
  }

  /** `Button::init_call_button(number, label)`: the number comes first. */
  function InitCallButton(number: string, labelText: string): (r: Button)
    ensures r.Call? && WellTagged(r)
    ensures r.call.labelText == labelText && r.call.phoneNumber == number && r.call.messageText == None
  {
    Call(CallSetNumber(CallNew(labelText), number))
  }

  /** `Button::init_link_button(link, label)`: the link comes first. */
  function InitLinkButton(link: string, labelText: string): (r: Button)
    ensures r.Link? && WellTagged(r)
    ensures r.link.labelText == labelText && r.link.webLinkUrl == link && r.link.messageText == None
  {
    Link(LinkSetLink(LinkNew(labelText), link))
  }

  function InitShareButton(labelText: string): (r: Button)
    ensures r.Share? && WellTagged(r) && Label(r) == labelText && MessageText(r) == None
  {
    Share(ShareNew(labelText))
  }

  function InitMsgButton(labelText: string): (r: Button)
    ensures r.Msg? && WellTagged(r) && Label(r) == labelText && MessageText(r) == None
  {
    Msg(MsgNew(labelText))
  }

  /* ---------- serialization ---------- */

  const CallNames := ["label", "action", "phoneNumber", "messageText"]
  const LinkNames := ["label", "action", "webLinkUrl", "messageText"]
  /** Shared by `MsgButton` and `ShareButton`, which declare the same fields. */
  const PlainNames := ["label", "action", "messageText"]

  /** The field names and slots the derived serializer of `b`'s struct uses. */
  function Names(b: Button): seq<string> {
    match b
    case Call(_) => CallNames
    case Link(_) => LinkNames
    case _ => PlainNames
  }

  function Slots(b: Button): (s: seq<Option<Json>>)
    ensures |s| == |Names(b)|
  {
    match b
    case Call(c) => [StrSlot(c.labelText), StrSlot(c.action), StrSlot(c.phoneNumber), OptStrSlot(c.messageText)]
    case Link(l) => [StrSlot(l.labelText), StrSlot(l.action), StrSlot(l.webLinkUrl), OptStrSlot(l.messageText)]
    case Share(s) => [StrSlot(s.labelText), StrSlot(s.action), OptStrSlot(s.messageText)]
    case Msg(m) => [StrSlot(m.labelText), StrSlot(m.action), OptStrSlot(m.messageText)]
  }

  /** The derived serialization of the struct inside `b`: the enum itself adds
      nothing, so the kind is visible only through `action` and the fields. */
  function Encode(b: Button): (j: Json)
    ensures j.JObj?
  {
    JObj(Fields(Names(b), Slots(b)))
  }

  /** Every member of the encoding is a string; in particular none is `null`. */
  lemma EncodeStrings(b: Button)
    ensures AllStrings(Encode(b).members) && NullFree(Encode(b))
  {
    var slots := Slots(b);
    assert forall k :: 0 <= k < |slots| && slots[k].Some? ==> slots[k].value.JStr?;
    FieldsStrings(Names(b), slots);
    MembersStrings(Encode(b).members);
  }

  /* ---------- the hand-written decoder ---------- */

  /** Every key's value is a string. The decoder first collects the members
      into a map, where a repeated key keeps only its last value, and then
      unwraps each of the map's values as a string; an earlier value of a
      repeated key is never looked at. */
  predicate AllStrings(fs: Members) {
    forall i :: 0 <= i < |fs| ==> KeptString(fs, fs[i].0)
  }

  /** The value kept under `k` is a string. */
  predicate KeptString(fs: Members, k: string) {
    Get(fs, k).Some? && Get(fs, k).value.JStr?
  }

  /** When every member is a string, so is every key's kept value. */
  lemma MembersStrings(fs: Members)
    requires forall i :: 0 <= i < |fs| ==> fs[i].1.JStr?
    ensures AllStrings(fs)
  {
    forall i | 0 <= i < |fs| ensures KeptString(fs, fs[i].0) {
      assert HasKey(fs, fs[i].0);
      var v := Get(fs, fs[i].0).value;
      var m :| 0 <= m < |fs| && fs[m] == (fs[i].0, v);
    }
  }

  /** The string under key `k`, if the key is present. */
  function StrAt(fs: Members, k: string): Option<string>
    requires AllStrings(fs)
  {
    match Get(fs, k)
    case Some(v) =>
      assert KeptString(fs, k) by {
        var i :| 0 <= i < |fs| && fs[i] == (k, v);
      }
      Some(v.s)
    case None => None
  }

  /** The kind chosen for an `action` string, built with the placeholder label
      "label": any unrecognised string falls back to a message button. */
  function Select(action: string): Button {
    if action == WebLinkAction then Link(LinkNew("label"))
    else if action == ShareAction then Share(ShareNew("label"))
    else if action == MessageAction then Msg(MsgNew("label"))
    else if action == PhoneAction then Call(CallNew("label"))
    else Msg(MsgNew("label"))
  }

  /** Overwrites the fields of `b` that its kind declares with the values found
      under their keys; other keys are ignored and `action` is never read. */
  function Fill(b: Button, fs: Members): Button
    requires AllStrings(fs)
  {
    var labelText := if StrAt(fs, "label").Some? then StrAt(fs, "label").value else Label(b);
    var msg := if StrAt(fs, "messageText").Some? then StrAt(fs, "messageText") else MessageText(b);
    match b
    case Link(l) =>
      var url := if StrAt(fs, "webLinkUrl").Some? then StrAt(fs, "webLinkUrl").value else l.webLinkUrl;
      Link(l.(labelText := labelText, webLinkUrl := url, messageText := msg))
    case Share(s) => Share(s.(labelText := labelText, messageText := msg))
    case Msg(m) => Msg(m.(labelText := labelText, messageText := msg))
    case Call(c) =>
      var number := if StrAt(fs, "phoneNumber").Some? then StrAt(fs, "phoneNumber").value else c.phoneNumber;
      Call(c.(labelText := labelText, phoneNumber := number, messageText := msg))
  }

  /** `Deserialize for Button`. The source unwraps every member as a string and
      unwraps the `action` member; both panics are failures here. */
  function Decode(j: Json): (r: Decoded<Button>)
    ensures r.Ok? <==> j.JObj? && AllStrings(j.members) && HasKey(j.members, "action")
    ensures r.Ok? ==> WellTagged(r.value)
    ensures r.Ok? ==>
      var a := StrAt(j.members, "action").value;
      && (r.value.Link? <==> a == "webLink")
      && (r.value.Share? <==> a == "share")
      && (r.value.Call? <==> a == "phone")
      && (r.value.Msg? <==> a !in {"webLink", "share", "phone"})
  {
    if !j.JObj? then Err(NotAnObject)
    else if !AllStrings(j.members) then Err(InvalidType("value"))
    else
      match StrAt(j.members, "action")
      case None => Err(MissingAction)
      case Some(a) => Ok(Fill(Select(a), j.members))
  }

  /** The defaults the decoder fills in: a missing `label` is the literal
      "label", a missing `phoneNumber` is "0", a missing `webLinkUrl` is empty,
      and `messageText` is present exactly when its key is. */
  lemma DecodeDefaults(j: Json)
    requires Decode(j).Ok?
    ensures var b, fs := Decode(j).value, j.members;
      && Label(b) == (if HasKey(fs, "label") then StrAt(fs, "label").value else "label")
      && MessageText(b) == StrAt(fs, "messageText")
      && (MessageText(b).Some? <==> HasKey(fs, "messageText"))
      && (b.Call? ==> b.call.phoneNumber == (if HasKey(fs, "phoneNumber") then StrAt(fs, "phoneNumber").value else "0"))
      && (b.Link? ==> b.link.webLinkUrl == (if HasKey(fs, "webLinkUrl") then StrAt(fs, "webLinkUrl").value else ""))
  {
  }

  /** The exact member list of the encoding: `label`, `action`, the kind's own
      field, then `messageText` only when the button has one. */
  lemma EncodeForm(b: Button)
    ensures Encode(b).members ==
      [("label", JStr(Label(b))), ("action", JStr(StoredAction(b)))]
      + ((match b
          case Call(c) => [("phoneNumber", JStr(c.phoneNumber))]
          case Link(l) => [("webLinkUrl", JStr(l.webLinkUrl))]
          case _ => [])
         + Member("messageText", OptStrSlot(MessageText(b))))
  {
    var slots := Slots(b);
    match b
    case Call(_) => FieldsUnfold4(CallNames, slots);
    case Link(_) => FieldsUnfold4(LinkNames, slots);
    case Share(_) => FieldsUnfold3(PlainNames, slots);
    case Msg(_) => FieldsUnfold3(PlainNames, slots);
  }

  /** `phoneNumber` is emitted only by call buttons, `webLinkUrl` only by link
      buttons, and `messageText` exactly when the button has one. */
  lemma EncodeOmission(b: Button)
    ensures var fs := Encode(b).members;
      && (HasKey(fs, "phoneNumber") <==> b.Call?)
      && (HasKey(fs, "webLinkUrl") <==> b.Link?)
      && (HasKey(fs, "messageText") <==> MessageText(b).Some?)
  {
    NamesDistinct(b);
    var names, slots := Names(b), Slots(b);
    match b
    case Call(_) =>
      FieldsHasKey(names, slots, 2);
      FieldsHasKey(names, slots, 3);
      FieldsAbsent(names, slots, "webLinkUrl");
    case Link(_) =>
      FieldsHasKey(names, slots, 2);
      FieldsHasKey(names, slots, 3);
      FieldsAbsent(names, slots, "phoneNumber");
    case Share(_) =>
      FieldsHasKey(names, slots, 2);
      FieldsAbsent(names, slots, "webLinkUrl");
      FieldsAbsent(names, slots, "phoneNumber");
    case Msg(_) =>
      FieldsHasKey(names, slots, 2);
      FieldsAbsent(names, slots, "webLinkUrl");
      FieldsAbsent(names, slots, "phoneNumber");
  }

  lemma NamesDistinct(b: Button)
    ensures Distinct(Names(b))
  {
  }

  /** What the decoder's key lookups find in the encoding of `b`. */
  lemma EncodeReadBack(b: Button)
    ensures var fs := Encode(b).members;
      && Get(fs, "label") == Some(JStr(Label(b)))
      && Get(fs, "action") == Some(JStr(StoredAction(b)))
      && Get(fs, "messageText") == OptStrSlot(MessageText(b))
      && (b.Call? ==> Get(fs, "phoneNumber") == Some(JStr(b.call.phoneNumber)))
      && (b.Link? ==> Get(fs, "webLinkUrl") == Some(JStr(b.link.webLinkUrl)))
  {
    NamesDistinct(b);
    var names, slots := Names(b), Slots(b);
    match b
    case Call(_) =>
      FieldsGet(names, slots, 0);
      FieldsGet(names, slots, 1);
      FieldsGet(names, slots, 2);
      FieldsGet(names, slots, 3);
    case Link(_) =>
      FieldsGet(names, slots, 0);
      FieldsGet(names, slots, 1);
      FieldsGet(names, slots, 2);
      FieldsGet(names, slots, 3);
    case Share(_) =>
      FieldsGet(names, slots, 0);
      FieldsGet(names, slots, 1);
      FieldsGet(names, slots, 2);
    case Msg(_) =>
      FieldsGet(names, slots, 0);
      FieldsGet(names, slots, 1);
      FieldsGet(names, slots, 2);
  }

  /** Decoding the encoding of a button gives the same button back, provided its
      stored `action` agrees with its kind. */
  lemma RoundTrip(b: Button)
    requires WellTagged(b)
    ensures Decode(Encode(b)) == Ok(b)
  {
    var fs := Encode(b).members;
    EncodeStrings(b);
    EncodeReadBack(b);
    assert Decode(Encode(b)) == Ok(Fill(Select(KindAction(b)), fs));
    FillRestores(b, fs);
  }

  /** Every button of a list is well tagged: true of every list the builders
      make. */
  predicate AllWellTagged(bs: seq<Button>) {
    forall i :: 0 <= i < |bs| ==> WellTagged(bs[i])
  }

  /** A `buttons` field (skipped when empty, empty when missing) reads back the
      list that was written. */
  lemma ButtonsRoundTrip(bs: seq<Button>, name: string)
    requires AllWellTagged(bs)
    ensures AsArrayOrEmpty(ArraySlotUnlessEmpty(bs, Encode), name, Decode) == Ok(bs)
  {
    forall i | 0 <= i < |bs| ensures Decode(Encode(bs[i])) == Ok(bs[i]) {
      RoundTrip(bs[i]);
    }
    ArrayRoundTrip(bs, name, Encode, Decode);
  }

  /** Filling the placeholder of `b`'s kind from its own encoding restores `b`. */
  lemma FillRestores(b: Button, fs: Members)
    requires WellTagged(b) && AllStrings(fs)
    requires StrAt(fs, "label") == Some(Label(b))
    requires StrAt(fs, "messageText") == MessageText(b)
    requires b.Call? ==> StrAt(fs, "phoneNumber") == Some(b.call.phoneNumber)
    requires b.Link? ==> StrAt(fs, "webLinkUrl") == Some(b.link.webLinkUrl)
    ensures Fill(Select(KindAction(b)), fs) == b
  {
  }

  /* ---------- OneButton: one struct for every kind ---------- */

  /** The kind a `OneButton` is created for. */
  datatype ButtonType = CallType | ShareType | LinkType | TextType

  /** A button whose kind-specific fields are all optional. */
  datatype OneButton = OneButton(
    labelText: string,
    action: string,
    phoneNumber: Option<string>,
    webLinkUrl: Option<string>,
    messageText: Option<string>)

  /** The `action` string a button type is created with. */
  function TypeAction(t: ButtonType): string {
    match t
    case CallType => PhoneAction
    case ShareType => ShareAction
    case LinkType => WebLinkAction
    case TextType => MessageAction
  }

  /** The button type an `action` string names, if any. */
  function ActionType(a: string): (r: Option<ButtonType>)
    ensures r.Some? ==> TypeAction(r.value) == a
  {
    if a == WebLinkAction then Some(LinkType)
    else if a == ShareAction then Some(ShareType)
    else if a == MessageAction then Some(TextType)
    else if a == PhoneAction then Some(CallType)
    else None
  }

  /** Every type's action string names that type, and no other string names one. */
  lemma ActionTypeInverse(t: ButtonType, a: string)
    ensures ActionType(TypeAction(t)) == Some(t)
    ensures ActionType(a).Some? <==> a in {PhoneAction, ShareAction, WebLinkAction, MessageAction}
  {
  }

  /** `OneButton::new(type)`: the type's action and the default of every other
      field (an empty label, no optional field). */
  function OneButtonNew(t: ButtonType): (r: OneButton)
    ensures ActionType(r.action) == Some(t)
    ensures r.labelText == "" && r.phoneNumber == None && r.webLinkUrl == None && r.messageText == None
  {
    OneButton("", TypeAction(t), None, None, None)
  }

  function OneSetNumber(b: OneButton, number: string): (r: OneButton)
    ensures r.phoneNumber == Some(number) && r.(phoneNumber := b.phoneNumber) == b
  {
    b.(phoneNumber := Some(number))
  }

  function OneSetLabel(b: OneButton, labelText: string): (r: OneButton)
    ensures r.labelText == labelText && r.(labelText := b.labelText) == b
  {
    b.(labelText := labelText)
  }

  function OneSetMsg(b: OneButton, msg: string): (r: OneButton)
    ensures r.messageText == Some(msg) && r.(messageText := b.messageText) == b
  {
    b.(messageText := Some(msg))
  }

  function OneSetLink(b: OneButton, link: string): (r: OneButton)
    ensures r.webLinkUrl == Some(link) && r.(webLinkUrl := b.webLinkUrl) == b
  {
    b.(webLinkUrl := Some(link))
  }

  const OneNames := ["label", "action", "phoneNumber", "webLinkUrl", "messageText"]

  function OneSlots(b: OneButton): (s: seq<Option<Json>>)
    ensures |s| == |OneNames|
  {
    [StrSlot(b.labelText), StrSlot(b.action), OptStrSlot(b.phoneNumber), OptStrSlot(b.webLinkUrl), OptStrSlot(b.messageText)]
  }

  /** The derived serialization of a `OneButton`. */
  function EncodeOne(b: OneButton): Json {
    JObj(Fields(OneNames, OneSlots(b)))
  }

  /** The value under key `k` when present, else the default `d`. */
  function StrOr(fs: Members, k: string, d: string): string
    requires AllStrings(fs)
  {
    if StrAt(fs, k).Some? then StrAt(fs, k).value else d
  }

  /** Overwrites the fields of `b` found among the members; other keys are
      ignored, and so is `action`. */
  function FillOne(b: OneButton, fs: Members): OneButton
    requires AllStrings(fs)
  {
    b.(labelText := StrOr(fs, "label", b.labelText),
       webLinkUrl := if StrAt(fs, "webLinkUrl").Some? then StrAt(fs, "webLinkUrl") else b.webLinkUrl,
       messageText := if StrAt(fs, "messageText").Some? then StrAt(fs, "messageText") else b.messageText,
       phoneNumber := if StrAt(fs, "phoneNumber").Some? then StrAt(fs, "phoneNumber") else b.phoneNumber)
  }

  /** `Deserialize for OneButton`. Like the `Button` decoder it needs every
      member to be a string and an `action` member, but an `action` naming no
      button type is a failure rather than a message button. */
  function DecodeOne(j: Json): (r: Decoded<OneButton>)
  {
    if !j.JObj? then Err(NotAnObject)
    else if !AllStrings(j.members) then Err(InvalidType("value"))
    else
      match StrAt(j.members, "action")
      case None => Err(MissingAction)
      case Some(a) =>
        match ActionType(a)
        case None => Err(UnknownAction(a))
        case Some(t) => Ok(FillOne(OneButtonNew(t), j.members))
  }

  /** When the decoder succeeds and when it fails, and what it reads: the
      `action` member verbatim, each optional field exactly when its key is
      present, and an empty label when `label` is missing. */
  lemma DecodeOneSpec(j: Json)
    ensures DecodeOne(j).Ok? <==>
      && j.JObj? && AllStrings(j.members) && HasKey(j.members, "action")
      && StrAt(j.members, "action").value in {PhoneAction, ShareAction, WebLinkAction, MessageAction}
    ensures j.JObj? && AllStrings(j.members) && StrAt(j.members, "action").Some? ==>
      var a := StrAt(j.members, "action").value;
      ActionType(a).None? ==> DecodeOne(j) == Err(UnknownAction(a))
    ensures DecodeOne(j).Ok? ==>
      var b, fs := DecodeOne(j).value, j.members;
      && Some(b.action) == StrAt(fs, "action")
      && b.labelText == StrOr(fs, "label", "")
      && b.phoneNumber == StrAt(fs, "phoneNumber")
      && b.webLinkUrl == StrAt(fs, "webLinkUrl")
      && b.messageText == StrAt(fs, "messageText")
  {
  }

  /** What the decoder's key lookups find in the encoding of `b`. */
  lemma EncodeOneReadBack(b: OneButton)
    ensures var fs := EncodeOne(b).members;
      && AllStrings(fs)
      && StrAt(fs, "label") == Some(b.labelText)
      && StrAt(fs, "action") == Some(b.action)
      && StrAt(fs, "phoneNumber") == b.phoneNumber
      && StrAt(fs, "webLinkUrl") == b.webLinkUrl
      && StrAt(fs, "messageText") == b.messageText
  {
    var slots := OneSlots(b);
    assert Distinct(OneNames);
    assert forall k :: 0 <= k < |slots| && slots[k].Some? ==> slots[k].value.JStr?;
    FieldsStrings(OneNames, slots);
    FieldsGet(OneNames, slots, 0);
    FieldsGet(OneNames, slots, 1);
    FieldsGet(OneNames, slots, 2);
    FieldsGet(OneNames, slots, 3);
    FieldsGet(OneNames, slots, 4);
  }

  /** The exact member list of the encoding: `label`, `action`, then each
      optional field that is present, in declaration order. */
  lemma EncodeOneForm(b: OneButton)
    ensures EncodeOne(b).members ==
      [("label", JStr(b.labelText)), ("action", JStr(b.action))]
      + (Member("phoneNumber", OptStrSlot(b.phoneNumber))
         + (Member("webLinkUrl", OptStrSlot(b.webLinkUrl))
            + Member("messageText", OptStrSlot(b.messageText))))
  {
    FieldsUnfold5(OneNames, OneSlots(b));
  }

  /** A `OneButton` whose action names a button type survives the round trip;
      one whose action names none is rejected with that action. */
  lemma OneRoundTrip(b: OneButton)
    ensures ActionType(b.action).Some? ==> DecodeOne(EncodeOne(b)) == Ok(b)
    ensures ActionType(b.action).None? ==> DecodeOne(EncodeOne(b)) == Err(UnknownAction(b.action))
  {
    EncodeOneReadBack(b);
  }

  /* ---------- the source's test vector ---------- */

  function Obj2(k0: string, v0: string, k1: string, v1: string): Json {
    JObj([(k0, JStr(v0)), (k1, JStr(v1))])
  }

  /** The four buttons of the source's decode/encode test, as parsed JSON. */
  const ButtonVector: seq<Json> := [
    JObj([("label", JStr("CALL LABEL")), ("action", JStr("phone")),
          ("phoneNumber", JStr("0")), ("messageText", JStr("MESSAGE"))]),
    Obj2("label", "SHARE LABEL", "action", "share"),
    Obj2("label", "MSG LABEL", "action", "message"),
    JObj([("label", JStr("LABEL")), ("action", JStr("webLink")), ("webLinkUrl", JStr("https://"))])
  ]

  const ButtonVectorDecoded: seq<Button> := [
    Call(CallButton("CALL LABEL", "phone", "0", Some("MESSAGE"))),
    Share(ShareButton("SHARE LABEL", "share", None)),
    Msg(MsgButton("MSG LABEL", "message", None)),
    Link(LinkButton("LABEL", "webLink", "https://", None))
  ]

  /** Each expected button encodes to exactly its JSON in the test vector. */
  lemma ButtonVectorEncodes(k: nat)
    requires k < |ButtonVector|
    ensures Encode(ButtonVectorDecoded[k]) == ButtonVector[k]
  {
    EncodeForm(ButtonVectorDecoded[k]);
  }

  /** Each button of the test vector decodes to the expected kind and fields, so
      the vector re-encodes to exactly the same JSON. */
  lemma ButtonVectorRoundTrip(k: nat)
    requires k < |ButtonVector|
    ensures Decode(ButtonVector[k]) == Ok(ButtonVectorDecoded[k])
  {
    ButtonVectorEncodes(k);
    RoundTrip(ButtonVectorDecoded[k]);
  }

  /** The same four buttons read as `OneButton`s: the call button's number and
      the link button's URL become present optional fields. */
  const OneVectorDecoded: seq<OneButton> := [
    OneButton("CALL LABEL", "phone", Some("0"), None, Some("MESSAGE")),
    OneButton("SHARE LABEL", "share", None, None, None),
    OneButton("MSG LABEL", "message", None, None, None),
    OneButton("LABEL", "webLink", None, Some("https://"), None)
  ]

  /** Each expected `OneButton` encodes to exactly its JSON in the test vector. */
  lemma OneVectorEncodes(k: nat)
    requires k < |ButtonVector|
    ensures EncodeOne(OneVectorDecoded[k]) == ButtonVector[k]
  {
    EncodeOneForm(OneVectorDecoded[k]);
  }

  /** Each button of the test vector decodes to the expected `OneButton`, so the
      vector re-encodes to exactly the same JSON. */
  lemma OneVectorRoundTrip(k: nat)
    requires k < |ButtonVector|
    ensures DecodeOne(ButtonVector[k]) == Ok(OneVectorDecoded[k])
  {
    OneVectorEncodes(k);
    OneRoundTrip(OneVectorDecoded[k]);
  }

  /* ---------- repeated keys ---------- */

  /** An object whose `action` first holds a number and then "share". */
  const RepeatedAction: Json := JObj([("action", JNum(1)), ("action", JStr("share"))])

  /** Only the last value of a repeated key is read, so an earlier non-string
      value under that key does not make either decoder fail. */
  lemma RepeatedKeyKeepsLast()
    ensures Decode(RepeatedAction) == Ok(Share(ShareNew("label")))
    ensures DecodeOne(RepeatedAction) == Ok(OneButtonNew(ShareType))
  {
    var fs := RepeatedAction.members;
    assert Get(fs, "action") == Some(JStr("share"));
    assert AllStrings(fs) by {
      forall i | 0 <= i < |fs| ensures KeptString(fs, fs[i].0) {
        assert fs[i].0 == "action";
      }
    }
    assert Get(fs, "label") == None && Get(fs, "messageText") == None;
    assert Get(fs, "phoneNumber") == None && Get(fs, "webLinkUrl") == None;
  }
}
