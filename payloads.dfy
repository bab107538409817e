/** The three outbound message payloads the bot posts to a conversation: the welcome card
    and the two forms. Each is a fixed value; the JSON object literal of the source becomes
    a datatype whose fields keep the literal's order of items. */
module Payloads {
  import opened Js

  /** The `content_type` of a message; the bot only posts cards and forms. */
  datatype ContentType = Card | Form

  function ContentTypeName(t: ContentType): string {
    match t
    case Card => "card"
    case Form => "form"
  }

  /** A button on a card; the bot only uses `post_back` buttons, which send `payload`
      back to the conversation when pressed. */
  datatype ActionType = PostBack

  datatype CardAction = CardAction(actionType: ActionType, text: string, payload: string)

  datatype CardItem = CardItem(text: string, actions: seq<CardAction>)

  /** The `type` of a form control. */
  datatype InputType = TextInput | TextArea | Submit

  function InputTypeName(t: InputType): string {
    match t
    case TextInput => "text"
    case TextArea => "textarea"
    case Submit => "submit"
  }

  /** One form control: an input field (`label` as `labelText`, `placeholder`, `required`) or the submit
      button, which has a button `text` and none of the three. */
  datatype FormItem =
    | Field(name: string, labelText: string, inputType: InputType, placeholder: string, required: bool)
    | SubmitButton(name: string, text: string)
  {
    function Type(): InputType {
      match this
      case Field(_, _, t, _, _) => t
      case SubmitButton(_, _) => Submit
    }

    predicate IsRequired() {
      Field? && required
    }
  }

  /** `content_attributes.items`: card items for a card, controls for a form. */
  datatype Items = CardItems(cards: seq<CardItem>) | FormItems(controls: seq<FormItem>)

  /** An outbound message: `content` (absent on the forms), `private`, `content_type`
      and `content_attributes.items`. */
  datatype Payload = Payload(content: Option<string>, isPrivate: bool, contentType: ContentType, items: Items)

  /** The `name`s of a form's controls, in order. */
  function Names(controls: seq<FormItem>): (names: seq<string>)
    ensures |names| == |controls|
    ensures forall i :: 0 <= i < |controls| ==> names[i] == controls[i].name
  {
    if controls == [] then [] else [controls[0].name] + Names(controls[1..])
  }

  /** A form's layout as both forms have it: the last control is the submit button and
      every control before it is a required input field. */
  predicate WellFormedForm(controls: seq<FormItem>) {
    && |controls| > 0
    && controls[|controls| - 1].Type() == Submit
    && forall i :: 0 <= i < |controls| - 1 ==> controls[i].IsRequired() && controls[i].Type() != Submit
  }

  /** The public welcome card: one item offering two post-back buttons, "Make a Bid"
      with payload ACTION_BID, then "Check Sales" with payload ACTION_SALES. */
  function InitialChoices(): (p: Payload)
    ensures ContentTypeName(p.contentType) == "card" && !p.isPrivate
    ensures p.content == Some("Welcome! How can we help you today?")
    ensures p.items.CardItems? && |p.items.cards| == 1
    ensures var actions := p.items.cards[0].actions;
      && |actions| == 2
      && (forall a :: a in actions ==> a.actionType == PostBack)
      && actions[0].text == "Make a Bid" && actions[0].payload == "ACTION_BID"
      && actions[1].text == "Check Sales" && actions[1].payload == "ACTION_SALES"
  {
    Payload(
      Some("Welcome! How can we help you today?"),
      false,
      Card,
      CardItems([
        CardItem(
          "Please select an option below:",
          [ CardAction(PostBack, "Make a Bid", "ACTION_BID"),
            CardAction(PostBack, "Check Sales", "ACTION_SALES") ])
      ]))
  }

  /** The public bid form: full name, e-mail, item, bid amount, then "Submit Bid". */
  function BidForm(): (p: Payload)
    ensures ContentTypeName(p.contentType) == "form" && !p.isPrivate && p.content == None
    ensures p.items.FormItems? && |p.items.controls| == 5
  {
    Payload(
      None,
      false,
      Form,
      FormItems([
        Field("full_name", "Full Name", TextInput, "Enter your full name", true),
        Field("email", "Email Address", TextInput, "Enter your email", true),
        Field("item_name", "Item Name/Number", TextInput, "e.g., 'Vintage Watch #123'", true),
        Field("bid_amount", "Bid Amount ($)", TextInput, "Enter your bid amount", true),
        SubmitButton("submit", "Submit Bid")
      ]))
  }

  /** The bid form's controls, in order: four required single-line text fields, then the
      "Submit Bid" button. */
  lemma BidFormLayout()
    ensures var c := BidForm().items.controls;
      && Names(c) == ["full_name", "email", "item_name", "bid_amount", "submit"]
      && WellFormedForm(c)
      && (forall i :: 0 <= i < 4 ==> InputTypeName(c[i].Type()) == "text")
      && c[4] == SubmitButton("submit", "Submit Bid")
      && InputTypeName(c[4].Type()) == "submit"
  {
    var c := BidForm().items.controls;
    var names := Names(c);
    assert names[0] == "full_name" && names[1] == "email" && names[2] == "item_name";
    assert names[3] == "bid_amount" && names[4] == "submit";
  }

  /** The public sales inquiry form: full name, e-mail, the question, then "Send Inquiry". */
  function SalesForm(): (p: Payload)
    ensures ContentTypeName(p.contentType) == "form" && !p.isPrivate && p.content == None
    ensures p.items.FormItems? && |p.items.controls| == 4
  {
    Payload(
      None,
      false,
      Form,
      FormItems([
        Field("full_name", "Full Name", TextInput, "Enter your full name", true),
        Field("email", "Email Address", TextInput, "Enter your email", true),
        Field("inquiry_details", "Your Question", TextArea, "What can we help you find?", true),
        SubmitButton("submit", "Send Inquiry")
      ]))
  }

  /** The sales form's controls, in order: two required text fields, a required
      multi-line text area for the question, then the "Send Inquiry" button. */
  lemma SalesFormLayout()
    ensures var c := SalesForm().items.controls;
      && Names(c) == ["full_name", "email", "inquiry_details", "submit"]
      && WellFormedForm(c)
      && InputTypeName(c[0].Type()) == "text" && InputTypeName(c[1].Type()) == "text"
      && InputTypeName(c[2].Type()) == "textarea"
      && c[3] == SubmitButton("submit", "Send Inquiry")
      && InputTypeName(c[3].Type()) == "submit"
  {
    var c := SalesForm().items.controls;
    var names := Names(c);
    assert names[0] == "full_name" && names[1] == "email";
    assert names[2] == "inquiry_details" && names[3] == "submit";
  }
}
