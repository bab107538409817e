/** The decision procedure of the webhook handler: find the conversation the event
    belongs to, pick at most one message to post to it, and choose the HTTP response.
    Posting is not performed: the messages the handler would post are returned. */
module Webhook {
  import opened Js
  import opened Payloads

  /** The request body: text that `JSON.parse` rejects, or the value it parsed. */
  datatype Body = Unparseable | Parsed(event: Value)

  /** One call of `postMessage(conversationId, payload)`. */
  datatype Post = Post(conversationId: Value, payload: Payload)

  /** What handling one event comes to: no conversation found (acknowledged), handled
      with the messages posted, in order (acknowledged), or an exception (rejected). */
  datatype Outcome = NoConversationId | Handled(posts: seq<Post>) | BadRequest

  datatype Response = Response(status: nat, text: string)

  /** The four places a conversation id may be, in the order they are tried:
      `conversation.id`, `data.id`, `message.conversation_id`, `data.conversation_id`. */
  function Probes(ev: Value): (p: seq<Value>)
    requires !Nullish(ev)
    ensures |p| == 4
    ensures !ev.Obj? ==> forall i :: 0 <= i < 4 ==> p[i] == Undefined
    ensures p[0] == OptProp(Prop(ev, "conversation"), "id")
    ensures p[1] == OptProp(Prop(ev, "data"), "id")
    ensures p[2] == OptProp(Prop(ev, "message"), "conversation_id")
    ensures p[3] == OptProp(Prop(ev, "data"), "conversation_id")
  {
    [ OptProp(Prop(ev, "conversation"), "id"),
      OptProp(Prop(ev, "data"), "id"),
      OptProp(Prop(ev, "message"), "conversation_id"),
      OptProp(Prop(ev, "data"), "conversation_id") ]
  }

  /** The `||` chain over the probes; `Some` exactly when the chain's value is truthy.
      Reading `ev.conversation` on a `null` event throws, so the event is not nullish. */
  function ResolveId(ev: Value): (id: Option<Value>)
    requires !Nullish(ev)
    ensures id.Some? ==> Truthy(id.value) && id.value in Probes(ev)
  {
    var p := Probes(ev);
    var v := Or(Or(Or(p[0], p[1]), p[2]), p[3]);
    if Truthy(v) then Some(v) else None
  }

  /** `vs[i]` is the first truthy value of `vs`. */
  ghost predicate FirstTruthyAt(vs: seq<Value>, i: int) {
    && 0 <= i < |vs|
    && Truthy(vs[i])
    && forall j :: 0 <= j < i ==> !Truthy(vs[j])
  }

  /** The id is the first truthy probe, falsy earlier probes (`null`, `0`, `""`, absent)
      being skipped; there is none exactly when every probe is falsy. */
  lemma ResolveIdIsFirstTruthy(ev: Value)
    requires !Nullish(ev)
    ensures ResolveId(ev).None? <==> forall i :: 0 <= i < 4 ==> !Truthy(Probes(ev)[i])
    ensures forall i :: FirstTruthyAt(Probes(ev), i) ==> ResolveId(ev) == Some(Probes(ev)[i])
  {
  }

  /** `eventData.event === name`: strict equality holds only for that very string. */
  predicate IsEvent(ev: Value, name: string)
    requires !Nullish(ev)
    ensures IsEvent(ev, name) ==> ev.Obj? && "event" in ev.props && ev.props["event"].Str?
    ensures IsEvent(ev, name) ==> ev.props["event"].s == name
  {
    Prop(ev, "event") == Str(name)
  }

  /** A `message_created` event for a message the user sent (`incoming`) as plain `text`. */
  predicate IsIncomingText(ev: Value)
    requires !Nullish(ev)
    ensures IsIncomingText(ev) ==> IsEvent(ev, "message_created") && Prop(ev, "message").Obj?
    ensures IsIncomingText(ev) ==> !IsEvent(ev, "conversation_created")
  {
    && IsEvent(ev, "message_created")
    && OptProp(Prop(ev, "message"), "message_type") == Str("incoming")
    && OptProp(Prop(ev, "message"), "content_type") == Str("text")
  }

  /** `eventData.message.content`; `message` is an object here, since it has a `message_type`. */
  function UserInput(ev: Value): (input: Value)
    requires !Nullish(ev) && IsIncomingText(ev)
    ensures var message := Prop(ev, "message").props;
      input == if "content" in message then message["content"] else Undefined
  {
    Prop(Prop(ev, "message"), "content")
  }

  /** Typed input that asks for the bid form: the action code exactly, or the phrase in
      any letter case. */
  predicate AsksForBid(s: string) {
    s == "ACTION_BID" || EqualsIgnoringCase(s, "make a bid")
  }

  /** Typed input that asks for the sales form. */
  predicate AsksForSales(s: string) {
    s == "ACTION_SALES" || EqualsIgnoringCase(s, "check sales")
  }

  /** The reply to an incoming text: the form it asks for, none, or an exception. */
  datatype Reply = Threw | Replied(payload: Option<Payload>)

  /** The `if`/`else if` on the user's input. The action codes are compared first and
      exactly; then the input is lower-cased, which throws a TypeError on anything but a
      string, so a content that is absent, `null`, a number or an object throws. */
  function ReplyTo(input: Value): (r: Reply)
    ensures r.Threw? <==> !input.Str?
    ensures r.Replied? ==> r.payload == None || r.payload == Some(BidForm()) || r.payload == Some(SalesForm())
  {
    if input == Str("ACTION_BID") then Replied(Some(BidForm()))
    else if !input.Str? then Threw
    else if ToLower(input.s) == "make a bid" then Replied(Some(BidForm()))
    else if input.s == "ACTION_SALES" || ToLower(input.s) == "check sales" then Replied(Some(SalesForm()))
    else Replied(None)
  }

  /** The bid triggers take priority over the sales triggers, and any other text gets no
      reply; the phrases are matched ignoring letter case, the action codes are not. */
  lemma ReplyToText(s: string)
    ensures ReplyTo(Str(s)) == Replied(Some(BidForm())) <==> AsksForBid(s)
    ensures ReplyTo(Str(s)) == Replied(Some(SalesForm())) <==> !AsksForBid(s) && AsksForSales(s)
    ensures ReplyTo(Str(s)) == Replied(None) <==> !AsksForBid(s) && !AsksForSales(s)
  {
    ToLowerEqualsPhrase(s, "make a bid");
    ToLowerEqualsPhrase(s, "check sales");
    assert BidForm() != SalesForm();
  }

  /** The handler from `JSON.parse` on: a parse error or a `null` event is a bad request;
      an event without a conversation id is acknowledged and nothing is posted; otherwise
      a new conversation gets the welcome card and an incoming text may get a form. The
      handler throws, and nothing is posted, when the content of an incoming text is not
      a string (`toLowerCase`) or when a message is about to be posted to an id that
      cannot be converted to a string (the `${conversationId}` logged just before). */
  function Route(body: Body): (r: Outcome)
    ensures r == NoConversationId <==> body.Parsed? && !Nullish(body.event) && ResolveId(body.event).None?
    ensures r == BadRequest <==>
      || body.Unparseable?
      || Nullish(body.event)
      || (&& ResolveId(body.event).Some?
          && var ev, id := body.event, ResolveId(body.event).value;
          || (IsEvent(ev, "conversation_created") && ToStringThrows(id))
          || (IsIncomingText(ev) && !UserInput(ev).Str?)
          || (IsIncomingText(ev) && ReplyTo(UserInput(ev)) != Replied(None) && ToStringThrows(id)))
    ensures r.Handled? ==>
      && body.Parsed? && !Nullish(body.event) && ResolveId(body.event).Some?
      && |r.posts| <= 1
      && forall k :: 0 <= k < |r.posts| ==>
           && Some(r.posts[k].conversationId) == ResolveId(body.event)
           && !ToStringThrows(r.posts[k].conversationId)
  {
    match body
    case Unparseable => BadRequest
    case Parsed(ev) =>
      if Nullish(ev) then BadRequest
      else match ResolveId(ev)
        case None => NoConversationId
        case Some(id) =>
          var created := IsEvent(ev, "conversation_created");
          if created && ToStringThrows(id) then BadRequest
          else
            var welcome := if created then [Post(id, InitialChoices())] else [];
            if !IsIncomingText(ev) then Handled(welcome)
            else match ReplyTo(UserInput(ev))
              case Threw => BadRequest
              case Replied(None) => Handled(welcome)
              case Replied(Some(p)) =>
                if ToStringThrows(id) then BadRequest else Handled(welcome + [Post(id, p)])
  }

  /** The two branches test `event` against different names, so no event reaches both:
      in particular nothing was posted before `toLowerCase` throws. */
  lemma BranchesExclusive(ev: Value)
    requires !Nullish(ev)
    ensures !(IsEvent(ev, "conversation_created") && IsIncomingText(ev))
  {
  }

  /** A new conversation gets exactly the welcome card, posted to its id, unless logging
      the id throws, which is a bad request. */
  lemma WelcomeOnConversationCreated(ev: Value, id: Value)
    requires !Nullish(ev) && ResolveId(ev) == Some(id) && IsEvent(ev, "conversation_created")
    ensures !ToStringThrows(id) ==> Route(Parsed(ev)) == Handled([Post(id, InitialChoices())])
    ensures ToStringThrows(id) ==> Route(Parsed(ev)) == BadRequest
  {
  }

  /** An incoming text with an id posts the reply to its content, and only that; a form
      is not posted, and the request is bad, when logging the id throws. */
  lemma RouteIncomingText(ev: Value, id: Value)
    requires !Nullish(ev) && ResolveId(ev) == Some(id) && IsIncomingText(ev)
    ensures var reply := ReplyTo(UserInput(ev));
      Route(Parsed(ev)) ==
        match reply
        case Threw => BadRequest
        case Replied(None) => Handled([])
        case Replied(Some(p)) => if ToStringThrows(id) then BadRequest else Handled([Post(id, p)])
  {
  }

  /** An incoming text gets the bid form, the sales form or nothing, as it asks; when it
      asks for a form and logging the id throws, the request is bad instead. */
  lemma IncomingTextReply(ev: Value, id: Value, s: string)
    requires !Nullish(ev) && ResolveId(ev) == Some(id) && IsIncomingText(ev) && UserInput(ev) == Str(s)
    ensures Route(Parsed(ev)) == Handled([Post(id, BidForm())]) <==> AsksForBid(s) && !ToStringThrows(id)
    ensures Route(Parsed(ev)) == Handled([Post(id, SalesForm())]) <==>
      !AsksForBid(s) && AsksForSales(s) && !ToStringThrows(id)
    ensures Route(Parsed(ev)) == Handled([]) <==> !AsksForBid(s) && !AsksForSales(s)
    ensures Route(Parsed(ev)) == BadRequest <==> (AsksForBid(s) || AsksForSales(s)) && ToStringThrows(id)
  {
    ReplyToText(s);
    RouteIncomingText(ev, id);
    assert Post(id, BidForm()) != Post(id, SalesForm());
  }

  /** Any other event with a conversation id (another event type, an outgoing message,
      a message that is not plain text) is acknowledged without posting. */
  lemma OtherEventsIgnored(ev: Value)
    requires !Nullish(ev) && ResolveId(ev).Some?
    requires !IsEvent(ev, "conversation_created") && !IsIncomingText(ev)
    ensures Route(Parsed(ev)) == Handled([])
  {
  }

  /** The HTTP response: 200 "OK - No conversation ID", 200 "OK", or 400 "Bad Request". */
  function Respond(r: Outcome): (resp: Response)
    ensures resp.status == 400 <==> r.BadRequest?
    ensures resp.status == 200 <==> !r.BadRequest?
    ensures r.NoConversationId? <==> resp.text == "OK - No conversation ID"
    ensures r.NoConversationId? ==> resp == Response(200, "OK - No conversation ID")
    ensures r.Handled? ==> resp == Response(200, "OK")
    ensures r.BadRequest? ==> resp == Response(400, "Bad Request")
  {
    match r
    case NoConversationId => Response(200, "OK - No conversation ID")
    case Handled(_) => Response(200, "OK")
    case BadRequest => Response(400, "Bad Request")
  }
}
