/** The handler on concrete webhook bodies. */
module Scenarios {
  import opened Js
  import opened Payloads
  import opened Webhook

  /** A `message_created` event for an incoming text message with the given content,
      whose conversation id is only in `message.conversation_id`. */
  function IncomingText(id: Value, content: Value): Value {
    Obj(map[
      "event" := Str("message_created"),
      "message" := Obj(map[
        "conversation_id" := id,
        "message_type" := Str("incoming"),
        "content_type" := Str("text"),
        "content" := content])])
  }

  /** The same event as `IncomingText(Num(7.0), content)`, for a message the bot itself sent. */
  function Outgoing(content: Value): Value {
    Obj(map[
      "event" := Str("message_created"),
      "message" := Obj(map[
        "conversation_id" := Num(7.0),
        "message_type" := Str("outgoing"),
        "content_type" := Str("text"),
        "content" := content])])
  }

  lemma NewConversationGetsWelcomeCard()
    ensures Route(Parsed(Obj(map[
      "event" := Str("conversation_created"),
      "conversation" := Obj(map["id" := Num(42.0)])])))
      == Handled([Post(Num(42.0), InitialChoices())])
  {
  }

  /** An event without any of the four id locations is acknowledged, whatever it is. */
  lemma MissingIdIsAcknowledged()
    ensures Route(Parsed(Obj(map["event" := Str("message_created")]))) == NoConversationId
    ensures Respond(Route(Parsed(Obj(map["event" := Str("message_created")]))))
      == Response(200, "OK - No conversation ID")
  {
  }

  /** `conversation.id` is 0 and `data.id` is "": both are skipped by `||`. */
  lemma FalsyIdsAreSkipped()
    ensures ResolveId(Obj(map[
      "conversation" := Obj(map["id" := Num(0.0)]),
      "data" := Obj(map["id" := Str(""), "conversation_id" := Num(9.0)]),
      "message" := Obj(map["conversation_id" := Null])]))
      == Some(Num(9.0))
  {
  }

  /** An `IncomingText` event is routed as an incoming text, to its id. */
  lemma IncomingTextIsRouted(id: Value, content: Value)
    requires Truthy(id)
    ensures ResolveId(IncomingText(id, content)) == Some(id)
    ensures IsIncomingText(IncomingText(id, content)) && UserInput(IncomingText(id, content)) == content
  {
    assert Probes(IncomingText(id, content))[2] == id;
  }

  /** The outcome of an `IncomingText` event whose content is the string `s`. */
  lemma IncomingTextGets(id: Value, s: string)
    requires Truthy(id)
    ensures var r := Route(Parsed(IncomingText(id, Str(s))));
      && (AsksForBid(s) && !ToStringThrows(id) ==> r == Handled([Post(id, BidForm())]))
      && (!AsksForBid(s) && AsksForSales(s) && !ToStringThrows(id) ==> r == Handled([Post(id, SalesForm())]))
      && (!AsksForBid(s) && !AsksForSales(s) ==> r == Handled([]))
      && ((AsksForBid(s) || AsksForSales(s)) && ToStringThrows(id) ==> r == BadRequest)
  {
    IncomingTextIsRouted(id, Str(s));
    IncomingTextReply(IncomingText(id, Str(s)), id, s);
  }

  /** The outcome of an `IncomingText` event whose content is not a string. */
  lemma NonStringContentGets(id: Value, content: Value)
    requires Truthy(id) && !content.Str?
    ensures Route(Parsed(IncomingText(id, content))) == BadRequest
  {
    IncomingTextIsRouted(id, content);
    RouteIncomingText(IncomingText(id, content), id);
  }

  lemma PhraseInAnyCaseGetsBidForm()
    ensures Route(Parsed(IncomingText(Num(7.0), Str("MAKE A Bid")))) == Handled([Post(Num(7.0), BidForm())])
  {
    var s := "MAKE A Bid";
    assert AsksForBid(s) by {
      assert EqualsIgnoringCase(s, "make a bid");
    }
    IncomingTextGets(Num(7.0), s);
  }

  lemma CheckSalesGetsSalesForm()
    ensures Route(Parsed(IncomingText(Num(7.0), Str("Check Sales")))) == Handled([Post(Num(7.0), SalesForm())])
  {
    var s := "Check Sales";
    assert !AsksForBid(s) by {
      assert |s| != |"make a bid"| && |s| != |"ACTION_BID"|;
    }
    assert AsksForSales(s) by {
      assert EqualsIgnoringCase(s, "check sales");
    }
    IncomingTextGets(Num(7.0), s);
  }

  /** The action codes are compared exactly: in lower case an action code is ordinary text. */
  lemma LowerCaseActionCodeGetsNothing()
    ensures Route(Parsed(IncomingText(Num(7.0), Str("action_bid")))) == Handled([])
  {
    var s := "action_bid";
    assert !AsksForBid(s) by {
      assert !SpellsLower(s[0], "make a bid"[0]);
    }
    assert !AsksForSales(s) by {
      assert |s| != |"check sales"|;
    }
    IncomingTextGets(Num(7.0), s);
  }

  lemma SalesActionCodeGetsSalesForm()
    ensures Route(Parsed(IncomingText(Num(7.0), Str("ACTION_SALES")))) == Handled([Post(Num(7.0), SalesForm())])
  {
    var s := "ACTION_SALES";
    assert !AsksForBid(s) by {
      assert |s| != |"make a bid"| && |s| != |"ACTION_BID"|;
    }
    assert AsksForSales(s);
    IncomingTextGets(Num(7.0), s);
  }

  /** `content` missing or not a string: `toLowerCase` throws and the request is rejected. */
  lemma NonStringContentIsBadRequest()
    ensures Route(Parsed(IncomingText(Num(7.0), Undefined))) == BadRequest
    ensures Route(Parsed(IncomingText(Num(7.0), Num(1.0)))) == BadRequest
    ensures Respond(Route(Parsed(IncomingText(Num(7.0), Undefined)))) == Response(400, "Bad Request")
  {
    NonStringContentGets(Num(7.0), Undefined);
    NonStringContentGets(Num(7.0), Num(1.0));
  }

  /** The body `null` parses, but reading `eventData.conversation` on it throws. */
  lemma NullBodyIsBadRequest()
    ensures Route(Parsed(Null)) == BadRequest
  {
  }

  /** An outgoing message is acknowledged without reply, even when it is an action code. */
  lemma OutgoingMessageGetsNothing()
    ensures Route(Parsed(Outgoing(Str("ACTION_BID")))) == Handled([])
  {
    var ev := Outgoing(Str("ACTION_BID"));
    assert Probes(ev)[2] == Num(7.0);
    assert OptProp(Prop(ev, "message"), "message_type") == Str("outgoing");
    assert !IsIncomingText(ev) && !IsEvent(ev, "conversation_created");
    OtherEventsIgnored(ev);
  }

  /** An id that is an object with its own `toString` key cannot be logged: the welcome
      card is not posted and the request is answered 400. */
  lemma UnprintableIdRejectsWelcome()
    ensures Route(Parsed(Obj(map[
      "event" := Str("conversation_created"),
      "conversation" := Obj(map["id" := Obj(map["toString" := Num(0.0)])])])))
      == BadRequest
  {
  }

  /** An array holding an object with its own `toString` key cannot be logged either:
      the bid form is not posted and the request is answered 400. */
  lemma UnprintableIdRejectsBidForm()
    ensures Route(Parsed(IncomingText(Arr([Num(1.0), Obj(map["toString" := Null])]), Str("ACTION_BID"))))
      == BadRequest
  {
    var id := Arr([Num(1.0), Obj(map["toString" := Null])]);
    assert ToStringThrows(id) by {
      assert ToStringThrows(id.elems[1]);
    }
    assert AsksForBid("ACTION_BID");
    IncomingTextGets(id, "ACTION_BID");
  }

  /** An array of numbers converts to a string ("1,2"), so it is a usable id. */
  lemma ArrayIdGetsBidForm()
    ensures Route(Parsed(IncomingText(Arr([Num(1.0), Num(2.0)]), Str("ACTION_BID"))))
      == Handled([Post(Arr([Num(1.0), Num(2.0)]), BidForm())])
  {
    var id := Arr([Num(1.0), Num(2.0)]);
    assert !ToStringThrows(id) by {
      forall i | 0 <= i < |id.elems| ensures !ToStringThrows(id.elems[i]) {
      }
    }
    assert AsksForBid("ACTION_BID");
    IncomingTextGets(id, "ACTION_BID");
  }
}
