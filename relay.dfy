/**
 * The conversation router: the socket handlers of the chat server, the deferred
 * bot reply and the REST state changes, over one in-memory state. Each handler
 * runs to completion before the next event is taken; outbound socket emits and
 * notification attempts are appended to `outbox`; timers armed by the bot wait
 * in `timers` until `FireBotTimer` runs the oldest. What the two notifiers then
 * send is modelled in module Notify.
 */
module Relay {
  import opened Wrappers
  import opened Registry
  import opened Store
  import BotResponder

  /** The cached `lastMessage` of a visitor entry; fields are `null` until a message passes. */
  datatype LastMessage = LastMessage(text: Option<string>, sender: Option<SenderType>)

  const NoMessage := LastMessage(None, None)

  /** An `onlineVisitors` entry; `isBotActive` is absent (falsy) until the bot or an agent sets it. */
  datatype VisitorInfo = VisitorInfo(visitorId: string, isBotActive: bool, lastMessage: LastMessage)

  /** An `onlineAgents` entry. */
  datatype AgentInfo = AgentInfo(agentId: string)

  /** The callback `handleBotAction` hands to `setTimeout`. */
  datatype BotTask = BotTask(visitorId: string, reply: string, conversationId: nat)

  /** What the relay emits; the comment says which connections receive it. */
  datatype Event =
    | ChatHistory(socketId: string, history: seq<Message>)          // the registering socket
    | VisitorListTo(socketId: string, visitors: seq<Slot<VisitorInfo>>)  // the registering agent socket
    | VisitorList(visitors: seq<Slot<VisitorInfo>>)                 // agents_room
    | AgentList(agents: seq<Slot<AgentInfo>>)                       // agents_room
    | VisitorMessageEvent(visitorId: string, text: string, isMuted: bool)  // agents_room
    | BotMessageEvent(visitorId: string, text: string)              // agents_room
    | AgentMessageEvent(visitorId: string, text: string, fromBot: bool)    // the visitor's room
    | TypingToVisitor(visitorId: string)                            // the visitor's room
    | TypingToAgents(visitorId: string)                             // agents_room
    | EmailRequested(visitorId: string, text: string)               // sendNotificationEmail called
    | WhatsAppRequested(visitorId: string, text: string)            // sendWhatsAppNotification called

  /** Position of the first registry entry whose visitor id is `visitorId` (`Object.keys(..).find`). */
  function FirstSocketOf(visitors: seq<Slot<VisitorInfo>>, visitorId: string): (o: Option<nat>)
    ensures o.Some? ==> o.value < |visitors| && visitors[o.value].value.visitorId == visitorId
    ensures o.Some? ==> forall j :: 0 <= j < o.value ==> visitors[j].value.visitorId != visitorId
    ensures o.None? ==> forall j :: 0 <= j < |visitors| ==> visitors[j].value.visitorId != visitorId
  {
    if visitors == [] then None
    else if visitors[0].value.visitorId == visitorId then Some(0)
    else match FirstSocketOf(visitors[1..], visitorId)
      case None => None
      case Some(i) => Some(i + 1)
  }

  /** The first entry of `visitorId`, if any, rewritten by `update`; everything else as before. */
  function UpdateFirstOf(visitors: seq<Slot<VisitorInfo>>, visitorId: string, isBotActive: bool, last: LastMessage): (r: seq<Slot<VisitorInfo>>)
    ensures |r| == |visitors| && forall j :: 0 <= j < |r| ==> r[j].key == visitors[j].key
    ensures FirstSocketOf(visitors, visitorId).None? ==> r == visitors
    ensures KeysDistinct(visitors) && FirstSocketOf(visitors, visitorId).Some? ==>
      var k := FirstSocketOf(visitors, visitorId).value;
      && r[k].value == visitors[k].value.(isBotActive := isBotActive, lastMessage := last)
      && forall j :: 0 <= j < |r| && j != k ==> r[j] == visitors[j]
  {
    match FirstSocketOf(visitors, visitorId)
    case None => visitors
    case Some(k) => Put(visitors, visitors[k].key, visitors[k].value.(isBotActive := isBotActive, lastMessage := last))
  }

  class Relay {
    var visitors: seq<Slot<VisitorInfo>>   // onlineVisitors
    var agents: seq<Slot<AgentInfo>>       // onlineAgents
    var bound: map<string, nat>            // socket.conversationId, per socket id
    var conversations: seq<Conversation>
    var messages: seq<Message>
    var timers: seq<BotTask>
    var outbox: seq<Event>

    ghost predicate Valid()
      reads this
    {
      && KeysDistinct(visitors)
      && KeysDistinct(agents)
      && Tables(conversations, messages)
      && KeySet(visitors) <= bound.Keys
      && (forall s :: s in bound ==> 1 <= bound[s] <= |conversations|)
      && (forall k :: 0 <= k < |timers| ==> 1 <= timers[k].conversationId <= |conversations|)
    }

    /** A relay started over existing tables, with nobody online. */
    constructor (conversations: seq<Conversation>, messages: seq<Message>)
      requires Tables(conversations, messages)
      ensures Valid()
      ensures this.conversations == conversations && this.messages == messages
      ensures visitors == [] && agents == [] && bound == map[] && timers == [] && outbox == []
    {
      this.conversations := conversations;
      this.messages := messages;
      visitors, agents, bound, timers, outbox := [], [], map[], [], [];
    }

    /** `register_visitor`: record the socket, reuse or open the visitor's conversation, bind it, send the history. */
    method RegisterVisitor(socketId: string, visitorId: string)
      requires Valid()
      modifies this
      ensures Valid()
      ensures visitors == Put(old(visitors), socketId, VisitorInfo(visitorId, false, NoMessage))
      ensures agents == old(agents) && messages == old(messages) && timers == old(timers)
      ensures match FindOpen(old(conversations), visitorId)
        case Some(i) => conversations == old(conversations) && bound == old(bound)[socketId := old(conversations)[i].id]
        case None =>
          && conversations == old(conversations) + [Conversation(|old(conversations)| + 1, visitorId, Open, false)]
          && bound == old(bound)[socketId := |old(conversations)| + 1]
      ensures var c := bound[socketId];
        && 1 <= c <= |conversations|
        && conversations[c - 1].visitorId == visitorId && conversations[c - 1].status == Open
      ensures outbox == old(outbox) + [ChatHistory(socketId, History(messages, bound[socketId])), VisitorList(visitors)]
    {
      PutKeepsDistinct(visitors, socketId, VisitorInfo(visitorId, false, NoMessage));
      PutKeySet(visitors, socketId, VisitorInfo(visitorId, false, NoMessage));
      visitors := Put(visitors, socketId, VisitorInfo(visitorId, false, NoMessage));
      var conversationId;
      match FindOpen(conversations, visitorId) {
        case None =>
          conversationId := |conversations| + 1;
          conversations := conversations + [Conversation(conversationId, visitorId, Open, false)];
        case Some(i) =>
          conversationId := conversations[i].id;
      }
      bound := bound[socketId := conversationId];
      outbox := outbox + [ChatHistory(socketId, History(messages, conversationId)), VisitorList(visitors)];
    }

    /** `register_agent`: record the agent socket, send it the visitor list, broadcast the agent list. */
    method RegisterAgent(socketId: string, agentId: string)
      requires Valid()
      modifies this`agents, this`outbox
      ensures Valid()
      ensures agents == Put(old(agents), socketId, AgentInfo(agentId))
      ensures outbox == old(outbox) + [VisitorListTo(socketId, visitors), AgentList(agents)]
    {
      PutKeepsDistinct(agents, socketId, AgentInfo(agentId));
      agents := Put(agents, socketId, AgentInfo(agentId));
      outbox := outbox + [VisitorListTo(socketId, visitors), AgentList(agents)];
    }

    /** The synchronous half of `handleBotAction`: pick the reply and arm its timer. */
    method HandleBotAction(visitorId: string, text: string, conversationId: nat)
      requires Valid() && 1 <= conversationId <= |conversations|
      modifies this`timers
      ensures Valid()
      ensures var reply := BotResponder.ReplyFor(text);
        timers == old(timers) + (if reply != "" then [BotTask(visitorId, reply, conversationId)] else [])
    {
      var responseText := BotResponder.MatchKeyword(text);
      if responseText != "" {
        timers := timers + [BotTask(visitorId, responseText, conversationId)];
      }
    }

    /** `visitor_message`: store the message, update the sender's entry, notify unless muted, try the bot. */
    method VisitorMessage(socketId: string, text: string)
      requires Valid()
      modifies this
      ensures Valid()
      ensures agents == old(agents) && conversations == old(conversations) && bound == old(bound)
      ensures Lookup(old(visitors), socketId).None? ==>
        visitors == old(visitors) && messages == old(messages) && timers == old(timers) && outbox == old(outbox)
      ensures Lookup(old(visitors), socketId).Some? ==>
        var entry := Lookup(old(visitors), socketId).value;
        var c := old(bound)[socketId];
        var muted := MutedOrFalse(old(conversations), c);
        var reply := BotResponder.ReplyFor(text);
        && messages == old(messages) + [Message(c, Visitor, text, false)]
        && visitors == Put(old(visitors), socketId, entry.(lastMessage := LastMessage(Some(text), Some(Visitor))))
        && outbox == old(outbox) + [VisitorList(visitors), VisitorMessageEvent(entry.visitorId, text, muted)]
                     + NotificationCalls(entry.visitorId, text, muted)
        && timers == old(timers) + (if reply != "" then [BotTask(entry.visitorId, reply, c)] else [])
    {
      match Lookup(visitors, socketId) {
        case None =>
        case Some(visitor) =>
          RecordVisitorMessage(socketId, visitor, text);
          HandleBotAction(visitor.visitorId, text, bound[socketId]);
      }
    }

    /** The part of `visitor_message` before the bot: store, update the entry, broadcast, notify. */
    method RecordVisitorMessage(socketId: string, visitor: VisitorInfo, text: string)
      requires Valid() && Lookup(visitors, socketId) == Some(visitor)
      modifies this`visitors, this`messages, this`outbox
      ensures Valid()
      ensures socketId in bound && 1 <= bound[socketId] <= |conversations|
      ensures var c := bound[socketId];
        var muted := MutedOrFalse(conversations, c);
        && messages == old(messages) + [Message(c, Visitor, text, false)]
        && visitors == Put(old(visitors), socketId, visitor.(lastMessage := LastMessage(Some(text), Some(Visitor))))
        && outbox == old(outbox) + [VisitorList(visitors), VisitorMessageEvent(visitor.visitorId, text, muted)]
                     + NotificationCalls(visitor.visitorId, text, muted)
    {
      assert socketId in KeySet(visitors) by {
        assert visitors[IndexOf(visitors, socketId).value].key == socketId;
      }
      var conversationId := bound[socketId];
      var isMuted := MutedOrFalse(conversations, conversationId);
      messages := messages + [Message(conversationId, Visitor, text, false)];
      var updated := visitor.(lastMessage := LastMessage(Some(text), Some(Visitor)));
      PutKeepsDistinct(visitors, socketId, updated);
      PutKeySet(visitors, socketId, updated);
      visitors := Put(visitors, socketId, updated);
      outbox := outbox + [VisitorList(visitors), VisitorMessageEvent(visitor.visitorId, text, isMuted)]
                + NotificationCalls(visitor.visitorId, text, isMuted);
    }

    /** `agent_message`: store it in the visitor's open conversation if there is one, then forward it regardless. */
    method AgentMessage(visitorId: string, text: string)
      requires Valid()
      modifies this`visitors, this`messages, this`outbox
      ensures Valid()
      ensures match FindOpen(conversations, visitorId)
        case None =>
          && messages == old(messages) && visitors == old(visitors)
          && outbox == old(outbox) + [AgentMessageEvent(visitorId, text, false)]
        case Some(i) =>
          && messages == old(messages) + [Message(conversations[i].id, Agent, text, false)]
          && visitors == UpdateFirstOf(old(visitors), visitorId, false, LastMessage(Some(text), Some(Agent)))
          && outbox == old(outbox)
             + (if FirstSocketOf(old(visitors), visitorId).Some? then [VisitorList(visitors)] else [])
             + [AgentMessageEvent(visitorId, text, false)]
    {
      match FindOpen(conversations, visitorId) {
        case None =>
        case Some(i) =>
          messages := messages + [Message(conversations[i].id, Agent, text, false)];
          MarkSocketOf(visitorId, false, LastMessage(Some(text), Some(Agent)));
      }
      outbox := outbox + [AgentMessageEvent(visitorId, text, false)];
    }

    /** Rewrite the first entry of `visitorId` and broadcast the list; nothing when the visitor is offline. */
    method MarkSocketOf(visitorId: string, isBotActive: bool, last: LastMessage)
      requires Valid()
      modifies this`visitors, this`outbox
      ensures Valid()
      ensures visitors == UpdateFirstOf(old(visitors), visitorId, isBotActive, last)
      ensures outbox == old(outbox) + (if FirstSocketOf(old(visitors), visitorId).Some? then [VisitorList(visitors)] else [])
    {
      match FirstSocketOf(visitors, visitorId)
      case None =>
      case Some(k) =>
        var key := visitors[k].key;
        var updated := visitors[k].value.(isBotActive := isBotActive, lastMessage := last);
        PutKeepsDistinct(visitors, key, updated);
        PutKeySet(visitors, key, updated);
        assert key in KeySet(visitors);
        visitors := Put(visitors, key, updated);
        outbox := outbox + [VisitorList(visitors)];
    }

    /** The `setTimeout` callback of the oldest armed bot reply. */
    method FireBotTimer()
      requires Valid()
      modifies this`visitors, this`messages, this`timers, this`outbox
      ensures Valid()
      ensures old(timers) == [] ==> visitors == old(visitors) && messages == old(messages) && timers == [] && outbox == old(outbox)
      ensures old(timers) != [] ==>
        var t := old(timers)[0];
        && timers == old(timers)[1..]
        && messages == old(messages) + [Message(t.conversationId, Bot, t.reply, false)]
        && visitors == UpdateFirstOf(old(visitors), t.visitorId, true, LastMessage(Some(t.reply), Some(Bot)))
        && outbox == old(outbox)
           + (if FirstSocketOf(old(visitors), t.visitorId).Some? then [VisitorList(visitors)] else [])
           + [AgentMessageEvent(t.visitorId, t.reply, true), BotMessageEvent(t.visitorId, t.reply)]
    {
      if timers != [] {
        var t := timers[0];
        timers := timers[1..];
        if t.conversationId != 0 {
          messages := messages + [Message(t.conversationId, Bot, t.reply, false)];
          MarkSocketOf(t.visitorId, true, LastMessage(Some(t.reply), Some(Bot)));
        }
        outbox := outbox + [AgentMessageEvent(t.visitorId, t.reply, true), BotMessageEvent(t.visitorId, t.reply)];
      }
    }

    /** `typing`: relay the indicator to the visitor's room or to the agents. */
    method Typing(isAgent: bool, visitorId: string)
      requires Valid()
      modifies this`outbox
      ensures Valid()
      ensures outbox == old(outbox) + [if isAgent then TypingToVisitor(visitorId) else TypingToAgents(visitorId)]
    {
      if isAgent {
        outbox := outbox + [TypingToVisitor(visitorId)];
      } else {
        outbox := outbox + [TypingToAgents(visitorId)];
      }
    }

    /** `disconnect`: drop the socket from both registries (absent keys are ignored) and broadcast both lists. */
    method Disconnect(socketId: string)
      requires Valid()
      modifies this`visitors, this`agents, this`outbox
      ensures Valid()
      ensures visitors == Delete(old(visitors), socketId) && agents == Delete(old(agents), socketId)
      ensures outbox == old(outbox) + [VisitorList(visitors), AgentList(agents)]
    {
      DeleteKeepsDistinct(visitors, socketId);
      DeleteKeepsDistinct(agents, socketId);
      DeleteKeySet(visitors, socketId);
      visitors := Delete(visitors, socketId);
      agents := Delete(agents, socketId);
      outbox := outbox + [VisitorList(visitors), AgentList(agents)];
    }

    /** `PUT /api/conversations/:id/mute`. */
    method ToggleMute(id: nat) returns (r: Result<bool, NotFound>)
      requires Valid()
      modifies this`conversations
      ensures Valid()
      ensures r.Err? <==> FindById(old(conversations), id).None?
      ensures r.Err? ==> conversations == old(conversations)
      ensures r.Ok? ==> var i := FindById(old(conversations), id).value;
        && r.value == !old(conversations)[i].isMuted
        && conversations == old(conversations)[i := old(conversations)[i].(isMuted := r.value)]
    {
      match Store.ToggleMute(conversations, id)
      case Err(e) =>
        r := Err(e);
      case Ok((convs, newMute)) =>
        conversations := convs;
        r := Ok(newMute);
    }

    /** `PUT /api/conversations/:id/read`. */
    method MarkRead(id: nat)
      requires Valid()
      modifies this`messages
      ensures Valid()
      ensures messages == Store.MarkRead(old(messages), id)
    {
      messages := Store.MarkRead(messages, id);
    }

    /** `GET /api/notifications/unread`. */
    method UnreadNotifications() returns (latest: seq<Message>, total: nat)
      requires Valid()
      ensures (latest, total) == UnreadSummary(messages, conversations)
      ensures total == |NotifiableSet(messages, conversations)|
      ensures |latest| <= 10 && forall m :: m in latest ==> Notifiable(m, conversations)
    {
      latest, total := UnreadSummary(messages, conversations).0, UnreadSummary(messages, conversations).1;
    }
  }

  /** The notifier calls of `visitor_message`: both when the conversation is not muted, none when it is. */
  function NotificationCalls(visitorId: string, text: string, isMuted: bool): (r: seq<Event>)
    ensures isMuted <==> r == []
    ensures forall e :: e in r ==> e == EmailRequested(visitorId, text) || e == WhatsAppRequested(visitorId, text)
    ensures !isMuted ==> |r| == 2 && r[0] == EmailRequested(visitorId, text) && r[1] == WhatsAppRequested(visitorId, text)
  {
    if isMuted then [] else [EmailRequested(visitorId, text), WhatsAppRequested(visitorId, text)]
  }

  /** Two tabs opened by one visitor are bound to the same conversation. */
  method TwoTabs(conversations: seq<Conversation>, messages: seq<Message>, tab1: string, tab2: string, visitorId: string)
    returns (first: nat, second: nat)
    requires Tables(conversations, messages)
    ensures first == second
    ensures 1 <= first <= |conversations| + 1
  {
    var relay := new Relay(conversations, messages);
    relay.RegisterVisitor(tab1, visitorId);
    first := relay.bound[tab1];
    FindOpenUnique(relay.conversations, visitorId, first - 1);
    relay.RegisterVisitor(tab2, visitorId);
    second := relay.bound[tab2];
  }

  /** A visitor asks for prices: the message is stored, and once the timer fires so is the price reply. */
  method PriceQuestion(conversations: seq<Conversation>, messages: seq<Message>, socketId: string, visitorId: string)
    returns (stored: seq<Message>)
    requires Tables(conversations, messages)
    ensures |stored| == 2
    ensures stored[0] == Message(stored[0].conversationId, Visitor, "Bonjour, prix svp", false)
    ensures stored[1] == Message(stored[0].conversationId, Bot, BotResponder.PrixReply, false)
  {
    var relay := new Relay(conversations, messages);
    relay.RegisterVisitor(socketId, visitorId);
    BotResponder.PrixBeforeBonjour();
    relay.VisitorMessage(socketId, "Bonjour, prix svp");
    relay.FireBotTimer();
    stored := relay.messages[|messages|..];
  }
}
