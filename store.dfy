/**
 * The `conversations` and `messages` tables as the relay and its REST endpoints
 * use them. Rows are kept in insertion order; conversation ids are the
 * auto-increment ids the database hands out, starting at 1.
 */
module Store {
  import opened Wrappers

  /** `sender_type` of a message row. */
  datatype SenderType = Visitor | Agent | Bot

  /** A `messages` row; `is_read` defaults to FALSE when the row is inserted. */
  datatype Message = Message(conversationId: nat, sender: SenderType, content: string, isRead: bool)

  /** A `conversations` row; `status` defaults to "open" and `is_muted` to FALSE. */
  datatype Conversation = Conversation(id: nat, visitorId: string, status: string, isMuted: bool)

  const Open := "open"

  datatype NotFound = ConversationNotFound

  /** Row `i` has id `i + 1`, as handed out by AUTO_INCREMENT on an empty table. */
  ghost predicate IdsSequential(convs: seq<Conversation>) {
    forall i :: 0 <= i < |convs| ==> convs[i].id == i + 1
  }

  /** At most one open conversation per visitor id. */
  ghost predicate AtMostOneOpen(convs: seq<Conversation>) {
    forall i, j :: 0 <= i < j < |convs| && convs[i].status == Open && convs[j].status == Open ==>
      convs[i].visitorId != convs[j].visitorId
  }

  /** Every message belongs to a conversation that exists. */
  ghost predicate MessagesOwned(msgs: seq<Message>, convs: seq<Conversation>) {
    forall i :: 0 <= i < |msgs| ==> 1 <= msgs[i].conversationId <= |convs|
  }

  ghost predicate Tables(convs: seq<Conversation>, msgs: seq<Message>) {
    IdsSequential(convs) && AtMostOneOpen(convs) && MessagesOwned(msgs, convs)
  }

  /** Row position of the conversation `WHERE id = ?`. */
  function FindById(convs: seq<Conversation>, id: nat): (o: Option<nat>)
    ensures o.Some? ==> o.value < |convs| && convs[o.value].id == id
    ensures o.Some? ==> forall j :: 0 <= j < o.value ==> convs[j].id != id
    ensures o.None? ==> forall j :: 0 <= j < |convs| ==> convs[j].id != id
  {
    if convs == [] then None
    else if convs[0].id == id then Some(0)
    else match FindById(convs[1..], id)
      case None => None
      case Some(i) => Some(i + 1)
  }

  /** With sequential ids, id `c` is found exactly when `1 <= c <= |convs|`, at row `c - 1`. */
  lemma FindByIdSequential(convs: seq<Conversation>, id: nat)
    requires IdsSequential(convs)
    ensures FindById(convs, id) == if 1 <= id <= |convs| then Some(id - 1) else None
  {
    if 1 <= id <= |convs| {
      assert convs[id - 1].id == id;
    }
  }

  /** Row position of the first conversation `WHERE visitor_id = ? AND status = "open"`. */
  function FindOpen(convs: seq<Conversation>, visitorId: string): (o: Option<nat>)
    ensures o.Some? ==> o.value < |convs| && convs[o.value].visitorId == visitorId && convs[o.value].status == Open
    ensures o.None? ==> forall j :: 0 <= j < |convs| ==> !(convs[j].visitorId == visitorId && convs[j].status == Open)
  {
    if convs == [] then None
    else if convs[0].visitorId == visitorId && convs[0].status == Open then Some(0)
    else match FindOpen(convs[1..], visitorId)
      case None => None
      case Some(i) => Some(i + 1)
  }

  /** With at most one open conversation per visitor, the lookup finds THE open one. */
  lemma FindOpenUnique(convs: seq<Conversation>, visitorId: string, j: nat)
    requires AtMostOneOpen(convs)
    requires j < |convs| && convs[j].visitorId == visitorId && convs[j].status == Open
    ensures FindOpen(convs, visitorId) == Some(j)
  {
  }

  /** `is_muted` as the socket handler reads it: a missing conversation counts as unmuted. */
  function MutedOrFalse(convs: seq<Conversation>, id: nat): (b: bool)
    ensures b ==> exists i :: 0 <= i < |convs| && convs[i].id == id && convs[i].isMuted
    ensures (forall i :: 0 <= i < |convs| ==> convs[i].id != id) ==> !b
    ensures FindById(convs, id).Some? ==> b == convs[FindById(convs, id).value].isMuted
  {
    match FindById(convs, id)
    case None => false
    case Some(i) => convs[i].isMuted
  }

  /** Messages of a conversation in creation order (`ORDER BY created_at ASC`). */
  function History(msgs: seq<Message>, convId: nat): (h: seq<Message>)
    ensures |h| <= |msgs|
    ensures forall m :: m in h <==> m in msgs && m.conversationId == convId
  {
    if msgs == [] then []
    else
      var rest := History(msgs[..|msgs| - 1], convId);
      var last := msgs[|msgs| - 1];
      assert msgs == msgs[..|msgs| - 1] + [last];
      if last.conversationId == convId then rest + [last] else rest
  }

  /** Appending a message extends its own conversation's history by exactly that message. */
  lemma HistoryAppend(msgs: seq<Message>, m: Message, convId: nat)
    ensures History(msgs + [m], convId) == History(msgs, convId) + (if m.conversationId == convId then [m] else [])
  {
    assert (msgs + [m])[..|msgs|] == msgs;
  }

  /** `UPDATE messages SET is_read = TRUE WHERE conversation_id = ? AND sender_type = "visitor"`. */
  function MarkRead(msgs: seq<Message>, convId: nat): (r: seq<Message>)
    ensures |r| == |msgs|
    ensures forall i :: 0 <= i < |r| ==> r[i] == msgs[i].(isRead := r[i].isRead)
    ensures forall i :: 0 <= i < |r| ==> r[i].isRead == (msgs[i].isRead || (msgs[i].conversationId == convId && msgs[i].sender == Visitor))
  {
    seq(|msgs|, i requires 0 <= i < |msgs| =>
      if msgs[i].conversationId == convId && msgs[i].sender == Visitor then msgs[i].(isRead := true) else msgs[i])
  }

  /** Only visitor rows of the conversation change; agent and bot rows keep their flag. */
  lemma MarkReadOnlyVisitorRows(msgs: seq<Message>, convId: nat, i: nat)
    requires i < |msgs|
    requires msgs[i].sender != Visitor || msgs[i].conversationId != convId
    ensures MarkRead(msgs, convId)[i] == msgs[i]
  {
  }

  lemma MarkReadIdempotent(msgs: seq<Message>, convId: nat)
    ensures MarkRead(MarkRead(msgs, convId), convId) == MarkRead(msgs, convId)
  {
  }

  /** Toggle `is_muted` of conversation `id`; the new flag is returned with the new table. */
  function ToggleMute(convs: seq<Conversation>, id: nat): (r: Result<(seq<Conversation>, bool), NotFound>)
    ensures r.Err? <==> FindById(convs, id).None?
    ensures r.Ok? ==> var i := FindById(convs, id).value;
      r.value.1 == !convs[i].isMuted && r.value.0 == convs[i := convs[i].(isMuted := r.value.1)]
  {
    match FindById(convs, id)
    case None => Err(ConversationNotFound)
    case Some(i) =>
      var newMute := !convs[i].isMuted;
      Ok((convs[i := convs[i].(isMuted := newMute)], newMute))
  }

  /** Two toggles in a row restore the table and answer the original flag. */
  lemma ToggleMuteTwice(convs: seq<Conversation>, id: nat)
    requires FindById(convs, id).Some?
    ensures var once := ToggleMute(convs, id).value;
      var twice := ToggleMute(once.0, id);
      twice.Ok? && twice.value.0 == convs && twice.value.1 == convs[FindById(convs, id).value].isMuted
  {
    var i := FindById(convs, id).value;
    var once := ToggleMute(convs, id).value;
    assert forall j :: 0 <= j < |once.0| ==> once.0[j].id == convs[j].id;
    assert FindById(once.0, id) == Some(i) by {
      var o := FindById(once.0, id);
      assert o.Some? ==> o.value >= i;
      assert once.0[i].id == id;
    }
  }

  /** A message the unread badge counts: unread, sent by a visitor, in an unmuted conversation that exists. */
  predicate Notifiable(m: Message, convs: seq<Conversation>)
    ensures Notifiable(m, convs) <==>
      && m.sender == Visitor && !m.isRead
      && (exists c :: 0 <= c < |convs| && convs[c].id == m.conversationId)
      && !MutedOrFalse(convs, m.conversationId)
  {
    m.sender == Visitor && !m.isRead &&
    match FindById(convs, m.conversationId)
    case None => false
    case Some(c) => !convs[c].isMuted
  }

  /** Positions of the counted messages, newest first (`ORDER BY created_at DESC`). */
  function UnreadPositions(msgs: seq<Message>, convs: seq<Conversation>): (r: seq<nat>)
    ensures forall k :: 0 <= k < |r| ==> r[k] < |msgs| && Notifiable(msgs[r[k]], convs)
    ensures forall i :: 0 <= i < |msgs| && Notifiable(msgs[i], convs) ==> i in r
    ensures forall k, l :: 0 <= k < l < |r| ==> r[k] > r[l]
  {
    if msgs == [] then []
    else
      var n := |msgs| - 1;
      var rest := UnreadPositions(msgs[..n], convs);
      if Notifiable(msgs[n], convs) then [n] + rest else rest
  }

  /** The badge endpoint: at most 10 newest counted messages, and the count of all of them. */
  function UnreadSummary(msgs: seq<Message>, convs: seq<Conversation>): (r: (seq<Message>, nat))
    ensures r.1 == |NotifiableSet(msgs, convs)|
    ensures |r.0| == (if r.1 <= 10 then r.1 else 10) && |r.0| <= |UnreadPositions(msgs, convs)|
    ensures forall k :: 0 <= k < |r.0| ==>
      r.0[k] == msgs[UnreadPositions(msgs, convs)[k]] && Notifiable(r.0[k], convs)
    ensures forall k, l :: 0 <= k < l < |r.0| ==> UnreadPositions(msgs, convs)[k] > UnreadPositions(msgs, convs)[l]
  {
    UnreadTotalCounts(msgs, convs);
    var pos := UnreadPositions(msgs, convs);
    var n := if |pos| <= 10 then |pos| else 10;
    (seq(n, k requires 0 <= k < n => msgs[pos[k]]), |pos|)
  }

  /** The set of counted message positions, defined independently of the newest-first scan. */
  ghost function NotifiableSet(msgs: seq<Message>, convs: seq<Conversation>): set<int> {
    set i | 0 <= i < |msgs| && Notifiable(msgs[i], convs)
  }

  /** The values a sequence of positions holds. */
  ghost function Elems(s: seq<int>): set<int> {
    if s == [] then {} else {s[0]} + Elems(s[1..])
  }

  lemma {:induction false} ElemsMembers(s: seq<int>, x: int)
    ensures x in Elems(s) <==> x in s
  {
    if s != [] {
      ElemsMembers(s[1..], x);
      assert s == [s[0]] + s[1..];
    }
  }

  lemma {:induction false} ElemsBelow(s: seq<int>, b: int)
    requires forall k :: 0 <= k < |s| ==> s[k] < b
    ensures b !in Elems(s)
  {
    if s != [] {
      ElemsBelow(s[1..], b);
    }
  }

  /** A strictly decreasing sequence has as many elements as its set of values. */
  lemma {:induction false} DecreasingCard(s: seq<int>)
    requires forall k, l :: 0 <= k < l < |s| ==> s[k] > s[l]
    ensures |Elems(s)| == |s|
  {
    if s != [] {
      DecreasingCard(s[1..]);
      ElemsBelow(s[1..], s[0]);
    }
  }

  /** `total` is the number of counted messages. */
  lemma UnreadTotalCounts(msgs: seq<Message>, convs: seq<Conversation>)
    ensures |UnreadPositions(msgs, convs)| == |NotifiableSet(msgs, convs)|
  {
    var pos: seq<int> := UnreadPositions(msgs, convs);
    DecreasingCard(pos);
    forall x ensures x in Elems(pos) <==> x in NotifiableSet(msgs, convs) {
      ElemsMembers(pos, x);
    }
    assert Elems(pos) == NotifiableSet(msgs, convs);
  }

  /** After mark-read, no visitor message of that conversation is counted any more. */
  lemma MarkReadClearsBadge(msgs: seq<Message>, convs: seq<Conversation>, convId: nat)
    ensures forall k :: 0 <= k < |UnreadPositions(MarkRead(msgs, convId), convs)| ==>
      MarkRead(msgs, convId)[UnreadPositions(MarkRead(msgs, convId), convs)[k]].conversationId != convId
  {
  }

  /** Mark-read of one conversation leaves every other conversation's counted messages as they were. */
  lemma MarkReadKeepsOthers(msgs: seq<Message>, convs: seq<Conversation>, convId: nat, i: nat)
    requires i < |msgs| && msgs[i].conversationId != convId
    ensures Notifiable(MarkRead(msgs, convId)[i], convs) == Notifiable(msgs[i], convs)
  {
  }

  /** Messages of a muted conversation are never counted. */
  lemma MutedNotCounted(msgs: seq<Message>, convs: seq<Conversation>, i: nat)
    requires i < |msgs|
    requires MutedOrFalse(convs, msgs[i].conversationId)
    ensures i !in NotifiableSet(msgs, convs)
  {
  }
}
