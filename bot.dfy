/**
 * The keyword auto-responder of the relay: a fixed table of lower-case keys,
 * searched in declaration order against the lower-cased visitor text; the first
 * key found as a substring picks the canned reply.
 */
module BotResponder {
  import opened Wrappers
  import opened Text

  datatype Entry = Entry(key: string, reply: string)

  const PrixReply := "Le service de base asad.to est 100% gratuit à vie ! Nous proposons des options premium pour la personnalisation avancée."
  const ContactReply := "Vous pouvez nous contacter à support@asad.to ou appeler notre bureau à Bourg-la-Reine."
  const AideReply := "Je peux vous aider à configurer votre widget, gérer vos agents ou personnaliser vos réponses automatiques."
  const BonjourReply := "Bonjour ! Je suis l'assistant asad.to (Bourg-la-Reine). Comment puis-je vous aider ?"
  const HelloReply := "Hi! I am the asad.to assistant. How can I help you today?"

  /** `botResponses`, in the order its keys are enumerated by `for ... in`. */
  const Responses: seq<Entry> := [
    Entry("prix", PrixReply),
    Entry("contact", ContactReply),
    Entry("aide", AideReply),
    Entry("bonjour", BonjourReply),
    Entry("hello", HelloReply)
  ]

  /** Position of the first entry of `table` whose key occurs in `lowerText`. */
  function FirstMatch(table: seq<Entry>, lowerText: string): (o: Option<nat>)
    ensures o.Some? ==> o.value < |table| && Contains(lowerText, table[o.value].key)
    ensures o.Some? ==> forall j :: 0 <= j < o.value ==> !Contains(lowerText, table[j].key)
    ensures o.None? ==> forall j :: 0 <= j < |table| ==> !Contains(lowerText, table[j].key)
  {
    if table == [] then None
    else if Contains(lowerText, table[0].key) then Some(0)
    else match FirstMatch(table[1..], lowerText)
      case None => None
      case Some(i) => Some(i + 1)
  }

  /** The reply `handleBotAction` settles on for `text`; "" when no key matches. */
  function ReplyFor(text: string): (r: string)
    ensures r != "" <==> exists j :: 0 <= j < |Responses| && Contains(ToLower(text), Responses[j].key)
    ensures r != "" ==> exists j :: 0 <= j < |Responses| && r == Responses[j].reply && Contains(ToLower(text), Responses[j].key)
  {
    assert forall j :: 0 <= j < |Responses| ==> |Responses[j].reply| > 0;
    match FirstMatch(Responses, ToLower(text))
    case None => ""
    case Some(i) => Responses[i].reply
  }

  /** The keyword loop of `handleBotAction`: first hit in table order, then `break`. */
  method MatchKeyword(text: string) returns (responseText: string)
    ensures responseText == ReplyFor(text)
  {
    var lowerText := ToLower(text);
    responseText := "";
    var i := 0;
    while i < |Responses|
      invariant 0 <= i <= |Responses|
      invariant responseText == ""
      invariant forall j :: 0 <= j < i ==> !Contains(lowerText, Responses[j].key)
    {
      if Contains(lowerText, Responses[i].key) {
        responseText := Responses[i].reply;
        break;
      }
      i := i + 1;
    }
  }

  /** When it fires, the reply belongs to the first key of the table found in the text. */
  lemma ReplyIsFirstKey(text: string, j: nat)
    requires j < |Responses| && Contains(ToLower(text), Responses[j].key)
    requires forall i :: 0 <= i < j ==> !Contains(ToLower(text), Responses[i].key)
    ensures ReplyFor(text) == Responses[j].reply
  {
  }

  /** "Bonjour, prix svp" holds two keys; "prix" comes first in the table and wins. */
  lemma PrixBeforeBonjour()
    ensures ReplyFor("Bonjour, prix svp") == PrixReply
  {
    var lower := ToLower("Bonjour, prix svp");
    assert lower[9..13] == "prix";
    assert OccursAt(lower, "prix", 9);
  }
}
