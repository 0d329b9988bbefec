/**
 * The contacts page: the search over the visitor cards and the session
 * counter under each card.
 */
module Contacts {
  import opened Wrappers
  import opened Text
  import opened Lists

  /** A visitor card; `name` and `email` may be null. */
  datatype Contact = Contact(visitorId: string, name: Option<string>, email: Option<string>, sessions: nat)

  /** A nullable string used as a condition: present and non-empty. */
  predicate Truthy(s: Option<string>) {
    s.Some? && s.value != ""
  }

  /** `s.toLowerCase().includes(term.toLowerCase())` for a nullable `s`, false when `s` is falsy. */
  predicate ContainsIgnoringCase(s: Option<string>, term: string) {
    Truthy(s) && Contains(ToLower(s.value), ToLower(term))
  }

  /** The search test of one card: name or email without case, visitor id with case. */
  predicate Matches(c: Contact, term: string) {
    ContainsIgnoringCase(c.name, term) || ContainsIgnoringCase(c.email, term) || Contains(c.visitorId, term)
  }

  /** `filtered`: the cards the search box lets through, in list order. */
  function Search(contacts: seq<Contact>, term: string): (r: seq<Contact>)
    ensures Subseq(r, contacts)
    ensures forall i :: 0 <= i < |r| ==> r[i] in contacts && Matches(r[i], term)
    ensures forall i :: 0 <= i < |contacts| && Matches(contacts[i], term) ==> contacts[i] in r
    ensures forall c :: multiset(r)[c] == if Matches(c, term) then multiset(contacts)[c] else 0
  {
    var hit := (c: Contact) => Matches(c, term);
    FilterSpec(contacts, hit);
    FilterCounts(contacts, hit);
    Filter(contacts, hit)
  }

  /** An empty search box lists every card: each visitor id contains the empty string. */
  lemma SearchEmpty(contacts: seq<Contact>)
    ensures Search(contacts, "") == contacts
  {
    forall i | 0 <= i < |contacts|
      ensures Matches(contacts[i], "")
    {
      ContainsEmpty(contacts[i].visitorId);
    }
    FilterAll(contacts, (c: Contact) => Matches(c, ""));
  }

  /** A card without an email is found only through its name or its visitor id. */
  lemma NoEmailMatches(c: Contact, term: string)
    requires c.email.None?
    ensures Matches(c, term) <==> ContainsIgnoringCase(c.name, term) || Contains(c.visitorId, term)
  {
  }

  /** Case is ignored for the name: a name found with one term is found with its lower-cased form. */
  lemma {:induction false} NameIgnoresCase(c: Contact, term: string)
    requires ContainsIgnoringCase(c.name, term)
    ensures Matches(c, ToLower(term))
  {
    LowerIdempotent(term);
  }

  lemma LowerIdempotent(s: string)
    ensures ToLower(ToLower(s)) == ToLower(s)
  {
  }

  /** A card whose own visitor id is typed in is always found. */
  lemma FindsOwnVisitorId(c: Contact)
    ensures Matches(c, c.visitorId)
  {
    ContainsSelf(c.visitorId);
  }

  /** `{sessions} session{sessions > 1 ? 's' : ''}`. */
  function SessionLabel(sessions: nat): (s: string)
    ensures |s| == |NatToString(sessions)| + (if sessions > 1 then 9 else 8)
    ensures s[..|NatToString(sessions)|] == NatToString(sessions)
    ensures s[|NatToString(sessions)|..|NatToString(sessions)| + 8] == " session"
    ensures s[|s| - 1] == 's' <==> sessions > 1
  {
    NatToString(sessions) + " session" + (if sessions > 1 then "s" else "")
  }
}
