/**
 * The quick-replies page: a list of macros keyed by id, a search box, and an
 * edit form that either replaces the macro carrying the form's id or appends
 * a new one stamped with the current time.
 */
module QuickReplies {
  import opened Wrappers
  import opened Text
  import opened Lists

  /** A stored macro. */
  datatype Reply = Reply(id: int, shortcut: string, text: string)

  /** The form's contents; `id` is absent for a macro not yet saved. */
  datatype Draft = Draft(id: Option<int>, shortcut: string, text: string)

  /** The form after a save: no id, both fields empty. */
  const Blank := Draft(None, "", "")

  /** The form "Nouvelle Réponse" opens: no id, the shortcut primed with a slash. */
  const NewDraft := Draft(None, "/", "")

  /** The three macros the page starts with. */
  const Initial := [
    Reply(1, "/bonjour", "Bonjour ! Comment puis-je vous aider aujourd'hui ?"),
    Reply(2, "/au_revoir", "Merci de nous avoir contactés. Bonne journée !"),
    Reply(3, "/attente", "Je vérifie cela pour vous, un instant s'il vous plaît.")
  ]

  /** `if (currentReply.id)`: an id is present and is not the falsy 0. */
  predicate HasId(d: Draft) {
    d.id.Some? && d.id.value != 0
  }

  /** The macro a draft with an id stands for. */
  function AsReply(d: Draft): Reply
    requires d.id.Some?
  {
    Reply(d.id.value, d.shortcut, d.text)
  }

  /** The draft the edit button fills from a listed macro. */
  function DraftOf(r: Reply): (d: Draft)
    ensures d.id.Some? && AsReply(d) == r
  {
    Draft(Some(r.id), r.shortcut, r.text)
  }

  /** `replies.map(r => r.id === x.id ? x : r)`. */
  function ReplaceById(rs: seq<Reply>, x: Reply): (r: seq<Reply>)
    ensures |r| == |rs|
    ensures forall i :: 0 <= i < |rs| && rs[i].id == x.id ==> r[i] == x
    ensures forall i :: 0 <= i < |rs| && rs[i].id != x.id ==> r[i] == rs[i]
  {
    if rs == [] then []
    else [if rs[0].id == x.id then x else rs[0]] + ReplaceById(rs[1..], x)
  }

  /** `replies.filter(r => r.id !== id)`. */
  function RemoveById(rs: seq<Reply>, id: int): (r: seq<Reply>)
    ensures Subseq(r, rs)
    ensures forall i :: 0 <= i < |r| ==> r[i].id != id && r[i] in rs
    ensures forall i :: 0 <= i < |rs| && rs[i].id != id ==> rs[i] in r
  {
    var keep := (x: Reply) => x.id != id;
    FilterSpec(rs, keep);
    Filter(rs, keep)
  }

  /** The search test: the term occurs, with case, in the shortcut or in the text. */
  predicate Matches(r: Reply, term: string) {
    Contains(r.shortcut, term) || Contains(r.text, term)
  }

  /** `filtered`: the macros the search box lets through, in list order. */
  function Search(rs: seq<Reply>, term: string): (r: seq<Reply>)
    ensures Subseq(r, rs)
    ensures forall i :: 0 <= i < |r| ==> r[i] in rs && Matches(r[i], term)
    ensures forall i :: 0 <= i < |rs| && Matches(rs[i], term) ==> rs[i] in r
    ensures forall x :: multiset(r)[x] == if Matches(x, term) then multiset(rs)[x] else 0
  {
    var hit := (x: Reply) => Matches(x, term);
    FilterSpec(rs, hit);
    FilterCounts(rs, hit);
    Filter(rs, hit)
  }

  /** An empty search box lists every macro. */
  lemma SearchEmpty(rs: seq<Reply>)
    ensures Search(rs, "") == rs
  {
    forall i | 0 <= i < |rs|
      ensures Matches(rs[i], "")
    {
      ContainsEmpty(rs[i].shortcut);
    }
    FilterAll(rs, (x: Reply) => Matches(x, ""));
  }

  /** Saving an edit keeps the ids in place, so saving it again changes nothing. */
  lemma {:induction false} ReplaceByIdIdempotent(rs: seq<Reply>, x: Reply)
    ensures ReplaceById(ReplaceById(rs, x), x) == ReplaceById(rs, x)
  {
    if rs != [] {
      ReplaceByIdIdempotent(rs[1..], x);
      assert ReplaceById(rs, x)[1..] == ReplaceById(rs[1..], x);
    }
  }

  /** Deleting after an edit of the same id is deleting alone: the edit leaves no trace. */
  lemma {:induction false} DeleteAfterReplace(rs: seq<Reply>, x: Reply)
    ensures RemoveById(ReplaceById(rs, x), x.id) == RemoveById(rs, x.id)
  {
    if rs != [] {
      DeleteAfterReplace(rs[1..], x);
      var head := if rs[0].id == x.id then x else rs[0];
      assert ReplaceById(rs, x) == [head] + ReplaceById(rs[1..], x);
      assert rs == [rs[0]] + rs[1..];
      FilterAppend([head], ReplaceById(rs[1..], x), (y: Reply) => y.id != x.id);
      FilterAppend([rs[0]], rs[1..], (y: Reply) => y.id != x.id);
    }
  }

  /** A macro appended under a fresh id and then deleted leaves the list as it was. */
  lemma AppendThenDelete(rs: seq<Reply>, x: Reply)
    requires forall i :: 0 <= i < |rs| ==> rs[i].id != x.id
    ensures RemoveById(rs + [x], x.id) == rs
  {
    var keep := (y: Reply) => y.id != x.id;
    FilterAppend(rs, [x], keep);
    FilterAll(rs, keep);
    assert Filter([x], keep) == [];
  }

  /** The page's state. */
  class QuickRepliesPage {
    var replies: seq<Reply>
    var searchTerm: string
    var isEditing: bool
    var currentReply: Draft

    constructor ()
      ensures replies == Initial && searchTerm == "" && !isEditing && currentReply == Blank
    {
      replies := Initial;
      searchTerm := "";
      isEditing := false;
      currentReply := Blank;
    }

    /** The rows the table shows. */
    function Filtered(): (r: seq<Reply>)
      reads this
      ensures Subseq(r, replies)
      ensures forall i :: 0 <= i < |r| ==> Matches(r[i], searchTerm)
    {
      Search(replies, searchTerm)
    }

    /** Typing in the search box. */
    method SetSearch(term: string)
      modifies this`searchTerm
      ensures searchTerm == term
    {
      searchTerm := term;
    }

    /** "Nouvelle Réponse": open the form on a fresh draft. */
    method StartNew()
      modifies this`currentReply, this`isEditing
      ensures currentReply == NewDraft && isEditing
    {
      currentReply := NewDraft;
      isEditing := true;
    }

    /** The edit button of a row: open the form on that macro. */
    method StartEdit(r: Reply)
      modifies this`currentReply, this`isEditing
      ensures currentReply == DraftOf(r) && isEditing
    {
      currentReply := DraftOf(r);
      isEditing := true;
    }

    /** A keystroke in one of the form's fields. */
    method EditDraft(shortcut: string, text: string)
      modifies this`currentReply
      ensures currentReply == old(currentReply).(shortcut := shortcut, text := text)
    {
      currentReply := currentReply.(shortcut := shortcut, text := text);
    }

    /** "Annuler": close the form; the draft stays as it was. */
    method Cancel()
      modifies this`isEditing
      ensures !isEditing
    {
      isEditing := false;
    }

    /**
     * `handleSave`: a draft with an id replaces every macro with that id; any
     * other draft is appended under the id `now` (the clock's reading). Either
     * way the form closes and is reset.
     */
    method Save(now: int)
      modifies this`replies, this`isEditing, this`currentReply
      ensures HasId(old(currentReply)) ==> replies == ReplaceById(old(replies), AsReply(old(currentReply)))
      ensures !HasId(old(currentReply)) ==>
        replies == old(replies) + [Reply(now, old(currentReply).shortcut, old(currentReply).text)]
      ensures !isEditing && currentReply == Blank
    {
      if HasId(currentReply) {
        replies := ReplaceById(replies, AsReply(currentReply));
      } else {
        replies := replies + [Reply(now, currentReply.shortcut, currentReply.text)];
      }
      isEditing := false;
      currentReply := Blank;
    }

    /** `deleteReply(id)`. */
    method Delete(id: int)
      modifies this`replies
      ensures replies == RemoveById(old(replies), id)
    {
      replies := RemoveById(replies, id);
    }
  }
}
