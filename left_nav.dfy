/**
 * The dashboard's side menu: ten entries, five of them for administrators
 * only, and a highlight on the entry whose route is the current page.
 */
module LeftNav {
  import opened Wrappers
  import opened Lists

  datatype NavItem = NavItem(id: string, title: string, adminOnly: bool)

  /** `navItems`, in declaration order; an entry without the flag is for everyone. */
  const NavItems := [
    NavItem("/dashboard", "Dashboard", true),
    NavItem("/inbox", "Inbox (Messages)", false),
    NavItem("/monitoring", "Monitoring Visiteurs", true),
    NavItem("/contacts", "Contacts & CRM", false),
    NavItem("/archives", "Archives Chats", false),
    NavItem("/quick-replies", "Réponses Rapides", false),
    NavItem("/chatbot", "Chatbot & Auto", true),
    NavItem("/reports", "Rapports & Stats", true),
    NavItem("/personnel", "Équipe", true),
    NavItem("/settings", "Paramètres", false)
  ]

  /** The `role` of the stored user; `None` when no user or no role is stored. */
  type Role = Option<string>

  /** An entry is rendered unless it is admin-only and the role is not `'admin'`. */
  function ShownTo(role: Role): NavItem -> bool {
    (item: NavItem) => !item.adminOnly || role == Some("admin")
  }

  /** The entries rendered for a role, in menu order. */
  function Visible(role: Role): (r: seq<NavItem>)
    ensures Subseq(r, NavItems)
    ensures forall i :: 0 <= i < |r| ==> r[i] in NavItems && (r[i].adminOnly ==> role == Some("admin"))
  {
    FilterSpec(NavItems, ShownTo(role));
    Filter(NavItems, ShownTo(role))
  }

  /** The entry that `activePage` names is highlighted. */
  predicate IsActive(activePage: string, item: NavItem) {
    activePage == item.id
  }

  function Ids(items: seq<NavItem>): (r: seq<string>)
    ensures |r| == |items|
    ensures forall i :: 0 <= i < |items| ==> r[i] == items[i].id
  {
    seq(|items|, i requires 0 <= i < |items| => items[i].id)
  }

  /** An administrator sees the whole menu in declaration order. */
  lemma AdminSeesAll()
    ensures Visible(Some("admin")) == NavItems
  {
    FilterAll(NavItems, ShownTo(Some("admin")));
  }

  /** Anyone else, a visitor of the page with no stored role included, sees the five shared entries. */
  lemma OthersSeeFive(role: Role)
    requires role != Some("admin")
    ensures Ids(Visible(role)) == ["/inbox", "/contacts", "/archives", "/quick-replies", "/settings"]
    ensures forall i :: 0 <= i < |Visible(role)| ==> !Visible(role)[i].adminOnly
  {
    var p := ShownTo(role);
    assert forall item :: p(item) == !item.adminOnly;
    assert NavItems[0].adminOnly && !NavItems[1].adminOnly && NavItems[2].adminOnly && !NavItems[3].adminOnly;
    assert !NavItems[4].adminOnly && !NavItems[5].adminOnly && NavItems[6].adminOnly && NavItems[7].adminOnly;
    assert NavItems[8].adminOnly && !NavItems[9].adminOnly;
    FilterShared(NavItems, p);
    var shared := [NavItems[1], NavItems[3], NavItems[4], NavItems[5], NavItems[9]];
    assert Visible(role) == shared;
    assert Ids(shared) == ["/inbox", "/contacts", "/archives", "/quick-replies", "/settings"];
  }

  /** The filter of ten entries of which the 2nd, 4th, 5th, 6th and 10th are not admin-only. */
  lemma {:induction false} FilterShared(xs: seq<NavItem>, p: NavItem -> bool)
    requires |xs| == 10
    requires forall item :: p(item) == !item.adminOnly
    requires xs[0].adminOnly && !xs[1].adminOnly && xs[2].adminOnly && !xs[3].adminOnly && !xs[4].adminOnly
    requires !xs[5].adminOnly && xs[6].adminOnly && xs[7].adminOnly && xs[8].adminOnly && !xs[9].adminOnly
    ensures Filter(xs, p) == [xs[1], xs[3], xs[4], xs[5], xs[9]]
  {
    assert Filter(xs[10..], p) == [];
    FilterStep(xs, 9, p);
    assert Filter(xs[9..], p) == [xs[9]];
    FilterStep(xs, 8, p);
    assert Filter(xs[8..], p) == [xs[9]];
    FilterStep(xs, 7, p);
    assert Filter(xs[7..], p) == [xs[9]];
    FilterStep(xs, 6, p);
    assert Filter(xs[6..], p) == [xs[9]];
    FilterStep(xs, 5, p);
    assert Filter(xs[5..], p) == [xs[5], xs[9]];
    FilterStep(xs, 4, p);
    assert Filter(xs[4..], p) == [xs[4], xs[5], xs[9]];
    FilterStep(xs, 3, p);
    assert Filter(xs[3..], p) == [xs[3], xs[4], xs[5], xs[9]];
    FilterStep(xs, 2, p);
    assert Filter(xs[2..], p) == [xs[3], xs[4], xs[5], xs[9]];
    FilterStep(xs, 1, p);
    assert Filter(xs[1..], p) == [xs[1], xs[3], xs[4], xs[5], xs[9]];
    FilterStep(xs, 0, p);
    assert Filter(xs[0..], p) == [xs[1], xs[3], xs[4], xs[5], xs[9]];
    assert xs[0..] == xs;
  }

  /** No two entries share a route. */
  lemma IdsDistinct()
    ensures forall i, j :: 0 <= i < j < |NavItems| ==> NavItems[i].id != NavItems[j].id
  {
  }

  /** Whatever the role and the page, at most one rendered entry is highlighted. */
  lemma AtMostOneActive(role: Role, activePage: string)
    ensures forall i, j ::
      0 <= i < |Visible(role)| && 0 <= j < |Visible(role)| &&
      IsActive(activePage, Visible(role)[i]) && IsActive(activePage, Visible(role)[j])
      ==> i == j
  {
    IdsDistinct();
    VisibleDistinct(role);
  }

  /** The rendered entries keep the menu's distinct routes. */
  lemma VisibleDistinct(role: Role)
    ensures forall i, j :: 0 <= i < j < |Visible(role)| ==> Visible(role)[i].id != Visible(role)[j].id
  {
    IdsDistinct();
    SubseqKeepsDistinctIds(Visible(role), NavItems);
  }

  lemma {:induction false} SubseqKeepsDistinctIds(a: seq<NavItem>, b: seq<NavItem>)
    requires Subseq(a, b)
    requires forall i, j :: 0 <= i < j < |b| ==> b[i].id != b[j].id
    ensures forall i, j :: 0 <= i < j < |a| ==> a[i].id != a[j].id
    decreases |b|
  {
    if b != [] {
      if Subseq(a, b[1..]) {
        SubseqKeepsDistinctIds(a, b[1..]);
      } else {
        SubseqKeepsDistinctIds(a[1..], b[1..]);
        SubseqIds(a[1..], b[1..]);
        assert forall k :: 0 <= k < |a| - 1 ==> a[k + 1] == a[1..][k];
      }
    }
  }

  /** Every entry of a sub-list is an entry of the list. */
  lemma {:induction false} SubseqIds(a: seq<NavItem>, b: seq<NavItem>)
    requires Subseq(a, b)
    ensures forall k :: 0 <= k < |a| ==> a[k] in b[..]
    decreases |b|
  {
    if b != [] {
      if Subseq(a, b[1..]) {
        SubseqIds(a, b[1..]);
      } else {
        SubseqIds(a[1..], b[1..]);
      }
    }
  }
}
