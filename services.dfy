/** The product-selection page: a fixed list of product cards shown three
    to a page, a set of selected card indices kept in insertion order (a
    JavaScript Set iterates in insertion order), and checkout, which writes
    the selected products to the browser's store. */
module Services {
  import opened Browser

  const CardsPerPage: nat := 3

  /** The number of pages: the ceiling of totalCards / CardsPerPage. */
  function PageCount(totalCards: nat): (p: nat)
    ensures p * CardsPerPage >= totalCards
    ensures p == 0 || (p - 1) * CardsPerPage < totalCards
    ensures p == 0 <==> totalCards == 0
  {
    (totalCards + CardsPerPage - 1) / CardsPerPage
  }

  /** A card lies on the page whose index range contains it: the page of card
      i is i / CardsPerPage + 1, and pages 1..PageCount(n) are exactly the
      pages that hold at least one of n cards. */
  lemma PageOfCardInRange(n: nat, i: nat)
    requires i < n
    ensures 1 <= i / CardsPerPage + 1 <= PageCount(n)
  {
  }

  lemma EveryPageHoldsACard(n: nat, page: int)
    requires 1 <= page <= PageCount(n)
    ensures (page - 1) * CardsPerPage < n
  {
  }

  /** The cards of one page, as indices. */
  function CardsOnPage(n: nat, page: int): set<nat>
  {
    set i: nat | i < n && i / CardsPerPage == page - 1
  }

  /** At most CardsPerPage cards are active at once. */
  lemma AtMostThreeActive(n: nat, page: int)
    ensures |CardsOnPage(n, page)| <= CardsPerPage
  {
    var s := CardsOnPage(n, page);
    var first := (page - 1) * CardsPerPage;
    var slots: set<int> := {first, first + 1, first + 2};
    forall i | i in s ensures i in slots {
    }
    var asInts: set<int> := set i: int | i in s;
    SubsetCardinality(asInts, slots);
    assert |asInts| == |s| by {
      assert asInts == s;
    }
  }

  lemma SubsetCardinality<T>(a: set<T>, b: set<T>)
    requires a <= b
    ensures |a| <= |b|
  {
    assert b == a + (b - a);
  }

  // ---------------------------------------------------------------------
  // The selection: distinct card indices in insertion order.

  predicate Distinct(s: seq<nat>)
  {
    forall i, j :: 0 <= i < j < |s| ==> s[i] != s[j]
  }

  /** Set.delete: drops x and keeps the order of the rest. */
  function Remove(s: seq<nat>, x: nat): (r: seq<nat>)
    ensures forall y :: y in r <==> y in s && y != x
    ensures x !in s ==> r == s
    ensures Distinct(s) ==> Distinct(r)
    ensures |r| <= |s|
  {
    if s == [] then []
    else if s[0] == x then Remove(s[1..], x)
    else
      assert Distinct(s) ==> s[0] !in s[1..];
      [s[0]] + Remove(s[1..], x)
  }

  /** Removing the element at position k of a distinct sequence leaves the
      elements before it and after it, in order. */
  lemma {:induction false} RemoveAt(s: seq<nat>, k: nat)
    requires Distinct(s) && k < |s|
    ensures Remove(s, s[k]) == s[..k] + s[k + 1..]
  {
    if k == 0 {
      assert s[0] !in s[1..];
    } else {
      assert s[1..][k - 1] == s[k];
      RemoveAt(s[1..], k - 1);
      assert s[1..][..k - 1] + s[1..][k..] == s[1..k] + s[k + 1..];
      assert s[..k] == [s[0]] + s[1..k];
    }
  }

  /** Set.delete of an element that was added last and was not there before
      gives back the original sequence. */
  lemma {:induction false} RemoveAppended(s: seq<nat>, x: nat)
    requires x !in s
    ensures Remove(s + [x], x) == s
  {
    if s != [] {
      assert (s + [x])[1..] == s[1..] + [x];
      RemoveAppended(s[1..], x);
      assert [s[0]] + s[1..] == s;
    }
  }

  /** The select button of card i: deletes i when selected, adds it (at the
      end) otherwise. */
  function Toggle(s: seq<nat>, i: nat): (r: seq<nat>)
    ensures forall j :: j in r <==> (if j == i then i !in s else j in s)
    ensures Distinct(s) ==> Distinct(r)
  {
    if i in s then Remove(s, i) else s + [i]
  }

  /** Toggling twice restores membership of every index. */
  lemma ToggleTwiceMembership(s: seq<nat>, i: nat, j: nat)
    ensures j in Toggle(Toggle(s, i), i) <==> j in s
  {
  }

  /** Toggling an unselected card twice restores the selection exactly. */
  lemma ToggleTwiceUnselected(s: seq<nat>, i: nat)
    requires i !in s
    ensures Toggle(Toggle(s, i), i) == s
  {
    RemoveAppended(s, i);
  }

  /** Toggling a selected card twice moves it to the end of the order. */
  lemma ToggleTwiceSelected(s: seq<nat>, k: nat)
    requires Distinct(s) && k < |s|
    ensures Toggle(Toggle(s, s[k]), s[k]) == s[..k] + s[k + 1..] + [s[k]]
  {
    RemoveAt(s, k);
  }

  /** The checkout payload: one entry per selected index, in selection
      order, read from the card at that index. */
  function Payload(cards: seq<Entry>, sel: seq<nat>): (p: seq<Entry>)
    requires forall k :: 0 <= k < |sel| ==> sel[k] < |cards|
    ensures |p| == |sel|
    ensures forall k :: 0 <= k < |sel| ==> p[k] == cards[sel[k]]
  {
    if sel == [] then [] else [cards[sel[0]]] + Payload(cards, sel[1..])
  }

  datatype CheckoutOutcome = NothingSelected | StorageFailed | CheckedOut

  // ---------------------------------------------------------------------
  // The page.

  class ServicesPage {
    /** The product cards in document order. */
    const cards: seq<Entry>
    const totalPages: nat
    const store: LocalStorage
    var currentPage: int
    var selected: seq<nat>

    ghost predicate Valid()
      reads this
    {
      && totalPages == PageCount(|cards|)
      && 1 <= currentPage
      && (currentPage <= totalPages || currentPage == 1)
      && Distinct(selected)
      && (forall k :: 0 <= k < |selected| ==> selected[k] < |cards|)
    }

    /** Page load: page 1, nothing selected. */
    constructor (cards: seq<Entry>, store: LocalStorage)
      ensures Valid()
      ensures this.cards == cards && this.store == store
      ensures totalPages == PageCount(|cards|)
      ensures currentPage == 1 && selected == []
    {
      this.cards := cards;
      this.store := store;
      totalPages := PageCount(|cards|);
      currentPage := 1;
      selected := [];
    }

    /** Which cards carry the 'active' class after showing a page: exactly
        the cards whose page is the given one, so by AtMostThreeActive at
        most three of them. */
    method ShowCards(page: int) returns (active: seq<bool>)
      ensures |active| == |cards|
      ensures forall i :: 0 <= i < |cards| ==> (active[i] <==> i / CardsPerPage + 1 == page)
      ensures forall i: nat :: i < |cards| ==> (active[i] <==> i in CardsOnPage(|cards|, page))
    {
      var start := (page - 1) * CardsPerPage;
      var end := start + CardsPerPage;
      active := [];
      var index := 0;
      while index < |cards|
        invariant index <= |cards| && |active| == index
        invariant forall i :: 0 <= i < index ==> (active[i] <==> i / CardsPerPage + 1 == page)
      {
        active := active + [index >= start && index < end];
        index := index + 1;
      }
    }

    /** The disabled state of the navigation buttons. With at least one
        card, a button is disabled exactly when its handler would do
        nothing; with no cards the next button stays enabled. */
    method UpdateNavigationButtons() returns (prevDisabled: bool, nextDisabled: bool)
      requires Valid()
      ensures prevDisabled <==> currentPage == 1
      ensures nextDisabled <==> currentPage == totalPages
      ensures |cards| > 0 ==> (prevDisabled <==> !(currentPage > 1))
      ensures |cards| > 0 ==> (nextDisabled <==> !(currentPage < totalPages))
      ensures |cards| == 0 ==> !nextDisabled
    {
      prevDisabled := currentPage == 1;
      nextDisabled := currentPage == totalPages;
    }

    /** The 'selected' state of every card and the visibility of the
        checkout and cancel-all buttons: the buttons show exactly when some
        card is marked selected. */
    method UpdateSelectionUI() returns (marks: seq<bool>, actionsVisible: bool)
      requires Valid()
      ensures |marks| == |cards|
      ensures forall i :: 0 <= i < |cards| ==> (marks[i] <==> i in selected)
      ensures actionsVisible <==> selected != []
      ensures actionsVisible <==> exists i :: 0 <= i < |marks| && marks[i]
    {
      marks := [];
      var index := 0;
      while index < |cards|
        invariant index <= |cards| && |marks| == index
        invariant forall i :: 0 <= i < index ==> (marks[i] <==> i in selected)
      {
        marks := marks + [index in selected];
        index := index + 1;
      }
      actionsVisible := |selected| > 0;
      if actionsVisible {
        assert marks[selected[0]];
      }
    }

    /** The next button: advances only before the last page. */
    method Next()
      requires Valid()
      modifies this
      ensures Valid()
      ensures currentPage == if old(currentPage) < totalPages then old(currentPage) + 1 else old(currentPage)
      ensures selected == old(selected)
    {
      if currentPage < totalPages {
        currentPage := currentPage + 1;
      }
    }

    /** The previous button: retreats only after the first page. */
    method Prev()
      requires Valid()
      modifies this
      ensures Valid()
      ensures currentPage == if old(currentPage) > 1 then old(currentPage) - 1 else old(currentPage)
      ensures selected == old(selected)
    {
      if currentPage > 1 {
        currentPage := currentPage - 1;
      }
    }

    /** The select button of card `index`. */
    method ToggleSelect(index: nat)
      requires Valid() && index < |cards|
      modifies this
      ensures Valid()
      ensures selected == Toggle(old(selected), index)
      ensures forall j :: j != index ==> (j in selected <==> j in old(selected))
      ensures index in selected <==> index !in old(selected)
      ensures currentPage == old(currentPage)
    {
      if index in selected {
        selected := Remove(selected, index);
      } else {
        selected := selected + [index];
      }
      forall k | 0 <= k < |selected| ensures selected[k] < |cards| {
        assert selected[k] in old(selected) || selected[k] == index;
      }
    }

    /** The cancel-all button, given the answer to its confirmation prompt. */
    method CancelAll(confirmed: bool)
      requires Valid()
      modifies this
      ensures Valid()
      ensures selected == if confirmed then [] else old(selected)
      ensures currentPage == old(currentPage)
    {
      if confirmed {
        selected := [];
      }
    }

    /** The checkout button. `writeFails` stands for the store write
        throwing (a full store, say). Only a successful write navigates. */
    method Checkout(writeFails: bool) returns (outcome: CheckoutOutcome, redirect: Redirect)
      requires Valid()
      modifies store
      ensures outcome == NothingSelected <==> old(selected) == []
      ensures outcome == StorageFailed <==> old(selected) != [] && writeFails
      ensures outcome == CheckedOut ==>
        store.items == old(store.items)[SelectedProductsKey := Products(Payload(cards, selected))]
      ensures outcome != CheckedOut ==> store.items == old(store.items)
      ensures redirect == ToInvoice <==> outcome == CheckedOut
      ensures redirect != ToInvoice ==> redirect == Stay
    {
      if |selected| == 0 {
        return NothingSelected, Stay;
      }
      var selectedItems := Payload(cards, selected);
      if writeFails {
        return StorageFailed, Stay;
      }
      store.SetItem(SelectedProductsKey, Products(selectedItems));
      return CheckedOut, ToInvoice;
    }
  }

  // ---------------------------------------------------------------------
  // Uses of the page that exercise its contracts.

  /** Selecting card 0, going to page 2 and back keeps card 0 selected. */
  method PaginationKeepsSelection(cards: seq<Entry>) returns (before: seq<nat>, after: seq<nat>, page: int)
    requires |cards| > CardsPerPage
    ensures before == [0] && after == [0] && page == 1
  {
    var store := new LocalStorage(map[]);
    var p := new ServicesPage(cards, store);
    p.ToggleSelect(0);
    before := p.selected;
    p.Next();
    p.Prev();
    after := p.selected;
    page := p.currentPage;
  }

  /** Selecting card 2 and then card 0 writes them in that order, not in
      index order. */
  method PayloadFollowsSelectionOrder(cards: seq<Entry>) returns (written: Option<StoredValue>)
    requires |cards| >= CardsPerPage
    ensures written == Some(Products([cards[2], cards[0]]))
  {
    var store := new LocalStorage(map[]);
    var p := new ServicesPage(cards, store);
    p.ToggleSelect(2);
    p.ToggleSelect(0);
    assert p.selected == [2, 0];
    var outcome, redirect := p.Checkout(false);
    assert Payload(cards, [2, 0]) == [cards[2], cards[0]];
    written := store.GetItem(SelectedProductsKey);
  }
}
