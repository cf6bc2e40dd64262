/**
 * The contact list on the platform's list-view data source (lazyLoadContactsLds.js): pages are
 * delivered by a wire adapter and chained by a next-page token, and the search box filters the
 * contacts already loaded, in place.
 */
module CursorPaging {
  import opened Wrappers
  import opened Scroll
  import opened Text

  /** `PAGE_SIZE` (passed to the wire adapter; the component never checks a page's length). */
  const PageSize: nat := 10

  /** A record of the list view; `name` is `fields.Name.value`, the only field the component reads. */
  datatype ContactRecord = ContactRecord(id: string, name: string)

  /** `data.records`: one page and the token of the page after it. */
  datatype RecordPage = RecordPage(records: seq<ContactRecord>, nextPageToken: Option<string>)

  /** What a wire callback receives: `data`, `error`, or neither. */
  datatype WireResult = Data(page: RecordPage) | Error | NoValue

  /** The component's fields; `pageToken` is `pageParams.pageToken`, the page last asked for. */
  datatype Component = Component(
    contacts: seq<ContactRecord>, isLoading: bool, noResults: bool, searchKey: string,
    nextPageToken: Option<string>, done: bool, pageToken: Option<string>)

  /** JavaScript truthiness of a token: present and not the empty string. */
  predicate HasToken(t: Option<string>)
    ensures !HasToken(t) <==> t == None || t == Some("")
  {
    t.Some? && t.value != ""
  }

  /** The field initialisers. */
  function Initial(): Component
  {
    Component([], false, false, "", None, false, None)
  }

  /**
   * `done` is only ever set when no next page exists, and while a page is being loaded the
   * wire parameters name a real token.
   */
  predicate Consistent(c: Component)
  {
    && (c.done ==> !HasToken(c.nextPageToken))
    && (c.isLoading ==> HasToken(c.pageToken))
  }

  /**
   * `wiredContacts`: data replaces the list with the first page and records whether a further
   * page exists; an error or an empty delivery changes nothing.
   */
  function Wired(c: Component, result: WireResult): (r: Component)
    ensures result.Data? ==>
              && r.contacts == result.page.records && r.nextPageToken == result.page.nextPageToken
              && (r.done <==> !HasToken(r.nextPageToken))
    ensures !result.Data? ==> r == c
    ensures r.(contacts := c.contacts, nextPageToken := c.nextPageToken, done := c.done) == c
    ensures Consistent(c) ==> Consistent(r)
  {
    match result
    case Data(page) =>
      c.(contacts := page.records, nextPageToken := page.nextPageToken, done := !HasToken(page.nextPageToken))
    case _ => c
  }

  /**
   * `loadNextPage`: without a next-page token nothing happens; otherwise the component is marked
   * loading and the wire parameters ask for the page with that token (returned here).
   */
  function NextPage(c: Component): (r: (Component, Option<string>))
    ensures r.1.None? <==> !HasToken(c.nextPageToken)
    ensures r.1.None? ==> r.0 == c
    ensures r.1.Some? ==> r.1 == c.nextPageToken && r.0 == c.(isLoading := true, pageToken := c.nextPageToken)
    ensures Consistent(c) ==> Consistent(r.0)
  {
    if !HasToken(c.nextPageToken) then (c, None)
    else (c.(isLoading := true, pageToken := c.nextPageToken), c.nextPageToken)
  }

  /** `handleScroll`: ask for the next page at the bottom, when not loading and not done. */
  function ScrollStep(c: Component, m: ScrollMetrics): (r: (Component, Option<string>))
    ensures r.1.Some? <==> BottomReached(m) && !c.isLoading && !c.done && HasToken(c.nextPageToken)
    ensures r.1.None? ==> r.0 == c
    ensures r.1.Some? ==> r == NextPage(c)
    ensures Consistent(c) ==> Consistent(r.0)
  {
    if BottomReached(m) && !c.isLoading && !c.done then NextPage(c) else (c, None)
  }

  /**
   * `loadMore`, the callback of the paged wire: data appends the page after the list and
   * records the new token; an error or an empty delivery leaves the list. `isLoading` ends false
   * in every case.
   */
  function PageDelivered(c: Component, result: WireResult): (r: Component)
    ensures !r.isLoading
    ensures c.contacts <= r.contacts
    ensures result.Data? ==>
              && r.contacts == c.contacts + result.page.records
              && r.nextPageToken == result.page.nextPageToken
              && (r.done <==> !HasToken(r.nextPageToken))
    ensures !result.Data? ==> r == c.(isLoading := false)
    ensures r.searchKey == c.searchKey && r.noResults == c.noResults && r.pageToken == c.pageToken
    ensures Consistent(c) ==> Consistent(r)
  {
    var loaded := match result
      case Data(page) =>
        c.(contacts := c.contacts + page.records, nextPageToken := page.nextPageToken,
           done := !HasToken(page.nextPageToken))
      case _ => c;
    loaded.(isLoading := false)
  }

  // ---------------------------------------------------------------------------------------
  // The client-side search.

  /** The filter's test: the lower-cased name contains the (already lower-cased) key. */
  predicate Matches(r: ContactRecord, key: string)
    ensures key == "" ==> Matches(r, key)
    ensures Matches(r, key) ==> |key| <= |r.name|
    ensures Matches(r, key) <==> exists i :: 0 <= i <= |r.name| && key <= Lower(r.name)[i..]
  {
    IncludesIff(Lower(r.name), key);
    Includes(Lower(r.name), key)
  }

  /** `contacts.filter(Matches)`: the matching contacts, in their order. */
  function Filter(cs: seq<ContactRecord>, key: string): (r: seq<ContactRecord>)
    ensures |r| <= |cs|
    ensures forall x :: x in r ==> x in cs && Matches(x, key)
    ensures forall x :: x in cs && Matches(x, key) ==> x in r
    ensures forall x :: multiset(r)[x] == if Matches(x, key) then multiset(cs)[x] else 0
  {
    if cs == [] then []
    else
      assert cs == [cs[0]] + cs[1..];
      (if Matches(cs[0], key) then [cs[0]] else []) + Filter(cs[1..], key)
  }

  /** The filter keeps the order of what it keeps. */
  lemma {:induction false} FilterSubsequence(cs: seq<ContactRecord>, key: string)
    ensures Subsequence(Filter(cs, key), cs)
  {
    if cs != [] {
      FilterSubsequence(cs[1..], key);
      if Matches(cs[0], key) {
        assert Filter(cs, key) == [cs[0]] + Filter(cs[1..], key);
      } else {
        assert Filter(cs, key) == Filter(cs[1..], key);
      }
    }
  }

  /** Where every contact matches, the filter keeps the whole list. */
  lemma {:induction false} FilterAllMatching(cs: seq<ContactRecord>, key: string)
    requires forall i :: 0 <= i < |cs| ==> Matches(cs[i], key)
    ensures Filter(cs, key) == cs
  {
    if cs != [] {
      FilterAllMatching(cs[1..], key);
      assert [cs[0]] + cs[1..] == cs;
    }
  }

  /** Filtering twice by the same key is filtering once. */
  lemma FilterIdempotent(cs: seq<ContactRecord>, key: string)
    ensures Filter(Filter(cs, key), key) == Filter(cs, key)
  {
    var once := Filter(cs, key);
    assert forall i :: 0 <= i < |once| ==> once[i] in once;
    FilterAllMatching(once, key);
  }

  /**
   * `handleSearchChange`: the key is the lower-cased input. An empty key only clears
   * `noResults`; any other key replaces the list by its matching contacts and sets `noResults`
   * exactly when none match.
   */
  function SearchChange(c: Component, value: string): (r: Component)
    ensures r.searchKey == Lower(value)
    ensures value == "" ==> r == c.(searchKey := "", noResults := false)
    ensures value != "" ==> r.contacts == Filter(c.contacts, Lower(value)) && r.noResults == (r.contacts == [])
    ensures r.(contacts := c.contacts, searchKey := c.searchKey, noResults := c.noResults) == c
    ensures Subsequence(r.contacts, c.contacts)
  {
    LowerEmpty(value);
    var key := Lower(value);
    if key == "" then
      SubsequenceRefl(c.contacts);
      c.(searchKey := key, noResults := false)
    else
      var filtered := Filter(c.contacts, key);
      FilterSubsequence(c.contacts, key);
      c.(searchKey := key, noResults := |filtered| == 0, contacts := filtered)
  }

  /** Entering the same search value twice has the effect of entering it once. */
  lemma SearchIdempotent(c: Component, value: string)
    ensures SearchChange(SearchChange(c, value), value) == SearchChange(c, value)
  {
    LowerEmpty(value);
    if value != "" {
      FilterIdempotent(c.contacts, Lower(value));
    }
  }

  /**
   * The search is destructive: after a non-empty search, a later search (a shorter key, or an
   * empty one) never brings back a contact the first one removed, and keeps only contacts from
   * the first result, in order.
   */
  lemma SearchIsDestructive(c: Component, first: string, later: string)
    requires first != ""
    ensures var c1 := SearchChange(c, first);
            var c2 := SearchChange(c1, later);
            && Subsequence(c2.contacts, c1.contacts)
            && Subsequence(c2.contacts, c.contacts)
            && forall x :: x in c.contacts && !Matches(x, Lower(first)) ==> x !in c2.contacts
  {
    var c1 := SearchChange(c, first);
    var c2 := SearchChange(c1, later);
    SubsequenceTrans(c2.contacts, c1.contacts, c.contacts);
    forall x | x in c2.contacts ensures x in c1.contacts {
      SubsequenceMembers(c2.contacts, c1.contacts, x);
    }
  }

  // ---------------------------------------------------------------------------------------
  // The component among the events that can reach it.

  datatype Event = FirstPage(result: WireResult) | Scrolled(metrics: ScrollMetrics)
                 | NextPageDelivered(result: WireResult) | Typed(value: string)

  function Step(c: Component, e: Event): Component
  {
    match e
    case FirstPage(result) => Wired(c, result)
    case Scrolled(m) => ScrollStep(c, m).0
    case NextPageDelivered(result) => PageDelivered(c, result)
    case Typed(value) => SearchChange(c, value)
  }

  /** A scroll that stops more than the threshold above the bottom changes nothing and requests nothing. */
  lemma ScrollAboveBottomIsNoOp(c: Component, m: ScrollMetrics)
    requires DistanceFromBottom(m) > BottomThreshold
    ensures ScrollStep(c, m) == (c, None)
  {
  }

  function Run(c: Component, events: seq<Event>): Component
    decreases |events|
  {
    if events == [] then c else Run(Step(c, events[0]), events[1..])
  }

  /** No event sets `done` while a next page exists, or marks a load without a token to load. */
  lemma {:induction false} RunConsistent(c: Component, events: seq<Event>)
    requires Consistent(c)
    ensures Consistent(Run(c, events))
    decreases |events|
  {
    if events != [] {
      RunConsistent(Step(c, events[0]), events[1..]);
    }
  }

  /** Paging events only: no scroll and no delivered page ever removes or reorders a contact. */
  predicate PagingOnly(events: seq<Event>)
  {
    forall i :: 0 <= i < |events| ==> events[i].Scrolled? || events[i].NextPageDelivered?
  }

  lemma {:induction false} PagingOnlyGrows(c: Component, events: seq<Event>)
    requires PagingOnly(events)
    ensures c.contacts <= Run(c, events).contacts
    decreases |events|
  {
    if events != [] {
      var next := Step(c, events[0]);
      assert c.contacts <= next.contacts;
      assert PagingOnly(events[1..]) by {
        forall i | 0 <= i < |events| - 1
          ensures events[1..][i].Scrolled? || events[1..][i].NextPageDelivered?
        {
          assert events[1..][i] == events[i + 1];
        }
      }
      PagingOnlyGrows(next, events[1..]);
    }
  }

  /** Search events only: the list keeps a subsequence of what it held, and never lengthens. */
  predicate TypingOnly(events: seq<Event>)
  {
    forall i :: 0 <= i < |events| ==> events[i].Typed?
  }

  lemma {:induction false} TypingOnlyShrinks(c: Component, events: seq<Event>)
    requires TypingOnly(events)
    ensures Subsequence(Run(c, events).contacts, c.contacts)
    ensures |Run(c, events).contacts| <= |c.contacts|
    decreases |events|
  {
    if events == [] {
      SubsequenceRefl(c.contacts);
    } else {
      var next := Step(c, events[0]);
      assert TypingOnly(events[1..]) by {
        forall i | 0 <= i < |events| - 1 ensures events[1..][i].Typed? {
          assert events[1..][i] == events[i + 1];
        }
      }
      TypingOnlyShrinks(next, events[1..]);
      SubsequenceTrans(Run(next, events[1..]).contacts, next.contacts, c.contacts);
    }
    SubsequenceLength(Run(c, events).contacts, c.contacts);
  }

  // ---------------------------------------------------------------------------------------
  // The component as an object with the source's fields.

  class LazyLoadContactsLds {
    var contacts: seq<ContactRecord>
    var isLoading: bool
    var noResults: bool
    var searchKey: string
    var nextPageToken: Option<string>
    var done: bool
    /** `pageParams.pageToken`: the parameter of the paged wire. */
    var pageToken: Option<string>

    function State(): Component
      reads this
    {
      Component(contacts, isLoading, noResults, searchKey, nextPageToken, done, pageToken)
    }

    ghost predicate Valid()
      reads this
    {
      Consistent(State())
    }

    /** The field initialisers. */
    constructor ()
      ensures Valid() && State() == Initial()
    {
      contacts := [];
      isLoading := false;
      noResults := false;
      searchKey := "";
      nextPageToken := None;
      done := false;
      pageToken := None;
    }

    /** `wiredContacts`, the callback of the first-page wire. */
    method WiredContacts(result: WireResult)
      requires Valid()
      modifies this
      ensures Valid()
      ensures State() == Wired(old(State()), result)
    {
      if result.Data? {
        contacts := result.page.records;
        nextPageToken := result.page.nextPageToken;
        done := !HasToken(nextPageToken);
      }
    }

    /** `handleScroll`; returns the token of the page it asks for, if any. */
    method HandleScroll(m: ScrollMetrics) returns (requested: Option<string>)
      requires Valid()
      modifies this
      ensures Valid()
      ensures (State(), requested) == ScrollStep(old(State()), m)
    {
      var bottom := m.scrollTop + m.clientHeight >= m.scrollHeight - BottomThreshold;
      requested := None;
      if bottom && !isLoading && !done {
        requested := LoadNextPage();
      }
    }

    /** `loadNextPage` (without its direct `loadMore()` call); returns the requested token. */
    method LoadNextPage() returns (requested: Option<string>)
      requires Valid()
      modifies this
      ensures Valid()
      ensures (State(), requested) == NextPage(old(State()))
    {
      if !HasToken(nextPageToken) {
        return None;
      }
      isLoading := true;
      pageToken := nextPageToken;
      requested := nextPageToken;
    }

    /** `loadMore`, the callback of the paged wire. */
    method LoadMore(result: WireResult)
      requires Valid()
      modifies this
      ensures Valid()
      ensures State() == PageDelivered(old(State()), result)
    {
      if result.Data? {
        contacts := contacts + result.page.records;
        nextPageToken := result.page.nextPageToken;
        done := !HasToken(nextPageToken);
      }
      isLoading := false;
    }

    /** `handleSearchChange`. */
    method HandleSearchChange(value: string)
      requires Valid()
      modifies this
      ensures Valid()
      ensures State() == SearchChange(old(State()), value)
    {
      searchKey := Lower(value);
      if searchKey == "" {
        noResults := false;
      } else {
        var filtered := Filter(contacts, searchKey);
        noResults := |filtered| == 0;
        contacts := filtered;
      }
    }
  }
}
