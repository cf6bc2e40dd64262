/**
 * The basic infinite-scroll contact list (lazyLoadContacts.js): offset/limit paging against a
 * backend whose total size is queried once at start-up.
 *
 * Each `async` method is split at its `await`: a start step that runs synchronously (guard,
 * flags, the request it sends) and a finish step that runs when the awaited promise settles.
 */
module OffsetPaging {
  import opened Wrappers
  import opened Scroll
  import opened Backend

  /** `pageSize`: how many contacts one fetch asks for. */
  const PageSize: nat := 10

  /** The arguments of one `fetchContacts` call. */
  datatype PageRequest = PageRequest(offsetSize: nat, limitSize: nat)

  /** The component's fields. `loadedCount` is the watermark: the next fetch's offset. */
  datatype Component<T> = Component(contacts: seq<T>, isLoading: bool, totalCount: int, loadedCount: nat)

  /** The field initialisers. */
  function Initial<T>(): Component<T>
  {
    Component([], false, 0, 0)
  }

  /** The watermark counts exactly the contacts on the list. */
  predicate Consistent<T>(c: Component<T>)
  {
    c.loadedCount == |c.contacts|
  }

  /**
   * The synchronous part of `loadMoreData`: skip when everything counted is loaded or a load is
   * running; otherwise mark the component loading and ask for the page at the watermark.
   */
  function LoadStart<T>(c: Component<T>): (r: (Component<T>, Option<PageRequest>))
    ensures r.1.None? <==> c.loadedCount >= c.totalCount || c.isLoading
    ensures r.1.None? ==> r.0 == c
    ensures r.1.Some? ==> r.0.isLoading && r.1.value == PageRequest(c.loadedCount, PageSize)
    ensures r.0.contacts == c.contacts && r.0.loadedCount == c.loadedCount && r.0.totalCount == c.totalCount
  {
    if c.loadedCount >= c.totalCount || c.isLoading then (c, None)
    else (c.(isLoading := true), Some(PageRequest(c.loadedCount, PageSize)))
  }

  /**
   * The rest of `loadMoreData`, once `fetchContacts` settles: a fulfilled fetch appends the page
   * and advances the watermark by its length; a rejected one changes nothing; either way the
   * `finally` clears `isLoading`.
   */
  function LoadFinish<T>(c: Component<T>, fetched: Settled<seq<T>>): (r: Component<T>)
    ensures !r.isLoading && r.totalCount == c.totalCount
    ensures c.contacts <= r.contacts
    ensures fetched.Rejected? ==> r.contacts == c.contacts && r.loadedCount == c.loadedCount
    ensures fetched.Fulfilled? ==>
              r.contacts == c.contacts + fetched.value && r.loadedCount == c.loadedCount + |fetched.value|
    ensures Consistent(c) ==> Consistent(r)
  {
    match fetched
    case Fulfilled(newContacts) =>
      c.(contacts := c.contacts + newContacts, loadedCount := c.loadedCount + |newContacts|, isLoading := false)
    case Rejected =>
      c.(isLoading := false)
  }

  /**
   * `initData` after `getTotalCount` settles: the count is stored and only then is the first
   * load attempted. A rejected count ends `initData` before it reaches `loadMoreData`.
   */
  function InitFinish<T>(c: Component<T>, count: Settled<int>): (r: (Component<T>, Option<PageRequest>))
    ensures count.Rejected? ==> r == (c, None)
    ensures count.Fulfilled? ==> r.0.totalCount == count.value
    ensures count.Fulfilled? && r.1.None? ==> r.0 == c.(totalCount := count.value)
    ensures count.Fulfilled? ==> (r.1.Some? <==> !c.isLoading && c.loadedCount < count.value)
    ensures r.1.Some? ==> r.1.value == PageRequest(c.loadedCount, PageSize) && r.0.isLoading
    ensures r.0.contacts == c.contacts && r.0.loadedCount == c.loadedCount
  {
    match count
    case Fulfilled(n) => LoadStart(c.(totalCount := n))
    case Rejected => (c, None)
  }

  /** `handleScroll`: at the bottom and not loading, start a load (which applies its own guard). */
  function ScrollStep<T>(c: Component<T>, m: ScrollMetrics): (r: (Component<T>, Option<PageRequest>))
    ensures r.1.Some? <==> BottomReached(m) && !c.isLoading && c.loadedCount < c.totalCount
    ensures r.1.None? ==> r.0 == c
    ensures r.1.Some? ==> r == LoadStart(c)
  {
    if BottomReached(m) && !c.isLoading then LoadStart(c) else (c, None)
  }

  // ---------------------------------------------------------------------------------------
  // The component inside its environment: a remote collection `db` answered honestly by the
  // backend (a page is the slice at the requested offset, the count is the collection's
  // size), the promises still pending, and the events that can happen next.

  /** What can happen next: a scroll, or one of the pending promises settling (or failing). */
  datatype Event = Scrolled(metrics: ScrollMetrics) | FetchSettles(ok: bool) | CountSettles(ok: bool)

  /** The component together with the backend calls it is waiting for, oldest first. */
  datatype World<T> = World(ui: Component<T>, countPending: bool, fetchesPending: seq<PageRequest>)

  /** Right after `connectedCallback`: `initData` waits for the total count. */
  function Connected<T>(): World<T>
  {
    World(Initial(), true, [])
  }

  /** One event. A settlement with nothing pending does not happen and leaves the world as is. */
  function Step<T>(db: seq<T>, w: World<T>, e: Event): World<T>
  {
    match e
    case Scrolled(m) =>
      var (ui, req) := ScrollStep(w.ui, m);
      w.(ui := ui, fetchesPending := w.fetchesPending + AsList(req))
    case FetchSettles(ok) =>
      if w.fetchesPending == [] then w
      else
        var reply := if ok then Fulfilled(Slice(db, w.fetchesPending[0].offsetSize, w.fetchesPending[0].limitSize)) else Rejected;
        w.(ui := LoadFinish(w.ui, reply), fetchesPending := w.fetchesPending[1..])
    case CountSettles(ok) =>
      if !w.countPending then w
      else
        var (ui, req) := InitFinish(w.ui, if ok then Fulfilled(|db|) else Rejected);
        World(ui, false, w.fetchesPending + AsList(req))
  }

  /** A scroll that stops more than the threshold above the bottom changes nothing and fetches nothing. */
  lemma ScrollAboveBottomIsNoOp<T>(db: seq<T>, w: World<T>, m: ScrollMetrics)
    requires DistanceFromBottom(m) > BottomThreshold
    ensures Step(db, w, Scrolled(m)) == w
  {
    assert w.fetchesPending + [] == w.fetchesPending;
  }

  function Run<T>(db: seq<T>, w: World<T>, events: seq<Event>): World<T>
    decreases |events|
  {
    if events == [] then w else Run(db, Step(db, w, events[0]), events[1..])
  }

  /**
   * What holds between any two events: at most one fetch is in flight, exactly while
   * `isLoading`, and it asks for the page at the watermark; the list is the prefix of the remote
   * collection up to the watermark; `totalCount` is unknown (0) or the collection's size.
   */
  ghost predicate Invariant<T>(db: seq<T>, w: World<T>)
  {
    && Consistent(w.ui)
    && |w.fetchesPending| <= 1
    && (w.ui.isLoading <==> |w.fetchesPending| == 1)
    && (|w.fetchesPending| == 1 ==> w.fetchesPending[0] == PageRequest(w.ui.loadedCount, PageSize))
    && (w.ui.totalCount == 0 || w.ui.totalCount == |db|)
    && (w.countPending ==> w.ui == Initial())
    && w.ui.loadedCount <= |db|
    && w.ui.contacts == db[..w.ui.loadedCount]
    && (w.ui.isLoading ==> w.ui.loadedCount < |db|)
  }

  lemma ConnectedInvariant<T>(db: seq<T>)
    ensures Invariant(db, Connected())
  {
  }

  lemma StepInvariant<T>(db: seq<T>, w: World<T>, e: Event)
    requires Invariant(db, w)
    ensures Invariant(db, Step(db, w, e))
  {
    match e
    case Scrolled(m) =>
    case FetchSettles(ok) =>
      if w.fetchesPending != [] && ok {
        var k := w.ui.loadedCount;
        var page := Slice(db, w.fetchesPending[0].offsetSize, w.fetchesPending[0].limitSize);
        assert db[..k] + db[k..Min(k + PageSize, |db|)] == db[..Min(k + PageSize, |db|)];
      }
    case CountSettles(ok) =>
  }

  /** The invariant holds after any sequence of events. */
  lemma {:induction false} RunInvariant<T>(db: seq<T>, w: World<T>, events: seq<Event>)
    requires Invariant(db, w)
    ensures Invariant(db, Run(db, w, events))
    decreases |events|
  {
    if events != [] {
      StepInvariant(db, w, events[0]);
      RunInvariant(db, Step(db, w, events[0]), events[1..]);
    }
  }

  /**
   * From start-up, whatever happens: no two fetches overlap, the list is exactly the first
   * `loadedCount` items of the remote collection (no gap, no duplicate), and once the total is
   * known the list never holds more than it.
   */
  lemma {:induction false} ReachableFacts<T>(db: seq<T>, events: seq<Event>)
    ensures var w := Run(db, Connected(), events);
            && |w.fetchesPending| <= 1
            && w.ui.loadedCount <= |db|
            && w.ui.contacts == db[..w.ui.loadedCount]
            && w.ui.loadedCount == |w.ui.contacts|
            && (w.ui.totalCount != 0 ==> |w.ui.contacts| <= w.ui.totalCount)
  {
    ConnectedInvariant(db);
    RunInvariant(db, Connected(), events);
  }

  /** No event ever removes or reorders a contact already on the list. */
  lemma {:induction false} RunNeverShrinks<T>(db: seq<T>, w: World<T>, events: seq<Event>)
    ensures w.ui.contacts <= Run(db, w, events).ui.contacts
    decreases |events|
  {
    if events != [] {
      var next := Step(db, w, events[0]);
      assert w.ui.contacts <= next.ui.contacts;
      RunNeverShrinks(db, next, events[1..]);
    }
  }

  /** A scroll position at the very bottom of a 100-pixel container. */
  const AtBottom := ScrollMetrics(0, 100, 100)

  /** One load cycle from the bottom of the list: a scroll, then the fetch it issued succeeds. */
  function ScrollAndFetch<T>(db: seq<T>, w: World<T>): World<T>
  {
    Step(db, Step(db, w, Scrolled(AtBottom)), FetchSettles(true))
  }

  /**
   * Twenty-five remote contacts: start-up loads 10, each further scroll cycle loads up to 10 more
   * (20, then 25), and a scroll once all 25 are loaded changes nothing and issues no fetch.
   */
  lemma TwentyFiveContacts()
    ensures var db := seq(25, i => i);
            var w1 := Step(db, Step(db, Connected(), CountSettles(true)), FetchSettles(true));
            var w2 := ScrollAndFetch(db, w1);
            var w3 := ScrollAndFetch(db, w2);
            && |w1.ui.contacts| == 10 && |w2.ui.contacts| == 20 && |w3.ui.contacts| == 25
            && w3.ui.contacts == db && Step(db, w3, Scrolled(AtBottom)) == w3
  {
    var db := seq(25, i => i);
    var w1 := Step(db, Step(db, Connected(), CountSettles(true)), FetchSettles(true));
    assert w1.ui.contacts == db[..10];
    var w2 := ScrollAndFetch(db, w1);
    assert w2.ui.contacts == db[..10] + db[10..20];
    assert db[..10] + db[10..20] == db[..20];
    var w3 := ScrollAndFetch(db, w2);
    assert w3.ui.contacts == db[..20] + db[20..25];
    assert db[..20] + db[20..25] == db;
  }

  /**
   * A first fetch that fails leaves the list empty and the component idle; the next scroll
   * retries at offset 0 and that fetch fills the first page.
   */
  lemma FailedFetchIsRetried()
    ensures var db := seq(25, i => i);
            var w1 := Step(db, Step(db, Connected(), CountSettles(true)), FetchSettles(false));
            var w2 := Step(db, w1, Scrolled(AtBottom));
            var w3 := Step(db, w2, FetchSettles(true));
            && w1.ui.contacts == [] && !w1.ui.isLoading && w1.fetchesPending == []
            && w2.fetchesPending == [PageRequest(0, PageSize)]
            && w3.ui.contacts == db[..10]
  {
  }

  // ---------------------------------------------------------------------------------------
  // The component as an object with the source's fields.

  class LazyLoadContacts<T> {
    var contacts: seq<T>
    var isLoading: bool
    var totalCount: int
    var loadedCount: nat
    const pageSize: nat

    /** The fields as a value. */
    function State(): Component<T>
      reads this
    {
      Component(contacts, isLoading, totalCount, loadedCount)
    }

    ghost predicate Valid()
      reads this
    {
      pageSize == PageSize && Consistent(State())
    }

    /** The field initialisers. */
    constructor ()
      ensures Valid() && State() == Initial()
    {
      contacts := [];
      isLoading := false;
      totalCount := 0;
      loadedCount := 0;
      pageSize := PageSize;
    }

    /** `loadMoreData` up to its `await`; returns the fetch it issues, if any. */
    method StartLoadMoreData() returns (request: Option<PageRequest>)
      requires Valid()
      modifies this
      ensures Valid()
      ensures (State(), request) == LoadStart(old(State()))
    {
      if loadedCount >= totalCount || isLoading {
        return None;
      }
      isLoading := true;
      request := Some(PageRequest(loadedCount, pageSize));
    }

    /** `loadMoreData` after `fetchContacts` settles, through its `finally`. */
    method FinishLoadMoreData(fetched: Settled<seq<T>>)
      requires Valid()
      modifies this
      ensures Valid()
      ensures State() == LoadFinish(old(State()), fetched)
    {
      if fetched.Fulfilled? {
        var newContacts := fetched.value;
        contacts := contacts + newContacts;
        loadedCount := loadedCount + |newContacts|;
      }
      isLoading := false;
    }

    /** `initData` after `getTotalCount` settles; returns the first fetch, if any. */
    method FinishInitData(count: Settled<int>) returns (request: Option<PageRequest>)
      requires Valid()
      modifies this
      ensures Valid()
      ensures (State(), request) == InitFinish(old(State()), count)
    {
      if count.Rejected? {
        return None;
      }
      totalCount := count.value;
      request := StartLoadMoreData();
    }

    /** `handleScroll`; returns the fetch it issues, if any. */
    method HandleScroll(m: ScrollMetrics) returns (request: Option<PageRequest>)
      requires Valid()
      modifies this
      ensures Valid()
      ensures (State(), request) == ScrollStep(old(State()), m)
    {
      var bottomReached := m.scrollTop + m.clientHeight >= m.scrollHeight - BottomThreshold;
      request := None;
      if bottomReached && !isLoading {
        request := StartLoadMoreData();
      }
    }
  }
}
