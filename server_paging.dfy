/**
 * The contact list with server-side search (lazyLoadContactsServer.js): offset/limit paging
 * where a load is either an append or a reset (search) load, the total count is fetched lazily
 * after the first page, and keystrokes schedule a debounced reset load.
 *
 * `loadContacts` is `async` with two `await`s (the page, then possibly the count). It is split
 * into a start step and one finish step per `await`; the suspended call, with the locals it still
 * needs, is the `pending` activation.
 */
module ServerPaging {
  import opened Wrappers
  import opened Scroll
  import opened Backend

  /** `PAGE_SIZE`. */
  const PageSize: nat := 10

  /** The arguments of one `fetchContacts` call. */
  datatype FetchRequest = FetchRequest(searchKey: string, offsetSize: nat, limitSize: nat)

  /** Where a running `loadContacts` call is suspended, with the locals it resumes with. */
  datatype Activation =
    | Idle
    | AwaitingFetch(reset: bool, request: FetchRequest)
    | AwaitingCount(advance: nat, countKey: string)

  /**
   * The component's fields; `searchPending` is the debounce slot (a scheduled, not yet fired
   * reset load) and `pending` the suspended `loadContacts` call.
   */
  datatype Component<T> = Component(
    contacts: seq<T>, isLoading: bool, noResults: bool, searchKey: string,
    offset: nat, totalCount: int, searchPending: bool, pending: Activation)

  /** The field initialisers. */
  function Initial<T>(): Component<T>
  {
    Component([], false, false, "", 0, 0, false, Idle)
  }

  /**
   * The bookkeeping that holds between events: `isLoading` is set exactly while a call is
   * suspended; a suspended fetch asks for the page at `offset`, which is the list's length (and
   * the list was cleared for a reset); while the count is awaited `totalCount` is 0 and the page
   * just added will bring `offset` level with the list; once a total is known, `offset` is the
   * list's length.
   */
  predicate Consistent<T>(c: Component<T>)
  {
    && (c.isLoading <==> !c.pending.Idle?)
    && (c.pending.AwaitingFetch? ==>
          && c.pending.request.offsetSize == c.offset == |c.contacts|
          && c.pending.request.limitSize == PageSize
          && (c.pending.reset ==> c.contacts == [] && c.totalCount == 0))
    && (c.pending.AwaitingCount? ==> c.totalCount == 0 && c.offset + c.pending.advance == |c.contacts|)
    && (c.pending.Idle? && c.totalCount != 0 ==> c.offset == |c.contacts|)
  }

  /**
   * `loadContacts(reset)` up to its first `await`. While a load runs every call is dropped,
   * reset or not. Otherwise a reset clears offset, list and total first; then the page at
   * `offset` is requested for the current key.
   */
  function LoadStart<T>(c: Component<T>, reset: bool): (r: (Component<T>, Option<FetchRequest>))
    ensures r.1.None? <==> c.isLoading
    ensures c.isLoading ==> r.0 == c
    ensures r.1.Some? ==>
              && r.0.isLoading && r.0.pending == AwaitingFetch(reset, r.1.value)
              && r.1.value == FetchRequest(c.searchKey, r.0.offset, PageSize)
    ensures r.1.Some? && reset ==> r.0.offset == 0 && r.0.contacts == [] && r.0.totalCount == 0
    ensures !reset ==> r.0.offset == c.offset && r.0.contacts == c.contacts && r.0.totalCount == c.totalCount
    ensures r.0.searchKey == c.searchKey && r.0.noResults == c.noResults && r.0.searchPending == c.searchPending
    ensures Consistent(c) && !c.isLoading && (reset || c.offset == |c.contacts|) ==> Consistent(r.0)
  {
    if c.isLoading then (c, None)
    else
      var cleared := if reset then c.(offset := 0, contacts := [], totalCount := 0) else c;
      var request := FetchRequest(cleared.searchKey, cleared.offset, PageSize);
      (cleared.(isLoading := true, pending := AwaitingFetch(reset, request)), Some(request))
  }

  /**
   * `loadContacts` after `fetchContacts` settles. A fulfilled fetch replaces (reset) or extends
   * the list and recomputes `noResults`; then, if no total is known yet, the count is requested
   * for the key current at this moment, and otherwise `offset` advances by the page's length and
   * the call ends. A rejected fetch ends the call with the list, offset and total as they were
   * (for a reset: cleared).
   */
  function FetchFinish<T>(c: Component<T>, fetched: Settled<seq<T>>): (r: (Component<T>, Option<string>))
    requires c.pending.AwaitingFetch?
    ensures fetched.Rejected? ==> r == (c.(isLoading := false, pending := Idle), None)
    ensures fetched.Fulfilled? ==>
              && r.0.contacts == (if c.pending.reset then fetched.value else c.contacts + fetched.value)
              && r.0.noResults == (|r.0.contacts| == 0)
              && r.0.totalCount == c.totalCount
    ensures r.1.Some? <==> fetched.Fulfilled? && c.totalCount == 0
    ensures r.1.Some? ==>
              && r.1.value == c.searchKey && r.0.pending == AwaitingCount(|fetched.value|, c.searchKey)
              && r.0.isLoading == c.isLoading && r.0.offset == c.offset
    ensures fetched.Fulfilled? && c.totalCount != 0 ==>
              r.0.offset == c.offset + |fetched.value| && !r.0.isLoading && r.0.pending.Idle?
    ensures r.0.searchKey == c.searchKey && r.0.searchPending == c.searchPending
    ensures Consistent(c) ==> Consistent(r.0)
  {
    match fetched
    case Rejected => (c.(isLoading := false, pending := Idle), None)
    case Fulfilled(results) =>
      var contacts := if c.pending.reset then results else c.contacts + results;
      var listed := c.(contacts := contacts, noResults := |contacts| == 0);
      if listed.totalCount == 0 then
        (listed.(pending := AwaitingCount(|results|, c.searchKey)), Some(c.searchKey))
      else
        (listed.(offset := c.offset + |results|, isLoading := false, pending := Idle), None)
  }

  /**
   * `loadContacts` after `getTotalCount` settles: a fulfilled count is stored and `offset`
   * advances by the page fetched before; a rejected count leaves both, so the list has grown
   * but `offset` has not. Either way the call ends.
   */
  function CountFinish<T>(c: Component<T>, count: Settled<int>): (r: Component<T>)
    requires c.pending.AwaitingCount?
    ensures !r.isLoading && r.pending.Idle?
    ensures r.contacts == c.contacts && r.noResults == c.noResults
    ensures count.Fulfilled? ==> r.totalCount == count.value && r.offset == c.offset + c.pending.advance
    ensures count.Rejected? ==> r.totalCount == c.totalCount && r.offset == c.offset
    ensures r.searchKey == c.searchKey && r.searchPending == c.searchPending
    ensures Consistent(c) ==> Consistent(r)
  {
    match count
    case Fulfilled(n) =>
      c.(totalCount := n, offset := c.offset + c.pending.advance, isLoading := false, pending := Idle)
    case Rejected =>
      c.(isLoading := false, pending := Idle)
  }

  /** `handleScroll`: an append load at the bottom, when idle and the list is short of the total. */
  function ScrollStep<T>(c: Component<T>, m: ScrollMetrics): (r: (Component<T>, Option<FetchRequest>))
    ensures r.1.Some? <==> BottomReached(m) && !c.isLoading && |c.contacts| < c.totalCount
    ensures r.1.None? ==> r.0 == c
    ensures r.1.Some? ==> r == LoadStart(c, false) && r.1.value.offsetSize == c.offset
    ensures Consistent(c) ==> Consistent(r.0)
  {
    if BottomReached(m) && !c.isLoading && |c.contacts| < c.totalCount then LoadStart(c, false)
    else (c, None)
  }

  /** `handleSearchChange`: the key is stored at once and the debounced reset is (re)scheduled. */
  function SearchChange<T>(c: Component<T>, value: string): (r: Component<T>)
    ensures r.searchKey == value && r.searchPending
    ensures r.(searchKey := c.searchKey, searchPending := c.searchPending) == c
    ensures Consistent(c) ==> Consistent(r)
  {
    c.(searchKey := value, searchPending := true)
  }

  /**
   * The debounce timer fires: the slot empties and `loadContacts(true)` runs with the key as it is
   * now. If a load is running the reset is dropped and nothing else changes.
   */
  function DebounceFire<T>(c: Component<T>): (r: (Component<T>, Option<FetchRequest>))
    requires c.searchPending
    ensures !r.0.searchPending
    ensures c.isLoading ==> r == (c.(searchPending := false), None)
    ensures !c.isLoading ==>
              && r.1 == Some(FetchRequest(c.searchKey, 0, PageSize))
              && r.0.contacts == [] && r.0.offset == 0 && r.0.totalCount == 0
              && r.0.isLoading && r.0.pending == AwaitingFetch(true, r.1.value)
              && r.0.searchKey == c.searchKey && r.0.noResults == c.noResults
    ensures Consistent(c) ==> Consistent(r.0)
  {
    LoadStart(c.(searchPending := false), true)
  }

  /** After `connectedCallback`: the first (append) load has been started. */
  function Connected<T>(): Component<T>
  {
    LoadStart(Initial(), false).0
  }

  // ---------------------------------------------------------------------------------------
  // The component among the events that can reach it, with a backend that answers honestly:
  // `remote(key)` is the ordered collection the server holds for a search key.

  datatype Event = Scrolled(metrics: ScrollMetrics) | FetchSettles(ok: bool) | CountSettles(ok: bool)
                 | Typed(value: string) | TimerFires

  /** One event. A promise or timer that is not pending does not settle or fire. */
  function Step<T>(remote: string -> seq<T>, c: Component<T>, e: Event): Component<T>
  {
    match e
    case Scrolled(m) => ScrollStep(c, m).0
    case FetchSettles(ok) =>
      if !c.pending.AwaitingFetch? then c
      else
        var req := c.pending.request;
        FetchFinish(c, if ok then Fulfilled(Slice(remote(req.searchKey), req.offsetSize, req.limitSize)) else Rejected).0
    case CountSettles(ok) =>
      if !c.pending.AwaitingCount? then c
      else CountFinish(c, if ok then Fulfilled(|remote(c.pending.countKey)|) else Rejected)
    case Typed(value) => SearchChange(c, value)
    case TimerFires => if c.searchPending then DebounceFire(c).0 else c
  }

  /** A scroll that stops more than the threshold above the bottom changes nothing and fetches nothing. */
  lemma ScrollAboveBottomIsNoOp<T>(c: Component<T>, m: ScrollMetrics)
    requires DistanceFromBottom(m) > BottomThreshold
    ensures ScrollStep(c, m) == (c, None)
  {
  }

  function Run<T>(remote: string -> seq<T>, c: Component<T>, events: seq<Event>): Component<T>
    decreases |events|
  {
    if events == [] then c else Run(remote, Step(remote, c, events[0]), events[1..])
  }

  lemma {:induction false} RunConsistent<T>(remote: string -> seq<T>, c: Component<T>, events: seq<Event>)
    requires Consistent(c)
    ensures Consistent(Run(remote, c, events))
    decreases |events|
  {
    if events != [] {
      RunConsistent(remote, Step(remote, c, events[0]), events[1..]);
    }
  }

  /**
   * From start-up, whatever the events and the backend's answers: `isLoading` marks exactly one
   * suspended call, and every fetch in flight asks for the page at the list's current length
   * (a conjunct of `Consistent`, spelled out here because it is the fact callers rely on).
   */
  lemma ReachableConsistent<T>(remote: string -> seq<T>, events: seq<Event>)
    ensures var c := Run(remote, Connected(), events);
            && Consistent(c)
            && (c.pending.AwaitingFetch? ==> c.pending.request.offsetSize == |c.contacts|)
  {
    RunConsistent(remote, Connected(), events);
  }

  /**
   * While nobody types, the list is a prefix of the remote collection for the key, the total is
   * unknown (0) or that collection's size, and no fetch asks for another key.
   */
  ghost predicate KeyedPrefix<T>(remote: string -> seq<T>, c: Component<T>)
  {
    var db := remote(c.searchKey);
    && Consistent(c)
    && !c.searchPending
    && |c.contacts| <= |db|
    && c.contacts == db[..|c.contacts|]
    && (c.totalCount == 0 || c.totalCount == |db|)
    && (c.pending.AwaitingFetch? ==> c.pending.request.searchKey == c.searchKey)
    && (c.pending.AwaitingCount? ==> c.pending.countKey == c.searchKey)
  }

  lemma StepKeyedPrefix<T>(remote: string -> seq<T>, c: Component<T>, e: Event)
    requires KeyedPrefix(remote, c) && !e.Typed?
    ensures KeyedPrefix(remote, Step(remote, c, e))
  {
    if e.FetchSettles? && e.ok && c.pending.AwaitingFetch? {
      var req := c.pending.request;
      SliceExtendsPrefix(remote(c.searchKey), req.offsetSize, req.limitSize);
      if c.pending.reset {
        assert remote(c.searchKey)[..0] == [];
      }
    }
  }

  predicate NoTyping(events: seq<Event>)
  {
    forall i :: 0 <= i < |events| ==> !events[i].Typed?
  }

  lemma {:induction false} RunKeyedPrefix<T>(remote: string -> seq<T>, c: Component<T>, events: seq<Event>)
    requires KeyedPrefix(remote, c) && NoTyping(events)
    ensures KeyedPrefix(remote, Run(remote, c, events))
    decreases |events|
  {
    if events != [] {
      StepKeyedPrefix(remote, c, events[0]);
      assert NoTyping(events[1..]) by {
        forall i | 0 <= i < |events| - 1 ensures !events[1..][i].Typed? {
          assert events[1..][i] == events[i + 1];
        }
      }
      RunKeyedPrefix(remote, Step(remote, c, events[0]), events[1..]);
    }
  }

  /**
   * A reset that fires while nothing loads starts the search over: the emptied list is the
   * (empty) prefix of the remote collection for the current key, and the fetch asks for that key.
   */
  lemma ResetRestoresKeyedPrefix<T>(remote: string -> seq<T>, c: Component<T>)
    requires Consistent(c) && c.searchPending && !c.isLoading
    ensures KeyedPrefix(remote, DebounceFire(c).0)
  {
    assert remote(c.searchKey)[..0] == [];
  }

  /**
   * From start-up, with no search typed: the list is exactly the first `|contacts|` remote
   * contacts for the empty key, and never holds more than a known total.
   */
  lemma UnsearchedListIsPrefix<T>(remote: string -> seq<T>, events: seq<Event>)
    requires NoTyping(events)
    ensures var c := Run(remote, Connected(), events);
            var db := remote("");
            && c.searchKey == ""
            && |c.contacts| <= |db| && c.contacts == db[..|c.contacts|]
            && (c.totalCount != 0 ==> |c.contacts| <= c.totalCount)
  {
    assert remote("")[..0] == [];
    RunKeyedPrefix(remote, Connected(), events);
    RunKeepsKey(remote, Connected(), events);
  }

  lemma {:induction false} RunKeepsKey<T>(remote: string -> seq<T>, c: Component<T>, events: seq<Event>)
    requires NoTyping(events)
    ensures Run(remote, c, events).searchKey == c.searchKey
    decreases |events|
  {
    if events != [] {
      assert NoTyping(events[1..]) by {
        forall i | 0 <= i < |events| - 1 ensures !events[1..][i].Typed? {
          assert events[1..][i] == events[i + 1];
        }
      }
      RunKeepsKey(remote, Step(remote, c, events[0]), events[1..]);
    }
  }

  /** Keystrokes, one `Typed` event each. */
  function Keystrokes(values: seq<string>): (r: seq<Event>)
    ensures |r| == |values|
    ensures forall i :: 0 <= i < |values| ==> r[i] == Typed(values[i])
  {
    if values == [] then [] else [Typed(values[0])] + Keystrokes(values[1..])
  }

  /**
   * Any burst of keystrokes leaves the last value as the key and exactly one reset scheduled,
   * and changes nothing else.
   */
  lemma {:induction false} KeystrokesKeepLastKey<T>(remote: string -> seq<T>, c: Component<T>, values: seq<string>)
    requires values != []
    ensures Run(remote, c, Keystrokes(values)) == c.(searchKey := values[|values| - 1], searchPending := true)
    decreases |values|
  {
    var next := Step(remote, c, Typed(values[0]));
    assert Keystrokes(values)[1..] == Keystrokes(values[1..]);
    if |values| > 1 {
      KeystrokesKeepLastKey(remote, next, values[1..]);
    } else {
      assert Keystrokes(values[1..]) == [];
    }
  }

  /**
   * A burst of keystrokes followed by the timer firing makes exactly one reset request, for the
   * last value, when no load is running; a second firing does nothing.
   */
  lemma BurstThenFire<T>(remote: string -> seq<T>, c: Component<T>, values: seq<string>)
    requires values != [] && !c.isLoading
    ensures var typed := Run(remote, c, Keystrokes(values));
            && typed.searchPending && typed.searchKey == values[|values| - 1] && !typed.isLoading
            && var fired := DebounceFire(typed);
            && fired.1 == Some(FetchRequest(values[|values| - 1], 0, PageSize))
            && Step(remote, fired.0, TimerFires) == fired.0
  {
    KeystrokesKeepLastKey(remote, c, values);
  }

  /** A search whose timer fires while a load is running is lost: no reset load happens. */
  lemma SearchDroppedWhileLoading<T>(remote: string -> seq<T>, c: Component<T>, value: string)
    requires c.isLoading
    ensures var typed := SearchChange(c, value);
            var fired := Step(remote, typed, TimerFires);
            && fired.searchKey == value && !fired.searchPending
            && fired.contacts == c.contacts && fired.pending == c.pending
            && Step(remote, fired, TimerFires) == fired
  {
  }

  /** A scroll position at the very bottom of a 100-pixel container. */
  const AtBottom := ScrollMetrics(0, 100, 100)

  /** Fifteen contacts in all, and fifteen others that match the key "a". */
  function TwoKeyRemote(key: string): seq<int>
  {
    if key == "" then seq(15, i => i) else seq(15, i => 100 + i)
  }

  /**
   * As written, an append load reads the key at the moment it starts. Typing "a" and scrolling
   * to the bottom before the debounce fires fetches page 2 of "a" and appends it to page 1 of the
   * unsearched list; the reset then fires during that load and is dropped. The component ends
   * idle, keyed "a", with no reset scheduled, showing a mix of the two lists.
   */
  lemma MixedKeysAfterScrollDuringDebounce()
    ensures var c0 := Connected();
            var c1 := Step(TwoKeyRemote, c0, FetchSettles(true));
            var c2 := Step(TwoKeyRemote, c1, CountSettles(true));
            var c3 := Step(TwoKeyRemote, c2, Typed("a"));
            var c4 := Step(TwoKeyRemote, c3, Scrolled(AtBottom));
            var c5 := Step(TwoKeyRemote, c4, TimerFires);
            var c6 := Step(TwoKeyRemote, c5, FetchSettles(true));
            && c6.contacts == TwoKeyRemote("")[..10] + TwoKeyRemote("a")[10..15]
            && c6.searchKey == "a" && !c6.searchPending && !c6.isLoading
            && c6.contacts != TwoKeyRemote("a")[..|c6.contacts|]
  {
    var c1 := Step(TwoKeyRemote, Connected(), FetchSettles(true));
    assert c1.contacts == TwoKeyRemote("")[..10];
    var c2 := Step(TwoKeyRemote, c1, CountSettles(true));
    var c3 := Step(TwoKeyRemote, c2, Typed("a"));
    var c4 := Step(TwoKeyRemote, c3, Scrolled(AtBottom));
    assert c4.pending == AwaitingFetch(false, FetchRequest("a", 10, PageSize));
    var c5 := Step(TwoKeyRemote, c4, TimerFires);
    var c6 := Step(TwoKeyRemote, c5, FetchSettles(true));
    assert c6.contacts[0] == 0 != TwoKeyRemote("a")[0];
  }

  // ---------------------------------------------------------------------------------------
  // The component as an object with the source's fields.

  class LazyLoadContactsServer<T> {
    var contacts: seq<T>
    var isLoading: bool
    var noResults: bool
    var searchKey: string
    var offset: nat
    var totalCount: int
    /** The debounce slot: a reset load is scheduled and has not fired. */
    var searchPending: bool
    /** The suspended `loadContacts` call, if one is running. */
    var pending: Activation

    function State(): Component<T>
      reads this
    {
      Component(contacts, isLoading, noResults, searchKey, offset, totalCount, searchPending, pending)
    }

    ghost predicate Valid()
      reads this
    {
      Consistent(State())
    }

    /** The field initialisers. */
    constructor ()
      ensures Valid() && State() == Initial()
    {
      contacts := [];
      isLoading := false;
      noResults := false;
      searchKey := "";
      offset := 0;
      totalCount := 0;
      searchPending := false;
      pending := Idle;
    }

    /** `connectedCallback`: start the first, non-reset load. */
    method ConnectedCallback() returns (request: Option<FetchRequest>)
      requires State() == Initial()
      modifies this
      ensures Valid() && State() == Connected() && request.Some?
    {
      request := LoadContacts(false);
    }

    /** `loadContacts(reset)` up to its first `await`; returns the fetch it issues, if any. */
    method LoadContacts(reset: bool) returns (request: Option<FetchRequest>)
      modifies this
      ensures (State(), request) == LoadStart(old(State()), reset)
      ensures old(Valid()) && (reset || old(offset) == old(|contacts|)) ==> Valid()
    {
      if isLoading {
        return None;
      }
      isLoading := true;
      if reset {
        offset := 0;
        contacts := [];
        totalCount := 0;
      }
      var req := FetchRequest(searchKey, offset, PageSize);
      pending := AwaitingFetch(reset, req);
      request := Some(req);
    }

    /** `loadContacts` after `fetchContacts` settles; returns the count query it issues, if any. */
    method FinishFetch(fetched: Settled<seq<T>>) returns (countRequest: Option<string>)
      requires Valid() && pending.AwaitingFetch?
      modifies this
      ensures Valid()
      ensures (State(), countRequest) == FetchFinish(old(State()), fetched)
    {
      if fetched.Rejected? {
        isLoading := false;
        pending := Idle;
        return None;
      }
      var results := fetched.value;
      if pending.reset {
        contacts := results;
      } else {
        contacts := contacts + results;
      }
      noResults := |contacts| == 0;
      if totalCount == 0 {
        pending := AwaitingCount(|results|, searchKey);
        return Some(searchKey);
      }
      offset := offset + |results|;
      isLoading := false;
      pending := Idle;
      countRequest := None;
    }

    /** `loadContacts` after `getTotalCount` settles, through its `finally`. */
    method FinishCount(count: Settled<int>)
      requires Valid() && pending.AwaitingCount?
      modifies this
      ensures Valid()
      ensures State() == CountFinish(old(State()), count)
    {
      if count.Fulfilled? {
        totalCount := count.value;
        offset := offset + pending.advance;
      }
      isLoading := false;
      pending := Idle;
    }

    /** `handleScroll`; returns the fetch it issues, if any. */
    method HandleScroll(m: ScrollMetrics) returns (request: Option<FetchRequest>)
      requires Valid()
      modifies this
      ensures Valid()
      ensures (State(), request) == ScrollStep(old(State()), m)
    {
      var bottom := m.scrollTop + m.clientHeight >= m.scrollHeight - BottomThreshold;
      request := None;
      if bottom && !isLoading && |contacts| < totalCount {
        request := LoadContacts(false);
      }
    }

    /** `handleSearchChange`: store the key, then `debouncedSearch` (clear and re-arm the timer). */
    method HandleSearchChange(value: string)
      requires Valid()
      modifies this
      ensures Valid()
      ensures State() == SearchChange(old(State()), value)
    {
      searchKey := value;
      searchPending := true;
    }

    /** The debounce timer fires and runs `loadContacts(true)`; returns the fetch, if any. */
    method FireDebouncedSearch() returns (request: Option<FetchRequest>)
      requires Valid() && searchPending
      modifies this
      ensures Valid()
      ensures (State(), request) == DebounceFire(old(State()))
    {
      searchPending := false;
      request := LoadContacts(true);
    }
  }
}
