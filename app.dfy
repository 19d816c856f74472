/**
 * The catalogue page of the application shell: a list of records that is
 * filled page by page. On mount, while the list is empty, page 1 is loaded and
 * replaces the list; each "load more" click that the guard lets through asks
 * for the next page, moves the cursor on at once and, when the reply comes,
 * appends it. The two requests are I/O: a step that issues one returns it,
 * and the reply is handed to a separate step.
 */
module App {
  import opened Wrappers
  import CarTypes
  import CarApi

  /**
   * The shell's own record type. It is older than the catalogue's: the enum
   * fields are free strings, availability may be null, and there is no
   * creation timestamp.
   */
  datatype AppCar = AppCar(
    id: string,
    make: string,
    model: string,
    year: real,
    color: string,
    engineCapacity: Option<real>,
    engineType: Option<string>,
    enginePower: Option<real>,
    transmissionType: Option<string>,
    driveType: Option<string>,
    price: Option<real>,
    fuelConsumption: Option<real>,
    isAvailable: Option<bool>,
    description: Option<string>)

  /** The known number of pages: unbounded until the first reply says otherwise. */
  datatype PageBound = Infinity | Pages(n: int)

  /** `page >= totalPage`, where nothing is at or past infinity. */
  predicate AtOrPast(page: int, total: PageBound) {
    total.Pages? && page >= total.n
  }

  /** Both requests ask for ten records a page. */
  const PerPage: nat := 10

  /** A listing request: which page, and how many records to a page. */
  datatype PageRequest = PageRequest(page: int, perPage: nat)

  /** The three pieces of state, as one value. */
  datatype Pager = Pager(data: seq<AppCar>, page: int, totalPage: PageBound)

  // ---------------------------------------------------------------------------
  // The transitions, as functions on the state.

  /** The state when the page mounts. */
  function Initial(): (s: Pager)
    ensures s.data == [] && s.page == 1 && s.totalPage == Infinity
  {
    Pager([], 1, Infinity)
  }

  /** The request the load effect makes: page 1, and only while the list is empty. */
  function LoadRequest(s: Pager): (req: Option<PageRequest>)
    ensures req.Some? <==> |s.data| == 0
    ensures req.Some? ==> req.value == PageRequest(1, PerPage)
  {
    if |s.data| == 0 then Some(PageRequest(1, PerPage)) else None
  }

  /** The reply to the load effect replaces the list and the page count; the cursor stays. */
  function OnFirstPage(s: Pager, reply: CarTypes.APIResponse<AppCar>): Pager {
    Pager(reply.data, s.page, Pages(reply.pages))
  }

  /** Whether the load-more button is disabled. */
  predicate Disabled(s: Pager) {
    AtOrPast(s.page, s.totalPage)
  }

  /**
   * A load-more click: refused at or past the last page; otherwise it
   * requests the page after the cursor and moves the cursor on.
   */
  function Click(s: Pager): (Pager, Option<PageRequest>) {
    if AtOrPast(s.page, s.totalPage) then (s, None)
    else (s.(page := s.page + 1), Some(PageRequest(s.page + 1, PerPage)))
  }

  /** The reply to a click appends its records and refreshes the page count. */
  function OnNextPage(s: Pager, reply: CarTypes.APIResponse<AppCar>): Pager {
    Pager(s.data + reply.data, s.page, Pages(reply.pages))
  }

  // ---------------------------------------------------------------------------
  // The component's state, updated in place.

  class AppState {
    var data: seq<AppCar>
    var page: int
    var totalPage: PageBound

    function State(): Pager
      reads this
    {
      Pager(data, page, totalPage)
    }

    /** Mounting: an empty list, the cursor at page 1, no known page count. */
    constructor()
      ensures State() == Initial()
      ensures data == [] && page == 1 && totalPage == Infinity
    {
      data := [];
      page := 1;
      totalPage := Infinity;
    }

    /** `disabled={page >= totalPage}` on the load-more button. */
    function LoadMoreDisabled(): (b: bool)
      reads this
      ensures b <==> totalPage.Pages? && page >= totalPage.n
      ensures b <==> Disabled(State())
    {
      AtOrPast(page, totalPage)
    }

    /** The load effect: asks for page 1 exactly when the list is empty, and changes nothing yet. */
    method RunLoadEffect() returns (req: Option<PageRequest>)
      ensures req.Some? <==> |data| == 0
      ensures req.Some? ==> req.value.page == 1 && req.value.perPage == PerPage
      ensures req == LoadRequest(State())
    {
      if |data| == 0 {
        req := Some(PageRequest(1, PerPage));
      } else {
        req := None;
      }
    }

    /** The reply to the load effect replaces the list and the page count. */
    method ReceiveFirstPage(reply: CarTypes.APIResponse<AppCar>)
      modifies this
      ensures data == reply.data && totalPage == Pages(reply.pages) && page == old(page)
      ensures State() == OnFirstPage(old(State()), reply)
    {
      data := reply.data;
      totalPage := Pages(reply.pages);
    }

    /**
     * `clickHandle`: at or past the last page it returns with no request and
     * no change; otherwise it requests page `page + 1` and moves the cursor
     * there before any reply arrives.
     */
    method ClickHandle() returns (req: Option<PageRequest>)
      modifies this
      ensures old(LoadMoreDisabled()) ==> req == None && page == old(page)
      ensures !old(LoadMoreDisabled()) ==> req == Some(PageRequest(old(page) + 1, PerPage)) && page == old(page) + 1
      ensures data == old(data) && totalPage == old(totalPage)
      ensures (State(), req) == Click(old(State()))
    {
      if totalPage.Pages? && page >= totalPage.n {
        req := None;
        return;
      }
      req := Some(PageRequest(page + 1, PerPage));
      page := page + 1;
    }

    /** The reply to a click: its records go after the ones already shown. */
    method ReceiveNextPage(reply: CarTypes.APIResponse<AppCar>)
      modifies this
      ensures data == old(data) + reply.data
      ensures totalPage == Pages(reply.pages) && page == old(page)
      ensures State() == OnNextPage(old(State()), reply)
    {
      data := data + reply.data;
      totalPage := Pages(reply.pages);
    }
  }

  // ---------------------------------------------------------------------------
  // Properties of the transitions.

  /** On mount the list is empty, so page 1 is requested, and the first click is let through. */
  lemma InitialLoadsAndClicks()
    ensures LoadRequest(Initial()) == Some(PageRequest(1, PerPage))
    ensures !Disabled(Initial())
    ensures Click(Initial()).1 == Some(PageRequest(2, PerPage))
  {}

  /** A click is refused, with no request and no change, exactly when the button is disabled. */
  lemma ClickRefusedIffDisabled(s: Pager)
    ensures Click(s).1.None? <==> Disabled(s)
    ensures Disabled(s) ==> Click(s).0 == s
  {}

  /**
   * A click that goes through asks for the page after the cursor, advances
   * the cursor by exactly one and leaves the list and the page count alone.
   */
  lemma ClickAdvancesByOne(s: Pager)
    requires !Disabled(s)
    ensures Click(s).1 == Some(PageRequest(s.page + 1, PerPage))
    ensures Click(s).0.page == s.page + 1
    ensures Click(s).0.data == s.data && Click(s).0.totalPage == s.totalPage
  {}

  /** Appending a reply of j records to k: k + j records, the old ones first and in order. */
  lemma NextPageAppends(s: Pager, reply: CarTypes.APIResponse<AppCar>)
    ensures |OnNextPage(s, reply).data| == |s.data| + |reply.data|
    ensures OnNextPage(s, reply).data[..|s.data|] == s.data
    ensures OnNextPage(s, reply).data[|s.data|..] == reply.data
    ensures OnNextPage(s, reply).totalPage == Pages(reply.pages)
    ensures OnNextPage(s, reply).page == s.page
  {}

  /** The first reply sets the list wholesale and the page count, and leaves the cursor. */
  lemma FirstPageReplaces(s: Pager, reply: CarTypes.APIResponse<AppCar>)
    ensures OnFirstPage(s, reply).data == reply.data
    ensures OnFirstPage(s, reply).totalPage == Pages(reply.pages)
    ensures OnFirstPage(s, reply).page == s.page
    ensures |reply.data| > 0 ==> LoadRequest(OnFirstPage(s, reply)).None?
  {}

  // ---------------------------------------------------------------------------
  // A whole session against a listing whose pages are served in order.

  /**
   * The state after mounting, the first page's reply, and k clicks each
   * followed by the reply to its request, against a store holding `all`.
   */
  ghost function Session(all: seq<AppCar>, k: nat): Pager
    decreases k
  {
    if k == 0 then OnFirstPage(Initial(), CarApi.ServePage(all, 1, PerPage))
    else
      var (s, req) := Click(Session(all, k - 1));
      if req.Some? && req.value.page >= 1 then OnNextPage(s, CarApi.ServePage(all, req.value.page, PerPage))
      else s
  }

  lemma PrefixesJoin(all: seq<AppCar>, i: nat, j: nat)
    requires i <= j <= |all|
    ensures all[..i] + all[i..j] == all[..j]
  {}

  /**
   * Before the last page, the cursor is at k + 1, the page count is the
   * store's, and the list holds the first 10(k + 1) records (or all of them),
   * in the store's order: nothing is skipped or shown twice.
   */
  lemma {:induction false} SessionShowsPrefix(all: seq<AppCar>, k: nat)
    requires k < CarApi.PageCount(|all|, PerPage)
    ensures Session(all, k).page == k + 1
    ensures Session(all, k).totalPage == Pages(CarApi.PageCount(|all|, PerPage))
    ensures Session(all, k).data == all[..CarApi.Min(PerPage * (k + 1), |all|)]
    decreases k
  {
    var pages := CarApi.PageCount(|all|, PerPage);
    if k == 0 {
      assert pages >= 1;
    } else {
      SessionShowsPrefix(all, k - 1);
      var prev := Session(all, k - 1);
      assert !Disabled(prev);
      var reply := CarApi.ServePage(all, k + 1, PerPage);
      assert PerPage * k < |all|;
      assert reply.data == all[PerPage * k .. CarApi.Min(PerPage * k + PerPage, |all|)];
      PrefixesJoin(all, PerPage * k, CarApi.Min(PerPage * (k + 1), |all|));
    }
  }

  /**
   * On the last page (cursor `last + 1` of `last + 1` pages) the button is
   * disabled and the list is exactly the store's listing.
   */
  lemma SessionEndsWithAll(all: seq<AppCar>, last: nat)
    requires |all| > 0 && last + 1 == CarApi.PageCount(|all|, PerPage)
    ensures Disabled(Session(all, last))
    ensures Session(all, last).data == all
  {
    LastPageCovers(|all|);
    SessionShowsPrefix(all, last);
    assert all[..|all|] == all;
  }

  lemma LastPageCovers(n: nat)
    requires n > 0
    ensures CarApi.PageCount(n, PerPage) >= 1
    ensures CarApi.Min(PerPage * CarApi.PageCount(n, PerPage), n) == n
  {
    var pages := CarApi.PageCount(n, PerPage);
    assert n <= pages * PerPage;
  }

  /** Once on the last page, further clicks change nothing. */
  lemma {:induction false} SessionStops(all: seq<AppCar>, last: nat, k: nat)
    requires |all| > 0 && last + 1 == CarApi.PageCount(|all|, PerPage)
    requires k >= last
    ensures Session(all, k) == Session(all, last)
    decreases k
  {
    if k > last {
      SessionStops(all, last, k - 1);
      SessionEndsWithAll(all, last);
    }
  }

  /**
   * Against an empty store the first reply leaves the list empty, so the
   * load condition holds again; the page count is 0 and the button is disabled.
   */
  lemma EmptyStoreReloads(all: seq<AppCar>)
    requires |all| == 0
    ensures LoadRequest(Session(all, 0)) == Some(PageRequest(1, PerPage))
    ensures Session(all, 0).totalPage == Pages(0) && Disabled(Session(all, 0))
  {}

  /**
   * Reload rounds against an empty store: each time the load effect runs
   * it asks for page 1, and the reply sets the list to empty again.
   */
  ghost function EmptyRounds(n: nat): Pager
    decreases n
  {
    if n == 0 then Initial()
    else OnFirstPage(EmptyRounds(n - 1), CarApi.ServePage([], 1, PerPage))
  }

  /**
   * Against an empty store the load effect never stops asking: after any
   * number of replies the list is still empty, the cursor is still at page 1
   * (the load never moves it) and page 1 is requested again; from the first
   * reply on, the load-more button is disabled.
   */
  lemma {:induction false} EmptyStoreNeverSettles(n: nat)
    ensures EmptyRounds(n).data == []
    ensures LoadRequest(EmptyRounds(n)) == Some(PageRequest(1, PerPage))
    ensures n > 0 ==> EmptyRounds(n).totalPage == Pages(0)
    ensures EmptyRounds(n).page == 1
    ensures !Disabled(EmptyRounds(n)) <==> n == 0
    decreases n
  {
    if n > 0 {
      EmptyStoreNeverSettles(n - 1);
    }
  }

  /**
   * A click whose reply never arrives has still moved the cursor on: the next
   * click asks for the page after the one that was lost, so that page is
   * never requested again.
   */
  lemma LostReplySkipsPage(s: Pager)
    requires !Disabled(s) && !Disabled(Click(s).0)
    ensures Click(s).1 == Some(PageRequest(s.page + 1, PerPage))
    ensures Click(Click(s).0).1 == Some(PageRequest(s.page + 2, PerPage))
    ensures Click(Click(s).0).0.data == s.data
  {}
}
