/**
 * The pagination algorithm every paged resource shares: the `CachedPage`
 * trait's default methods (src/api/mod.rs) together with its two
 * implementations, `BoardPage` (src/api/board/page.rs) and `PostPage`
 * (src/api/post/page.rs). The two differ only in their url and in how they
 * read the last page number off page 1, so one class serves both and
 * dispatches on the `Resource` it was built for.
 */
module CachedPage {
  import opened Wrappers
  import opened Numbers
  import opened Urls
  import opened Boards
  import opened PostParams

  /** What a cache pages through: a board, or a thread addressed by board, thread and floor. */
  datatype Resource =
    | BoardResource(id: string)
    | PostResource(boardId: string, id: string, floor: U16)

  /** `url(&self, page)` of each implementation. */
  function PageUrl(r: Resource, page: U16): Url {
    match r
    case BoardResource(id) => BoardUrl(id, page)
    case PostResource(boardId, id, floor) => PostUrl(boardId, id, page, floor)
  }

  /**
   * The page source the cache calls: `fetch` is `get_document` (None on any
   * network failure), `parse` is `T::try_from(WebSite { url, document })`,
   * and `pager` gives the text nodes of the last `.BH-pagebtnA a` link of a
   * page, or None when the page has no such link.
   */
  datatype Source<T> = Source(
    fetch: Url -> Option<Html>,
    parse: (Url, Html) -> Option<T>,
    pager: Html -> Option<seq<string>>)

  /**
   * Everything a cache holds. `max == 0` means the last page is not known
   * yet; `page == 0` is the cursor's position below the first page.
   */
  datatype PageState<T> = PageState(
    resource: Resource,
    page: U16,
    max: U16,
    cache: map<U16, Option<T>>,
    firstPage: Option<Html>)

  /** `is_over_min`: the cursor is below the first page. */
  predicate IsOverMin<T>(s: PageState<T>) {
    s.page == 0
  }

  /** `is_over_max`: the last page is known and the cursor is past it. */
  predicate IsOverMax<T>(s: PageState<T>) {
    s.max != 0 && s.page > s.max
  }

  /** A page lies past a known last page. */
  predicate OutOfRange<T>(s: PageState<T>, page: U16) {
    s.max != 0 && page > s.max
  }

  /** `cached_page_html`: the page-1 snapshot, for page 1 only. */
  function CachedPageHtml<T>(s: PageState<T>, page: U16): Option<Html> {
    if page == 1 then s.firstPage else None
  }

  /** Whether `get(page, ignoreCache)` goes to the network. */
  predicate Fetches<T>(s: PageState<T>, page: U16, ignoreCache: bool) {
    !OutOfRange(s, page) && (ignoreCache || page !in s.cache) && CachedPageHtml(s, page).None?
  }

  /** The document `get` parses on a miss: the snapshot if there is one, otherwise a fetch. */
  function Document<T>(s: PageState<T>, src: Source<T>, page: U16): Option<Html> {
    if CachedPageHtml(s, page).Some? then CachedPageHtml(s, page) else src.fetch(PageUrl(s.resource, page))
  }

  /** `get(page, ignore_cache)`: a read that never changes the cache or the cursor. */
  function Get<T>(s: PageState<T>, src: Source<T>, page: U16, ignoreCache: bool): Option<T> {
    if OutOfRange(s, page) then None
    else if !ignoreCache && page in s.cache then s.cache[page]
    else
      match Document(s, src, page)
      case None => None
      case Some(doc) => src.parse(PageUrl(s.resource, page), doc)
  }

  /** `get_and_cache`: the state afterwards and the value returned. */
  function CacheStep<T>(s: PageState<T>, src: Source<T>, page: U16, ignoreCache: bool): (PageState<T>, Option<T>) {
    var r := Get(s, src, page, ignoreCache);
    (s.(cache := s.cache[page := r]), r)
  }

  /** `next` (`force == false`) and `force_next` (`force == true`). */
  function NextStep<T>(s: PageState<T>, src: Source<T>, force: bool): (PageState<T>, Option<T>)
    requires IsOverMax(s) || s.page < U16Max
  {
    if IsOverMax(s) then (s, None)
    else
      var moved := s.(page := s.page + 1);
      (moved, Get(moved, src, moved.page, force))
  }

  /** `previous` (`force == false`) and `force_previous` (`force == true`). */
  function PreviousStep<T>(s: PageState<T>, src: Source<T>, force: bool): (PageState<T>, Option<T>) {
    if IsOverMin(s) then (s, None)
    else
      var moved := s.(page := s.page - 1);
      (moved, Get(moved, src, moved.page, force))
  }

  /** `collect::<String>()` over text nodes. */
  function Concat(texts: seq<string>): string {
    if texts == [] then "" else Concat(texts[..|texts| - 1]) + texts[|texts| - 1]
  }

  /**
   * `try_page_from_html` returns instead of panicking. A board's version
   * unwraps both the link and the number read from all of its text; a
   * thread's version gives up quietly without a link or text, but still
   * unwraps the number read from the first text node.
   */
  predicate PagerReadable(r: Resource, texts: Option<seq<string>>) {
    match r
    case BoardResource(_) => texts.Some? && ParseU16(Concat(texts.value)).Some?
    case PostResource(_, _, _) => texts.Some? && |texts.value| > 0 ==> ParseU16(texts.value[0]).Some?
  }

  /** `try_page_from_html(..).map_or(0, |v| v)`: the last page a page-1 pager names, or 0. */
  function MaxFromPager(r: Resource, texts: Option<seq<string>>): U16
    requires PagerReadable(r, texts)
  {
    match r
    case BoardResource(_) => ParseU16(Concat(texts.value)).value
    case PostResource(_, _, _) => if texts.None? || texts.value == [] then 0 else ParseU16(texts.value[0]).value
  }

  /**
   * A board's last page read as a thread's is: 0 when page 1 has no pager
   * link or its text is not a number, instead of a panic. Wherever the
   * board's own reading does not panic, the two agree.
   */
  function BoardMaxIntended(id: string, texts: Option<seq<string>>): (m: U16)
    ensures texts.None? ==> m == 0
    ensures PagerReadable(BoardResource(id), texts) ==> m == MaxFromPager(BoardResource(id), texts)
  {
    if texts.Some? && ParseU16(Concat(texts.value)).Some? then ParseU16(Concat(texts.value)).value else 0
  }

  /** `init` does not panic: page 1, when it can be fetched, has a readable pager. */
  predicate InitSafe<T>(s: PageState<T>, src: Source<T>) {
    var doc := src.fetch(PageUrl(s.resource, 1));
    doc.Some? ==> PagerReadable(s.resource, src.pager(doc.value))
  }

  /** `init`: fetch page 1, learn the last page from it and keep it as the snapshot. */
  function InitStep<T>(s: PageState<T>, src: Source<T>): PageState<T>
    requires InitSafe(s, src)
  {
    match src.fetch(PageUrl(s.resource, 1))
    case None => s
    case Some(doc) => s.(max := MaxFromPager(s.resource, src.pager(doc)), firstPage := Some(doc))
  }

  /** Different boards or different pages never share a url. */
  lemma BoardUrlInjective(id1: string, page1: U16, id2: string, page2: U16)
    requires BoardUrl(id1, page1) == BoardUrl(id2, page2)
    ensures id1 == id2 && page1 == page2
  {
    var q1, q2 := BoardUrl(id1, page1).query, BoardUrl(id2, page2).query;
    assert q1[0].1 == q2[0].1 && q1[1].1 == q2[1].1;
    DecimalValue(page1);
    DecimalValue(page2);
  }

  /** Past a known last page `get` answers `None` and does not go to the network. */
  lemma GetOutOfRange<T>(s: PageState<T>, src: Source<T>, page: U16, ignoreCache: bool)
    requires OutOfRange(s, page)
    ensures Get(s, src, page, ignoreCache) == None
    ensures !Fetches(s, page, ignoreCache)
  {
  }

  /** Where `get` does not fetch, what the network would answer cannot change its result. */
  lemma GetWithoutFetch<T>(s: PageState<T>, src: Source<T>, other: Source<T>, page: U16, ignoreCache: bool)
    requires !Fetches(s, page, ignoreCache) && src.parse == other.parse
    ensures Get(s, src, page, ignoreCache) == Get(s, other, page, ignoreCache)
  {
  }

  /** A cached entry is returned as stored, a stored `None` included, without a fetch. */
  lemma GetCacheHit<T>(s: PageState<T>, src: Source<T>, page: U16)
    requires !OutOfRange(s, page) && page in s.cache
    ensures Get(s, src, page, false) == s.cache[page]
    ensures !Fetches(s, page, false)
  {
  }

  /**
   * On a miss the page-1 snapshot is tried before the network, and the
   * answer is a value only when a document was obtained and parsed.
   */
  lemma GetMiss<T>(s: PageState<T>, src: Source<T>, page: U16, ignoreCache: bool)
    requires !OutOfRange(s, page) && (ignoreCache || page !in s.cache)
    ensures Fetches(s, page, ignoreCache) <==> !(page == 1 && s.firstPage.Some?)
    ensures page == 1 && s.firstPage.Some? ==>
      Get(s, src, page, ignoreCache) == src.parse(PageUrl(s.resource, 1), s.firstPage.value)
    ensures Get(s, src, page, ignoreCache).Some? <==>
      Document(s, src, page).Some? && src.parse(PageUrl(s.resource, page), Document(s, src, page).value).Some?
  {
  }

  /** Forcing is reading as though the page had never been cached. */
  lemma ForceIgnoresCache<T>(s: PageState<T>, src: Source<T>, page: U16)
    ensures Get(s, src, page, true) == Get(s.(cache := s.cache - {page}), src, page, false)
  {
  }

  /**
   * `get_and_cache` returns what `get` returns and stores it under `page`,
   * out-of-range `None` included; nothing else changes.
   */
  lemma CacheStepWrites<T>(s: PageState<T>, src: Source<T>, page: U16, ignoreCache: bool)
    ensures CacheStep(s, src, page, ignoreCache).1 == Get(s, src, page, ignoreCache)
    ensures var t := CacheStep(s, src, page, ignoreCache).0;
      && t.cache.Keys == s.cache.Keys + {page}
      && t.cache[page] == Get(s, src, page, ignoreCache)
      && (forall q :: q in s.cache && q != page ==> t.cache[q] == s.cache[q])
      && t.(cache := s.cache) == s
    ensures OutOfRange(s, page) ==> CacheStep(s, src, page, ignoreCache).0.cache[page] == None
  {
  }

  /** After `get_and_cache`, a plain `get` of the same page gives the same answer and does not fetch. */
  lemma CacheRoundTrip<T>(s: PageState<T>, src: Source<T>, page: U16, ignoreCache: bool)
    ensures var (t, r) := CacheStep(s, src, page, ignoreCache);
      Get(t, src, page, false) == r && !Fetches(t, page, false)
  {
  }

  /** A second unforced `get_and_cache` of a page changes nothing and answers as the first did. */
  lemma CacheStepIdempotent<T>(s: PageState<T>, src: Source<T>, page: U16)
    ensures var (t, r) := CacheStep(s, src, page, false);
      CacheStep(t, src, page, false) == (t, r)
  {
    var (t, r) := CacheStep(s, src, page, false);
    assert t.cache[page := r] == t.cache;
  }

  /** `next` past a known last page does nothing. */
  lemma NextBlocked<T>(s: PageState<T>, src: Source<T>, force: bool)
    requires IsOverMax(s)
    ensures NextStep(s, src, force) == (s, None)
  {
  }

  /** Otherwise `next` moves the cursor by one, leaves the cache alone and reads the new page. */
  lemma NextAdvances<T>(s: PageState<T>, src: Source<T>, force: bool)
    requires !IsOverMax(s) && s.page < U16Max
    ensures var (t, r) := NextStep(s, src, force);
      t == s.(page := s.page + 1) && r == Get(t, src, t.page, force)
  {
  }

  /**
   * From the last page itself `next` still moves: the cursor lands one past
   * the last page and the answer is `None`; only the following `next` is
   * refused.
   */
  lemma NextFromLastPage<T>(s: PageState<T>, src: Source<T>, force: bool)
    requires s.max != 0 && s.page == s.max && s.max < U16Max
    ensures NextStep(s, src, force) == (s.(page := s.max + 1), None)
    ensures NextStep(s.(page := s.max + 1), src, force) == (s.(page := s.max + 1), None)
  {
  }

  /** `n` calls of `next` (or of `force_next`) in a row. */
  function Advance<T>(s: PageState<T>, src: Source<T>, n: nat, force: bool): (t: PageState<T>)
    requires s.max != 0 && s.max < U16Max && s.page <= s.max + 1
    ensures t.max == s.max && t.cache == s.cache && t.resource == s.resource
    ensures s.page <= t.page <= s.max + 1
    ensures s.page + n <= s.max + 1 ==> t.page == s.page + n
    decreases n
  {
    if n == 0 then s else Advance(NextStep(s, src, force).0, src, n - 1, force)
  }

  /** `previous` below the first page does nothing: the cursor stays at 0. */
  lemma PreviousAtZero<T>(s: PageState<T>, src: Source<T>, force: bool)
    requires IsOverMin(s)
    ensures PreviousStep(s, src, force) == (s, None)
  {
  }

  /** Otherwise `previous` moves the cursor back by one, leaves the cache alone and reads the new page. */
  lemma PreviousRetreats<T>(s: PageState<T>, src: Source<T>, force: bool)
    requires !IsOverMin(s)
    ensures var (t, r) := PreviousStep(s, src, force);
      t == s.(page := s.page - 1) && r == Get(t, src, t.page, force)
  {
  }

  /** Within the range the cursor can reach, `next` undoes `previous`. */
  lemma PreviousThenNext<T>(s: PageState<T>, src: Source<T>, back: bool, forth: bool)
    requires !IsOverMin(s) && (s.max == 0 || s.page <= s.max + 1)
    ensures var t := PreviousStep(s, src, back).0;
      !IsOverMax(t) && NextStep(t, src, forth).0 == s
  {
  }

  /** `init` after a failed fetch of page 1 changes nothing. */
  lemma InitFetchFails<T>(s: PageState<T>, src: Source<T>)
    requires src.fetch(PageUrl(s.resource, 1)).None?
    ensures InitSafe(s, src) && InitStep(s, src) == s
  {
  }

  /**
   * A successful `init` sets the last page from page 1's pager and keeps page
   * 1 as the snapshot, after which reading page 1 needs no second fetch.
   */
  lemma InitLearnsMax<T>(s: PageState<T>, src: Source<T>, doc: Html, other: Source<T>, ignoreCache: bool)
    requires InitSafe(s, src) && src.fetch(PageUrl(s.resource, 1)) == Some(doc)
    requires other.parse == src.parse && (ignoreCache || 1 !in s.cache)
    ensures InitStep(s, src) == s.(max := MaxFromPager(s.resource, src.pager(doc)), firstPage := Some(doc))
    ensures Get(InitStep(s, src), other, 1, ignoreCache) == src.parse(PageUrl(s.resource, 1), doc)
  {
  }

  /** A thread whose first page has no pager link has one page that is not known as a bound: max stays 0. */
  lemma PostInitWithoutPager<T>(s: PageState<T>, src: Source<T>, doc: Html)
    requires s.resource.PostResource? && src.fetch(PageUrl(s.resource, 1)) == Some(doc) && src.pager(doc).None?
    ensures InitSafe(s, src) && InitStep(s, src).max == 0
  {
  }

  /**
   * A fresh board cache initialised against a page 1 whose last pager link
   * reads "5" knows 5 pages: page 6 is `None` without a fetch, page 5 is
   * fetched and parsed.
   */
  lemma BoardInitScenario<T>(id: string, src: Source<T>, doc: Html, doc5: Html, board5: T)
    requires src.fetch(BoardUrl(id, 1)) == Some(doc) && src.pager(doc) == Some(["5"])
    requires src.fetch(BoardUrl(id, 5)) == Some(doc5) && src.parse(BoardUrl(id, 5), doc5) == Some(board5)
    ensures var s := PageState(BoardResource(id), 1, 0, map[], None);
      InitSafe(s, src) && InitStep(s, src).max == 5
      && Get(InitStep(s, src), src, 6, false) == None
      && Get(InitStep(s, src), src, 5, false) == Some(board5)
  {
    var s := PageState(BoardResource(id), 1, 0, map[], None);
    assert PageUrl(s.resource, 1) == BoardUrl(id, 1);
    assert Concat(["5"]) == "5" by { assert ["5"][..0] == []; }
    assert ParseU16("5") == Some(5) by {
      assert AllDigits("5");
      assert DigitsValue("5") == 5 by { assert "5"[..0] == ""; }
    }
    assert MaxFromPager(s.resource, Some(["5"])) == 5;
    var t := InitStep(s, src);
    assert t == s.(max := 5, firstPage := Some(doc));
    assert OutOfRange(t, 6);
    assert PageUrl(t.resource, 5) == BoardUrl(id, 5);
    assert Document(t, src, 5) == Some(doc5);
  }

  /** `PostPageRef`: the plain fields of a thread cache. */
  datatype PostPageRef = PostPageRef(boardId: string, id: string, page: U16, max: U16, floor: U16)

  /** One paged resource: its cursor, its last page once known, its page cache and its page-1 snapshot. */
  class PagedCache<T> {
    var resource: Resource
    var page: U16
    var max: U16
    var cache: map<U16, Option<T>>
    var firstPage: Option<Html>
    const source: Source<T>

    function State(): PageState<T>
      reads this
    {
      PageState(resource, page, max, cache, firstPage)
    }

    /** `BoardPage::new(id)`: on page 1, last page unknown, nothing cached. */
    constructor NewBoard(id: string, source: Source<T>)
      ensures State() == PageState(BoardResource(id), 1, 0, map[], None)
      ensures this.source == source
    {
      resource := BoardResource(id);
      page, max := 1, 0;
      cache, firstPage := map[], None;
      this.source := source;
    }

    /** `BoardPage::from_page(id, page)`: on the given page, last page unknown, nothing cached. */
    constructor BoardFromPage(id: string, page: U16, source: Source<T>)
      ensures State() == PageState(BoardResource(id), page, 0, map[], None)
      ensures this.source == source
    {
      resource := BoardResource(id);
      this.page, max := page, 0;
      cache, firstPage := map[], None;
      this.source := source;
    }

    /** `PostPage::new(board_id, id)`: floor 0, on page 1, last page unknown, nothing cached. */
    constructor NewPost(boardId: string, id: string, source: Source<T>)
      ensures State() == PageState(PostResource(boardId, id, 0), 1, 0, map[], None)
      ensures this.source == source
    {
      resource := PostResource(boardId, id, 0);
      page, max := 1, 0;
      cache, firstPage := map[], None;
      this.source := source;
    }

    /** `PostPage::try_from(PostPageUrlParameter)`: `new`, then `floor`; it never fails. */
    constructor FromParameter(param: PostPageUrlParameter, source: Source<T>)
      ensures State() == PageState(PostResource(param.boardId, param.id, param.floor), 1, 0, map[], None)
      ensures this.source == source
    {
      resource := PostResource(param.boardId, param.id, 0);
      page, max := 1, 0;
      cache, firstPage := map[], None;
      this.source := source;
      new;
      SetFloor(param.floor);
    }

    /** `PostPage::floor`: sets the thread's floor and nothing else. */
    method SetFloor(floor: U16)
      requires resource.PostResource?
      modifies this
      ensures State() == old(State()).(resource := old(resource).(floor := floor))
    {
      resource := resource.(floor := floor);
    }

    /** `init`: on a failed fetch nothing changes; otherwise the last page and the snapshot are set. */
    method Init()
      requires InitSafe(State(), source)
      modifies this
      ensures State() == InitStep(old(State()), source)
    {
      var doc := source.fetch(PageUrl(resource, 1));
      if doc.Some? {
        max := MaxFromPager(resource, source.pager(doc.value));
        firstPage := doc;
      }
    }

    /** `insert_cache`: entry `p` becomes `obj`, every other entry and field stays. */
    method InsertCache(p: U16, obj: Option<T>)
      modifies this
      ensures State() == old(State()).(cache := old(cache)[p := obj])
    {
      cache := cache[p := obj];
    }

    /** `increase_page`; `page += 1` panics at the top of `u16`. */
    method IncreasePage()
      requires page < U16Max
      modifies this
      ensures State() == old(State()).(page := old(page) + 1)
    {
      page := page + 1;
    }

    /** `decrease_page`; `page -= 1` panics at 0. */
    method DecreasePage()
      requires page > 0
      modifies this
      ensures State() == old(State()).(page := old(page) - 1)
    {
      page := page - 1;
    }

    /** `get_current`: past a known last page nothing; a cached current page as stored. */
    function GetCurrent(): (r: Option<T>)
      reads this
      ensures IsOverMax(State()) ==> r.None?
      ensures page in cache && !IsOverMax(State()) ==> r == cache[page]
    {
      Get(State(), source, page, false)
    }

    /** `get_current_force`: past a known last page nothing; otherwise a read as though uncached. */
    function GetCurrentForce(): (r: Option<T>)
      reads this
      ensures IsOverMax(State()) ==> r.None?
      ensures !IsOverMax(State()) ==> r == Get(State().(cache := cache - {page}), source, page, false)
    {
      Get(State(), source, page, true)
    }

    /** `get_and_cache`: whatever `get` returns is written to the cache, even an out-of-range `None`. */
    method GetAndCache(p: U16, ignoreCache: bool) returns (r: Option<T>)
      modifies this
      ensures (State(), r) == CacheStep(old(State()), source, p, ignoreCache)
    {
      r := Get(State(), source, p, ignoreCache);
      InsertCache(p, r);
    }

    /** `get_current_and_cache`. */
    method GetCurrentAndCache() returns (r: Option<T>)
      modifies this
      ensures (State(), r) == CacheStep(old(State()), source, old(page), false)
    {
      r := GetAndCache(page, false);
    }

    /** `get_current_force_and_cache`. */
    method GetCurrentForceAndCache() returns (r: Option<T>)
      modifies this
      ensures (State(), r) == CacheStep(old(State()), source, old(page), true)
    {
      r := GetAndCache(page, true);
    }

    /** `next`. */
    method Next() returns (r: Option<T>)
      requires IsOverMax(State()) || page < U16Max
      modifies this
      ensures (State(), r) == NextStep(old(State()), source, false)
    {
      if IsOverMax(State()) {
        r := None;
      } else {
        IncreasePage();
        r := Get(State(), source, page, false);
      }
    }

    /** `force_next`. */
    method ForceNext() returns (r: Option<T>)
      requires IsOverMax(State()) || page < U16Max
      modifies this
      ensures (State(), r) == NextStep(old(State()), source, true)
    {
      if IsOverMax(State()) {
        r := None;
      } else {
        IncreasePage();
        r := Get(State(), source, page, true);
      }
    }

    /** `previous`. */
    method Previous() returns (r: Option<T>)
      modifies this
      ensures (State(), r) == PreviousStep(old(State()), source, false)
    {
      if IsOverMin(State()) {
        r := None;
      } else {
        DecreasePage();
        r := Get(State(), source, page, false);
      }
    }

    /** `force_previous`. */
    method ForcePrevious() returns (r: Option<T>)
      modifies this
      ensures (State(), r) == PreviousStep(old(State()), source, true)
    {
      if IsOverMin(State()) {
        r := None;
      } else {
        DecreasePage();
        r := Get(State(), source, page, true);
      }
    }

    /** `PostPageRef::try_from(&PostPage)`: copies the thread's fields, but takes `max` from `page`. */
    function ToRef(): (r: Result<PostPageRef, string>)
      reads this
      requires resource.PostResource?
      ensures r.Ok?
      ensures r.value.boardId == resource.boardId && r.value.id == resource.id && r.value.floor == resource.floor
      ensures r.value.page == page && r.value.max == page
    {
      Ok(PostPageRef(resource.boardId, resource.id, page, page, resource.floor))
    }

    /** `PostPageRef::try_from(&PostPage)` as evidently intended: `max` is the thread's last page. */
    function ToRefIntended(): (r: Result<PostPageRef, string>)
      reads this
      requires resource.PostResource?
      ensures r.Ok?
      ensures r.value.boardId == resource.boardId && r.value.id == resource.id && r.value.floor == resource.floor
      ensures r.value.page == page && r.value.max == max
    {
      Ok(PostPageRef(resource.boardId, resource.id, page, max, resource.floor))
    }
  }

  /**
   * The reference `ToRef` builds loses the last page whenever the cursor is
   * not on it: a thread on page 1 of 5 gives a reference whose last page is 1.
   */
  lemma RefLosesMax<T>(c: PagedCache<T>)
    requires c.resource.PostResource? && c.page == 1 && c.max == 5
    ensures c.ToRef().value.max == 1 != c.max
    ensures c.ToRefIntended().value.max == 5
  {
  }
}
