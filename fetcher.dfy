/**
 * The fetch worker of src/main.rs (`run_fetcher`): it takes requests one at
 * a time, keeps one paged cache per board and per thread url, and sends one
 * response for every request until it is told to end.
 */
module Fetcher {
  import opened Wrappers
  import opened Numbers
  import opened Urls
  import opened Boards
  import opened PostParams
  import opened CachedPage
  import opened Comments
  import opened Search

  /** `DataRequestMsg`. */
  datatype Request =
    | SearchRequest(query: string)
    | BoardPageRequest(id: string, page: U16, useCache: bool)
    | PostPageRequest(url: string, page: U16, useCache: bool)
    | CommentPageRequest(id: string, cId: string)
    | End

  /** `PageData`: a page's contents with the page it is and the last page known. */
  datatype PageData<T> = PageData(page: U16, max: U16, items: T)

  /** `FetchDataMsg`. */
  datatype Response =
    | SearchResults(results: seq<SearchResult>)
    | BoardPageResponse(boardData: PageData<seq<BoardPost>>)
    | PostPageResponse(postData: PageData<Post>)
    | CommentPageResponse(comments: seq<PostComment>)

  /**
   * What the worker calls outside itself: the page sources of boards and
   * threads, `Url::parse`, the board search and the comment JSON fetch.
   */
  datatype Env = Env(
    boards: Source<Board>,
    posts: Source<Post>,
    parseUrl: string -> Option<Url>,
    search: string -> seq<SearchResult>,
    fetchJson: Url -> Option<seq<(string, Json)>>)

  /** Running; stopped by `End`; or stopped by a panic (an `unwrap` that failed) inside the thread. */
  datatype Status = Running | Ended | Panicked

  /** The worker's state: both registries, the responses sent so far and whether it still runs. */
  datatype Worker = Worker(
    boardCache: map<string, PageState<Board>>,
    postCache: map<string, PageState<Post>>,
    sent: seq<Response>,
    status: Status)

  const Start := Worker(map[], map[], [], Running)

  /** The cache-hit path applies: caching asked for, an entry present, and `get_and_cache(page, false)` a value. */
  predicate Hit<T>(registry: map<string, PageState<T>>, key: string, src: Source<T>, page: U16, useCache: bool) {
    useCache && key in registry && CacheStep(registry[key], src, page, false).1.Some?
  }

  /** The registry after the cache-hit attempt: the entry, if tried, has had `page` written into it. */
  function Tried<T>(registry: map<string, PageState<T>>, key: string, src: Source<T>, page: U16, useCache: bool)
    : map<string, PageState<T>>
  {
    if useCache && key in registry then registry[key := CacheStep(registry[key], src, page, false).0] else registry
  }

  /** `BoardPage::from_page(id, page)` as a value. */
  function FreshBoard(id: string, page: U16): PageState<Board> {
    PageState(BoardResource(id), page, 0, map[], None)
  }

  /** `PostPage::try_from(param)` as a value: always on page 1. */
  function FreshPost(param: PostPageUrlParameter): PageState<Post> {
    PageState(PostResource(param.boardId, param.id, param.floor), 1, 0, map[], None)
  }

  /** A board page request: from the registered cache when it has the page, else from a new cache that replaces it. */
  function BoardStep(w: Worker, env: Env, id: string, page: U16, useCache: bool): Worker
    requires w.status == Running
  {
    if Hit(w.boardCache, id, env.boards, page, useCache) then
      var (s, r) := CacheStep(w.boardCache[id], env.boards, page, false);
      w.(boardCache := w.boardCache[id := s], sent := w.sent + [BoardPageResponse(PageData(page, s.max, r.value.posts))])
    else
      var tried := Tried(w.boardCache, id, env.boards, page, useCache);
      if !InitSafe(FreshBoard(id, page), env.boards) then w.(boardCache := tried, status := Panicked)
      else
        var (s, r) := CacheStep(InitStep(FreshBoard(id, page), env.boards), env.boards, page, false);
        var items := if r.Some? then r.value.posts else [];
        w.(boardCache := tried[id := s], sent := w.sent + [BoardPageResponse(PageData(page, s.max, items))])
  }

  /** A thread page request: as for boards, the new cache being built from the parsed url. */
  function PostStep(w: Worker, env: Env, url: string, page: U16, useCache: bool): Worker
    requires w.status == Running
  {
    if Hit(w.postCache, url, env.posts, page, useCache) then
      var (s, r) := CacheStep(w.postCache[url], env.posts, page, false);
      w.(postCache := w.postCache[url := s], sent := w.sent + [PostPageResponse(PageData(page, s.max, r.value))])
    else
      var tried := Tried(w.postCache, url, env.posts, page, useCache);
      if env.parseUrl(url).None? then w.(postCache := tried, status := Panicked)
      else
        var created := FreshPost(ParameterOf(env.parseUrl(url).value));
        if !InitSafe(created, env.posts) then w.(postCache := tried, status := Panicked)
        else
          var (s, r) := CacheStep(InitStep(created, env.posts), env.posts, page, false);
          w.(postCache := tried[url := s], sent := w.sent + [PostPageResponse(PageData(page, s.max, r.GetOr(DefaultPost)))])
  }

  /** A comment request: the comments sorted by floor, or none when the fetch fails. */
  function CommentStep(w: Worker, env: Env, id: string, cId: string): Worker
    requires w.status == Running
  {
    match env.fetchJson(CommentUrl(id, cId))
    case None => w.(sent := w.sent + [CommentPageResponse([])])
    case Some(entries) =>
      if !Decodable(entries) then w.(status := Panicked)
      else w.(sent := w.sent + [CommentPageResponse(SortByFloor(Collect(entries)))])
  }

  /** One turn of the loop. */
  function Step(w: Worker, env: Env, req: Request): Worker
    requires w.status == Running
  {
    match req
    case End => w.(status := Ended)
    case SearchRequest(query) => w.(sent := w.sent + [SearchResults(env.search(query))])
    case BoardPageRequest(id, page, useCache) => BoardStep(w, env, id, page, useCache)
    case PostPageRequest(url, page, useCache) => PostStep(w, env, url, page, useCache)
    case CommentPageRequest(id, cId) => CommentStep(w, env, id, cId)
  }

  /** The loop over a queue of requests, until the queue is empty or the worker stops. */
  function Run(w: Worker, env: Env, requests: seq<Request>): Worker
    decreases |requests|
  {
    if requests == [] || w.status != Running then w
    else Run(Step(w, env, requests[0]), env, requests[1..])
  }

  /** The requests the worker takes before it meets `End`. */
  function UntilEnd(requests: seq<Request>): seq<Request> {
    if requests == [] || requests[0].End? then [] else [requests[0]] + UntilEnd(requests[1..])
  }

  /** A response is of the kind its request asks for and, for a page, is for the page asked for. */
  predicate Answers(req: Request, resp: Response) {
    match req
    case SearchRequest(_) => resp.SearchResults?
    case BoardPageRequest(_, page, _) => resp.BoardPageResponse? && resp.boardData.page == page
    case PostPageRequest(_, page, _) => resp.PostPageResponse? && resp.postData.page == page
    case CommentPageRequest(_, _) => resp.CommentPageResponse?
    case End => false
  }

  /** Every request but `End` adds exactly one response, which answers it; `End` adds none and stops. */
  lemma StepAnswers(w: Worker, env: Env, req: Request)
    requires w.status == Running
    ensures var v := Step(w, env, req);
      && (req.End? ==> v.status == Ended && v.sent == w.sent)
      && (!req.End? && v.status != Panicked ==> v.status == Running && |v.sent| == |w.sent| + 1 && Answers(req, v.sent[|w.sent|]))
      && (v.status == Panicked ==> v.sent == w.sent)
      && v.sent[..|w.sent|] == w.sent
  {
  }

  /**
   * Over a whole queue: the responses already sent stay as they are; one
   * response follows per request before `End`, in order, each answering its
   * request; nothing answers `End` or anything after it. Only a panic cuts
   * this short.
   */
  lemma {:induction false} RunAnswersInOrder(w: Worker, env: Env, requests: seq<Request>)
    requires w.status == Running
    decreases |requests|
    ensures var v := Run(w, env, requests);
      && |w.sent| <= |v.sent| <= |w.sent| + |UntilEnd(requests)|
      && v.sent[..|w.sent|] == w.sent
      && (forall k :: 0 <= k < |v.sent| - |w.sent| ==> Answers(UntilEnd(requests)[k], v.sent[|w.sent| + k]))
      && (v.status != Panicked ==> |v.sent| == |w.sent| + |UntilEnd(requests)|)
      && (v.status == Ended <==> End in requests && v.status != Panicked)
      && (v.status == Running ==> End !in requests)
  {
    if requests != [] {
      var req := requests[0];
      var u := Step(w, env, req);
      StepAnswers(w, env, req);
      if req.End? {
        assert End in requests;
      } else if u.status == Running {
        RunAnswersInOrder(u, env, requests[1..]);
        var v := Run(u, env, requests[1..]);
        assert UntilEnd(requests) == [req] + UntilEnd(requests[1..]);
        assert v.sent[..|w.sent|] == w.sent by {
          assert v.sent[..|u.sent|][..|w.sent|] == v.sent[..|w.sent|];
        }
        forall k | 0 <= k < |v.sent| - |w.sent|
          ensures Answers(UntilEnd(requests)[k], v.sent[|w.sent| + k])
        {
          if k == 0 {
            assert v.sent[|w.sent|] == v.sent[..|u.sent|][|w.sent|];
          } else {
            assert UntilEnd(requests)[k] == UntilEnd(requests[1..])[k - 1];
            assert |w.sent| + k == |u.sent| + (k - 1);
          }
        }
        assert End in requests <==> End in requests[1..] by {
          assert requests == [req] + requests[1..];
        }
      } else {
        assert u.status == Panicked;
        assert Run(w, env, requests) == u;
      }
    }
  }

  /** A request the registry already holds a value for is answered from that entry, without a fetch, and the entry stays. */
  lemma CachedBoardRequest(w: Worker, env: Env, id: string, page: U16)
    requires w.status == Running && id in w.boardCache
    requires !OutOfRange(w.boardCache[id], page) && page in w.boardCache[id].cache
    requires w.boardCache[id].cache[page].Some?
    ensures !Fetches(w.boardCache[id], page, false)
    ensures var e := w.boardCache[id];
      Step(w, env, BoardPageRequest(id, page, true))
        == w.(sent := w.sent + [BoardPageResponse(PageData(page, e.max, e.cache[page].value.posts))])
  {
    var e := w.boardCache[id];
    assert e.cache[page := e.cache[page]] == e.cache;
    assert w.boardCache[id := e] == w.boardCache;
  }

  /**
   * Any other board request builds a cache for the requested page, runs
   * `init`, reads the page into it and puts it in place of whatever the
   * registry held; the response reports the new cache's last page and is
   * empty when the page could not be had.
   */
  lemma FreshBoardRequest(w: Worker, env: Env, id: string, page: U16, useCache: bool)
    requires w.status == Running && !Hit(w.boardCache, id, env.boards, page, useCache)
    requires InitSafe(FreshBoard(id, page), env.boards)
    ensures var v := Step(w, env, BoardPageRequest(id, page, useCache));
      var (s, r) := CacheStep(InitStep(FreshBoard(id, page), env.boards), env.boards, page, false);
      && v.status == Running
      && v.boardCache[id] == s && s.resource == BoardResource(id) && s.page == page
      && (forall k :: k in w.boardCache && k != id ==> k in v.boardCache && v.boardCache[k] == w.boardCache[k])
      && v.sent == w.sent + [BoardPageResponse(PageData(page, s.max, if r.Some? then r.value.posts else []))]
  {
  }

  /** A thread request not served from the registry starts a new cache on page 1 for the url's board, thread and floor. */
  lemma FreshPostRequest(w: Worker, env: Env, url: string, page: U16, useCache: bool, parsed: Url)
    requires w.status == Running && !Hit(w.postCache, url, env.posts, page, useCache)
    requires env.parseUrl(url) == Some(parsed) && InitSafe(FreshPost(ParameterOf(parsed)), env.posts)
    ensures var v := Step(w, env, PostPageRequest(url, page, useCache));
      var (s, r) := CacheStep(InitStep(FreshPost(ParameterOf(parsed)), env.posts), env.posts, page, false);
      && v.status == Running && v.postCache[url] == s && s.page == 1
      && (forall k :: k in w.postCache && k != url ==> k in v.postCache && v.postCache[k] == w.postCache[k])
      && v.sent == w.sent + [PostPageResponse(PageData(page, s.max, r.GetOr(DefaultPost)))]
  {
  }

  /**
   * On a board cache hit the registered cache answers, fetching the page
   * itself when it has not stored it: the page is written into that cache,
   * which stays registered with its board, cursor and last page, and the
   * response carries that cache's last page.
   */
  lemma BoardHitRequest(w: Worker, env: Env, id: string, page: U16)
    requires w.status == Running && Hit(w.boardCache, id, env.boards, page, true)
    ensures var v := Step(w, env, BoardPageRequest(id, page, true));
      var e := w.boardCache[id];
      var r := Get(e, env.boards, page, false);
      && v.status == Running && v.postCache == w.postCache
      && v.boardCache == w.boardCache[id := CacheStep(e, env.boards, page, false).0]
      && v.boardCache[id].resource == e.resource && v.boardCache[id].page == e.page && v.boardCache[id].max == e.max
      && v.boardCache[id].cache == e.cache[page := r]
      && v.sent == w.sent + [BoardPageResponse(PageData(page, e.max, r.value.posts))]
  {
  }

  /** The same for a thread cache hit. */
  lemma PostHitRequest(w: Worker, env: Env, url: string, page: U16)
    requires w.status == Running && Hit(w.postCache, url, env.posts, page, true)
    ensures var v := Step(w, env, PostPageRequest(url, page, true));
      var e := w.postCache[url];
      var r := Get(e, env.posts, page, false);
      && v.status == Running && v.boardCache == w.boardCache
      && v.postCache == w.postCache[url := CacheStep(e, env.posts, page, false).0]
      && v.postCache[url].resource == e.resource && v.postCache[url].page == e.page && v.postCache[url].max == e.max
      && v.postCache[url].cache == e.cache[page := r]
      && v.sent == w.sent + [PostPageResponse(PageData(page, e.max, r.value))]
  {
  }

  /**
   * A board whose page 1 can be fetched but carries no pager link (a board
   * with a single page of threads) stops the worker: the board's
   * `try_page_from_html` unwraps the missing link inside `init`.
   */
  lemma BoardWithoutPagerPanics(w: Worker, env: Env, id: string, page: U16, useCache: bool, doc: Html)
    requires w.status == Running && !Hit(w.boardCache, id, env.boards, page, useCache)
    requires env.boards.fetch(BoardUrl(id, 1)) == Some(doc) && env.boards.pager(doc).None?
    ensures var v := Step(w, env, BoardPageRequest(id, page, useCache));
      v.status == Panicked && v.sent == w.sent
  {
  }

  /** A comment request whose fetch fails is answered with an empty list, never an error. */
  lemma FailedCommentFetch(w: Worker, env: Env, id: string, cId: string)
    requires w.status == Running && env.fetchJson(CommentUrl(id, cId)).None?
    ensures Step(w, env, CommentPageRequest(id, cId)) == w.(sent := w.sent + [CommentPageResponse([])])
  {
  }

  /**
   * Asking twice for a board page that could be read: the first request
   * builds the cache, the second, with caching on, is answered from it with
   * the same response, no fetch and the registry left as it was.
   */
  lemma RepeatedBoardRequest(env: Env, id: string, page: U16, useCache: bool)
    requires InitSafe(FreshBoard(id, page), env.boards)
    requires CacheStep(InitStep(FreshBoard(id, page), env.boards), env.boards, page, false).1.Some?
    ensures var w1 := Step(Start, env, BoardPageRequest(id, page, useCache));
      && w1.status == Running && |w1.sent| == 1
      && !Fetches(w1.boardCache[id], page, false)
      && Step(w1, env, BoardPageRequest(id, page, true)) == w1.(sent := w1.sent + w1.sent)
  {
    var s0 := InitStep(FreshBoard(id, page), env.boards);
    var (s, r) := CacheStep(s0, env.boards, page, false);
    FreshBoardRequest(Start, env, id, page, useCache);
    var w1 := Step(Start, env, BoardPageRequest(id, page, useCache));
    assert !OutOfRange(s0, page);
    CachedBoardRequest(w1, env, id, page);
  }

  /** The objects a registry holds. */
  function Entries<T>(objs: map<string, PagedCache<T>>): set<object> {
    set k | k in objs :: objs[k] as object
  }

  /** A registry of cache objects holds, key for key, the states of a registry of values, and no object twice. */
  ghost predicate Mirrors<T>(objs: map<string, PagedCache<T>>, states: map<string, PageState<T>>, src: Source<T>)
    reads Entries(objs)
  {
    && objs.Keys == states.Keys
    && (forall k :: k in objs ==> objs[k].State() == states[k] && objs[k].source == src)
    && (forall k, l :: k in objs && l in objs && k != l ==> objs[k] != objs[l])
  }

  /** The `use_cache` branch: ask the registered cache, if any, for the page. */
  method TryCached<T>(objs: map<string, PagedCache<T>>, ghost states: map<string, PageState<T>>, key: string,
                      src: Source<T>, page: U16, useCache: bool)
    returns (r: Option<T>, max: U16)
    requires Mirrors(objs, states, src)
    modifies Entries(objs)
    ensures Mirrors(objs, Tried(states, key, src, page, useCache), src)
    ensures r.Some? <==> Hit(states, key, src, page, useCache)
    ensures r.Some? ==> r == CacheStep(states[key], src, page, false).1 && max == CacheStep(states[key], src, page, false).0.max
  {
    r, max := None, 0;
    if useCache && key in objs {
      var entry := objs[key];
      r := entry.GetAndCache(page, false);
      max := entry.max;
      assert forall k :: k in objs && k != key ==> objs[k] != entry;
    }
  }

  /** `BoardPage::from_page`, `init` and `get_and_cache` on a new board cache. */
  method OpenBoard(env: Env, id: string, page: U16) returns (board: PagedCache<Board>, got: Option<Board>)
    requires InitSafe(FreshBoard(id, page), env.boards)
    ensures fresh(board) && board.source == env.boards
    ensures (board.State(), got) == CacheStep(InitStep(FreshBoard(id, page), env.boards), env.boards, page, false)
  {
    board := new PagedCache<Board>.BoardFromPage(id, page, env.boards);
    board.Init();
    got := board.GetAndCache(page, false);
  }

  /** `PostPage::try_from`, `init` and `get_and_cache` on a new thread cache. */
  method OpenPost(env: Env, param: PostPageUrlParameter, page: U16) returns (postPage: PagedCache<Post>, got: Option<Post>)
    requires InitSafe(FreshPost(param), env.posts)
    ensures fresh(postPage) && postPage.source == env.posts
    ensures (postPage.State(), got) == CacheStep(InitStep(FreshPost(param), env.posts), env.posts, page, false)
  {
    postPage := new PagedCache<Post>.FromParameter(param, env.posts);
    postPage.Init();
    got := postPage.GetAndCache(page, false);
  }

  /** A board page request: served from the registry, or from a new cache put in the registry; `None` is a panic. */
  method ServeBoard(env: Env, objs: map<string, PagedCache<Board>>, ghost w: Worker, id: string, page: U16, useCache: bool)
    returns (objs': map<string, PagedCache<Board>>, response: Option<Response>)
    requires w.status == Running && Mirrors(objs, w.boardCache, env.boards)
    modifies Entries(objs)
    ensures var v := BoardStep(w, env, id, page, useCache);
      && Mirrors(objs', v.boardCache, env.boards)
      && (response.None? <==> v.status == Panicked)
      && (response.Some? ==> v.sent == w.sent + [response.value] && v.status == Running)
      && v.postCache == w.postCache
    ensures forall k :: k in objs' ==> (k in objs && objs'[k] == objs[k]) || fresh(objs'[k])
  {
    var r, max := TryCached(objs, w.boardCache, id, env.boards, page, useCache);
    if r.Some? {
      return objs, Some(BoardPageResponse(PageData(page, max, r.value.posts)));
    }
    ghost var tried := Tried(w.boardCache, id, env.boards, page, useCache);
    if !InitSafe(FreshBoard(id, page), env.boards) {
      return objs, None;
    }
    var board, got := OpenBoard(env, id, page);
    var items := if got.Some? then got.value.posts else [];
    objs' := objs[id := board];
    response := Some(BoardPageResponse(PageData(page, board.max, items)));
    assert Mirrors(objs', tried[id := board.State()], env.boards);
  }

  /** A thread page request: as for boards, with the cache built from the parsed url; `None` is a panic. */
  method ServePost(env: Env, objs: map<string, PagedCache<Post>>, ghost w: Worker, url: string, page: U16, useCache: bool)
    returns (objs': map<string, PagedCache<Post>>, response: Option<Response>)
    requires w.status == Running && Mirrors(objs, w.postCache, env.posts)
    modifies Entries(objs)
    ensures var v := PostStep(w, env, url, page, useCache);
      && Mirrors(objs', v.postCache, env.posts)
      && (response.None? <==> v.status == Panicked)
      && (response.Some? ==> v.sent == w.sent + [response.value] && v.status == Running)
      && v.boardCache == w.boardCache
    ensures forall k :: k in objs' ==> (k in objs && objs'[k] == objs[k]) || fresh(objs'[k])
  {
    var r, max := TryCached(objs, w.postCache, url, env.posts, page, useCache);
    if r.Some? {
      return objs, Some(PostPageResponse(PageData(page, max, r.value)));
    }
    ghost var tried := Tried(w.postCache, url, env.posts, page, useCache);
    if env.parseUrl(url).None? {
      return objs, None;
    }
    var param := ParameterFromString(url, env.parseUrl);
    if !InitSafe(FreshPost(param.value), env.posts) {
      return objs, None;
    }
    var postPage, got := OpenPost(env, param.value, page);
    objs' := objs[url := postPage];
    response := Some(PostPageResponse(PageData(page, postPage.max, got.GetOr(DefaultPost))));
    assert Mirrors(objs', tried[url := postPage.State()], env.posts);
  }

  /** A comment request: the sorted comments, or an empty list when the fetch fails; `None` is a panic. */
  method ServeComments(env: Env, id: string, cId: string) returns (response: Option<Response>)
    ensures var reply := env.fetchJson(CommentUrl(id, cId));
      && (response.None? <==> reply.Some? && !Decodable(reply.value))
      && (response.Some? ==> response.value == CommentPageResponse(if reply.Some? then SortByFloor(Collect(reply.value)) else []))
  {
    var reply := env.fetchJson(CommentUrl(id, cId));
    if reply.Some? && !Decodable(reply.value) {
      return None;
    }
    var res := GetComment(id, cId, env.fetchJson);
    var comments := if res.Ok? then res.value else [];
    return Some(CommentPageResponse(comments));
  }

  /** One turn of `run_fetcher`'s loop on the registries of cache objects: the responses it sends and whether the worker goes on. */
  method Handle(env: Env, boards: map<string, PagedCache<Board>>, posts: map<string, PagedCache<Post>>, ghost w: Worker, req: Request)
    returns (boards': map<string, PagedCache<Board>>, posts': map<string, PagedCache<Post>>, out: seq<Response>, status: Status)
    requires w.status == Running
    requires Mirrors(boards, w.boardCache, env.boards) && Mirrors(posts, w.postCache, env.posts)
    requires Entries(boards) !! Entries(posts)
    modifies Entries(boards), Entries(posts)
    ensures var v := Step(w, env, req);
      && v.sent == w.sent + out && v.status == status
      && Mirrors(boards', v.boardCache, env.boards) && Mirrors(posts', v.postCache, env.posts)
    ensures Entries(boards') !! Entries(posts')
    ensures forall k :: k in boards' ==> (k in boards && boards'[k] == boards[k]) || fresh(boards'[k])
    ensures forall k :: k in posts' ==> (k in posts && posts'[k] == posts[k]) || fresh(posts'[k])
  {
    boards', posts', out, status := boards, posts, [], Running;
    var response: Option<Response>;
    if req.End? {
      return boards, posts, [], Ended;
    } else if req.SearchRequest? {
      return boards, posts, [SearchResults(env.search(req.query))], Running;
    } else if req.BoardPageRequest? {
      boards', response := ServeBoard(env, boards, w, req.id, req.page, req.useCache);
    } else if req.PostPageRequest? {
      posts', response := ServePost(env, posts, w, req.url, req.page, req.useCache);
    } else {
      response := ServeComments(env, req.id, req.cId);
    }
    if response.Some? {
      out := [response.value];
    } else {
      status := Panicked;
    }
  }

  /** `run_fetcher`'s loop, over the queue of requests it will receive. */
  method RunFetcher(env: Env, requests: seq<Request>) returns (sent: seq<Response>, status: Status)
    ensures sent == Run(Start, env, requests).sent && status == Run(Start, env, requests).status
  {
    var boards: map<string, PagedCache<Board>> := map[];
    var posts: map<string, PagedCache<Post>> := map[];
    ghost var w := Start;
    sent, status := [], Running;
    var i := 0;
    while i < |requests| && status == Running
      invariant 0 <= i <= |requests|
      invariant Run(w, env, requests[i..]) == Run(Start, env, requests)
      invariant w.sent == sent && w.status == status
      invariant Mirrors(boards, w.boardCache, env.boards) && Mirrors(posts, w.postCache, env.posts)
      invariant Entries(boards) !! Entries(posts)
      invariant forall k :: k in boards ==> fresh(boards[k])
      invariant forall k :: k in posts ==> fresh(posts[k])
    {
      var out;
      boards, posts, out, status := Handle(env, boards, posts, w, requests[i]);
      sent := sent + out;
      assert requests[i..][1..] == requests[i + 1..];
      w := Step(w, env, requests[i]);
      i := i + 1;
    }
  }
}
