# bahamut-rs: paged cache and fetch worker, in Dafny

bahamut-rs is a terminal reader for the Bahamut forum (forum.gamer.com.tw). Its core is:

- a **paged cache**, the `CachedPage<T>` trait with its two instances `BoardPage` (the thread list of a board) and `PostPage` (the pages of one thread);
- a **fetch worker**, `run_fetcher`, which takes requests one at a time and keeps one paged cache per board id and per thread url;
- the UI side of the same loop, which shows each response in the application state.

Around these sit small pure helpers:

- folding a url's query pairs into ids;
- the wrap-around arithmetic of list cursors;
- sorting the comments of a post by floor.

The model is split into one module per part of the program:

| file | module | models |
|---|---|---|
| `wrappers.dfy` | `Wrappers` | `Option` and `Result` |
| `numbers.dfy` | `Numbers` | Rust's `u16`, `format!` of a number, `str::parse::<u16>` |
| `urls.dfy` | `Urls` | a url as a location plus its list of query pairs; "the last pair with key k" |
| `category.dfy` | `Category` | `BoardCategoryId::try_from(Url)`, `BoardCategory` |
| `boards.dfy` | `Boards` | `BoardPost` and its setters, `Board`, the board url |
| `post_params.dfy` | `PostParams` | `PostPageUrlParameter::try_from`, `Post`, the thread url |
| `search.dfy` | `Search` | the `SearchResult` record |
| `cached_page.dfy` | `CachedPage` | the trait's default methods, `BoardPage`, `PostPage`, `PostPageRef` |
| `comments.dfy` | `Comments` | `PostComment::get_comment` after the JSON fetch |
| `fetcher.dfy` | `Fetcher` | `run_fetcher` |
| `ui_state.dfy` | `UiState` | src/ui/state.rs |
| `app.dfy` | `App` | the response handling in `run_app` |

How the program is modelled:

- **One class for both caches.** `CachedPage.PagedCache<T>` stands for `BoardPage` and `PostPage` alike. The part that differs between them (the url of a page, reading the last page from the pager) depends on a `Resource`: either a board id, or a board id, a thread id and a floor. The whole state of a cache is the value `PageState<T>`. Every method is proved to move `State()` exactly as a pure step function on `PageState<T>` says (`Get`, `CacheStep`, `NextStep`, `PreviousStep`, `InitStep`), and the lemmas state what the source promises about those functions.
- **Oracles for the network.** Fetching a page, reading the pager and `T::try_from(WebSite)` are the three functions of a `Source<T>`.
- **Dispatcher.** The worker is a pure fold, `Fetcher.Run`, over the queue of requests it receives. `Fetcher.RunFetcher` runs the same loop imperatively over registries of `PagedCache` objects, and it is proved to send exactly the responses `Run` computes.
- **Panics.** An `unwrap` in the modelled code that would panic is either a precondition of the class method it is in, or, inside the worker, the status `Panicked`, which stops the worker as the panic stops its thread. Panics inside the scrapers behind the oracles are not modelled (see "## Left out").

Behaviour that follows the code rather than the first reading of it:

- `get_and_cache` stores whatever `get` returned, even the `None` of a page past the last one (src/api/mod.rs:107-111).
- `next` from the last page itself still moves the cursor, because `is_over_max` compares with `>`. The cursor lands one past the last page and reads `None`. Only the next call is refused (src/api/mod.rs:70-73, 129-136).
- A forced read of page 1 (`get(1, true)`) does not go to the network once `init` has kept the page-1 snapshot. `ignore_cache` skips only the page cache, never the snapshot (src/api/mod.rs:91-95).
- The worker answers a repeated board request from its registry only when the request asks for caching. A request with `use_cache == false` always builds, initialises and registers a new cache, and so fetches page 1 again (src/main.rs:154-184).
- A new thread cache always starts on page 1, whatever page the request names. The response still carries the requested page (src/main.rs:209-222, src/api/post/page.rs:59-69).
- The order of comments with equal floors is the order in which the JSON object's entries are visited. The source collects them from a `HashMap`, whose order is unspecified, so the model takes the entries in the order the fetch oracle lists them (src/api/post/comment.rs:40-52).

## Model

| member | source | states |
|---|---|---|
| Numbers.Decimal | src/api/board.rs:125 | `format!("{}", n)` writes a non-empty run of decimal digits; `Numbers.DecimalValue` shows they denote `n` |
| Numbers.ParseU16 | src/api/post/page.rs:39 | `str::parse::<u16>`; `Numbers.ParseDecimal` shows it reads back every `u16` that `Decimal` writes, and `Numbers.ParseOverflow` that it refuses numbers above 65535 |
| Numbers.ParseDecimal | src/api/post/page.rs:39 | every `u16` written in decimal parses back to itself |
| Numbers.ParseOverflow | src/api/post/page.rs:39 | the decimal text of a number above 65535 does not parse, so a `tnum` that large gives floor 0 |
| Numbers.DecimalValue | src/api/board.rs:123-128 | the digits written for a page number denote that number |
| Urls.LastWhereSome | src/api/board/category.rs:21-27 | the fold yields `v` exactly when some pair that the fold keeps has value `v` and no later pair is kept: the last matching pair wins |
| Urls.LastWhereNone | src/api/board/category.rs:17-19 | the fold yields nothing exactly when no pair is kept, so the field keeps its `""` default |
| Urls.LastWhereAppend | src/api/post/page.rs:29-41 | one more pair overwrites the field when its key matches and leaves it alone otherwise |
| Urls.LastWhere | src/api/board/category.rs:16-30 | the value of the last query pair whose key is kept (equal to, or different from, the key asked for); stated by `Urls.LastWhereSome`, `Urls.LastWhereNone` and `Urls.LastWhereAppend` |
| Category.BoardCategory.Id | src/api/board/category.rs:47-49 | `id()`: the category's sub-board id; `Category.CategoryUrlRoundTrip` shows it is the `subbsn` of the category url |
| Category.BoardCategory.BoardId | src/api/board/category.rs:51-53 | `board_id()`: the board id; `Category.CategoryUrlRoundTrip` shows it is the `bsn` of the category url |
| Category.CategoryUrl | src/api/board/category.rs:39-44 | `B.php` with `bsn` and `subbsn`; `Category.CategoryUrlRoundTrip` shows `BoardCategoryId::try_from` folds it back to both ids |
| Category.FromUrl | src/api/board/category.rs:16-30 | always `Ok`; `id` is the value of the last `bsn` pair and `sub_id` the value of the last pair with any other key, each `""` when there is none |
| Category.CategoryUrlRoundTrip | src/api/board/category.rs:39-53 | the category url folds back to the same board id and sub-board id; `board_id()` returns `id.id` and `id()` returns `id.sub_id` |
| Category.MissingKeysStayEmpty | src/api/board/category.rs:17-19 | with no `bsn` pair `id` is `""`; with only `bsn` pairs `sub_id` is `""` |
| Boards.BoardUrl | src/api/board.rs:123-128 | `B.php` with `bsn` and the page in decimal; `CachedPage.BoardUrlInjective` shows it determines the board and the page |
| Boards.BoardPost.constructor | src/api/board.rs:258-279 | `BoardPost::default()`: id `"0"`, empty texts and category, zero counts |
| Boards.BoardPost.SetId | src/api/board.rs:296-299 | sets only `id` and returns the same object |
| Boards.BoardPost.SetReplyCount | src/api/board.rs:301-304 | sets only `reply` and returns the same object |
| Boards.BoardPost.SetTitle | src/api/board.rs:306-309 | sets only `title` and returns the same object |
| Boards.BoardPost.SetDate | src/api/board.rs:311-314 | sets only `date` and returns the same object |
| Boards.BoardPost.SetGp | src/api/board.rs:316-319 | sets only `gp` and returns the same object |
| Boards.BoardPost.SetDesc | src/api/board.rs:321-324 | sets only `desc` and returns the same object |
| Boards.BoardPost.SetCategory | src/api/board.rs:326-329 | sets only `category` and returns the same object |
| Boards.BoardPost.SetFloor | src/api/board.rs:331-334 | sets only `floor` and returns the same object |
| PostParams.ParameterFromUrl | src/api/post/page.rs:25-44 | always `Ok`: `snA` goes to `id`, `bsn` to `board_id` and `tnum` to `floor` (0 if it does not parse), the last pair of each key winning and absent keys leaving the defaults |
| PostParams.FloorOf | src/api/post/page.rs:39 | the `u16` a `tnum` value spells, or 0; `Numbers.ParseDecimal` and `Numbers.ParseOverflow` state which texts give which floor |
| PostParams.PostUrl | src/api/post/page.rs:116-119 | `C.php` with `bsn`, `snA`, the page and `tnum`; `PostParams.PostUrlRoundTrip` shows it folds back to the board, thread and floor |
| PostParams.ParameterOf | src/api/post/page.rs:25-44 | the parameter as a closed form over the query pairs; `PostParams.ParameterFromUrl` is proved to compute it and `PostParams.PostUrlRoundTrip` to invert the thread url |
| PostParams.ParameterFromString | src/api/post/page.rs:17-23 | a string that parses as a url gives the parameter of that url; a malformed url panics, so it is a precondition |
| PostParams.PostUrlRoundTrip | src/api/post/page.rs:116-119 | the url of a thread page folds back to its board id, thread id and floor |
| CachedPage.PageUrl | src/api/board/page.rs:74-76 | a board's pages go to `Board::url` and a thread's to `PostPage::url` (src/api/post/page.rs:116-119); `CachedPage.BoardUrlInjective` and `PostParams.PostUrlRoundTrip` state what the urls determine |
| CachedPage.Concat | src/api/board/page.rs:52 | the `collect::<String>()` of the pager link's text nodes, in order; `CachedPage.BoardInitScenario` reads a page count through it |
| CachedPage.IsOverMin | src/api/mod.rs:66-68 | the cursor is at 0; `CachedPage.PreviousAtZero` and `CachedPage.PreviousRetreats` show it is what blocks `previous` |
| CachedPage.IsOverMax | src/api/mod.rs:70-73 | the last page is known and the cursor is past it; `CachedPage.NextBlocked`, `CachedPage.NextFromLastPage` and `CachedPage.Advance` show what it lets `next` do |
| CachedPage.CachedPageHtml | src/api/board/page.rs:66-72 | the page-1 snapshot for page 1 and nothing for other pages, as in src/api/post/page.rs:108-114; `CachedPage.GetMiss` shows it is read before the network |
| CachedPage.Get | src/api/mod.rs:80-105 | `get`; its behaviour is stated by `CachedPage.GetOutOfRange`, `CachedPage.GetCacheHit`, `CachedPage.GetMiss`, `CachedPage.GetWithoutFetch` and `CachedPage.ForceIgnoresCache` |
| CachedPage.CacheStep | src/api/mod.rs:107-111 | `get_and_cache`; stated by `CachedPage.CacheStepWrites`, `CachedPage.CacheRoundTrip` and `CachedPage.CacheStepIdempotent` |
| CachedPage.NextStep | src/api/mod.rs:129-145 | `next` and `force_next`; stated by `CachedPage.NextBlocked`, `CachedPage.NextAdvances`, `CachedPage.NextFromLastPage`, `CachedPage.Advance` and `CachedPage.PreviousThenNext` |
| CachedPage.PreviousStep | src/api/mod.rs:147-163 | `previous` and `force_previous`; stated by `CachedPage.PreviousAtZero`, `CachedPage.PreviousRetreats` and `CachedPage.PreviousThenNext` |
| CachedPage.MaxFromPager | src/api/board/page.rs:43-54 | the last page read off page 1: for a board, the number all texts of the last pager link spell; for a thread (src/api/post/page.rs:84-96), the number its first text spells, 0 without a link; stated by `CachedPage.InitLearnsMax` and `CachedPage.PostInitWithoutPager` |
| CachedPage.BoardMaxIntended | src/api/board/page.rs:49-54 | a board's last page read without panicking: 0 when page 1 has no pager link, and the same as `MaxFromPager` wherever that does not panic |
| CachedPage.InitStep | src/api/board/page.rs:40-47 | `init`; stated by `CachedPage.InitFetchFails`, `CachedPage.InitLearnsMax`, `CachedPage.PostInitWithoutPager` and `CachedPage.BoardInitScenario` |
| CachedPage.BoardUrlInjective | src/api/board/page.rs:74-76 | the url of a board page determines the board id and the page |
| CachedPage.GetOutOfRange | src/api/mod.rs:80-84 | past a known last page `get` is `None`, whatever is cached, and does not fetch |
| CachedPage.GetCacheHit | src/api/mod.rs:86-89 | an unforced `get` of a cached page returns the stored entry verbatim, a stored `None` included, without a fetch |
| CachedPage.GetMiss | src/api/mod.rs:91-104 | on a miss the page-1 snapshot is used before the network; the result is a value exactly when a document was obtained and parsed |
| CachedPage.GetWithoutFetch | src/api/mod.rs:80-105 | where `get` does not fetch, the network's answers cannot change its result |
| CachedPage.ForceIgnoresCache | src/api/mod.rs:87 | a forced `get` is an unforced `get` on the cache without that page |
| CachedPage.CacheStepWrites | src/api/mod.rs:107-111 | `get_and_cache` returns `get`'s answer, stores it under the page (an out-of-range `None` too) and changes no other entry or field |
| CachedPage.CacheRoundTrip | src/api/mod.rs:107-111 | after `get_and_cache`, an unforced `get` of the same page returns the same answer and does not fetch |
| CachedPage.CacheStepIdempotent | src/api/mod.rs:107-111 | a second unforced `get_and_cache` of the same page changes nothing and answers as the first |
| CachedPage.NextBlocked | src/api/mod.rs:129-131 | when `is_over_max`, `next` and `force_next` return `None` and change nothing |
| CachedPage.NextAdvances | src/api/mod.rs:132-145 | otherwise the cursor moves up by exactly one, the cache is untouched and the answer is `get` of the new page |
| CachedPage.NextFromLastPage | src/api/mod.rs:70-73 | from the last page `next` moves to one past it and answers `None`; the following `next` is refused |
| CachedPage.Advance | src/api/mod.rs:129-145 | any number of `next` calls from at most one past the last page keeps the cursor at most one past the last page, and moves it by exactly that number while that stays in range |
| CachedPage.PreviousAtZero | src/api/mod.rs:147-150 | at page 0 `previous` and `force_previous` return `None` and the cursor stays 0 |
| CachedPage.PreviousRetreats | src/api/mod.rs:151-163 | otherwise the cursor moves down by exactly one and the answer is `get` of the new page |
| CachedPage.PreviousThenNext | src/api/mod.rs:129-163 | within the reachable range, `next` undoes `previous` |
| CachedPage.InitFetchFails | src/api/board/page.rs:40-47 | `init` after a failed page-1 fetch changes nothing |
| CachedPage.InitLearnsMax | src/api/board/page.rs:40-47 | a successful `init` sets `max` from the pager and keeps page 1, which can then be read without a second fetch |
| CachedPage.PostInitWithoutPager | src/api/post/page.rs:84-96 | a thread page 1 without a pager link leaves `max` at 0 instead of panicking |
| CachedPage.BoardInitScenario | src/api/board/page.rs:49-54 | a board whose last pager link reads "5" gets `max` 5: page 6 is `None` without a fetch and page 5 is fetched and parsed |
| CachedPage.PagedCache.NewBoard | src/api/board/page.rs:20-28 | on page 1, `max` 0, empty cache, no snapshot |
| CachedPage.PagedCache.BoardFromPage | src/api/board/page.rs:30-38 | on the given page, `max` 0, empty cache, no snapshot |
| CachedPage.PagedCache.NewPost | src/api/post/page.rs:59-69 | floor 0, on page 1, `max` 0, empty cache, no snapshot |
| CachedPage.PagedCache.FromParameter | src/api/post/page.rs:138-147 | copies board id, thread id and floor; page 1, `max` 0, empty cache; never fails |
| CachedPage.PagedCache.SetFloor | src/api/post/page.rs:80-82 | sets only the floor |
| CachedPage.PagedCache.Init | src/api/post/page.rs:71-78 | the state becomes `InitStep` of the old state: unchanged on a failed fetch, else `max` from the pager and the snapshot kept |
| CachedPage.PagedCache.InsertCache | src/api/board/page.rs:62-64 | entry `p` becomes the given value; every other entry and field stays |
| CachedPage.PagedCache.IncreasePage | src/api/board/page.rs:82-84 | the cursor goes up by one and nothing else changes; at 65535 the source panics, so it is a precondition |
| CachedPage.PagedCache.DecreasePage | src/api/board/page.rs:86-88 | the cursor goes down by one and nothing else changes; at 0 the source panics, so it is a precondition |
| CachedPage.PagedCache.GetCurrent | src/api/mod.rs:113-115 | past a known last page `None`; a cached current page as stored |
| CachedPage.PagedCache.GetCurrentForce | src/api/mod.rs:121-123 | past a known last page `None`; otherwise a read as though the current page were not cached |
| CachedPage.PagedCache.GetAndCache | src/api/mod.rs:107-111 | state and answer are `CacheStep` of the old state |
| CachedPage.PagedCache.GetCurrentAndCache | src/api/mod.rs:117-119 | `get_and_cache` of the current page, unforced |
| CachedPage.PagedCache.GetCurrentForceAndCache | src/api/mod.rs:125-127 | `get_and_cache` of the current page, forced |
| CachedPage.PagedCache.Next | src/api/mod.rs:129-136 | state and answer are `NextStep` of the old state, unforced |
| CachedPage.PagedCache.ForceNext | src/api/mod.rs:138-145 | state and answer are `NextStep` of the old state, forced |
| CachedPage.PagedCache.Previous | src/api/mod.rs:147-154 | state and answer are `PreviousStep` of the old state, unforced |
| CachedPage.PagedCache.ForcePrevious | src/api/mod.rs:156-163 | state and answer are `PreviousStep` of the old state, forced |
| CachedPage.PagedCache.ToRef | src/api/post/page.rs:157-169 | always `Ok`; copies board id, thread id, page and floor, and takes `max` from the page |
| CachedPage.PagedCache.ToRefIntended | src/api/post/page.rs:157-169 | the same reference with `max` taken from the thread's last page |
| CachedPage.RefLosesMax | src/api/post/page.rs:165 | a thread on page 1 of 5 gets a reference whose `max` is 1 |
| Comments.CommentUrl | src/api/post/comment.rs:36-37 | `ajax/moreCommend.php` with `bsn` and `snB`, the url `get_comment` fetches; `Fetcher.FailedCommentFetch` and `Comments.GetComment` are stated over the fetch of that url |
| Comments.Collect | src/api/post/comment.rs:40-50 | the `filter_map` and `collect`; stated by `Comments.CollectContents` and `Comments.CollectAppend` |
| Comments.CollectContents | src/api/post/comment.rs:40-50 | one comment per entry not keyed `next_snC`: the count is the entry count less the `next_snC` entries, every collected comment is decoded from such an entry, and every such entry's comment is collected |
| Comments.CollectAppend | src/api/post/comment.rs:40-50 | collecting goes entry by entry: the comments of two runs of entries are those of the first followed by those of the second, so each entry's comment is kept once and in iteration order |
| Comments.UniqueKeyCount | src/api/post/comment.rs:38-45 | in a JSON object, whose keys are distinct, `next_snC` occurs at most once, so the list is one shorter exactly when it is present |
| Comments.SortByFloor | src/api/post/comment.rs:52 | the stable `sort_by_key(|v| v.floor)`; stated by `Comments.SortByFloorCorrect` |
| Comments.SortByFloorCorrect | src/api/post/comment.rs:52 | the sorted list is ordered by floor and a permutation of its input |
| Comments.InsertKeepsSorted | src/api/post/comment.rs:52 | inserting a comment into a list ordered by floor keeps it ordered |
| Comments.InsertMultiset | src/api/post/comment.rs:52 | inserting a comment adds exactly that comment and loses none |
| Comments.InsertLast | src/api/post/comment.rs:52 | one pass of the insertion sort: the first `i + 1` cells become the old `a[i]` inserted into the sorted old prefix, and the cells after them stay |
| Comments.SortInPlace | src/api/post/comment.rs:52 | the array, sorted in place, equals the stable sort by floor of its old contents |
| Comments.GetComment | src/api/post/comment.rs:32-54 | `Err` exactly when the fetch fails; otherwise the entries other than `next_snC`, ordered by floor and a permutation of them |
| Fetcher.Step | src/main.rs:143-238 | one turn of the loop; stated by `Fetcher.StepAnswers` and the request lemmas below |
| Fetcher.BoardStep | src/main.rs:153-187 | a board page request; stated by `Fetcher.CachedBoardRequest`, `Fetcher.BoardHitRequest`, `Fetcher.FreshBoardRequest` and `Fetcher.BoardWithoutPagerPanics` |
| Fetcher.PostStep | src/main.rs:190-226 | a thread page request; stated by `Fetcher.PostHitRequest` and `Fetcher.FreshPostRequest` |
| Fetcher.CommentStep | src/main.rs:229-237 | a comment request; stated by `Fetcher.FailedCommentFetch` and `Fetcher.ServeComments` |
| Fetcher.Run | src/main.rs:141-240 | the loop over the queue; stated by `Fetcher.RunAnswersInOrder`, and `Fetcher.RunFetcher` is proved to compute it |
| Fetcher.StepAnswers | src/main.rs:143-237 | `End` stops the worker with no response; every other request that does not panic adds exactly one response, which answers it; responses already sent stay |
| Fetcher.RunAnswersInOrder | src/main.rs:141-240 | over a queue, one response per request before `End`, in order, each of the kind and for the page asked; none for `End` or after it; the worker has ended exactly when the queue holds `End` |
| Fetcher.CachedBoardRequest | src/main.rs:154-167 | a board request with caching on, for a page the registered cache holds a value for, is answered from that entry with its `max`, without a fetch, and the registry is unchanged |
| Fetcher.BoardHitRequest | src/main.rs:154-167 | on any board cache hit, the page fetched by the registered cache itself included, the answer comes from that cache, the page is written into it, it stays registered with its board, cursor and last page, and the response carries its `max` |
| Fetcher.FreshBoardRequest | src/main.rs:171-186 | any other board request builds a cache on the requested page, runs `init` and `get_and_cache`, replaces the registry entry and leaves the others; the response has the new cache's `max`, and empty items if the page could not be had |
| Fetcher.PostHitRequest | src/main.rs:193-206 | on a thread cache hit the answer comes from the registered cache, the page is written into it, it stays registered with its thread, cursor and last page, and the response carries its `max` |
| Fetcher.FreshPostRequest | src/main.rs:209-225 | a thread request not served from the registry registers a new cache for the url's board, thread and floor, on page 1, and leaves the other entries; the response has its `max`, and `Post::default()` if the page could not be had |
| Fetcher.BoardWithoutPagerPanics | src/api/board/page.rs:51 | a board request not served from the registry, for a board whose page 1 has no pager link, panics the worker before anything is sent |
| Fetcher.FailedCommentFetch | src/main.rs:229-236 | a comment request whose fetch fails is answered with an empty list |
| Fetcher.RepeatedBoardRequest | src/main.rs:153-186 | after a board page has been read, asking for it again with caching on sends the same response again, fetches nothing and leaves the registry as it was |
| Fetcher.TryCached | src/main.rs:154-168 | the cache-hit attempt on the registry objects: a value exactly on a hit, that value and `max` those of `get_and_cache` on the registered state, and the registry afterwards mirrors `Tried` |
| Fetcher.OpenBoard | src/main.rs:171-177 | a new board cache object whose state and answer are `get_and_cache` after `init` of `from_page` |
| Fetcher.OpenPost | src/main.rs:209-216 | a new thread cache object whose state and answer are `get_and_cache` after `init` of the cache built from the url parameter |
| Fetcher.ServeBoard | src/main.rs:153-187 | the board registry objects end as `BoardStep`'s registry, the response is the one it sends, there is none exactly when it panics, and the thread registry is untouched |
| Fetcher.ServePost | src/main.rs:190-226 | the thread registry objects end as `PostStep`'s registry, the response is the one it sends, there is none exactly when it panics, and the board registry is untouched |
| Fetcher.Handle | src/main.rs:143-238 | one turn over the registry objects sends what `Step` sends, stops with its status and leaves the registries mirroring its registries |
| Fetcher.ServeComments | src/main.rs:229-236 | the response is the sorted comments, or an empty list when the fetch fails; undecodable JSON panics |
| Fetcher.RunFetcher | src/main.rs:134-243 | the loop over the registries of cache objects sends exactly the responses of `Run`, and stops with the same status |
| UiState.Index | src/ui/state.rs:124-126 | `index()`: the selected row, or 1 when nothing is selected; `UiState.SearchPageState.Next` and `Previous` read the selection through it |
| UiState.NextIndex | src/ui/state.rs:30-37 | for a non-empty list the result is a valid index; it is one more than the index unless the index is at the end |
| UiState.PreviousIndex | src/ui/state.rs:39-53 | for a non-empty list and an index within it the result is a valid index; for an empty list and index 0 it is 0 |
| UiState.WrapInverse | src/ui/state.rs:30-53 | within a non-empty list, `previous_index` undoes `next_index` and the reverse |
| UiState.ForwardCounts | src/ui/state.rs:30-37 | `k` steps forward that stay in the list move the index by exactly `k` |
| UiState.ForwardCompose | src/ui/state.rs:30-37 | `a + b` steps forward are `a` steps followed by `b` steps |
| UiState.ForwardFullCycle | src/ui/state.rs:30-37 | as many steps forward as the list is long come back to the starting index |
| UiState.InitialSelection | src/ui/state.rs:60-66 | `Some(0)` exactly for a non-empty list, `None` for an empty one |
| UiState.SearchPageState.constructor | src/ui/state.rs:95-101 | the derived `Default`: nothing listed or selected, normal mode, empty input |
| UiState.SearchPageState.SetItems | src/ui/state.rs:104-106 | replaces the list only |
| UiState.SearchPageState.SetMode | src/ui/state.rs:108-110 | replaces the input mode only |
| UiState.SearchPageState.InitSelect | src/ui/state.rs:113-121 | the selection becomes `init_select`'s for the list; nothing else changes |
| UiState.SearchPageState.Next | src/ui/state.rs:132-134 | the selection becomes `Some(next_index())`, with a missing selection read as 1 |
| UiState.SearchPageState.Previous | src/ui/state.rs:136-138 | the selection becomes `Some(previous_index())`, with a missing selection read as 1 |
| UiState.BoardPageState.constructor | src/ui/state.rs:141-149 | the derived `Default`: nothing selected or listed, empty id and name, last page and page 0 |
| UiState.BoardPageState.SetId | src/ui/state.rs:152-154 | sets only the board id |
| UiState.BoardPageState.SetName | src/ui/state.rs:156-158 | sets only the board name |
| UiState.BoardPageState.SetItems | src/ui/state.rs:160-162 | sets only the list |
| UiState.BoardPageState.SetLastPage | src/ui/state.rs:164-166 | sets only the last page |
| UiState.BoardPageState.SetPage | src/ui/state.rs:168-170 | sets only the page |
| UiState.BoardPageState.InitSelect | src/ui/state.rs:173-181 | the selection becomes `init_select`'s for the list; nothing else changes |
| UiState.BoardPageState.Next | src/ui/state.rs:192-194 | the selection becomes `Some(next_index())`; nothing else changes |
| UiState.BoardPageState.Previous | src/ui/state.rs:196-198 | the selection becomes `Some(previous_index())`; nothing else changes |
| UiState.PostPageState.constructor | src/ui/state.rs:201-208 | the derived `Default`: `Post::default()`, index, page and last page 0 |
| UiState.PostPageState.SetData | src/ui/state.rs:210-212 | sets only the thread shown |
| UiState.PostPageState.SetIndex | src/ui/state.rs:214-216 | sets only the index |
| UiState.PostPageState.SetPage | src/ui/state.rs:218-220 | sets only the page |
| UiState.PostPageState.SetLastPage | src/ui/state.rs:222-224 | sets only the last page |
| UiState.AppState.constructor | src/ui/state.rs:83-92 | `AppState::default()`: the search view, not loading, every page state at its default |
| App.ApplyStep | src/main.rs:96-130 | after any response nothing is loading |
| App.HandleResponse | src/main.rs:96-130 | the application state moves exactly as `ApplyStep` says: search results and board pages replace their lists with a fresh selection and switch view, a board page also sets page and last page, page 1 of a thread replaces the thread, a later page only sets the page (`chain_posts` and `next` are not part of this model) |
| App.ResponseKeepsSelectionsValid | src/main.rs:96-109 | showing a response keeps every list selection inside its list |
| App.ViewFollowsResponse | src/main.rs:98-121 | search results and board pages switch to their views, page 1 of a thread to the thread view, and a later thread page leaves the view |
| App.BoardShowsLastBoardPage | src/main.rs:103-109 | after any run of responses the board view holds the items, page and last page of the last board page received, with a fresh selection, and keeps its id and name |
| App.SessionEndsIdle | src/main.rs:129 | once a non-empty run of responses has been shown, nothing is loading |

## Left out

- HTTP and parsing: `get_document`, `get_json`, `get_page_html` and all selector code are the oracles of `CachedPage.Source` (`fetch`, `pager`, `parse`) and `Fetcher.Env` (`parseUrl`, `search`, `fetchJson`). The selector code of the board, post and search scrapers is not part of this model. `Board.post()` is modelled as the `posts` field.
- Threads and channels: `thread::spawn`, the mpsc channels, the tokio runtime and `block_on` are not modelled. The worker reads its requests from a sequence and sends its responses into one, and the run ends when the sequence does. In the source, a `recv` that fails makes the loop spin forever without sending anything.
- Fetcher.BoardStep, Fetcher.PostStep, Fetcher.RunAnswersInOrder: the oracles `Source.parse`, `Env.search` and the `posts` of a `Board` cannot fail, so panics inside the scrapers behind them are not modelled. Examples are the `unwrap`s of the gp and reply counts in `BoardPost::try_from` (src/api/board/post.rs:145,153), reached through `board.post()` at src/main.rs:158 and :175; the `expect` and `unwrap` of the board page's `try_from` (src/api/board.rs:146,158); and the `unwrap`s of the search scraper (src/api/search/mod.rs:94-95). Where such a panic kills the source's worker thread, the model sends a response. `RunAnswersInOrder`'s "only a panic cuts the responses short" covers the modelled `unwrap`s only.
- Send failures: a failed `send` is ignored in the source, so every send is modelled as one that succeeds.
- The terminal UI: drawing, key handling, event polling and the remaining src/ui files are not modelled. `ListState` is modelled by its selected index only; its scroll offset is left out.
- The url crate: a url is its location and its list of query pairs, with no percent-encoding. A url that the source builds with `format!` and parses is modelled by the pairs it contains. So `PostParams.PostUrlRoundTrip`, `Category.CategoryUrlRoundTrip` and `CachedPage.BoardUrlInjective` hold in the model for every id. In the source they hold only for ids without `&`, `#`, `+`, `%`, tab, LF or CR: `format!` writes them unescaped, the query parser splits at `&` and `#` and decodes `+` and `%`, and `Url::parse` deletes tab, LF and CR.
- A fixed network: `CachedPage.Source` and `Fetcher.Env` are one fixed set of functions for a whole run. A forced read (`ignore_cache`) or a rebuild for a request with `use_cache == false` therefore always sees the same page as the first fetch. The model cannot express a page that changed on the server, which is what cache-busting is for in the source. What it does capture is which reads go to the network (`CachedPage.Fetches`) and what is stored afterwards.
- `PostComment`'s flattened `other` map of unknown JSON fields is not modelled.
- Pieces that this version of the source uses but does not define are not modelled: `Page::Comment`, `app.comment`, `PostPageState::chain_posts` and `PostPageState::next`. A comment response only clears `loading`, and a thread page other than 1 only sets the page.
- u16 overflow: `page += 1` at 65535 and `page -= 1` at 0 panic in the source. They are preconditions of `CachedPage.PagedCache.IncreasePage`, `CachedPage.PagedCache.DecreasePage`, `CachedPage.PagedCache.Next`, `CachedPage.PagedCache.ForceNext` and `CachedPage.NextStep` rather than a modelled wrap-around.
- CachedPage.PagedCache.Init: a board's `try_page_from_html` unwraps the last pager link and the number it spells (src/api/board/page.rs:51-52), and a thread's unwraps the number its first text spells. In the class those panics are excluded by the precondition `InitSafe`. In the worker they are the status `Panicked` (`Fetcher.BoardStep`, `Fetcher.PostStep`).
- The duplicate `BoardPage`, `BoardCategoryId` and `BoardPost` code in src/api/board.rs repeats src/api/board/page.rs, src/api/board/category.rs and src/api/board/post.rs line for line. It is modelled once.
- Fetcher.RunAnswersInOrder: a panic in the worker (an `unwrap` that fails) stops the worker in the model. After a panic the lemma promises only that the responses sent before it answered their requests.
- Comments.GetComment: a JSON entry that does not decode as a comment panics in the source. The method therefore requires every fetched entry other than `next_snC` to decode.

## Findings

| source | as written | input that shows it | evidently intended | confidence | as-written member | corrected member |
|---|---|---|---|---|---|---|
| src/api/post/page.rs:165 | `PostPageRef::try_from` sets `max` from the thread cache's `page` | a thread cache on page 1 whose last page is 5 gives a reference with `max` 1 | `max` taken from the cache's `max`, as the field's name says | high; not executed | CachedPage.PagedCache.ToRef (with CachedPage.RefLosesMax) | CachedPage.PagedCache.ToRefIntended |
| src/api/board/page.rs:51 | a board's `try_page_from_html` unwraps the last pager link of page 1 | a board whose page 1 has no `.BH-pagebtnA a` link panics the worker thread on any request for it that the registry does not answer | 0 when there is no link, as `PostPage::try_page_from_html` and the `map_or(0, ..)` in `init` provide | medium; not executed | Fetcher.BoardWithoutPagerPanics | CachedPage.BoardMaxIntended |
