/**
 * The part of `run_app` in src/main.rs that takes a response from the fetch
 * worker and shows it: each kind of response fills its view's state, and
 * every response ends the wait.
 */
module App {
  import opened Wrappers
  import opened Numbers
  import opened Boards
  import opened PostParams
  import opened UiState
  import opened Fetcher

  /** What a response does to the screen. */
  function ApplyStep(s: AppFields, resp: Response): (t: AppFields)
    ensures !t.loading
  {
    match resp
    case SearchResults(results) =>
      s.(search := s.search.(items := results, selected := InitialSelection(|results|)), view := SearchView, loading := false)
    case BoardPageResponse(d) =>
      s.(board := s.board.(items := d.items, selected := InitialSelection(|d.items|), lastPage := d.max, page := d.page),
         view := BoardView, loading := false)
    case PostPageResponse(d) =>
      if d.page == 1 then s.(post := PostFields(d.items, 0, d.page, d.max), view := PostView, loading := false)
      else s.(post := s.post.(page := d.page), loading := false)
    case CommentPageResponse(_) => s.(loading := false)
  }

  /** The handling of one response in `run_app`'s loop. */
  method HandleResponse(app: AppState, resp: Response)
    modifies app, app.search, app.board, app.post
    ensures app.Fields() == ApplyStep(old(app.Fields()), resp)
  {
    match resp {
      case SearchResults(results) =>
        app.search.SetItems(results);
        app.search.InitSelect();
        app.view := SearchView;
      case BoardPageResponse(d) =>
        app.board.SetItems(d.items);
        app.board.InitSelect();
        app.board.SetLastPage(d.max);
        app.board.SetPage(d.page);
        app.view := BoardView;
      case PostPageResponse(d) =>
        if d.page == 1 {
          app.post.SetData(d.items);
          app.post.SetIndex(0);
          app.post.SetPage(d.page);
          app.post.SetLastPage(d.max);
          app.view := PostView;
        } else {
          app.post.SetPage(d.page);
        }
      case CommentPageResponse(_) =>
    }
    app.loading := false;
  }

  /** Every list selection points into its list, and nothing is selected in an empty list. */
  predicate SelectionsValid(s: AppFields) {
    && (s.search.selected.Some? ==> s.search.selected.value < |s.search.items|)
    && (s.board.selected.Some? ==> s.board.selected.value < |s.board.items|)
  }

  /** Showing a response keeps every selection inside its list. */
  lemma ResponseKeepsSelectionsValid(s: AppFields, resp: Response)
    requires SelectionsValid(s)
    ensures SelectionsValid(ApplyStep(s, resp))
  {
  }

  /**
   * Which view a response puts on screen: search results and board pages
   * switch to their own view, page 1 of a thread to the thread view, and a
   * later thread page leaves the view as it was.
   */
  lemma ViewFollowsResponse(s: AppFields, resp: Response)
    ensures var t := ApplyStep(s, resp);
      && (resp.SearchResults? ==> t.view == SearchView)
      && (resp.BoardPageResponse? ==> t.view == BoardView)
      && (resp.PostPageResponse? && resp.postData.page == 1 ==> t.view == PostView)
      && (resp.PostPageResponse? && resp.postData.page != 1 ==> t.view == s.view)
  {
  }

  /** Showing the responses one after the other. */
  function ApplyAll(s: AppFields, responses: seq<Response>): AppFields
    decreases |responses|
  {
    if responses == [] then s else ApplyAll(ApplyStep(s, responses[0]), responses[1..])
  }

  /** The last board page among the responses, if any. */
  function LastBoardPage(responses: seq<Response>): Option<PageData<seq<BoardPost>>> {
    if responses == [] then None
    else if responses[|responses| - 1].BoardPageResponse? then Some(responses[|responses| - 1].boardData)
    else LastBoardPage(responses[..|responses| - 1])
  }

  lemma ApplyAllSnoc(s: AppFields, responses: seq<Response>, resp: Response)
    ensures ApplyAll(s, responses + [resp]) == ApplyStep(ApplyAll(s, responses), resp)
    decreases |responses|
  {
    if responses != [] {
      assert (responses + [resp])[1..] == responses[1..] + [resp];
      ApplyAllSnoc(ApplyStep(s, responses[0]), responses[1..], resp);
    }
  }

  /**
   * After any run of responses the board view holds the last board page that
   * arrived, with its page, last page and a fresh selection; its id and name
   * are untouched. Without a board page it is as it was.
   */
  lemma {:induction false} BoardShowsLastBoardPage(s: AppFields, responses: seq<Response>)
    ensures var t := ApplyAll(s, responses);
      match LastBoardPage(responses)
      case None => t.board == s.board
      case Some(d) => t.board == BoardFields(InitialSelection(|d.items|), d.items, s.board.id, s.board.name, d.max, d.page)
    decreases |responses|
  {
    if responses != [] {
      var init, last := responses[..|responses| - 1], responses[|responses| - 1];
      assert responses == init + [last];
      ApplyAllSnoc(s, init, last);
      BoardShowsLastBoardPage(s, init);
    }
  }

  /** Once every response of a session has been shown, nothing is awaited. */
  lemma {:induction false} SessionEndsIdle(s: AppFields, responses: seq<Response>)
    requires responses != []
    ensures !ApplyAll(s, responses).loading
  {
    var init, last := responses[..|responses| - 1], responses[|responses| - 1];
    assert responses == init + [last];
    ApplyAllSnoc(s, init, last);
  }
}
