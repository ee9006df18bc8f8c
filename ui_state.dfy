/** The presentation state the UI keeps per view (src/ui/state.rs). */
module UiState {
  import opened Wrappers
  import opened Numbers
  import opened Boards
  import opened PostParams
  import opened Search

  datatype InputMode = Normal | Edit

  /** `Page`: which view is on screen. */
  datatype View = SearchView | BoardView | PostView

  /** `CursorMoveable::index`: the selected row, or 1 when nothing is selected. */
  function Index(selected: Option<nat>): nat {
    selected.GetOr(1)
  }

  /**
   * `CursorMoveable::next_index`: one row down, back to the top after the
   * last row. `max - 1` underflows on an empty list, so the list is not empty.
   */
  function NextIndex(index: nat, max: nat): (r: nat)
    requires max > 0
    ensures r < max
    ensures index < max - 1 ==> r == index + 1
  {
    if index >= max - 1 then 0 else index + 1
  }

  /** `CursorMoveable::previous_index`: one row up, to the bottom from the top row; 0 on an empty list. */
  function PreviousIndex(index: nat, max: nat): (r: nat)
    ensures max > 0 && index <= max ==> r < max
    ensures max == 0 && index == 0 ==> r == 0
  {
    if index > 0 then index - 1
    else if max > 0 then max - 1
    else index
  }

  /** On a list of `max` rows, moving up and moving down undo each other. */
  lemma WrapInverse(index: nat, max: nat)
    requires index < max
    ensures PreviousIndex(NextIndex(index, max), max) == index
    ensures NextIndex(PreviousIndex(index, max), max) == index
  {
  }

  /** `n` moves down from `index`. */
  function Forward(index: nat, max: nat, n: nat): (r: nat)
    requires max > 0
  {
    if n == 0 then index else NextIndex(Forward(index, max, n - 1), max)
  }

  /** Short of the last row, `k` moves down add `k`. */
  lemma {:induction false} ForwardCounts(index: nat, max: nat, k: nat)
    requires index + k < max
    ensures Forward(index, max, k) == index + k
  {
    if k > 0 {
      ForwardCounts(index, max, k - 1);
    }
  }

  /** Moves down compose. */
  lemma {:induction false} ForwardCompose(index: nat, max: nat, a: nat, b: nat)
    requires max > 0
    ensures Forward(index, max, a + b) == Forward(Forward(index, max, a), max, b)
  {
    if b > 0 {
      ForwardCompose(index, max, a, b - 1);
    }
  }

  /** As many moves down as the list has rows come back to the starting row. */
  lemma ForwardFullCycle(index: nat, max: nat)
    requires index < max
    ensures Forward(index, max, max) == index
  {
    var toLast := max - 1 - index;
    ForwardCounts(index, max, toLast);
    ForwardCompose(index, max, toLast, index + 1);
    ForwardCompose(max - 1, max, 1, index);
    ForwardCounts(0, max, index);
  }

  /** `ListStateInit::init_select`: the first row of a non-empty list, nothing on an empty one. */
  function InitialSelection(len: nat): (r: Option<nat>)
    ensures r.Some? <==> len > 0
    ensures r.Some? ==> r.value == 0
  {
    if len > 0 then Some(0) else None
  }

  /** All fields of a `SearchPageState` at one moment. */
  datatype SearchFields = SearchFields(selected: Option<nat>, items: seq<SearchResult>, mode: InputMode, input: string)

  /** `SearchPageState`: the search view's list, its selection, and the input box. */
  class SearchPageState {
    var selected: Option<nat>
    var items: seq<SearchResult>
    var mode: InputMode
    var input: string

    function Fields(): SearchFields
      reads this
    {
      SearchFields(selected, items, mode, input)
    }

    /** `SearchPageState::default()`: nothing listed or selected, normal mode, empty input. */
    constructor ()
      ensures selected == None && items == [] && mode == Normal && input == ""
    {
      selected, items, mode, input := None, [], Normal, "";
    }

    /** `items`: replaces the list only. */
    method SetItems(items: seq<SearchResult>)
      modifies this
      ensures this.items == items
      ensures selected == old(selected) && mode == old(mode) && input == old(input)
    {
      this.items := items;
    }

    /** `mode`: replaces the input mode only. */
    method SetMode(mode: InputMode)
      modifies this
      ensures this.mode == mode
      ensures selected == old(selected) && items == old(items) && input == old(input)
    {
      this.mode := mode;
    }

    /** `init_select`. */
    method InitSelect()
      modifies this
      ensures selected == InitialSelection(|items|)
      ensures items == old(items) && mode == old(mode) && input == old(input)
    {
      selected := InitialSelection(|items|);
    }

    /** `next`: selects the row below the current one, wrapping around. */
    method Next()
      requires |items| > 0
      modifies this
      ensures selected == Some(NextIndex(Index(old(selected)), |old(items)|))
      ensures items == old(items) && mode == old(mode) && input == old(input)
    {
      selected := Some(NextIndex(Index(selected), |items|));
    }

    /** `previous`: selects the row above the current one, wrapping around. */
    method Previous()
      modifies this
      ensures selected == Some(PreviousIndex(Index(old(selected)), |items|))
      ensures items == old(items) && mode == old(mode) && input == old(input)
    {
      selected := Some(PreviousIndex(Index(selected), |items|));
    }
  }

  /** All fields of a `BoardPageState` at one moment. */
  datatype BoardFields = BoardFields(
    selected: Option<nat>, items: seq<BoardPost>, id: string, name: string, lastPage: U16, page: U16)

  /** `BoardPageState`: the board view's list of threads, its selection and its pagination. */
  class BoardPageState {
    var selected: Option<nat>
    var items: seq<BoardPost>
    var id: string
    var name: string
    var lastPage: U16
    var page: U16

    function Fields(): BoardFields
      reads this
    {
      BoardFields(selected, items, id, name, lastPage, page)
    }

    /** `BoardPageState::default()`. */
    constructor ()
      ensures Fields() == BoardFields(None, [], "", "", 0, 0)
    {
      selected, items, id, name, lastPage, page := None, [], "", "", 0, 0;
    }

    /** `id`: replaces the board id only. */
    method SetId(id: string)
      modifies this
      ensures Fields() == old(Fields()).(id := id)
    {
      this.id := id;
    }

    /** `name`: replaces the board name only. */
    method SetName(name: string)
      modifies this
      ensures Fields() == old(Fields()).(name := name)
    {
      this.name := name;
    }

    /** `items`: replaces the list only. */
    method SetItems(items: seq<BoardPost>)
      modifies this
      ensures Fields() == old(Fields()).(items := items)
    {
      this.items := items;
    }

    /** `last_page`: replaces the last page only. */
    method SetLastPage(page: U16)
      modifies this
      ensures Fields() == old(Fields()).(lastPage := page)
    {
      this.lastPage := page;
    }

    /** `page`: replaces the current page only. */
    method SetPage(page: U16)
      modifies this
      ensures Fields() == old(Fields()).(page := page)
    {
      this.page := page;
    }

    /** `init_select`. */
    method InitSelect()
      modifies this
      ensures Fields() == old(Fields()).(selected := InitialSelection(|items|))
    {
      selected := InitialSelection(|items|);
    }

    /** `next`: selects the row below the current one, wrapping around. */
    method Next()
      requires |items| > 0
      modifies this
      ensures Fields() == old(Fields()).(selected := Some(NextIndex(Index(old(selected)), |old(items)|)))
    {
      selected := Some(NextIndex(Index(selected), |items|));
    }

    /** `previous`: selects the row above the current one, wrapping around. */
    method Previous()
      modifies this
      ensures Fields() == old(Fields()).(selected := Some(PreviousIndex(Index(old(selected)), |items|)))
    {
      selected := Some(PreviousIndex(Index(selected), |items|));
    }
  }

  /** All fields of a `PostPageState` at one moment. */
  datatype PostFields = PostFields(data: Post, index: U16, page: U16, lastPage: U16)

  /** `PostPageState`: the thread on screen, the reply in focus and the pagination. */
  class PostPageState {
    var data: Post
    var index: U16
    var page: U16
    var lastPage: U16

    function Fields(): PostFields
      reads this
    {
      PostFields(data, index, page, lastPage)
    }

    /** `PostPageState::default()`. */
    constructor ()
      ensures Fields() == PostFields(DefaultPost, 0, 0, 0)
    {
      data, index, page, lastPage := DefaultPost, 0, 0, 0;
    }

    /** `data`: replaces the thread only. */
    method SetData(data: Post)
      modifies this
      ensures Fields() == old(Fields()).(data := data)
    {
      this.data := data;
    }

    /** `index`: replaces the focused reply only. */
    method SetIndex(index: U16)
      modifies this
      ensures Fields() == old(Fields()).(index := index)
    {
      this.index := index;
    }

    /** `page`: replaces the current page only. */
    method SetPage(page: U16)
      modifies this
      ensures Fields() == old(Fields()).(page := page)
    {
      this.page := page;
    }

    /** `last_page`: replaces the last page only. */
    method SetLastPage(page: U16)
      modifies this
      ensures Fields() == old(Fields()).(lastPage := page)
    {
      this.lastPage := page;
    }
  }

  /** All of an `AppState` at one moment. */
  datatype AppFields = AppFields(view: View, loading: bool, search: SearchFields, board: BoardFields, post: PostFields)

  /** `AppState`: the view on screen, one state per view, and whether a response is awaited. */
  class AppState {
    var view: View
    const search: SearchPageState
    const board: BoardPageState
    const post: PostPageState
    var loading: bool

    /** Everything on screen at one moment. */
    function Fields(): AppFields
      reads this, search, board, post
    {
      AppFields(view, loading, search.Fields(), board.Fields(), post.Fields())
    }

    /** `AppState::default()`: the search view, nothing loading, every view state at its default. */
    constructor ()
      ensures view == SearchView && !loading
      ensures fresh(search) && fresh(board) && fresh(post)
      ensures search.selected == None && search.items == [] && search.mode == Normal && search.input == ""
      ensures board.Fields() == BoardFields(None, [], "", "", 0, 0)
      ensures post.Fields() == PostFields(DefaultPost, 0, 0, 0)
    {
      view := SearchView;
      search := new SearchPageState();
      board := new BoardPageState();
      post := new PostPageState();
      loading := false;
    }
  }
}
