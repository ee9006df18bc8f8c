/** Board categories and the ids folded out of a category url (src/api/board/category.rs). */
module Category {
  import opened Wrappers
  import opened Urls

  /** `BoardCategoryId`: `id` is the board, `subId` the sub-board. */
  datatype BoardCategoryId = BoardCategoryId(id: string, subId: string)

  /** `BoardCategory`: a named category and the ids its link carries. */
  datatype BoardCategory = BoardCategory(name: string, ids: BoardCategoryId) {

    /** `BoardCategory::id`: the category's own id, which is the sub-board. */
    function Id(): string {
      ids.subId
    }

    /** `BoardCategory::board_id`: the board the category belongs to. */
    function BoardId(): string {
      ids.id
    }
  }

  /** `BoardCategory::url((bsn, subbsn))`: `B.php?bsn=…&subbsn=…`. */
  function CategoryUrl(boardId: string, subId: string): Url {
    Url(Root + "B.php", [("bsn", boardId), ("subbsn", subId)])
  }

  /**
   * `BoardCategoryId::try_from(Url)`: every `bsn` pair overwrites `id`, every
   * other pair overwrites `subId`, both start empty, and the result is
   * always `Ok`.
   */
  method FromUrl(url: Url) returns (r: Result<BoardCategoryId, string>)
    ensures r.Ok?
    ensures r.value.id == LastValue(url.query, "bsn").GetOr("")
    ensures r.value.subId == LastValueExcept(url.query, "bsn").GetOr("")
  {
    var id, subId := "", "";
    for i := 0 to |url.query|
      invariant id == LastValue(url.query[..i], "bsn").GetOr("")
      invariant subId == LastValueExcept(url.query[..i], "bsn").GetOr("")
    {
      var (k, v) := url.query[i];
      assert url.query[..i + 1] == url.query[..i] + [url.query[i]];
      LastWhereAppend(url.query[..i], url.query[i], "bsn", true);
      LastWhereAppend(url.query[..i], url.query[i], "bsn", false);
      if k == "bsn" {
        id := v;
      } else {
        subId := v;
      }
    }
    assert url.query[..|url.query|] == url.query;
    return Ok(BoardCategoryId(id, subId));
  }

  /** The ids of a category url come back out of it, and the getters swap them back. */
  lemma CategoryUrlRoundTrip(boardId: string, subId: string, name: string)
    ensures LastValue(CategoryUrl(boardId, subId).query, "bsn").GetOr("") == boardId
    ensures LastValueExcept(CategoryUrl(boardId, subId).query, "bsn").GetOr("") == subId
    ensures BoardCategory(name, BoardCategoryId(boardId, subId)).BoardId() == boardId
    ensures BoardCategory(name, BoardCategoryId(boardId, subId)).Id() == subId
  {
    var q := CategoryUrl(boardId, subId).query;
    assert q[..1] == [("bsn", boardId)];
    assert !Kept(q[1].0, "bsn", true) by { assert |"subbsn"| != |"bsn"|; }
    assert LastWhere(q, "bsn", true) == LastWhere(q[..1], "bsn", true);
  }

  /** Without a `bsn` pair the board id stays empty; without any other pair the sub id does. */
  lemma MissingKeysStayEmpty(url: Url)
    ensures (forall j :: 0 <= j < |url.query| ==> url.query[j].0 != "bsn") ==>
      LastValue(url.query, "bsn").GetOr("") == ""
    ensures (forall j :: 0 <= j < |url.query| ==> url.query[j].0 == "bsn") ==>
      LastValueExcept(url.query, "bsn").GetOr("") == ""
  {
    LastWhereNone(url.query, "bsn", true);
    LastWhereNone(url.query, "bsn", false);
  }
}
