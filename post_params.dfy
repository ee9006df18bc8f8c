/** Threads: their parsed value, their page urls and the parameters folded out of a thread url (src/api/post/page.rs). */
module PostParams {
  import opened Wrappers
  import opened Numbers
  import opened Urls

  /** One reply of a thread as scraped; `desc` and `user` stand for their rendered text. */
  datatype PostContent = PostContent(id: string, desc: string, user: string, floor: U16, date: string)

  /** `Post`, the parsed value of one thread page. */
  datatype Post = Post(id: string, title: string, posts: seq<PostContent>, floor: U16)

  /** `Post::default()`. */
  const DefaultPost := Post("", "", [], 0)

  /** `PostPageUrlParameter`: the board, the thread and the floor a thread url points at. */
  datatype PostPageUrlParameter = PostPageUrlParameter(boardId: string, id: string, floor: U16)

  /** The floor a `tnum` value gives: its `u16` value, or 0 when it does not parse. */
  function FloorOf(tnum: string): U16 {
    ParseU16(tnum).GetOr(0)
  }

  /**
   * The parameter a url denotes: the last `snA`, `bsn` and `tnum` values,
   * each defaulting to empty or 0 when absent.
   */
  function ParameterOf(url: Url): PostPageUrlParameter {
    PostPageUrlParameter(
      LastValue(url.query, "bsn").GetOr(""),
      LastValue(url.query, "snA").GetOr(""),
      match LastValue(url.query, "tnum")
      case None => 0
      case Some(v) => FloorOf(v))
  }

  /**
   * `PostPageUrlParameter::try_from(Url)`: starts from the default and lets
   * each `snA`, `bsn` or `tnum` pair overwrite its field; never fails.
   */
  method ParameterFromUrl(url: Url) returns (r: Result<PostPageUrlParameter, string>)
    ensures r == Ok(ParameterOf(url))
  {
    var p := PostPageUrlParameter("", "", 0);
    for i := 0 to |url.query|
      invariant p == ParameterOf(Url(url.location, url.query[..i]))
    {
      var (k, v) := url.query[i];
      assert url.query[..i + 1] == url.query[..i] + [url.query[i]];
      LastWhereAppend(url.query[..i], url.query[i], "bsn", true);
      LastWhereAppend(url.query[..i], url.query[i], "snA", true);
      LastWhereAppend(url.query[..i], url.query[i], "tnum", true);
      if k == "snA" {
        p := p.(id := v);
      }
      if k == "bsn" {
        p := p.(boardId := v);
      }
      if k == "tnum" {
        p := p.(floor := FloorOf(v));
      }
    }
    assert url.query[..|url.query|] == url.query;
    return Ok(p);
  }

  /**
   * `PostPageUrlParameter::try_from(String)`: the text must be a url
   * (`unwrap` panics otherwise); `parse` stands for `Url::parse`.
   */
  method ParameterFromString(text: string, parse: string -> Option<Url>) returns (r: Result<PostPageUrlParameter, string>)
    requires parse(text).Some?
    ensures r == Ok(ParameterOf(parse(text).value))
  {
    r := ParameterFromUrl(parse(text).value);
  }

  /** `PostPage::url(page)`: `C.php?bsn=…&snA=…&page=…&tnum=…`. */
  function PostUrl(boardId: string, id: string, page: U16, floor: U16): Url {
    Url(Root + "C.php", [("bsn", boardId), ("snA", id), ("page", Decimal(page)), ("tnum", Decimal(floor))])
  }

  /** A thread page's own url folds back to the board, thread and floor it was built from. */
  lemma PostUrlRoundTrip(boardId: string, id: string, page: U16, floor: U16)
    ensures ParameterOf(PostUrl(boardId, id, page, floor)) == PostPageUrlParameter(boardId, id, floor)
  {
    var q := PostUrl(boardId, id, page, floor).query;
    assert |"bsn"| != |"snA"| + 1 && |"page"| != |"bsn"| && |"page"| != |"snA"|;
    assert "tnum" != "page" by { assert "tnum"[0] != "page"[0]; }
    assert "snA" != "bsn" by { assert "snA"[0] != "bsn"[0]; }
    assert q[..3][..2] == q[..2] && q[..2][..1] == q[..1];
    assert LastWhere(q, "bsn", true) == LastWhere(q[..3], "bsn", true) == LastWhere(q[..2], "bsn", true)
      == LastWhere(q[..1], "bsn", true) == Some(boardId);
    assert LastWhere(q, "snA", true) == LastWhere(q[..3], "snA", true) == LastWhere(q[..2], "snA", true) == Some(id);
    assert LastValue(q, "tnum") == Some(Decimal(floor));
    ParseDecimal(floor);
  }
}
