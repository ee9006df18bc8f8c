/** Boards, their pages' urls and the posts listed on them (src/api/board.rs). */
module Boards {
  import opened Numbers
  import opened Urls
  import opened Category

  /** All fields of a `BoardPost` at one moment. */
  datatype BoardPostFields = BoardPostFields(
    id: string, title: string, date: string, desc: string, category: BoardCategory,
    gp: U16, reply: U16, floor: U16, url: string)

  /** One row of a board's list of threads, filled in field by field while it is scraped. */
  class BoardPost {
    var id: string
    var title: string
    var date: string
    var desc: string
    var category: BoardCategory
    var gp: U16
    var reply: U16
    var floor: U16
    var url: string

    function Fields(): BoardPostFields
      reads this
    {
      BoardPostFields(id, title, date, desc, category, gp, reply, floor, url)
    }

    /** `BoardPost::default`: id `"0"`, every other text empty, every count zero. */
    constructor ()
      ensures Fields() == BoardPostFields("0", "", "", "", BoardCategory("", BoardCategoryId("", "")), 0, 0, 0, "")
    {
      id, title, date, desc, url := "0", "", "", "", "";
      gp, reply, floor := 0, 0, 0;
      category := BoardCategory("", BoardCategoryId("", ""));
    }

    /** `id(&mut self, id)`: sets the id only and hands back the same post. */
    method SetId(id: string) returns (self: BoardPost)
      modifies this
      ensures self == this && Fields() == old(Fields()).(id := id)
    {
      this.id := id;
      return this;
    }

    /** `reply_count`: sets the reply count only. */
    method SetReplyCount(reply: U16) returns (self: BoardPost)
      modifies this
      ensures self == this && Fields() == old(Fields()).(reply := reply)
    {
      this.reply := reply;
      return this;
    }

    /** `title`: sets the title only. */
    method SetTitle(title: string) returns (self: BoardPost)
      modifies this
      ensures self == this && Fields() == old(Fields()).(title := title)
    {
      this.title := title;
      return this;
    }

    /** `date`: sets the date only. */
    method SetDate(date: string) returns (self: BoardPost)
      modifies this
      ensures self == this && Fields() == old(Fields()).(date := date)
    {
      this.date := date;
      return this;
    }

    /** `gp`: sets the "good post" count only. */
    method SetGp(gp: U16) returns (self: BoardPost)
      modifies this
      ensures self == this && Fields() == old(Fields()).(gp := gp)
    {
      this.gp := gp;
      return this;
    }

    /** `desc`: sets the description only. */
    method SetDesc(desc: string) returns (self: BoardPost)
      modifies this
      ensures self == this && Fields() == old(Fields()).(desc := desc)
    {
      this.desc := desc;
      return this;
    }

    /** `category`: sets the category only. */
    method SetCategory(category: BoardCategory) returns (self: BoardPost)
      modifies this
      ensures self == this && Fields() == old(Fields()).(category := category)
    {
      this.category := category;
      return this;
    }

    /** `floor`: sets the floor only. */
    method SetFloor(floor: U16) returns (self: BoardPost)
      modifies this
      ensures self == this && Fields() == old(Fields()).(floor := floor)
    {
      this.floor := floor;
      return this;
    }
  }

  /**
   * `Board`, the parsed value of one board page. `posts` stands for what
   * `Board::post()` scrapes from the page's rows.
   */
  datatype Board = Board(id: string, name: string, category: map<string, BoardCategory>, posts: seq<BoardPost>)

  /** `Board::url((id, page))`: `B.php?bsn=…&page=…`. */
  function BoardUrl(id: string, page: U16): Url {
    Url(Root + "B.php", [("bsn", id), ("page", Decimal(page))])
  }
}
