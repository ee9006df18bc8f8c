/** The replies under one post, as `PostComment::get_comment` collects them (src/api/post/comment.rs). */
module Comments {
  import opened Wrappers
  import opened Numbers
  import opened Urls

  /** `PostComment`; the catch-all `other` map of unknown JSON fields is not modelled. */
  datatype PostComment = PostComment(
    bsn: string, sn: string, userid: string, comment: string, gp: string, bp: string,
    wtime: string, mtime: string, state: string, floor: U16, content: string, time: string, nick: string)

  /** A JSON value in the reply map: one that deserialises as a comment, or any other value. */
  datatype Json = CommentJson(value: PostComment) | OtherJson

  /** The key under which the reply map carries its continuation token rather than a comment. */
  const NextKey := "next_snC"

  /** `ajax/moreCommend.php?bsn=…&snB=…`. */
  function CommentUrl(id: string, cId: string): Url {
    Url(Root + "ajax/moreCommend.php", [("bsn", id), ("snB", cId)])
  }

  /** `from_value(..).unwrap()` succeeds for every entry that is not the continuation token. */
  predicate Decodable(entries: seq<(string, Json)>) {
    forall i :: 0 <= i < |entries| && entries[i].0 != NextKey ==> entries[i].1.CommentJson?
  }

  /** Keys of a JSON object are unique. */
  predicate UniqueKeys(entries: seq<(string, Json)>) {
    forall i, j :: 0 <= i < j < |entries| ==> entries[i].0 != entries[j].0
  }

  /** `filter_map` then `collect`: every entry but the continuation token, decoded, in iteration order. */
  function Collect(entries: seq<(string, Json)>): seq<PostComment>
    requires Decodable(entries)
  {
    if entries == [] then []
    else (if entries[0].0 == NextKey then [] else [entries[0].1.value]) + Collect(entries[1..])
  }

  /** How many entries carry `key`. */
  function KeyCount(entries: seq<(string, Json)>, key: string): nat {
    if entries == [] then 0 else (if entries[0].0 == key then 1 else 0) + KeyCount(entries[1..], key)
  }

  /** Each entry but the continuation token contributes one comment, and only they contribute. */
  lemma {:induction false} CollectContents(entries: seq<(string, Json)>)
    requires Decodable(entries)
    ensures |Collect(entries)| == |entries| - KeyCount(entries, NextKey)
    ensures forall c :: c in Collect(entries) ==>
      exists i :: 0 <= i < |entries| && entries[i].0 != NextKey && entries[i].1 == CommentJson(c)
    ensures forall i :: 0 <= i < |entries| && entries[i].0 != NextKey ==> entries[i].1.value in Collect(entries)
  {
    if entries != [] {
      CollectContents(entries[1..]);
      forall i | 0 <= i < |entries| && entries[i].0 != NextKey
        ensures entries[i].1.value in Collect(entries)
      {
        if i > 0 {
          assert entries[i] == entries[1..][i - 1];
        }
      }
      forall c | c in Collect(entries)
        ensures exists i :: 0 <= i < |entries| && entries[i].0 != NextKey && entries[i].1 == CommentJson(c)
      {
        if c in Collect(entries[1..]) {
          var i :| 0 <= i < |entries[1..]| && entries[1..][i].0 != NextKey && entries[1..][i].1 == CommentJson(c);
          assert entries[i + 1] == entries[1..][i];
        } else {
          assert entries[0].0 != NextKey && entries[0].1 == CommentJson(c);
        }
      }
    }
  }

  /**
   * Collecting is done entry by entry: the comments of two runs of entries
   * are the comments of the first followed by those of the second, so
   * `Collect` keeps every comment as often as it occurs and in iteration order.
   */
  lemma {:induction false} CollectAppend(a: seq<(string, Json)>, b: seq<(string, Json)>)
    requires Decodable(a) && Decodable(b)
    ensures Decodable(a + b)
    ensures Collect(a + b) == Collect(a) + Collect(b)
    decreases |a|
  {
    assert Decodable(a + b) by {
      forall i | 0 <= i < |a + b| && (a + b)[i].0 != NextKey ensures (a + b)[i].1.CommentJson? {
        if i >= |a| {
          assert (a + b)[i] == b[i - |a|];
        }
      }
    }
    if a != [] {
      assert (a + b)[1..] == a[1..] + b;
      assert Decodable(a[1..]) by {
        forall i | 0 <= i < |a[1..]| && a[1..][i].0 != NextKey ensures a[1..][i].1.CommentJson? {
          assert a[1..][i] == a[i + 1];
        }
      }
      CollectAppend(a[1..], b);
      var head := if a[0].0 == NextKey then [] else [a[0].1.value];
      assert (a + b)[0] == a[0];
      assert Collect(a + b) == head + Collect(a[1..] + b);
      assert Collect(a) == head + Collect(a[1..]);
    } else {
      assert a + b == b;
    }
  }

  /** With unique keys the continuation token occurs at most once, so at most one entry is dropped. */
  lemma {:induction false} UniqueKeyCount(entries: seq<(string, Json)>, key: string)
    requires UniqueKeys(entries)
    ensures KeyCount(entries, key) == if exists i :: 0 <= i < |entries| && entries[i].0 == key then 1 else 0
  {
    if entries != [] {
      var rest := entries[1..];
      assert UniqueKeys(rest) by {
        forall i, j | 0 <= i < j < |rest| ensures rest[i].0 != rest[j].0 {
          assert rest[i] == entries[i + 1] && rest[j] == entries[j + 1];
        }
      }
      UniqueKeyCount(rest, key);
      if entries[0].0 == key {
        forall i | 0 <= i < |rest| ensures rest[i].0 != key {
          assert rest[i] == entries[i + 1];
        }
      }
      if exists i :: 0 <= i < |rest| && rest[i].0 == key {
        var i :| 0 <= i < |rest| && rest[i].0 == key;
        assert entries[i + 1] == rest[i];
      }
      if exists i :: 0 <= i < |entries| && entries[i].0 == key && entries[0].0 != key {
        var i :| 0 <= i < |entries| && entries[i].0 == key && entries[0].0 != key;
        assert rest[i - 1] == entries[i];
      }
    }
  }

  /** Ordered non-decreasingly by floor. */
  predicate SortedByFloor(s: seq<PostComment>) {
    forall i, j :: 0 <= i <= j < |s| ==> s[i].floor <= s[j].floor
  }

  /** Puts `c` after every comment whose floor is not above its own. */
  function Insert(c: PostComment, s: seq<PostComment>): seq<PostComment> {
    if s == [] || c.floor < s[0].floor then [c] + s else [s[0]] + Insert(c, s[1..])
  }

  /** `sort_by_key(|v| v.floor)`: a stable sort by floor, written as insertion of each element in turn. */
  function SortByFloor(s: seq<PostComment>): seq<PostComment> {
    if s == [] then [] else Insert(s[|s| - 1], SortByFloor(s[..|s| - 1]))
  }

  /** Every comment's floor is at least `lo`. */
  predicate AllAtLeast(s: seq<PostComment>, lo: int) {
    forall k :: 0 <= k < |s| ==> lo <= s[k].floor
  }

  /** A comment in front of a sorted list whose floors are all at least its own leaves it sorted. */
  lemma ConsSorted(x: PostComment, t: seq<PostComment>)
    requires SortedByFloor(t) && AllAtLeast(t, x.floor)
    ensures SortedByFloor([x] + t)
  {
    var r := [x] + t;
    forall i, j | 0 <= i <= j < |r| ensures r[i].floor <= r[j].floor {
      if i > 0 {
        assert r[i] == t[i - 1] && r[j] == t[j - 1];
      } else if j > 0 {
        assert r[j] == t[j - 1];
      }
    }
  }

  /** Inserting keeps a lower bound on the floors that the new comment meets too. */
  lemma {:induction false} InsertBounded(c: PostComment, s: seq<PostComment>, lo: int)
    requires lo <= c.floor && AllAtLeast(s, lo)
    ensures AllAtLeast(Insert(c, s), lo)
  {
    if s != [] && c.floor >= s[0].floor {
      InsertBounded(c, s[1..], lo);
      var t := Insert(c, s[1..]);
      forall k | 0 <= k < |[s[0]] + t| ensures lo <= ([s[0]] + t)[k].floor {
        if k > 0 {
          assert ([s[0]] + t)[k] == t[k - 1];
        }
      }
    }
  }

  /** Inserting adds exactly the new comment. */
  lemma {:induction false} InsertMultiset(c: PostComment, s: seq<PostComment>)
    ensures multiset(Insert(c, s)) == multiset(s) + multiset{c}
  {
    if s != [] && c.floor >= s[0].floor {
      InsertMultiset(c, s[1..]);
      assert s == [s[0]] + s[1..];
    }
  }

  /** Inserting into a list ordered by floor keeps it ordered. */
  lemma {:induction false} InsertKeepsSorted(c: PostComment, s: seq<PostComment>)
    requires SortedByFloor(s)
    ensures SortedByFloor(Insert(c, s))
  {
    if s == [] || c.floor < s[0].floor {
      assert AllAtLeast(s, c.floor);
      ConsSorted(c, s);
    } else {
      var rest := s[1..];
      assert SortedByFloor(rest);
      InsertKeepsSorted(c, rest);
      assert AllAtLeast(rest, s[0].floor);
      InsertBounded(c, rest, s[0].floor);
      ConsSorted(s[0], Insert(c, rest));
    }
  }

  /** The sort orders by floor and only rearranges: the result is a permutation of the input. */
  lemma {:induction false} SortByFloorCorrect(s: seq<PostComment>)
    ensures SortedByFloor(SortByFloor(s)) && multiset(SortByFloor(s)) == multiset(s)
  {
    if s != [] {
      var n := |s| - 1;
      SortByFloorCorrect(s[..n]);
      InsertKeepsSorted(s[n], SortByFloor(s[..n]));
      InsertMultiset(s[n], SortByFloor(s[..n]));
      assert s == s[..n] + [s[n]];
    }
  }

  /** Where the inner loop of the insertion sort stops is where `Insert` puts the element. */
  lemma {:induction false} InsertAt(c: PostComment, s: seq<PostComment>, j: nat)
    requires j <= |s|
    requires forall k :: 0 <= k < j ==> s[k].floor <= c.floor
    requires forall k :: j <= k < |s| ==> s[k].floor > c.floor
    ensures Insert(c, s) == s[..j] + [c] + s[j..]
  {
    if j > 0 {
      InsertAt(c, s[1..], j - 1);
      assert s[..j] == [s[0]] + s[1..][..j - 1];
    }
  }

  /**
   * What the inner loop leaves behind: the sorted prefix up to `j`, the key,
   * then the rest of the prefix shifted by one, which is `Insert`'s answer.
   */
  lemma ShiftedIsInsert(t: seq<PostComment>, sorted: seq<PostComment>, key: PostComment, j: nat)
    requires SortedByFloor(sorted) && j <= |sorted| && |t| == |sorted| + 1
    requires forall k :: 0 <= k < j ==> t[k] == sorted[k]
    requires t[j] == key
    requires forall k :: j < k < |t| ==> t[k] == sorted[k - 1]
    requires forall k :: j <= k < |sorted| ==> sorted[k].floor > key.floor
    requires j > 0 ==> sorted[j - 1].floor <= key.floor
    ensures t == Insert(key, sorted)
  {
    InsertAt(key, sorted, j);
    ghost var want := sorted[..j] + [key] + sorted[j..];
    forall k | 0 <= k < |t|
      ensures t[k] == want[k]
    {
      if k > j {
        assert want[k] == sorted[j..][k - j - 1];
      }
    }
  }

  /** One pass of the insertion sort: moves `a[i]` into the sorted prefix `a[..i]`. */
  method InsertLast(a: array<PostComment>, i: nat)
    requires i < a.Length && SortedByFloor(a[..i])
    modifies a
    ensures a[..i + 1] == Insert(old(a[i]), old(a[..i]))
    ensures forall k :: i < k < a.Length ==> a[k] == old(a[k])
  {
    ghost var sorted := a[..i];
    var key := a[i];
    var j := i;
    while j > 0 && a[j - 1].floor > key.floor
      invariant 0 <= j <= i
      invariant forall k :: 0 <= k < j ==> a[k] == sorted[k]
      invariant forall k :: j < k <= i ==> a[k] == sorted[k - 1]
      invariant forall k :: i < k < a.Length ==> a[k] == old(a[k])
      invariant forall k :: j <= k < i ==> sorted[k].floor > key.floor
    {
      a[j] := a[j - 1];
      j := j - 1;
    }
    assert j > 0 ==> a[j - 1] == sorted[j - 1];
    a[j] := key;
    ShiftedIsInsert(a[..i + 1], sorted, key, j);
  }

  /** Sorts the list in place, as `Vec::sort_by_key` does. */
  method SortInPlace(a: array<PostComment>)
    modifies a
    ensures a[..] == SortByFloor(old(a[..]))
  {
    ghost var input := a[..];
    for i := 0 to a.Length
      invariant a[..i] == SortByFloor(input[..i])
      invariant forall k :: i <= k < a.Length ==> a[k] == input[k]
    {
      SortByFloorCorrect(input[..i]);
      InsertLast(a, i);
      assert input[..i + 1] == input[..i] + [input[i]];
    }
    assert input[..a.Length] == input;
  }

  /**
   * `PostComment::get_comment`: a failed fetch is an error; otherwise the
   * comments of the reply map, without its continuation token, by floor.
   */
  method GetComment(id: string, cId: string, fetchJson: Url -> Option<seq<(string, Json)>>)
    returns (r: Result<seq<PostComment>, string>)
    requires fetchJson(CommentUrl(id, cId)).Some? ==> Decodable(fetchJson(CommentUrl(id, cId)).value)
    ensures r.Err? <==> fetchJson(CommentUrl(id, cId)).None?
    ensures r.Ok? ==> r.value == SortByFloor(Collect(fetchJson(CommentUrl(id, cId)).value))
    ensures r.Ok? ==> SortedByFloor(r.value)
    ensures r.Ok? ==> multiset(r.value) == multiset(Collect(fetchJson(CommentUrl(id, cId)).value))
  {
    var reply := fetchJson(CommentUrl(id, cId));
    if reply.None? {
      return Err("fetch failed");
    }
    var list := Collect(reply.value);
    var a := new PostComment[|list|](i requires 0 <= i < |list| => list[i]);
    assert a[..] == list;
    SortInPlace(a);
    SortByFloorCorrect(list);
    return Ok(a[..]);
  }
}
