/**
 * Urls as the `url` crate hands them to the core: a location and the
 * query pairs in the order `Url::query_pairs` yields them. Percent
 * encoding and the text syntax of a url are not modelled.
 */
module Urls {
  import opened Wrappers

  /** `DN`, the root every url of the site is built on. */
  const Root := "https://forum.gamer.com.tw/"

  /** A url: everything before `?`, then the decoded query pairs in order. */
  datatype Url = Url(location: string, query: seq<(string, string)>)

  /** A fetched HTML document; the core reads its structure only through oracles. */
  datatype Html = Html(text: string)

  /** A pair key `k` is kept when its being `key` agrees with `same`. */
  predicate Kept(k: string, key: string, same: bool) {
    (k == key) == same
  }

  /** The value of the last query pair whose key is kept. */
  function LastWhere(query: seq<(string, string)>, key: string, same: bool): Option<string>
  {
    if query == [] then None
    else if Kept(query[|query| - 1].0, key, same) then Some(query[|query| - 1].1)
    else LastWhere(query[..|query| - 1], key, same)
  }

  /** The value of the last pair keyed `key`. */
  function LastValue(query: seq<(string, string)>, key: string): Option<string>
  {
    LastWhere(query, key, true)
  }

  /** The value of the last pair keyed anything but `key`. */
  function LastValueExcept(query: seq<(string, string)>, key: string): Option<string>
  {
    LastWhere(query, key, false)
  }

  /** Appending one pair: it wins if its key is kept, otherwise the earlier answer stands. */
  lemma LastWhereAppend(query: seq<(string, string)>, pair: (string, string), key: string, same: bool)
    ensures LastWhere(query + [pair], key, same) == if Kept(pair.0, key, same) then Some(pair.1) else LastWhere(query, key, same)
  {
    assert (query + [pair])[..|query|] == query;
  }

  /**
   * The recursive definition against the plain reading: the answer is `v`
   * exactly when some kept pair carries `v` and no kept pair follows it.
   */
  lemma {:induction false} LastWhereSome(query: seq<(string, string)>, key: string, same: bool, v: string)
    ensures LastWhere(query, key, same) == Some(v) <==>
      exists j :: 0 <= j < |query| && Kept(query[j].0, key, same) && query[j].1 == v &&
        forall k :: j < k < |query| ==> !Kept(query[k].0, key, same)
  {
    if query != [] {
      var n := |query| - 1;
      var front := query[..n];
      LastWhereSome(front, key, same, v);
      if Kept(query[n].0, key, same) {
        if query[n].1 == v {
          assert 0 <= n < |query| && Kept(query[n].0, key, same) && query[n].1 == v;
        }
      } else {
        if LastWhere(front, key, same) == Some(v) {
          var j :| 0 <= j < |front| && Kept(front[j].0, key, same) && front[j].1 == v &&
                   forall k :: j < k < |front| ==> !Kept(front[k].0, key, same);
          assert forall k :: j < k < |query| ==> !Kept(query[k].0, key, same) by {
            forall k | j < k < |query| ensures !Kept(query[k].0, key, same) {
              if k < n { assert query[k] == front[k]; }
            }
          }
        }
        if exists j :: 0 <= j < |query| && Kept(query[j].0, key, same) && query[j].1 == v &&
                       forall k :: j < k < |query| ==> !Kept(query[k].0, key, same) {
          var j :| 0 <= j < |query| && Kept(query[j].0, key, same) && query[j].1 == v &&
                   forall k :: j < k < |query| ==> !Kept(query[k].0, key, same);
          assert j < n;
          assert front[j] == query[j];
          assert forall k :: j < k < |front| ==> !Kept(front[k].0, key, same) by {
            forall k | j < k < |front| ensures !Kept(front[k].0, key, same) {
              assert front[k] == query[k];
            }
          }
        }
      }
    }
  }

  /** There is no answer exactly when no pair's key is kept. */
  lemma {:induction false} LastWhereNone(query: seq<(string, string)>, key: string, same: bool)
    ensures LastWhere(query, key, same).None? <==> forall j :: 0 <= j < |query| ==> !Kept(query[j].0, key, same)
  {
    if query != [] {
      var n := |query| - 1;
      LastWhereNone(query[..n], key, same);
      assert forall j :: 0 <= j < n ==> query[..n][j] == query[j];
    }
  }
}
