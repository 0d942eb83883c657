/**
 * The `/jobs` callback: result assembly over the posts `get_posts` returns
 * (the second half of the shared `$callback`).
 */
module Listing {
  import opened Wp
  import opened Jobs
  import opened Query

  /**
   * An integer-keyed PHP array of views: `entries` holds the values and `order`
   * the keys in insertion order.
   */
  datatype IdMap = IdMap(order: seq<int>, entries: map<int, View>)

  /** `order` lists each key of `entries` exactly once. */
  ghost predicate WellFormed(m: IdMap) {
    && (forall i, j :: 0 <= i < j < |m.order| ==> m.order[i] != m.order[j])
    && (forall k :: k in m.entries <==> k in m.order)
  }

  /** The empty array `[]`. */
  const Empty: IdMap := IdMap([], map[])

  /**
   * `$m[k] = v`: a new key is appended at the end; an existing key keeps its
   * position and gets the new value.
   */
  function Put(m: IdMap, k: int, v: View): (r: IdMap)
    ensures r.entries == m.entries[k := v]
    ensures r.order == if k in m.entries then m.order else m.order + [k]
    ensures WellFormed(m) ==> WellFormed(r)
    ensures WellFormed(m) && |m.entries| == |m.order| ==> |r.entries| == |r.order|
  {
    if k in m.entries then m.(entries := m.entries[k := v])
    else IdMap(m.order + [k], m.entries[k := v])
  }

  /** The IDs of the posts, in the store's order. */
  function Ids(posts: seq<Post>): (ids: seq<int>)
    ensures |ids| == |posts|
    ensures forall i :: 0 <= i < |posts| ==> ids[i] == posts[i].id
  {
    if posts == [] then [] else Ids(posts[..|posts| - 1]) + [posts[|posts| - 1].id]
  }

  /** The map the `foreach` loop builds: each post in turn formatted and stored under its ID. */
  function Collect(posts: seq<Post>, format: Post -> View): (m: IdMap)
    ensures WellFormed(m)
    ensures |m.entries| == |m.order| <= |posts|
  {
    if posts == [] then Empty
    else
      var last := posts[|posts| - 1];
      Put(Collect(posts[..|posts| - 1], format), last.id, format(last))
  }

  /** The foreach loop over the returned posts. */
  method Assemble(posts: seq<Post>, format: Post -> View) returns (data: IdMap)
    ensures data == Collect(posts, format)
  {
    data := Empty;
    for i := 0 to |posts|
      invariant data == Collect(posts[..i], format)
    {
      assert posts[..i + 1][..i] == posts[..i];
      data := Put(data, posts[i].id, format(posts[i]));
    }
    assert posts[..|posts|] == posts;
  }

  /** The keys of the result are exactly the IDs of the returned posts; no posts give no keys. */
  lemma {:induction false} CollectKeys(posts: seq<Post>, format: Post -> View)
    ensures forall k :: k in Collect(posts, format).entries <==> k in Ids(posts)
    ensures posts == [] ==> Collect(posts, format) == IdMap([], map[])
  {
    if posts != [] {
      CollectKeys(posts[..|posts| - 1], format);
    }
  }

  /** The value under an ID is the view of the last post carrying that ID. */
  lemma {:induction false} CollectLast(posts: seq<Post>, format: Post -> View, i: int)
    requires 0 <= i < |posts|
    requires forall j :: i < j < |posts| ==> posts[j].id != posts[i].id
    ensures posts[i].id in Collect(posts, format).entries
    ensures Collect(posts, format).entries[posts[i].id] == format(posts[i])
  {
    var init, last := posts[..|posts| - 1], posts[|posts| - 1];
    var earlier, view := Collect(init, format), format(last);
    assert Collect(posts, format).entries == earlier.entries[last.id := view];
    if i < |posts| - 1 {
      var p := posts[i];
      assert init[i] == p && p.id != last.id;
      CollectLast(init, format, i);
      assert earlier.entries[p.id] == format(p);
    }
  }

  /**
   * When the store returns each post once, the result has one entry per post, in the
   * store's order, each the view of that post.
   */
  lemma {:induction false} CollectDistinct(posts: seq<Post>, format: Post -> View)
    requires forall i, j :: 0 <= i < j < |posts| ==> posts[i].id != posts[j].id
    ensures Collect(posts, format).order == Ids(posts)
    ensures forall i :: 0 <= i < |posts| ==>
              Collect(posts, format).entries[posts[i].id] == format(posts[i])
  {
    if posts != [] {
      var init, last := posts[..|posts| - 1], posts[|posts| - 1];
      var before := Collect(init, format);
      CollectDistinct(init, format);
      CollectKeys(init, format);
      assert last.id !in before.entries;
      assert Collect(posts, format) == Put(before, last.id, format(last));
      assert Collect(posts, format).order == before.order + [last.id];
      assert Ids(posts) == Ids(init) + [last.id];
    }
    forall i | 0 <= i < |posts|
      ensures Collect(posts, format).entries[posts[i].id] == format(posts[i])
    {
      CollectLast(posts, format, i);
    }
  }

  /** The whole listing callback, given the store's answer to a query. */
  function ListJobs(req: Request, query: QueryArgs -> seq<Post>, site: Site): (r: IdMap)
    ensures WellFormed(r)
    ensures |r.entries| <= |query(ArgsFor(req))|
  {
    Collect(query(ArgsFor(req)), Formatter(site))
  }

  /** Builds the arguments, asks the store and assembles the map. */
  method HandleJobs(req: Request, query: QueryArgs -> seq<Post>, site: Site) returns (data: IdMap)
    ensures data == ListJobs(req, query, site)
  {
    var args := BuildArgs(req);
    var posts := query(args);
    data := Assemble(posts, Formatter(site));
  }

  /**
   * The listing for a request: when the store returns each post once, one entry per
   * returned post, in the store's order, each that post's public view.
   */
  lemma ListedViewsAreFormatted(req: Request, query: QueryArgs -> seq<Post>, site: Site)
    requires var posts := query(ArgsFor(req));
             forall i, j :: 0 <= i < j < |posts| ==> posts[i].id != posts[j].id
    ensures var posts, data := query(ArgsFor(req)), ListJobs(req, query, site);
            && data.order == Ids(posts)
            && forall i :: 0 <= i < |posts| ==> data.entries[posts[i].id] == Format(posts[i], site)
  {
    CollectDistinct(query(ArgsFor(req)), Formatter(site));
  }

  /** A store that honours the page size never makes the listing exceed 1000 entries. */
  lemma PageCap(req: Request, query: QueryArgs -> seq<Post>, site: Site)
    requires |query(ArgsFor(req))| <= ArgsFor(req).postsPerPage
    ensures |ListJobs(req, query, site).entries| <= 1000
  {
  }

  /** An underscore in a bound lists exactly what a space there lists. */
  lemma UnderscoreMeansSpace(req: Request, spaced: Request, query: QueryArgs -> seq<Post>, site: Site)
    requires Normalise(Param(req.dateFrom)) == Param(spaced.dateFrom)
    requires Normalise(Param(req.dateTo)) == Param(spaced.dateTo)
    ensures ListJobs(req, query, site) == ListJobs(spaced, query, site)
  {
    NormaliseIdempotent(Param(req.dateFrom));
    NormaliseIdempotent(Param(req.dateTo));
    ArgsDependOnNormalisedBounds(req, spaced);
  }
}
