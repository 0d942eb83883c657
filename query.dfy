/**
 * Request parameters of the `/jobs` routes and the `get_posts` arguments built
 * from them (the first half of the shared `$callback`).
 */
module Query {
  import opened Wp
  import Jobs

  /** Page size of every listing query; there is no further pagination. */
  const PostsPerPage: int := 1000

  /** The optional route parameters `date_from` and `date_to`. */
  datatype Request = Request(dateFrom: Option<string>, dateTo: Option<string>)

  /** The `date_query` block; a None bound is a key that is absent. */
  datatype DateQuery = DateQuery(inclusive: bool, before: Option<string>, after: Option<string>)

  /** The `$args` array handed to `get_posts`; a None `dateQuery` is a key that is absent. */
  datatype QueryArgs = QueryArgs(
    postStatus: seq<string>,
    postType: string,
    postsPerPage: int,
    dateQuery: Option<DateQuery>)

  /** A parameter as the callback sees it: an absent one reads as "". */
  function Param(p: Option<string>): string {
    if p.Some? then p.value else ""
  }

  /** `str_replace('_', ' ', s)`: every underscore becomes a space. */
  function Normalise(s: string): (r: string)
    ensures |r| == |s|
    ensures forall i :: 0 <= i < |s| ==> r[i] == if s[i] == '_' then ' ' else s[i]
  {
    if s == [] then [] else [if s[0] == '_' then ' ' else s[0]] + Normalise(s[1..])
  }

  /** No underscore survives normalisation. */
  lemma NormaliseRemovesUnderscores(s: string)
    ensures '_' !in Normalise(s)
  {
  }

  /** A string without underscores is left as it is. */
  lemma NormaliseIdentity(s: string)
    requires '_' !in s
    ensures Normalise(s) == s
  {
  }

  /** Normalising twice is normalising once. */
  lemma NormaliseIdempotent(s: string)
    ensures Normalise(Normalise(s)) == Normalise(s)
  {
    NormaliseRemovesUnderscores(s);
    NormaliseIdentity(Normalise(s));
  }

  /** The date `2017_06_01` from a path becomes `2017 06 01`. */
  lemma NormaliseExample()
    ensures Normalise("2017_06_01") == "2017 06 01"
  {
    var raw, spaced := "2017_06_01", "2017 06 01";
    var r := Normalise(raw);
    assert |r| == |spaced|;
    forall i | 0 <= i < |raw|
      ensures r[i] == spaced[i]
    {
    }
  }

  /** Normalisation keeps PHP truthiness: it maps "" to "" and "0" to "0", and nothing else to either. */
  lemma NormaliseKeepsTruthiness(s: string)
    ensures Truthy(Normalise(s)) <==> Truthy(s)
  {
    if s == "0" {
      assert Normalise(s) == "0";
    }
  }

  /**
   * The `get_posts` arguments for a request. The bounds are normalised; a
   * `date_query` block is added only when a bound is truthy, and each bound only
   * when it is truthy itself.
   */
  function ArgsFor(req: Request): (a: QueryArgs)
    ensures a.postStatus == ["publish", "expired"]
    ensures a.postType == "job_listing"
    ensures a.postsPerPage == 1000
    ensures a.dateQuery.Some? <==> Truthy(Param(req.dateFrom)) || Truthy(Param(req.dateTo))
    ensures a.dateQuery.Some? ==> a.dateQuery.value.inclusive
    ensures a.dateQuery.Some? ==>
              (a.dateQuery.value.before.Some? <==> Truthy(Param(req.dateTo))) &&
              (a.dateQuery.value.after.Some? <==> Truthy(Param(req.dateFrom)))
    ensures a.dateQuery.Some? && a.dateQuery.value.before.Some? ==>
              a.dateQuery.value.before.value == Normalise(Param(req.dateTo))
    ensures a.dateQuery.Some? && a.dateQuery.value.after.Some? ==>
              a.dateQuery.value.after.value == Normalise(Param(req.dateFrom))
  {
    var after := Normalise(Param(req.dateFrom));
    var before := Normalise(Param(req.dateTo));
    NormaliseKeepsTruthiness(Param(req.dateFrom));
    NormaliseKeepsTruthiness(Param(req.dateTo));
    QueryArgs(
      Jobs.Statuses, Jobs.JobType, PostsPerPage,
      if Truthy(before) || Truthy(after) then
        Some(DateQuery(true,
                       if Truthy(before) then Some(before) else None,
                       if Truthy(after) then Some(after) else None))
      else None)
  }

  /** A bound of "0" is falsy: it adds neither a `date_query` block nor a bound key. */
  lemma ZeroBoundIsIgnored(other: Option<string>)
    ensures ArgsFor(Request(Some("0"), other)) == ArgsFor(Request(None, other))
    ensures ArgsFor(Request(other, Some("0"))) == ArgsFor(Request(other, None))
  {
  }

  /** Requests whose bounds normalise alike build the same arguments. */
  lemma ArgsDependOnNormalisedBounds(r1: Request, r2: Request)
    requires Normalise(Param(r1.dateFrom)) == Normalise(Param(r2.dateFrom))
    requires Normalise(Param(r1.dateTo)) == Normalise(Param(r2.dateTo))
    ensures ArgsFor(r1) == ArgsFor(r2)
  {
  }

  /** Builds the arguments step by step, inserting the `date_query` keys in place. */
  method BuildArgs(req: Request) returns (args: QueryArgs)
    ensures args == ArgsFor(req)
  {
    var after := Normalise(Param(req.dateFrom));
    var before := Normalise(Param(req.dateTo));
    args := QueryArgs(Jobs.Statuses, Jobs.JobType, PostsPerPage, None);
    if Truthy(before) || Truthy(after) {
      var dateQuery := DateQuery(true, None, None);
      if Truthy(before) {
        dateQuery := dateQuery.(before := Some(before));
      }
      if Truthy(after) {
        dateQuery := dateQuery.(after := Some(after));
      }
      args := args.(dateQuery := Some(dateQuery));
    }
  }
}
