/**
 * The path-parameter patterns of the three parameterised routes, as character-class
 * validators, and what they guarantee about the arguments built from them.
 */
module Routes {
  import opened Wp
  import opened Query

  predicate IsDigit(c: char) {
    '0' <= c <= '9'
  }

  predicate IsAlphaNumeric(c: char) {
    IsDigit(c) || 'a' <= c <= 'z' || 'A' <= c <= 'Z'
  }

  /** `(?P<id>\d+)`: one or more ASCII digits. */
  predicate IsIdParam(s: string) {
    |s| > 0 && forall i :: 0 <= i < |s| ==> IsDigit(s[i])
  }

  /** `(?P<date_from>[-+_a-zA-Z0-9]+)`. */
  predicate IsDateFromParam(s: string) {
    |s| > 0 && forall i :: 0 <= i < |s| ==> s[i] in "-+_" || IsAlphaNumeric(s[i])
  }

  /** `(?P<date_to>[-a-zA-Z0-9]+)`: no `+` and no `_`. */
  predicate IsDateToParam(s: string) {
    |s| > 0 && forall i :: 0 <= i < |s| ==> s[i] == '-' || IsAlphaNumeric(s[i])
  }

  /** Every valid `date_to` would also be a valid `date_from`, and every id too. */
  lemma ParamPatternsNest(s: string)
    ensures IsIdParam(s) ==> IsDateToParam(s)
    ensures IsDateToParam(s) ==> IsDateFromParam(s)
  {
  }

  /** A route-supplied `date_to` holds no underscore, so normalising it changes nothing. */
  lemma DateToIsAlreadyNormal(s: string)
    requires IsDateToParam(s)
    ensures '_' !in s
    ensures Normalise(s) == s
  {
    NormaliseIdentity(s);
  }

  /** `/jobs/{date_from}`: only an `after` bound, present unless it is "0". */
  lemma FromRouteArgs(from: string)
    requires IsDateFromParam(from)
    ensures var a := ArgsFor(Request(Some(from), None));
            if from == "0" then a.dateQuery == None
            else a.dateQuery == Some(DateQuery(true, None, Some(Normalise(from))))
  {
  }

  /**
   * `/jobs/{date_from}/{date_to}`: the `before` bound is `date_to` verbatim unless it
   * is "0"; the block is missing only when both parameters are "0".
   */
  lemma RangeRouteArgs(from: string, to: string)
    requires IsDateFromParam(from) && IsDateToParam(to)
    ensures var a := ArgsFor(Request(Some(from), Some(to)));
            && (a.dateQuery.Some? <==> from != "0" || to != "0")
            && (a.dateQuery.Some? ==>
                  a.dateQuery.value.before == (if to == "0" then None else Some(to)))
  {
    DateToIsAlreadyNormal(to);
  }

  /** `/jobs`: no bound at all, so no `date_query` block. */
  lemma BareRouteArgs()
    ensures ArgsFor(Request(None, None)).dateQuery == None
  {
  }

  /** `/jobs/2017/2017` asks for an inclusive range with both bounds "2017". */
  lemma SameYearRangeArgs()
    ensures ArgsFor(Request(Some("2017"), Some("2017"))).dateQuery
         == Some(DateQuery(true, Some("2017"), Some("2017")))
  {
    NormaliseIdentity("2017");
  }
}
