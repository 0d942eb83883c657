# WP Job Manager Public API — verified model

This project models the request-to-query logic of the WordPress plugin
*WP Job Manager - Public API*. The plugin exposes job listings read-only under the
REST namespace `wpjm_public/v1`:

- `/job/{id}` returns the public view of one job, or the error `invalid_job` (HTTP 404).
- `/jobs`, `/jobs/{date_from}` and `/jobs/{date_from}/{date_to}` return a map from
  post ID to public view. Up to 1000 posts are listed, optionally inside an inclusive
  date range.

The WordPress calls are inputs of the model, not code in it:

- `get_post` is the `Option<Post>` given to `Jobs.GetJob`.
- `get_posts` is a function `QueryArgs -> seq<Post>` given to `Listing.ListJobs` and `Listing.HandleJobs`.
- `get_post_meta(id, key, true)` is the map `Site.meta`; a missing entry reads as `""`.
- `get_permalink` is the function `Site.permalink`.

Modules, one per concern of `wp-job-manager-public-api.php`:

- `Wp` (wp.dfy): `Option`, the `WP_Error` record and PHP string truthiness (`""` and `"0"` are falsy).
- `Jobs` (jobs.dfy): the post record, the ten-key public view (`$format_post`) and the
  single-job callback with its eligibility rule.
- `Query` (query.dfy): underscore-to-space normalisation of the date bounds and the
  construction of the `get_posts` arguments. `ArgsFor` is the specification.
  `BuildArgs` inserts the `date_query` keys step by step, as the source does.
- `Listing` (listing.dfy): the PHP array of results, with keys in insertion order. `Collect`
  is the specification of the `foreach` loop and `Assemble` is the loop itself. Both take
  the formatter as a function, as the callback captures the `$format_post` closure.
  `HandleJobs` is the whole listing callback, with `Jobs.Formatter(site)` as that closure.
- `Routes` (routes.dfy): the three path-parameter patterns as character-class
  predicates, and what they imply for the built arguments.

PHP arrays are values, so `$args` and `$data` are modelled as datatype values that the
methods reassign. An associative array with optional keys becomes a datatype with
`Option` fields: `None` is an absent key.

The route comments speak of a bound being present or not; the model follows the code.
A date bound is used only when it is truthy in PHP, not merely when it is present. So a
bound of `"0"` adds neither a `date_query` block nor a bound key (`Query.ZeroBoundIsIgnored`).

## Model

| member | source | states |
|---|---|---|
| `Wp.Truthy` | wp-job-manager-public-api.php:85-94 | defines PHP truthiness of a string bound: false exactly for `""` and `"0"` |
| `Jobs.Eligible` | wp-job-manager-public-api.php:55 | defines the eligibility test: type `job_listing` and status in `[publish, expired]` |
| `Jobs.Format` | wp-job-manager-public-api.php:30-43 | the view has exactly the ten keys; seven post fields are copied verbatim; `permalink` is the post's permalink; the two date fields are the post's own `_application_deadline` and `_job_expires` metadata, `""` when absent |
| `Jobs.FormatHasTenKeys` | wp-job-manager-public-api.php:31-42 | every view has exactly ten entries |
| `Jobs.FormatRoundTrip` | wp-job-manager-public-api.php:32-39 | the copied post fields can be read back from the view unchanged |
| `Jobs.FormatIsLocal` | wp-job-manager-public-api.php:36-41 | the view depends only on the post, its permalink and its own two metadata values |
| `Jobs.GetJob` | wp-job-manager-public-api.php:52-60 | the view is returned exactly when the post exists, has type `job_listing` and status `publish` or `expired`, and it is then that post's view; otherwise the error is `invalid_job` / `Invalid job` / 404 |
| `Jobs.MissingPostIsInvalid` | wp-job-manager-public-api.php:52-60 | a missing post always gives the `invalid_job` 404 error |
| `Jobs.IneligiblePostIsInvalid` | wp-job-manager-public-api.php:55-60 | an existing post of another type or status gives the `invalid_job` 404 error |
| `Jobs.FoundViewIsEligible` | wp-job-manager-public-api.php:55-57 | a returned view is the view of the looked-up post, which is eligible |
| `Query.Param` | wp-job-manager-public-api.php:76-77 | defines how the callback reads a bound: an absent parameter (`null` through `str_replace`) reads as `""` |
| `Query.Normalise` | wp-job-manager-public-api.php:76-77 | the result has the input's length, has a space wherever the input has `_`, and has the input's character everywhere else |
| `Query.NormaliseRemovesUnderscores` | wp-job-manager-public-api.php:76-77 | no `_` is left after normalisation |
| `Query.NormaliseIdentity` | wp-job-manager-public-api.php:76-77 | a string without `_` is unchanged |
| `Query.NormaliseIdempotent` | wp-job-manager-public-api.php:76-77 | normalising twice equals normalising once |
| `Query.NormaliseExample` | wp-job-manager-public-api.php:76 | the path bound `2017_06_01` becomes `2017 06 01` |
| `Query.NormaliseKeepsTruthiness` | wp-job-manager-public-api.php:76-85 | a bound is truthy after normalisation exactly when it was truthy before |
| `Query.ArgsFor` | wp-job-manager-public-api.php:72-97 | whatever the bounds, status is `[publish, expired]`, type is `job_listing` and page size is 1000; `date_query` is present iff a raw bound is truthy, and is then inclusive; `before` is present iff `date_to` is truthy and then equals normalised `date_to`; `after` is the same for `date_from` |
| `Query.ZeroBoundIsIgnored` | wp-job-manager-public-api.php:85-96 | a bound of `"0"` builds the same arguments as an absent bound |
| `Query.ArgsDependOnNormalisedBounds` | wp-job-manager-public-api.php:76-97 | requests whose bounds normalise alike build identical arguments |
| `Query.BuildArgs` | wp-job-manager-public-api.php:72-97 | the step-by-step construction yields exactly the arguments `ArgsFor` specifies |
| `Listing.Put` | wp-job-manager-public-api.php:104 | assigning a key stores the value under it; a new key is appended at the end of the order and an existing key keeps its position; each key stays listed once |
| `Listing.Collect` | wp-job-manager-public-api.php:101-107 | the map that storing each formatted post under its ID builds lists each key once, and has no more entries than there are posts |
| `Listing.Assemble` | wp-job-manager-public-api.php:101-105 | the `foreach` loop builds exactly the map `Collect` specifies |
| `Listing.CollectKeys` | wp-job-manager-public-api.php:101-107 | the keys are exactly the IDs of the returned posts; an empty post list gives the empty map |
| `Listing.CollectLast` | wp-job-manager-public-api.php:103-105 | the value under an ID is the view of the last post carrying that ID |
| `Listing.CollectDistinct` | wp-job-manager-public-api.php:101-107 | for posts with distinct IDs, the keys follow the store's order and each value is that post's view |
| `Listing.ListedViewsAreFormatted` | wp-job-manager-public-api.php:99-107 | for a store answer with distinct IDs, the listing has one entry per returned post, in the store's order, and each entry is that post's public view |
| `Listing.ListJobs` | wp-job-manager-public-api.php:70-108 | the listing callback is the assembly of the store's answer to `ArgsFor(req)`; its result lists each key once and has no more entries than the store returned posts |
| `Listing.HandleJobs` | wp-job-manager-public-api.php:70-108 | the callback builds the arguments, queries the store once and assembles that answer |
| `Listing.PageCap` | wp-job-manager-public-api.php:72-107 | when the store honours the page size, the listing has at most 1000 entries |
| `Listing.UnderscoreMeansSpace` | wp-job-manager-public-api.php:74-99 | a bound written with underscores lists the same posts as the bound with spaces |
| `Routes.ParamPatternsNest` | wp-job-manager-public-api.php:121-130 | every valid id is a valid `date_to`, and every valid `date_to` is a valid `date_from` |
| `Routes.DateToIsAlreadyNormal` | wp-job-manager-public-api.php:130 | a `date_to` taken from the path of its route has no `_`, so normalising it changes nothing |
| `Routes.FromRouteArgs` | wp-job-manager-public-api.php:121-124 | a request whose only bound is the path's `date_from` gives an inclusive block with only `after`, the normalised bound, unless the bound is `"0"` |
| `Routes.RangeRouteArgs` | wp-job-manager-public-api.php:130-133 | a request whose only bounds are the path's `date_from` and `date_to` has a date block unless both are `"0"`; `before` is `date_to` verbatim unless it is `"0"` |
| `Routes.BareRouteArgs` | wp-job-manager-public-api.php:113-116 | a request with no bound at all, as `/jobs` without a query string, builds no date block |
| `Routes.SameYearRangeArgs` | wp-job-manager-public-api.php:86-96 | a request whose only bounds are the path's `2017` and `2017` asks for an inclusive range with both bounds `2017` |
| `Routes.IsIdParam` | wp-job-manager-public-api.php:45 | defines the `id` pattern `\d+`: a non-empty string of ASCII digits |
| `Routes.IsDateFromParam` | wp-job-manager-public-api.php:121 | defines the `date_from` pattern `[-+_a-zA-Z0-9]+` |
| `Routes.IsDateToParam` | wp-job-manager-public-api.php:130 | defines the `date_to` pattern `[-a-zA-Z0-9]+`, which has no `+` and no `_` |

## Left out

- Plugin bootstrap: the `ABSPATH` guard and the `rest_api_init` hook (lines 15-17, 22). These are host-framework effects.
- Route registration and HTTP handling: `register_rest_route`, request dispatch and JSON serialisation of replies and errors. The path patterns are modelled only as the predicates in `Routes`.
- WordPress internals: what `get_post`, `get_posts`, `get_post_meta` and `get_permalink` do is not visible, so they are inputs of the model.
- Id conversion: how the digit string `id` becomes the post that `get_post` returns is part of `get_post` and is not modelled.
- Date semantics: which posts match a bound such as `2017` or `this month` is decided by WordPress's date parsing and `WP_Date_Query`. The model builds the argument structure only. Without that filtering, the inclusiveness of a range is stated only as `inclusive == true`.
- Value types: `get_permalink` can return `false`, and metadata can hold non-string values. The model gives both as strings.
- PHP loose comparison: `==` and `in_array` are modelled as plain string equality. This is what PHP does when both operands are non-numeric strings, which the constants `job_listing`, `publish` and `expired` are.
- Query-string bounds: `get_param` also returns `date_from` and `date_to` given in the query string, which WordPress reads before the path for a GET request. So any route, `/jobs` included, can receive either bound, and a query-string `date_to` may contain `_`. `Query.ArgsFor` and the `Listing` lemmas cover every combination of bounds. The `Routes` lemmas cover only requests whose bounds come from the path alone.
- View key order: the array literal fixes the order of the ten keys, which becomes the key order of the JSON object. `View` is an unordered map and does not record that order.
- Store ordering: the order of `get_posts` results is the store's. The model keeps whatever order it is given.
- Listing.CollectDistinct: states the key order only for posts with distinct IDs, which is what the store returns. For a repeated ID, `Collect` keeps the first position and the last value, as a PHP array does, and `Listing.CollectLast` states the value; no lemma states the general key order.
