/**
 * The job records, their public view and the single-job lookup
 * (`$format_post` and the `/job/{id}` callback).
 */
module Jobs {
  import opened Wp

  /** The only post type that is ever surfaced. */
  const JobType: string := "job_listing"
  /** Expired jobs are included: they were most likely public once. */
  const Statuses: seq<string> := ["publish", "expired"]

  /** Metadata keys of the two date fields. */
  const DeadlineKey: string := "_application_deadline"
  const ExpiresKey: string := "_job_expires"

  /** The fields of a WordPress post that the view copies. */
  datatype Post = Post(
    id: int,
    title: string,
    name: string,
    postType: string,
    dateGmt: string,
    status: string,
    guid: string)

  /** A value stored in the public view (a PHP scalar). */
  datatype Value = Int(i: int) | Str(s: string)

  /** The public view: the PHP associative array built by `$format_post`. */
  type View = map<string, Value>

  /**
   * What the view reads from WordPress besides the post itself:
   * post metadata (`get_post_meta`) and the permalink (`get_permalink`).
   */
  datatype Site = Site(meta: map<(int, string), string>, permalink: Post -> string)

  /** `get_post_meta(id, key, true)`: the stored value, or "" when there is none. */
  function Meta(site: Site, id: int, key: string): string {
    if (id, key) in site.meta then site.meta[(id, key)] else ""
  }

  /** The ten keys of every public view. */
  const ViewKeys: set<string> := {
    "post_id", "post_title", "post_name", "post_type", "permalink",
    "post_date_gmt", "post_status", "guid",
    "application_deadline_date", "listing_expiry_date"
  }

  /** The public view of a post: copied fields, its permalink and its two date metadata. */
  function Format(p: Post, site: Site): (v: View)
    ensures v.Keys == ViewKeys
    ensures v["post_id"] == Int(p.id)
    ensures v["post_title"] == Str(p.title) && v["post_name"] == Str(p.name)
    ensures v["post_type"] == Str(p.postType) && v["post_status"] == Str(p.status)
    ensures v["post_date_gmt"] == Str(p.dateGmt) && v["guid"] == Str(p.guid)
    ensures v["permalink"] == Str(site.permalink(p))
    ensures (p.id, DeadlineKey) in site.meta ==> v["application_deadline_date"] == Str(site.meta[(p.id, DeadlineKey)])
    ensures (p.id, DeadlineKey) !in site.meta ==> v["application_deadline_date"] == Str("")
    ensures (p.id, ExpiresKey) in site.meta ==> v["listing_expiry_date"] == Str(site.meta[(p.id, ExpiresKey)])
    ensures (p.id, ExpiresKey) !in site.meta ==> v["listing_expiry_date"] == Str("")
  {
    map[
      "post_id" := Int(p.id),
      "post_title" := Str(p.title),
      "post_name" := Str(p.name),
      "post_type" := Str(p.postType),
      "permalink" := Str(site.permalink(p)),
      "post_date_gmt" := Str(p.dateGmt),
      "post_status" := Str(p.status),
      "guid" := Str(p.guid),
      "application_deadline_date" := Str(Meta(site, p.id, DeadlineKey)),
      "listing_expiry_date" := Str(Meta(site, p.id, ExpiresKey))
    ]
  }

  /** The `$format_post` closure: `Format` with the site bound. */
  function Formatter(site: Site): Post -> View {
    p => Format(p, site)
  }

  /** Reads the copied post fields back out of a view; None unless all seven are there. */
  function PostOf(v: View): Option<Post> {
    if && "post_id" in v && v["post_id"].Int?
       && "post_title" in v && v["post_title"].Str?
       && "post_name" in v && v["post_name"].Str?
       && "post_type" in v && v["post_type"].Str?
       && "post_date_gmt" in v && v["post_date_gmt"].Str?
       && "post_status" in v && v["post_status"].Str?
       && "guid" in v && v["guid"].Str?
    then Some(Post(v["post_id"].i, v["post_title"].s, v["post_name"].s, v["post_type"].s,
                   v["post_date_gmt"].s, v["post_status"].s, v["guid"].s))
    else None
  }

  /** Every view has exactly ten keys. */
  lemma FormatHasTenKeys(p: Post, site: Site)
    ensures |Format(p, site)| == 10
  {
    var v := Format(p, site);
    assert |v| == |v.Keys|;
    ViewKeysCount();
  }

  /** The ten key names are distinct: three share a length, the rest do not. */
  lemma ViewKeysCount()
    ensures |ViewKeys| == 10
  {
    var sameLength: set<string> := {"post_name", "post_type", "permalink"};
    assert "post_name"[5] == 'n' && "post_type"[5] == 't' && "permalink"[1] == 'e';
    assert |sameLength| == 3;
    var others: set<string> := {
      "post_id", "post_title", "post_date_gmt", "post_status", "guid",
      "application_deadline_date", "listing_expiry_date"
    };
    assert |others| == 7;
    assert sameLength !! others;
    assert ViewKeys == sameLength + others;
  }

  /** The view loses none of the post's own fields: they can be read back unchanged. */
  lemma FormatRoundTrip(p: Post, site: Site)
    ensures PostOf(Format(p, site)) == Some(p)
  {
  }

  /**
   * Every field of a view is derived from that post alone: two sites that agree on
   * the post's permalink and on its two date metadata give the same view.
   */
  lemma FormatIsLocal(p: Post, s1: Site, s2: Site)
    requires s1.permalink(p) == s2.permalink(p)
    requires Meta(s1, p.id, DeadlineKey) == Meta(s2, p.id, DeadlineKey)
    requires Meta(s1, p.id, ExpiresKey) == Meta(s2, p.id, ExpiresKey)
    ensures Format(p, s1) == Format(p, s2)
  {
  }

  /** A post may be surfaced when it is a job listing that is published or expired. */
  predicate Eligible(p: Post) {
    p.postType == JobType && p.status in Statuses
  }

  /** The one domain error: 404 with code `invalid_job`. */
  const InvalidJob: WpError := WpError("invalid_job", "Invalid job", 404)

  /** The reply of the single-job route. */
  datatype Reply = Found(view: View) | Failed(error: WpError)

  /**
   * The `/job/{id}` callback, given what `get_post` returned for the id
   * (None when there is no such post).
   */
  function GetJob(post: Option<Post>, site: Site): (r: Reply)
    ensures r.Found? <==>
              post.Some? && post.value.postType == "job_listing" &&
              (post.value.status == "publish" || post.value.status == "expired")
    ensures r.Found? ==> r.view == Format(post.value, site)
    ensures r.Failed? ==> r.error.code == "invalid_job" && r.error.message == "Invalid job" && r.error.status == 404
  {
    if post.Some? && Eligible(post.value) then Found(Format(post.value, site))
    else Failed(InvalidJob)
  }

  /** A missing post is never shown: it always gives the 404 error. */
  lemma MissingPostIsInvalid(site: Site)
    ensures GetJob(None, site) == Failed(WpError("invalid_job", "Invalid job", 404))
  {
  }

  /** A post of another type or another status gives the 404 error even though it exists. */
  lemma IneligiblePostIsInvalid(p: Post, site: Site)
    requires p.postType != "job_listing" || p.status !in {"publish", "expired"}
    ensures GetJob(Some(p), site) == Failed(WpError("invalid_job", "Invalid job", 404))
  {
  }

  /** Whatever the lookup gives, a shown view always belongs to an eligible post. */
  lemma FoundViewIsEligible(post: Option<Post>, site: Site)
    requires GetJob(post, site).Found?
    ensures PostOf(GetJob(post, site).view) == post
    ensures post.Some? && Eligible(post.value)
  {
    FormatRoundTrip(post.value, site);
  }
}
