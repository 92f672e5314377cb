/**
 * The agent's tools: the sum calculator and the two scraper tools.
 *
 * A scraper tool builds a request payload, asks the remote actor to run on it,
 * reads the items of the run's dataset and maps them to typed records. The
 * remote call and the dataset read are parameters here (`callActor`, `fetch`);
 * what is modelled is the payload, the checks on the run, and the mapping loops.
 * Each mapping loop is a method proved equal to `Collect` over a per-item step
 * function, so that the lemmas of `StableFilter` apply to it.
 */
module Tools {
  import opened Wrappers
  import opened PyJson
  import opened Models
  import opened StableFilter

  /** The exceptions that escape a scraper tool. */
  datatype ToolError =
      /** `RuntimeError`: the actor call gave back a falsy run. */
    | ActorStartFailed(actorId: string)
      /** `run['defaultDatasetId']` raised: the run carries no dataset id. */
    | NoDatasetId(run: Json)
      /** `InstagramPost(...)` raised: that constructor call is not guarded by `try`. */
    | PostRejected(item: RawRecord)
      /** `for x in value` over a truthy `founders` or `open_jobs` value that cannot be iterated. */
    | NotIterable(key: string, value: Json)

  const InstagramActor: string := "apify/instagram-scraper"
  const YCActor: string := "michael.g/y-combinator-scraper"

  // ===========================================================================
  // tool_calculator_sum
  // ===========================================================================

  /** `sum(numbers)`: Python integers do not overflow, and the empty list sums to 0. */
  function CalculatorSum(numbers: seq<int>): (total: int)
    ensures numbers == [] ==> total == 0
    ensures (forall i :: 0 <= i < |numbers| ==> numbers[i] >= 0) ==> total >= 0
  {
    if numbers == [] then 0 else CalculatorSum(numbers[..|numbers| - 1]) + numbers[|numbers| - 1]
  }

  /** The sum of a concatenation is the sum of the sums. */
  lemma {:induction false} SumAppend(a: seq<int>, b: seq<int>)
    ensures CalculatorSum(a + b) == CalculatorSum(a) + CalculatorSum(b)
    decreases |b|
  {
    if b == [] {
      assert a + b == a;
    } else {
      assert (a + b)[..|a + b| - 1] == a + b[..|b| - 1];
      SumAppend(a, b[..|b| - 1]);
    }
  }

  /** The sum is the first element plus the sum of the rest. */
  lemma SumFromFront(numbers: seq<int>)
    requires numbers != []
    ensures CalculatorSum(numbers) == numbers[0] + CalculatorSum(numbers[1..])
  {
    assert numbers == [numbers[0]] + numbers[1..];
    SumAppend([numbers[0]], numbers[1..]);
    assert [numbers[0]][..0] == [];
  }

  function Likes(posts: seq<InstagramPost>): seq<int> {
    seq(|posts|, i requires 0 <= i < |posts| => posts[i].likes)
  }

  function Comments(posts: seq<InstagramPost>): seq<int> {
    seq(|posts|, i requires 0 <= i < |posts| => posts[i].comments)
  }

  /**
   * Summing the posts' likes and comments with the calculator gives the totals the
   * agent's structured answer documents, so an answer built that way satisfies
   * `TotalsMatchPosts`.
   */
  lemma {:induction false} CalculatorSumGivesTotals(posts: seq<InstagramPost>)
    ensures CalculatorSum(Likes(posts)) == TotalLikes(posts)
    ensures CalculatorSum(Comments(posts)) == TotalComments(posts)
    ensures TotalsMatchPosts(AgentStructuredOutput(CalculatorSum(Likes(posts)), CalculatorSum(Comments(posts)), posts))
    decreases |posts|
  {
    if posts != [] {
      var n := |posts| - 1;
      CalculatorSumGivesTotals(posts[..n]);
      assert Likes(posts)[..n] == Likes(posts[..n]);
      assert Comments(posts)[..n] == Comments(posts[..n]);
    }
  }

  // ===========================================================================
  // Request payloads
  // ===========================================================================

  function ProfileUrl(handle: string): string {
    "https://www.instagram.com/" + handle + "/"
  }

  /** The `run_input` of the Instagram tool: one profile, posts only, at most `maxPosts` of them. */
  function InstagramRunInput(handle: string, maxPosts: int): (input: RawRecord)
    ensures input.Keys == {"directUrls", "resultsLimit", "resultsType", "searchLimit"}
    ensures input["directUrls"] == JList([JStr(ProfileUrl(handle))]) && input["resultsLimit"] == JInt(maxPosts)
    ensures input["resultsType"] == JStr("posts") && input["searchLimit"] == JInt(1)
  {
    map[
      "directUrls" := JList([JStr(ProfileUrl(handle))]), "resultsLimit" := JInt(maxPosts),
      "resultsType" := JStr("posts"), "searchLimit" := JInt(1)]
  }

  /** The payload loses nothing: the handle and the post limit can be read back from it. */
  lemma InstagramRunInputInjective(h1: string, m1: int, h2: string, m2: int)
    requires InstagramRunInput(h1, m1) == InstagramRunInput(h2, m2)
    ensures h1 == h2 && m1 == m2
  {
    var i1, i2 := InstagramRunInput(h1, m1), InstagramRunInput(h2, m2);
    assert i1["directUrls"] == i2["directUrls"] && i1["resultsLimit"] == i2["resultsLimit"];
    var u1, u2 := ProfileUrl(h1), ProfileUrl(h2);
    assert u1 == u2;
    var p := |"https://www.instagram.com/"|;
    assert h1 == u1[p..|u1| - 1];
    assert h2 == u2[p..|u2| - 1];
  }

  /** The `run_input` of the YC tool: one company page, never the whole directory. */
  function YCRunInput(companyUrl: string, scrapeFounders: bool, scrapeJobs: bool): (input: RawRecord)
    ensures input.Keys == {"url", "scrape_founders", "scrape_open_jobs", "scrape_all_companies"}
    ensures input["url"] == JStr(companyUrl)
    ensures input["scrape_founders"] == JBool(scrapeFounders) && input["scrape_open_jobs"] == JBool(scrapeJobs)
    ensures input["scrape_all_companies"] == JBool(false)
  {
    map[
      "url" := JStr(companyUrl), "scrape_founders" := JBool(scrapeFounders),
      "scrape_open_jobs" := JBool(scrapeJobs), "scrape_all_companies" := JBool(false)]
  }

  /** The payload loses nothing: the URL and both flags can be read back from it. */
  lemma YCRunInputInjective(u1: string, f1: bool, j1: bool, u2: string, f2: bool, j2: bool)
    requires YCRunInput(u1, f1, j1) == YCRunInput(u2, f2, j2)
    ensures u1 == u2 && f1 == f2 && j1 == j2
  {
    var i1, i2 := YCRunInput(u1, f1, j1), YCRunInput(u2, f2, j2);
    assert i1["url"] == i2["url"] && i1["scrape_founders"] == i2["scrape_founders"];
    assert i1["scrape_open_jobs"] == i2["scrape_open_jobs"];
  }

  /** `run['defaultDatasetId']`, or `None` where that lookup raises. */
  function DatasetId(run: Json): Option<Json> {
    if run.JObject? && "defaultDatasetId" in run.fields then Some(run.fields["defaultDatasetId"]) else None
  }

  // ===========================================================================
  // tool_scrape_instagram_profile_posts
  // ===========================================================================

  /** The guard of the loop: `url`, `likesCount`, `commentsCount` and `timestamp` are all truthy. */
  predicate HasPostFields(item: RawRecord) {
    && Truthy(Get(item, "url"))
    && Truthy(Get(item, "likesCount"))
    && Truthy(Get(item, "commentsCount"))
    && Truthy(Get(item, "timestamp"))
  }

  /** The keyword arguments the loop passes to `InstagramPost(...)` for one item. */
  function PostArgs(item: RawRecord): Kwargs {
    map[
      "url" := Get(item, "url"), "likes" := Get(item, "likesCount"), "comments" := Get(item, "commentsCount"),
      "timestamp" := Get(item, "timestamp"), "caption" := Get(item, "caption"), "alt" := Get(item, "alt")]
  }

  /**
   * One iteration of the Instagram loop. An item that fails the guard is skipped;
   * a kept post copies the item's values as they are (and so has non-zero likes
   * and comments); a post the constructor rejects raises out of the tool.
   */
  function PostStep(item: RawRecord): (step: Step<InstagramPost, ToolError>)
    ensures step.Skip? <==> !HasPostFields(item)
    ensures step.Keep? ==>
      var p := step.record;
      && Get(item, "url") == JStr(p.url) && p.url != ""
      && Get(item, "likesCount") == JInt(p.likes) && p.likes != 0
      && Get(item, "commentsCount") == JInt(p.comments) && p.comments != 0
      && Get(item, "timestamp") == JStr(p.timestamp) && p.timestamp != ""
      && Get(item, "caption") == StrOrNull(p.caption)
      && Get(item, "alt") == StrOrNull(p.alt)
    ensures step.Abort? ==> step.error == PostRejected(item)
  {
    if !HasPostFields(item) then Skip
    else
      match ValidatePost(PostArgs(item))
      case Some(p) => Keep(p)
      case None => Abort(PostRejected(item))
  }

  /** Each value has the type `InstagramPost` declares for the field it is passed to. */
  predicate PostFieldsTyped(item: RawRecord) {
    && Get(item, "url").JStr? && Get(item, "likesCount").JInt? && Get(item, "commentsCount").JInt?
    && Get(item, "timestamp").JStr?
    && (Get(item, "caption").JNull? || Get(item, "caption").JStr?)
    && (Get(item, "alt").JNull? || Get(item, "alt").JStr?)
  }

  /** A post is kept exactly when the guard passes and every value is well typed; the tool raises when only the guard passes. */
  lemma PostStepKeepsIff(item: RawRecord)
    ensures PostStep(item).Keep? <==> HasPostFields(item) && PostFieldsTyped(item)
    ensures PostStep(item).Abort? <==> HasPostFields(item) && !PostFieldsTyped(item)
  {
    if HasPostFields(item) && PostFieldsTyped(item) {
      var p := InstagramPost(
        Get(item, "url").s, Get(item, "likesCount").i, Get(item, "commentsCount").i, Get(item, "timestamp").s,
        if Get(item, "caption").JStr? then Some(Get(item, "caption").s) else None,
        if Get(item, "alt").JStr? then Some(Get(item, "alt").s) else None);
      ValidatePostComplete(p, PostArgs(item));
    }
  }

  /** A post with zero likes or zero comments counts as missing a field and is dropped. */
  lemma ZeroEngagementPostDropped(item: RawRecord)
    requires Get(item, "likesCount") == JInt(0) || Get(item, "commentsCount") == JInt(0)
    ensures PostStep(item) == Skip
  {
  }

  /** The Instagram mapping loop. */
  method MapPostItems(items: seq<RawRecord>) returns (r: Result<seq<InstagramPost>, ToolError>)
    ensures r == Collect(items, PostStep)
  {
    var posts: seq<InstagramPost> := [];
    for n := 0 to |items|
      invariant Collect(items[..n], PostStep) == Success(posts)
    {
      var item := items[n];
      assert items[..n + 1][..n] == items[..n];
      var url, likes := Get(item, "url"), Get(item, "likesCount");
      var comments, timestamp := Get(item, "commentsCount"), Get(item, "timestamp");
      if !Truthy(url) || !Truthy(likes) || !Truthy(comments) || !Truthy(timestamp) {
        continue;
      }
      var post := ValidatePost(PostArgs(item));
      if post.None? {
        CollectAbortsAt(items, n, PostStep);
        return Failure(PostRejected(item));
      }
      posts := posts + [post.value];
    }
    assert items[..|items|] == items;
    return Success(posts);
  }

  /**
   * A successful Instagram mapping keeps exactly the items that pass the guard,
   * in input order, each post copying its item.
   */
  lemma InstagramOutputIsStableFilter(items: seq<RawRecord>)
    requires Collect(items, PostStep).Success?
    ensures var posts, idx := Collect(items, PostStep).value, KeptIndices(items, PostStep);
      && |posts| == |idx|
      && (forall j :: 0 <= j < |idx| ==> PostStep(items[idx[j]]) == Keep(posts[j]))
      && (forall i :: 0 <= i < |items| ==> (i in idx <==> HasPostFields(items[i])))
  {
    CollectFollowsKeptIndices(items, PostStep);
    CollectFailsIff(items, PostStep);
  }

  /** `tool_scrape_instagram_profile_posts(handle, max_posts)`. */
  method ScrapeInstagramProfilePosts(
    handle: string, maxPosts: int, callActor: RawRecord -> Json, fetch: Json -> seq<RawRecord>)
    returns (r: Result<seq<InstagramPost>, ToolError>)
    ensures var run := callActor(InstagramRunInput(handle, maxPosts));
      if !Truthy(run) then r == Failure(ActorStartFailed(InstagramActor))
      else if DatasetId(run).None? then r == Failure(NoDatasetId(run))
      else r == Collect(fetch(DatasetId(run).value), PostStep)
  {
    var run := callActor(InstagramRunInput(handle, maxPosts));
    if !Truthy(run) {
      return Failure(ActorStartFailed(InstagramActor));
    }
    var datasetId := DatasetId(run);
    if datasetId.None? {
      return Failure(NoDatasetId(run));
    }
    r := MapPostItems(fetch(datasetId.value));
  }

  // ===========================================================================
  // tool_scrape_yc_company: founders and jobs
  // ===========================================================================

  /** The keyword arguments the founders loop passes to `YCFounder(...)`. */
  function FounderArgs(data: map<string, Json>): Kwargs {
    map["id" := GetOr(data, "id", JInt(0)), "name" := GetOr(data, "name", JStr("")), "linkedin" := Get(data, "linkedin")]
  }

  /**
   * One iteration of the founders loop. Its `try` turns every failure into a
   * skip; a kept founder takes `id` (default 0), `name` (default `''`) and
   * `linkedin` (default `None`) from the entry.
   */
  function FounderStep(entry: Json): (step: Step<YCFounder, ToolError>)
    ensures !step.Abort?
    ensures step.Keep? ==>
      && entry.JObject?
      && GetOr(entry.fields, "id", JInt(0)) == JInt(step.record.id)
      && GetOr(entry.fields, "name", JStr("")) == JStr(step.record.name)
      && Get(entry.fields, "linkedin") == StrOrNull(step.record.linkedin)
  {
    match entry
    case JObject(data) =>
      (match ValidateFounder(FounderArgs(data))
       case Some(f) => Keep(f)
       case None => Skip)
    case _ => Skip
  }

  /** A founder entry is kept exactly when it is an object whose values, defaults applied, are well typed. */
  lemma FounderStepKeepsIff(entry: Json)
    ensures FounderStep(entry).Keep? <==>
      && entry.JObject?
      && GetOr(entry.fields, "id", JInt(0)).JInt?
      && GetOr(entry.fields, "name", JStr("")).JStr?
      && (Get(entry.fields, "linkedin").JNull? || Get(entry.fields, "linkedin").JStr?)
  {
    if entry.JObject? {
      var data := entry.fields;
      var id, name, linkedin := GetOr(data, "id", JInt(0)), GetOr(data, "name", JStr("")), Get(data, "linkedin");
      if id.JInt? && name.JStr? && (linkedin.JNull? || linkedin.JStr?) {
        var f := YCFounder(id.i, name.s, if linkedin.JStr? then Some(linkedin.s) else None);
        ValidateFounderComplete(f, FounderArgs(data));
      }
    }
  }

  /**
   * `for founder_data in value` over a truthy `founders` value. Iterating a
   * string yields one-character strings and iterating a dict yields its keys;
   * neither has `.get`, so every such entry is skipped. Iterating `None`, a bool
   * or an int raises outside the `try`.
   */
  function FounderEntries(value: Json): (r: Result<seq<YCFounder>, ToolError>)
    ensures r.Failure? <==> value.JNull? || value.JBool? || value.JInt?
  {
    match value
    case JList(entries) => CollectFailsIff(entries, FounderStep); Collect(entries, FounderStep)
    case JStr(_) => Success([])
    case JObject(_) => Success([])
    case _ => Failure(NotIterable("founders", value))
  }

  /** The founders of one company: parsed only when requested and the item has a truthy `founders` value. */
  function FoundersOf(item: RawRecord, scrapeFounders: bool): (r: Result<seq<YCFounder>, ToolError>)
    ensures !scrapeFounders || !Truthy(Get(item, "founders")) ==> r == Success([])
  {
    if scrapeFounders && "founders" in item && Truthy(item["founders"]) then FounderEntries(item["founders"])
    else Success([])
  }

  /** A malformed founder entry is dropped without dropping any of its siblings. */
  lemma MalformedFounderKeepsSiblings(before: seq<Json>, bad: Json, after: seq<Json>)
    requires FounderStep(bad) == Skip
    ensures FounderEntries(JList(before + [bad] + after)) == FounderEntries(JList(before + after))
  {
    CollectIgnoresSkipped(before, bad, after, FounderStep);
  }

  /** The founders loop. */
  method ParseFounders(item: RawRecord, scrapeFounders: bool) returns (r: Result<seq<YCFounder>, ToolError>)
    ensures r == FoundersOf(item, scrapeFounders)
  {
    var founders: seq<YCFounder> := [];
    if scrapeFounders && "founders" in item && Truthy(item["founders"]) {
      var value := item["founders"];
      match value
      case JList(entries) =>
        for n := 0 to |entries|
          invariant Collect(entries[..n], FounderStep) == Success(founders)
        {
          assert entries[..n + 1][..n] == entries[..n];
          if entries[n].JObject? {
            var data := entries[n].fields;
            var founder := ValidateFounder(FounderArgs(data));
            if founder.Some? {
              founders := founders + [founder.value];
            }
          }
        }
        assert entries[..|entries|] == entries;
      case JStr(_) =>
      case JObject(_) =>
      case _ =>
        return Failure(NotIterable("founders", value));
    }
    return Success(founders);
  }

  /** The keyword arguments the jobs loop passes to `YCJob(...)`. */
  function JobArgs(data: map<string, Json>): Kwargs {
    map[
      "id" := GetOr(data, "id", JInt(0)), "title" := GetOr(data, "title", JStr("Unknown Position")),
      "description" := Get(data, "description"), "location" := Get(data, "location")]
  }

  /**
   * One iteration of the jobs loop. Its `try` turns every failure into a skip; a
   * kept job takes `id` (default 0), `title` (default `'Unknown Position'`),
   * `description` and `location` (default `None`) from the entry.
   */
  function JobStep(entry: Json): (step: Step<YCJob, ToolError>)
    ensures !step.Abort?
    ensures step.Keep? ==>
      && entry.JObject?
      && GetOr(entry.fields, "id", JInt(0)) == JInt(step.record.id)
      && GetOr(entry.fields, "title", JStr("Unknown Position")) == JStr(step.record.title)
      && Get(entry.fields, "description") == StrOrNull(step.record.description)
      && Get(entry.fields, "location") == StrOrNull(step.record.location)
  {
    match entry
    case JObject(data) =>
      (match ValidateJob(JobArgs(data))
       case Some(j) => Keep(j)
       case None => Skip)
    case _ => Skip
  }

  /** A job entry is kept exactly when it is an object whose values, defaults applied, are well typed. */
  lemma JobStepKeepsIff(entry: Json)
    ensures JobStep(entry).Keep? <==>
      && entry.JObject?
      && GetOr(entry.fields, "id", JInt(0)).JInt?
      && GetOr(entry.fields, "title", JStr("Unknown Position")).JStr?
      && (Get(entry.fields, "description").JNull? || Get(entry.fields, "description").JStr?)
      && (Get(entry.fields, "location").JNull? || Get(entry.fields, "location").JStr?)
  {
    if entry.JObject? {
      var data := entry.fields;
      var id, title := GetOr(data, "id", JInt(0)), GetOr(data, "title", JStr("Unknown Position"));
      var description, location := Get(data, "description"), Get(data, "location");
      if id.JInt? && title.JStr? && (description.JNull? || description.JStr?) && (location.JNull? || location.JStr?) {
        var j := YCJob(
          id.i, title.s,
          if description.JStr? then Some(description.s) else None,
          if location.JStr? then Some(location.s) else None);
        ValidateJobComplete(j, JobArgs(data));
      }
    }
  }

  /** `for job_data in value` over a truthy `open_jobs` value; see `FounderEntries`. */
  function JobEntries(value: Json): (r: Result<seq<YCJob>, ToolError>)
    ensures r.Failure? <==> value.JNull? || value.JBool? || value.JInt?
  {
    match value
    case JList(entries) => CollectFailsIff(entries, JobStep); Collect(entries, JobStep)
    case JStr(_) => Success([])
    case JObject(_) => Success([])
    case _ => Failure(NotIterable("open_jobs", value))
  }

  /** The open jobs of one company: parsed only when requested and the item has a truthy `open_jobs` value. */
  function JobsOf(item: RawRecord, scrapeJobs: bool): (r: Result<seq<YCJob>, ToolError>)
    ensures !scrapeJobs || !Truthy(Get(item, "open_jobs")) ==> r == Success([])
  {
    if scrapeJobs && "open_jobs" in item && Truthy(item["open_jobs"]) then JobEntries(item["open_jobs"])
    else Success([])
  }

  /** A malformed job entry is dropped without dropping any of its siblings. */
  lemma MalformedJobKeepsSiblings(before: seq<Json>, bad: Json, after: seq<Json>)
    requires JobStep(bad) == Skip
    ensures JobEntries(JList(before + [bad] + after)) == JobEntries(JList(before + after))
  {
    CollectIgnoresSkipped(before, bad, after, JobStep);
  }

  /** The jobs loop. */
  method ParseJobs(item: RawRecord, scrapeJobs: bool) returns (r: Result<seq<YCJob>, ToolError>)
    ensures r == JobsOf(item, scrapeJobs)
  {
    var jobs: seq<YCJob> := [];
    if scrapeJobs && "open_jobs" in item && Truthy(item["open_jobs"]) {
      var value := item["open_jobs"];
      match value
      case JList(entries) =>
        for n := 0 to |entries|
          invariant Collect(entries[..n], JobStep) == Success(jobs)
        {
          assert entries[..n + 1][..n] == entries[..n];
          if entries[n].JObject? {
            var data := entries[n].fields;
            var job := ValidateJob(JobArgs(data));
            if job.Some? {
              jobs := jobs + [job.value];
            }
          }
        }
        assert entries[..|entries|] == entries;
      case JStr(_) =>
      case JObject(_) =>
      case _ =>
        return Failure(NotIterable("open_jobs", value));
    }
    return Success(jobs);
  }

  // ===========================================================================
  // tool_scrape_yc_company: companies
  // ===========================================================================

  /** The `tags` argument: the item's tags when truthy, `[]` otherwise. */
  function TagsArg(item: RawRecord): Json {
    if Truthy(Get(item, "tags")) then GetOr(item, "tags", JList([])) else JList([])
  }

  /**
   * The arguments the loop passes to `YCCompany(...)` for one item: every keyword
   * is passed, with `item.get(key)`, except `tags` (see `TagsArg`), `is_hiring`
   * (`item.get('is_hiring', False)`) and the two parsed lists.
   */
  function CompanyArgsOf(item: RawRecord, founders: seq<YCFounder>, jobs: seq<YCJob>): CompanyArgs {
    CompanyArgs(
      companyId := Some(Get(item, "company_id")),
      companyName := Some(Get(item, "company_name")),
      batch := Some(Get(item, "batch")),
      shortDescription := Some(Get(item, "short_description")),
      longDescription := Some(Get(item, "long_description")),
      founders := Some(founders),
      teamSize := Some(Get(item, "team_size")),
      tags := Some(TagsArg(item)),
      companyLocation := Some(Get(item, "company_location")),
      website := Some(Get(item, "website")),
      url := Some(Get(item, "url")),
      openJobs := Some(jobs),
      isHiring := Some(GetOr(item, "is_hiring", JBool(false))),
      companyLinkedin := Some(Get(item, "company_linkedin")),
      status := Some(Get(item, "status")),
      yearFounded := Some(Get(item, "year_founded")))
  }

  /**
   * The item passes the name-and-id guard, its founders and jobs parse without
   * raising, and `YCCompany(...)` accepts the resulting arguments.
   */
  predicate CompanyAccepted(item: RawRecord, scrapeFounders: bool, scrapeJobs: bool) {
    && Truthy(Get(item, "company_name")) && Truthy(Get(item, "company_id"))
    && FoundersOf(item, scrapeFounders).Success? && JobsOf(item, scrapeJobs).Success?
    && ValidateCompany(CompanyArgsOf(item, FoundersOf(item, scrapeFounders).value, JobsOf(item, scrapeJobs).value)).Some?
  }

  /**
   * One iteration of the company loop. An item without a truthy name and id is
   * skipped; a founders or jobs value that cannot be iterated raises; a company
   * the constructor rejects is skipped by the surrounding `try`.
   */
  function CompanyStep(item: RawRecord, scrapeFounders: bool, scrapeJobs: bool): (step: Step<YCCompany, ToolError>)
    ensures !Truthy(Get(item, "company_name")) || !Truthy(Get(item, "company_id")) ==> step == Skip
    ensures step.Abort? <==>
      && Truthy(Get(item, "company_name")) && Truthy(Get(item, "company_id"))
      && (FoundersOf(item, scrapeFounders).Failure? || JobsOf(item, scrapeJobs).Failure?)
    ensures step.Keep? ==>
      var c := step.record;
      && FoundersOf(item, scrapeFounders) == Success(c.founders)
      && JobsOf(item, scrapeJobs) == Success(c.openJobs)
      && ExplainsCompany(c, CompanyArgsOf(item, c.founders, c.openJobs))
  {
    if !Truthy(Get(item, "company_name")) || !Truthy(Get(item, "company_id")) then Skip
    else
      match FoundersOf(item, scrapeFounders)
      case Failure(e) => Abort(e)
      case Success(founders) =>
        match JobsOf(item, scrapeJobs)
        case Failure(e) => Abort(e)
        case Success(jobs) =>
          match ValidateCompany(CompanyArgsOf(item, founders, jobs))
          case Some(c) => Keep(c)
          case None => Skip
  }

  /** A company is kept exactly when the guard passes, founders and jobs parse and the constructor accepts it. */
  lemma CompanyStepKeepsIff(item: RawRecord, scrapeFounders: bool, scrapeJobs: bool)
    ensures CompanyStep(item, scrapeFounders, scrapeJobs).Keep? <==> CompanyAccepted(item, scrapeFounders, scrapeJobs)
  {
  }

  /** The company step with the tool's two flags fixed. */
  function CompanySteps(scrapeFounders: bool, scrapeJobs: bool): RawRecord -> Step<YCCompany, ToolError> {
    item => CompanyStep(item, scrapeFounders, scrapeJobs)
  }

  /**
   * A kept company holds the item's values as they are: its id and name (both
   * truthy, so an id of 0 never survives), its tags when truthy and `[]`
   * otherwise, and `is_hiring` when present and `False` otherwise.
   */
  lemma CompanyKeepsItemFields(item: RawRecord, scrapeFounders: bool, scrapeJobs: bool)
    requires CompanyStep(item, scrapeFounders, scrapeJobs).Keep?
    ensures var c := CompanyStep(item, scrapeFounders, scrapeJobs).record;
      && Get(item, "company_id") == JInt(c.companyId) && c.companyId != 0
      && Get(item, "company_name") == JStr(c.companyName) && c.companyName != ""
      && Get(item, "batch") == StrOrNull(c.batch)
      && Get(item, "short_description") == StrOrNull(c.shortDescription)
      && Get(item, "long_description") == StrOrNull(c.longDescription)
      && Get(item, "company_location") == StrOrNull(c.companyLocation)
      && Get(item, "website") == StrOrNull(c.website)
      && Get(item, "url") == StrOrNull(c.url)
      && Get(item, "company_linkedin") == StrOrNull(c.companyLinkedin)
      && Get(item, "status") == StrOrNull(c.status)
      && Get(item, "team_size") == TeamSizeJson(c.teamSize)
      && Get(item, "year_founded") == IntOrNull(c.yearFounded)
      && TagsArg(item) == StrListJson(c.tags)
      && (!Truthy(Get(item, "tags")) ==> c.tags == [])
      && GetOr(item, "is_hiring", JBool(false)) == JBool(c.isHiring)
  {
    var c := CompanyStep(item, scrapeFounders, scrapeJobs).record;
    if !Truthy(Get(item, "tags")) {
      assert |StrListJson(c.tags).items| == 0;
    }
  }

  /** `is_hiring: null` in an item is passed on as `None`, which the `bool` field rejects: the company is dropped. */
  lemma NullIsHiringDropsCompany(item: RawRecord, scrapeFounders: bool, scrapeJobs: bool)
    requires "is_hiring" in item && item["is_hiring"] == JNull
    ensures !CompanyStep(item, scrapeFounders, scrapeJobs).Keep?
  {
    if CompanyStep(item, scrapeFounders, scrapeJobs).Keep? {
      CompanyKeepsItemFields(item, scrapeFounders, scrapeJobs);
    }
  }

  /** A company whose construction fails is dropped without disturbing the others. */
  lemma FailedCompanyDropsOnlyItself(
    before: seq<RawRecord>, item: RawRecord, after: seq<RawRecord>, scrapeFounders: bool, scrapeJobs: bool)
    requires CompanyStep(item, scrapeFounders, scrapeJobs) == Skip
    ensures Collect(before + [item] + after, CompanySteps(scrapeFounders, scrapeJobs))
         == Collect(before + after, CompanySteps(scrapeFounders, scrapeJobs))
  {
    CollectIgnoresSkipped(before, item, after, CompanySteps(scrapeFounders, scrapeJobs));
  }

  /**
   * A successful company mapping keeps, in input order, only items with a truthy
   * name and id, and every such item whose company the constructor accepts.
   */
  lemma YCOutputIsStableFilter(items: seq<RawRecord>, scrapeFounders: bool, scrapeJobs: bool)
    requires Collect(items, CompanySteps(scrapeFounders, scrapeJobs)).Success?
    ensures var steps := CompanySteps(scrapeFounders, scrapeJobs);
      var companies, idx := Collect(items, steps).value, KeptIndices(items, steps);
      && |companies| == |idx|
      && (forall j :: 0 <= j < |idx| ==> CompanyStep(items[idx[j]], scrapeFounders, scrapeJobs) == Keep(companies[j]))
      && (forall i :: 0 <= i < |items| ==> (i in idx <==> CompanyAccepted(items[i], scrapeFounders, scrapeJobs)))
      && (forall i :: 0 <= i < |items| && i in idx ==>
            Truthy(Get(items[i], "company_name")) && Truthy(Get(items[i], "company_id")))
  {
    CollectFollowsKeptIndices(items, CompanySteps(scrapeFounders, scrapeJobs));
    forall i | 0 <= i < |items| {
      CompanyStepKeepsIff(items[i], scrapeFounders, scrapeJobs);
    }
  }

  /**
   * Two items that agree on every value the guard and the company constructor
   * read, and whose founders and jobs both parse, have their companies kept alike.
   */
  lemma SameFieldsSameFate(item: RawRecord, other: RawRecord, scrapeFounders: bool, scrapeJobs: bool)
    requires CompanyArgsOf(item, [], []) == CompanyArgsOf(other, [], [])
    requires FoundersOf(item, scrapeFounders).Success? && FoundersOf(other, scrapeFounders).Success?
    requires JobsOf(item, scrapeJobs).Success? && JobsOf(other, scrapeJobs).Success?
    ensures CompanyStep(item, scrapeFounders, scrapeJobs).Keep? <==> CompanyStep(other, scrapeFounders, scrapeJobs).Keep?
  {
    var f1, j1 := FoundersOf(item, scrapeFounders).value, JobsOf(item, scrapeJobs).value;
    var f2, j2 := FoundersOf(other, scrapeFounders).value, JobsOf(other, scrapeJobs).value;
    CompanyStepKeepsIff(item, scrapeFounders, scrapeJobs);
    CompanyStepKeepsIff(other, scrapeFounders, scrapeJobs);
    var args := CompanyArgsOf(item, [], []);
    assert CompanyArgsOf(item, f1, j1) == args.(founders := Some(f1), openJobs := Some(j1));
    assert CompanyArgsOf(other, f2, j2) == args.(founders := Some(f2), openJobs := Some(j2));
    ValidateCompanyIgnoresLists(args, Some(f1), Some(j1));
    ValidateCompanyIgnoresLists(args, Some(f2), Some(j2));
  }

  /**
   * However malformed its founder entries are, a `founders` list never decides
   * whether its company is kept: the company fares as it would with no founders.
   */
  lemma FoundersNeverDropCompany(item: RawRecord, entries: seq<Json>, scrapeFounders: bool, scrapeJobs: bool)
    requires "founders" in item && item["founders"] == JList(entries)
    ensures CompanyStep(item, scrapeFounders, scrapeJobs).Keep?
        <==> CompanyStep(item["founders" := JList([])], scrapeFounders, scrapeJobs).Keep?
  {
    var bare := item["founders" := JList([])];
    assert CompanyArgsOf(item, [], []) == CompanyArgsOf(bare, [], []);
    CollectFailsIff(entries, FounderStep);
    assert JobsOf(bare, scrapeJobs) == JobsOf(item, scrapeJobs);
    if JobsOf(item, scrapeJobs).Success? {
      SameFieldsSameFate(item, bare, scrapeFounders, scrapeJobs);
    }
  }

  /**
   * However malformed its job entries are, an `open_jobs` list never decides
   * whether its company is kept: the company fares as it would with no jobs.
   */
  lemma JobsNeverDropCompany(item: RawRecord, entries: seq<Json>, scrapeFounders: bool, scrapeJobs: bool)
    requires "open_jobs" in item && item["open_jobs"] == JList(entries)
    ensures CompanyStep(item, scrapeFounders, scrapeJobs).Keep?
        <==> CompanyStep(item["open_jobs" := JList([])], scrapeFounders, scrapeJobs).Keep?
  {
    var bare := item["open_jobs" := JList([])];
    assert CompanyArgsOf(item, [], []) == CompanyArgsOf(bare, [], []);
    CollectFailsIff(entries, JobStep);
    assert FoundersOf(bare, scrapeFounders) == FoundersOf(item, scrapeFounders);
    if FoundersOf(item, scrapeFounders).Success? {
      SameFieldsSameFate(item, bare, scrapeFounders, scrapeJobs);
    }
  }

  /** The company loop. */
  method MapCompanyItems(items: seq<RawRecord>, scrapeFounders: bool, scrapeJobs: bool)
    returns (r: Result<seq<YCCompany>, ToolError>)
    ensures r == Collect(items, CompanySteps(scrapeFounders, scrapeJobs))
  {
    var steps := CompanySteps(scrapeFounders, scrapeJobs);
    var companies: seq<YCCompany> := [];
    for n := 0 to |items|
      invariant Collect(items[..n], steps) == Success(companies)
    {
      var item := items[n];
      assert items[..n + 1][..n] == items[..n];
      var companyName, companyId := Get(item, "company_name"), Get(item, "company_id");
      if !Truthy(companyName) || !Truthy(companyId) {
        continue;
      }
      var founders := ParseFounders(item, scrapeFounders);
      if founders.Failure? {
        CollectAbortsAt(items, n, steps);
        return Failure(founders.error);
      }
      var jobs := ParseJobs(item, scrapeJobs);
      if jobs.Failure? {
        CollectAbortsAt(items, n, steps);
        return Failure(jobs.error);
      }
      var company := ValidateCompany(CompanyArgsOf(item, founders.value, jobs.value));
      if company.Some? {
        companies := companies + [company.value];
      }
    }
    assert items[..|items|] == items;
    return Success(companies);
  }

  /** `tool_scrape_yc_company(company_url, scrape_founders, scrape_jobs)`. */
  method ScrapeYCCompany(
    companyUrl: string, scrapeFounders: bool, scrapeJobs: bool,
    callActor: RawRecord -> Json, fetch: Json -> seq<RawRecord>)
    returns (r: Result<seq<YCCompany>, ToolError>)
    ensures var run := callActor(YCRunInput(companyUrl, scrapeFounders, scrapeJobs));
      if !Truthy(run) then r == Failure(ActorStartFailed(YCActor))
      else if DatasetId(run).None? then r == Failure(NoDatasetId(run))
      else r == Collect(fetch(DatasetId(run).value), CompanySteps(scrapeFounders, scrapeJobs))
  {
    var run := callActor(YCRunInput(companyUrl, scrapeFounders, scrapeJobs));
    if !Truthy(run) {
      return Failure(ActorStartFailed(YCActor));
    }
    var datasetId := DatasetId(run);
    if datasetId.None? {
      return Failure(NoDatasetId(run));
    }
    r := MapCompanyItems(fetch(datasetId.value), scrapeFounders, scrapeJobs);
  }
}
