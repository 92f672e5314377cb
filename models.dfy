/**
 * The record types the scraper tools return and the agent answers with, and the
 * validation their constructors perform.
 *
 * A constructor call `Model(field=value, ...)` is modelled by a `Validate...`
 * function from its keyword arguments to `Option<record>`: `None` is the
 * validation error. A field that is not passed takes its declared default; a
 * field without a default is required. Each field accepts exactly the JSON
 * values of its declared type (`int` an integer, `str` a string, `bool` a
 * boolean, `X | None` also null).
 *
 * Beside each validator stands a declarative `Explains...` predicate, field by
 * field; validation succeeds with record `x` exactly when the keyword
 * arguments explain `x`.
 */
module Models {
  import opened Wrappers
  import opened PyJson

  /** Keyword arguments of a model constructor. */
  type Kwargs = map<string, Json>

  datatype InstagramPost = InstagramPost(
    url: string,
    likes: int,
    comments: int,
    timestamp: string,
    caption: Option<string>,
    alt: Option<string>)

  /** The agent's final answer; its totals are documented as sums over `mostPopularPosts`. */
  datatype AgentStructuredOutput = AgentStructuredOutput(
    totalLikes: int,
    totalComments: int,
    mostPopularPosts: seq<InstagramPost>)

  datatype YCFounder = YCFounder(id: int, name: string, linkedin: Option<string>)

  datatype YCJob = YCJob(id: int, title: string, description: Option<string>, location: Option<string>)

  /** `team_size: int | str | None`. */
  datatype TeamSize = TeamCount(count: int) | TeamText(text: string)

  datatype YCCompany = YCCompany(
    companyId: int,
    companyName: string,
    batch: Option<string>,
    shortDescription: Option<string>,
    longDescription: Option<string>,
    founders: seq<YCFounder>,
    teamSize: Option<TeamSize>,
    tags: seq<string>,
    companyLocation: Option<string>,
    website: Option<string>,
    url: Option<string>,
    openJobs: seq<YCJob>,
    isHiring: bool,
    companyLinkedin: Option<string>,
    status: Option<string>,
    yearFounded: Option<int>)

  /**
   * Keyword arguments of a `YCCompany(...)` call, one per parameter; `None` means
   * the argument is not passed. The `founders` and `open_jobs` arguments are lists
   * of records that are already validated (the model keeps such instances as
   * they are).
   */
  datatype CompanyArgs = CompanyArgs(
    companyId: Option<Json>,
    companyName: Option<Json>,
    batch: Option<Json>,
    shortDescription: Option<Json>,
    longDescription: Option<Json>,
    founders: Option<seq<YCFounder>>,
    teamSize: Option<Json>,
    tags: Option<Json>,
    companyLocation: Option<Json>,
    website: Option<Json>,
    url: Option<Json>,
    openJobs: Option<seq<YCJob>>,
    isHiring: Option<Json>,
    companyLinkedin: Option<Json>,
    status: Option<Json>,
    yearFounded: Option<Json>)

  // ---------------------------------------------------------------------------
  // Validation of single fields
  // ---------------------------------------------------------------------------

  /** Keyword argument `key`, if it is passed. */
  function Arg(kw: Kwargs, key: string): Option<Json> {
    if key in kw then Some(kw[key]) else None
  }

  /** The value a field takes from its argument: the argument when passed, `default` otherwise. */
  function ArgOr(arg: Option<Json>, default: Json): Json {
    match arg
    case None => default
    case Some(v) => v
  }

  /** A required `str` field. */
  function RequiredStr(arg: Option<Json>): Option<string> {
    if arg.Some? && arg.value.JStr? then Some(arg.value.s) else None
  }

  /** A required `int` field. */
  function RequiredInt(arg: Option<Json>): Option<int> {
    if arg.Some? && arg.value.JInt? then Some(arg.value.i) else None
  }

  /** A `str | None = None` field. */
  function OptionalStr(arg: Option<Json>): Option<Option<string>> {
    match ArgOr(arg, JNull)
    case JNull => Some(None)
    case JStr(s) => Some(Some(s))
    case _ => None
  }

  /** An `int | None = None` field. */
  function OptionalInt(arg: Option<Json>): Option<Option<int>> {
    match ArgOr(arg, JNull)
    case JNull => Some(None)
    case JInt(n) => Some(Some(n))
    case _ => None
  }

  /** An `int | str | None = None` field. */
  function OptionalTeamSize(arg: Option<Json>): Option<Option<TeamSize>> {
    match ArgOr(arg, JNull)
    case JNull => Some(None)
    case JInt(n) => Some(Some(TeamCount(n)))
    case JStr(s) => Some(Some(TeamText(s)))
    case _ => None
  }

  /** `team_size` accepts an integer, a string or `None` (also when not passed), and nothing else. */
  lemma TeamSizeAcceptsIntStrOrNone(arg: Option<Json>)
    ensures var v := ArgOr(arg, JNull);
      OptionalTeamSize(arg).Some? <==> v.JNull? || v.JInt? || v.JStr?
    ensures OptionalTeamSize(arg).Some? ==> TeamSizeJson(OptionalTeamSize(arg).value) == ArgOr(arg, JNull)
  {
  }

  /** A `bool` field with a default. */
  function BoolOr(arg: Option<Json>, default: bool): Option<bool> {
    match ArgOr(arg, JBool(default))
    case JBool(b) => Some(b)
    case _ => None
  }

  /** The elements of a `list[str]` value; one element that is not a string fails the whole list. */
  function Strings(xs: seq<Json>): (r: Option<seq<string>>)
    ensures r.Some? ==> |r.value| == |xs| && forall i :: 0 <= i < |xs| ==> xs[i] == JStr(r.value[i])
    ensures r.None? ==> exists i :: 0 <= i < |xs| && !xs[i].JStr?
  {
    if xs == [] then Some([])
    else
      match Strings(xs[1..])
      case None => None
      case Some(rest) => if xs[0].JStr? then Some([xs[0].s] + rest) else None
  }

  /** A `list[str] = []` field. */
  function StrListOr(arg: Option<Json>): Option<seq<string>> {
    match ArgOr(arg, JList([]))
    case JList(xs) => Strings(xs)
    case _ => None
  }

  // ---------------------------------------------------------------------------
  // JSON form of a typed field value
  // ---------------------------------------------------------------------------

  function StrOrNull(o: Option<string>): Json {
    match o
    case None => JNull
    case Some(s) => JStr(s)
  }

  function IntOrNull(o: Option<int>): Json {
    match o
    case None => JNull
    case Some(n) => JInt(n)
  }

  function TeamSizeJson(t: Option<TeamSize>): Json {
    match t
    case None => JNull
    case Some(TeamCount(n)) => JInt(n)
    case Some(TeamText(s)) => JStr(s)
  }

  function StrListJson(ss: seq<string>): Json {
    JList(seq(|ss|, i requires 0 <= i < |ss| => JStr(ss[i])))
  }

  /** A field holds `value`: its argument when passed, `default` otherwise. */
  predicate Holds(arg: Option<Json>, default: Json, value: Json) {
    ArgOr(arg, default) == value
  }

  /** A required field is passed, with `value`. */
  predicate HoldsRequired(arg: Option<Json>, value: Json) {
    arg == Some(value)
  }

  // ---------------------------------------------------------------------------
  // InstagramPost
  // ---------------------------------------------------------------------------

  /**
   * `p` is what `InstagramPost(**kw)` must yield: `url`, `likes`, `comments` and
   * `timestamp` are required, `caption` and `alt` default to `None`.
   */
  predicate ExplainsPost(p: InstagramPost, kw: Kwargs) {
    && HoldsRequired(Arg(kw, "url"), JStr(p.url))
    && HoldsRequired(Arg(kw, "likes"), JInt(p.likes))
    && HoldsRequired(Arg(kw, "comments"), JInt(p.comments))
    && HoldsRequired(Arg(kw, "timestamp"), JStr(p.timestamp))
    && Holds(Arg(kw, "caption"), JNull, StrOrNull(p.caption))
    && Holds(Arg(kw, "alt"), JNull, StrOrNull(p.alt))
  }

  /** `InstagramPost(**kw)`. */
  function ValidatePost(kw: Kwargs): (r: Option<InstagramPost>)
    ensures r.Some? ==> ExplainsPost(r.value, kw)
  {
    var url, likes := RequiredStr(Arg(kw, "url")), RequiredInt(Arg(kw, "likes"));
    var comments, timestamp := RequiredInt(Arg(kw, "comments")), RequiredStr(Arg(kw, "timestamp"));
    var caption, alt := OptionalStr(Arg(kw, "caption")), OptionalStr(Arg(kw, "alt"));
    if url.Some? && likes.Some? && comments.Some? && timestamp.Some? && caption.Some? && alt.Some? then
      Some(InstagramPost(url.value, likes.value, comments.value, timestamp.value, caption.value, alt.value))
    else
      None
  }

  /** Every post the arguments explain is accepted, so validation fails only when no post fits. */
  lemma ValidatePostComplete(p: InstagramPost, kw: Kwargs)
    requires ExplainsPost(p, kw)
    ensures ValidatePost(kw) == Some(p)
  {
  }

  // ---------------------------------------------------------------------------
  // YCFounder and YCJob
  // ---------------------------------------------------------------------------

  /** `f` is what `YCFounder(**kw)` must yield: `id` and `name` are required, `linkedin` defaults to `None`. */
  predicate ExplainsFounder(f: YCFounder, kw: Kwargs) {
    && HoldsRequired(Arg(kw, "id"), JInt(f.id))
    && HoldsRequired(Arg(kw, "name"), JStr(f.name))
    && Holds(Arg(kw, "linkedin"), JNull, StrOrNull(f.linkedin))
  }

  /** `YCFounder(**kw)`. */
  function ValidateFounder(kw: Kwargs): (r: Option<YCFounder>)
    ensures r.Some? ==> ExplainsFounder(r.value, kw)
  {
    var id, name, linkedin := RequiredInt(Arg(kw, "id")), RequiredStr(Arg(kw, "name")), OptionalStr(Arg(kw, "linkedin"));
    if id.Some? && name.Some? && linkedin.Some? then Some(YCFounder(id.value, name.value, linkedin.value))
    else None
  }

  lemma ValidateFounderComplete(f: YCFounder, kw: Kwargs)
    requires ExplainsFounder(f, kw)
    ensures ValidateFounder(kw) == Some(f)
  {
  }

  /**
   * `j` is what `YCJob(**kw)` must yield: `id` and `title` are required,
   * `description` and `location` default to `None`.
   */
  predicate ExplainsJob(j: YCJob, kw: Kwargs) {
    && HoldsRequired(Arg(kw, "id"), JInt(j.id))
    && HoldsRequired(Arg(kw, "title"), JStr(j.title))
    && Holds(Arg(kw, "description"), JNull, StrOrNull(j.description))
    && Holds(Arg(kw, "location"), JNull, StrOrNull(j.location))
  }

  /** `YCJob(**kw)`. */
  function ValidateJob(kw: Kwargs): (r: Option<YCJob>)
    ensures r.Some? ==> ExplainsJob(r.value, kw)
  {
    var id, title := RequiredInt(Arg(kw, "id")), RequiredStr(Arg(kw, "title"));
    var description, location := OptionalStr(Arg(kw, "description")), OptionalStr(Arg(kw, "location"));
    if id.Some? && title.Some? && description.Some? && location.Some? then
      Some(YCJob(id.value, title.value, description.value, location.value))
    else
      None
  }

  lemma ValidateJobComplete(j: YCJob, kw: Kwargs)
    requires ExplainsJob(j, kw)
    ensures ValidateJob(kw) == Some(j)
  {
  }

  // ---------------------------------------------------------------------------
  // YCCompany
  // ---------------------------------------------------------------------------

  /** A list argument that is not passed takes its default, the empty list. */
  function ListOrEmpty<T>(arg: Option<seq<T>>): seq<T> {
    match arg
    case None => []
    case Some(xs) => xs
  }

  /**
   * `c` is what `YCCompany(**args)` must yield: only `company_id` and
   * `company_name` are required; `founders`, `tags` and `open_jobs` default to
   * `[]`, `is_hiring` to `False` and every other field to `None`.
   */
  predicate ExplainsCompany(c: YCCompany, args: CompanyArgs) {
    && HoldsRequired(args.companyId, JInt(c.companyId))
    && HoldsRequired(args.companyName, JStr(c.companyName))
    && Holds(args.batch, JNull, StrOrNull(c.batch))
    && Holds(args.shortDescription, JNull, StrOrNull(c.shortDescription))
    && Holds(args.longDescription, JNull, StrOrNull(c.longDescription))
    && c.founders == ListOrEmpty(args.founders)
    && Holds(args.teamSize, JNull, TeamSizeJson(c.teamSize))
    && Holds(args.tags, JList([]), StrListJson(c.tags))
    && Holds(args.companyLocation, JNull, StrOrNull(c.companyLocation))
    && Holds(args.website, JNull, StrOrNull(c.website))
    && Holds(args.url, JNull, StrOrNull(c.url))
    && c.openJobs == ListOrEmpty(args.openJobs)
    && Holds(args.isHiring, JBool(false), JBool(c.isHiring))
    && Holds(args.companyLinkedin, JNull, StrOrNull(c.companyLinkedin))
    && Holds(args.status, JNull, StrOrNull(c.status))
    && Holds(args.yearFounded, JNull, IntOrNull(c.yearFounded))
  }

  /** `YCCompany(**args)`. */
  function ValidateCompany(args: CompanyArgs): (r: Option<YCCompany>)
    ensures r.Some? ==> ExplainsCompany(r.value, args)
  {
    var id, name := RequiredInt(args.companyId), RequiredStr(args.companyName);
    var batch, short, long := OptionalStr(args.batch), OptionalStr(args.shortDescription), OptionalStr(args.longDescription);
    var teamSize, tags := OptionalTeamSize(args.teamSize), StrListOr(args.tags);
    var location, website, url := OptionalStr(args.companyLocation), OptionalStr(args.website), OptionalStr(args.url);
    var hiring, linkedin, status := BoolOr(args.isHiring, false), OptionalStr(args.companyLinkedin), OptionalStr(args.status);
    var year := OptionalInt(args.yearFounded);
    if && id.Some? && name.Some? && batch.Some? && short.Some? && long.Some? && teamSize.Some?
       && tags.Some? && location.Some? && website.Some? && url.Some? && hiring.Some? && linkedin.Some?
       && status.Some? && year.Some?
    then
      assert StrListJson(tags.value) == ArgOr(args.tags, JList([]));
      Some(YCCompany(
        id.value, name.value, batch.value, short.value, long.value, ListOrEmpty(args.founders),
        teamSize.value, tags.value, location.value, website.value, url.value, ListOrEmpty(args.openJobs),
        hiring.value, linkedin.value, status.value, year.value))
    else
      None
  }

  /** Every company the arguments explain is accepted. */
  lemma ValidateCompanyComplete(c: YCCompany, args: CompanyArgs)
    requires ExplainsCompany(c, args)
    ensures ValidateCompany(args) == Some(c)
  {
    OptionalStrComplete(args.batch, c.batch);
    OptionalStrComplete(args.shortDescription, c.shortDescription);
    OptionalStrComplete(args.longDescription, c.longDescription);
    OptionalStrComplete(args.companyLocation, c.companyLocation);
    OptionalStrComplete(args.website, c.website);
    OptionalStrComplete(args.url, c.url);
    OptionalStrComplete(args.companyLinkedin, c.companyLinkedin);
    OptionalStrComplete(args.status, c.status);
    OptionalTeamSizeComplete(args.teamSize, c.teamSize);
    OptionalIntComplete(args.yearFounded, c.yearFounded);
    StrListOrComplete(args.tags, c.tags);
  }

  /** An optional string field accepts the value it holds. */
  lemma OptionalStrComplete(arg: Option<Json>, value: Option<string>)
    requires Holds(arg, JNull, StrOrNull(value))
    ensures OptionalStr(arg) == Some(value)
  {
  }

  /** An optional integer field accepts the value it holds. */
  lemma OptionalIntComplete(arg: Option<Json>, value: Option<int>)
    requires Holds(arg, JNull, IntOrNull(value))
    ensures OptionalInt(arg) == Some(value)
  {
  }

  /** The `team_size` field accepts the value it holds. */
  lemma OptionalTeamSizeComplete(arg: Option<Json>, value: Option<TeamSize>)
    requires Holds(arg, JNull, TeamSizeJson(value))
    ensures OptionalTeamSize(arg) == Some(value)
  {
  }

  /** A string-list field accepts the list it holds. */
  lemma StrListOrComplete(arg: Option<Json>, value: seq<string>)
    requires Holds(arg, JList([]), StrListJson(value))
    ensures StrListOr(arg) == Some(value)
  {
    StringsRoundTrip(value);
  }

  /** Whether a company is accepted does not depend on the founder and job lists passed to it. */
  lemma ValidateCompanyIgnoresLists(args: CompanyArgs, founders: Option<seq<YCFounder>>, jobs: Option<seq<YCJob>>)
    ensures ValidateCompany(args).Some? <==> ValidateCompany(args.(founders := founders, openJobs := jobs)).Some?
  {
  }

  /** A list of strings written as JSON validates back to itself. */
  lemma StringsRoundTrip(ss: seq<string>)
    ensures Strings(StrListJson(ss).items) == Some(ss)
  {
    var r := Strings(StrListJson(ss).items);
    if r.Some? {
      assert r.value == ss;
    }
  }

  // ---------------------------------------------------------------------------
  // AgentStructuredOutput
  // ---------------------------------------------------------------------------

  function TotalLikes(posts: seq<InstagramPost>): int {
    if posts == [] then 0 else TotalLikes(posts[..|posts| - 1]) + posts[|posts| - 1].likes
  }

  function TotalComments(posts: seq<InstagramPost>): int {
    if posts == [] then 0 else TotalComments(posts[..|posts| - 1]) + posts[|posts| - 1].comments
  }

  /** The documented meaning of the totals; the model class itself does not enforce it. */
  predicate TotalsMatchPosts(o: AgentStructuredOutput) {
    o.totalLikes == TotalLikes(o.mostPopularPosts) && o.totalComments == TotalComments(o.mostPopularPosts)
  }
}
