# LangChain agent tools for Apify: a Dafny model

The system is an Apify Actor that runs a LangChain ReAct agent. The agent answers
questions about Instagram profiles and Y Combinator companies with three tools:

- `tool_calculator_sum` adds up a list of integers.
- `tool_scrape_instagram_profile_posts` runs the `apify/instagram-scraper` actor and maps
  each dataset item to an `InstagramPost`.
- `tool_scrape_yc_company` runs the `michael.g/y-combinator-scraper` actor and maps each
  dataset item to a `YCCompany`, together with its `YCFounder`s and `YCJob`s.

The agent returns an `AgentStructuredOutput`. Its totals are documented as the sums of
likes and comments over its most popular posts.

This project models those tools and the Pydantic record types they build:

- `wrappers.dfy`: `Option` and `Result`.
- `pyjson.dfy`: the JSON values that the remote actors return, Python truthiness
  (`Truthy`) and `dict.get` (`Get`, `GetOr`).
- `stable_filter.dfy`: `Collect`. It is the shape shared by every mapping loop of the tools:
  for each item, append one record, `continue`, or raise. Its lemmas show that `Collect` is
  a stable filter-map. It keeps order, drops only skipped items, keeps duplicates, and the
  first raise decides the result.
- `models.dfy`: the record types. Each constructor is modelled as a validator with a
  field-by-field `Explains...` specification, proved in both directions.
- `tools.dfy`: the sum, the two request payloads, the per-item steps, and the loops. Each
  loop is written as a `method` and proved equal to `Collect` over its step. Also the two
  tool methods, in which the actor call and the dataset read are parameters.

## Model

| member | source | states |
|---|---|---|
| StableFilter.Collect | apify-actor-langchain/src/tools.py:73-98 | The append/continue/raise loop as a function; a successful run has no more records than items |
| StableFilter.KeptIndices | apify-actor-langchain/src/tools.py:82-87 | The positions of kept items: in range, strictly increasing, and containing every kept position |
| StableFilter.CollectAppend | apify-actor-langchain/src/tools.py:74-96 | Mapping a concatenation equals mapping the first part and then the second; the first failure wins |
| StableFilter.CollectAbortsAt | apify-actor-langchain/src/tools.py:87-96 | Once a prefix runs cleanly, the first item that raises decides the result of the whole run |
| StableFilter.CollectFailsIff | apify-actor-langchain/src/tools.py:87-96 | A run fails iff some item raises, and then with the first such item's error |
| StableFilter.CollectFollowsKeptIndices | apify-actor-langchain/src/tools.py:73-98 | The j-th output record is the record kept by the j-th kept item: order is preserved and only skipped items are removed |
| StableFilter.CollectIgnoresSkipped | apify-actor-langchain/src/tools.py:83-85 | Removing a skipped item from the input changes nothing in the output |
| StableFilter.CollectKeepsDuplicates | apify-actor-langchain/src/tools.py:73-98 | Nothing is deduplicated: a repeated input yields its records twice |
| Models.Strings | apify-actor-langchain/src/models.py:109 | A `list[str]` value validates to exactly its string elements; it fails only when some element is not a string |
| Models.TeamSizeAcceptsIntStrOrNone | apify-actor-langchain/src/models.py:108 | `team_size` accepts an int, a str or None (also when not passed) and nothing else, and keeps the value it accepts |
| Models.ValidatePost | apify-actor-langchain/src/models.py:26-31 | An accepted post has the required `url`, `likes`, `comments` and `timestamp` with their declared types; `caption` and `alt` default to None |
| Models.ValidatePostComplete | apify-actor-langchain/src/models.py:26-31 | Every post that the arguments explain is accepted, so validation fails only when no post fits |
| Models.ValidateFounder | apify-actor-langchain/src/models.py:61-63 | An accepted founder has the required int `id` and str `name`; `linkedin` defaults to None |
| Models.ValidateFounderComplete | apify-actor-langchain/src/models.py:61-63 | Every founder that the arguments explain is accepted |
| Models.ValidateJob | apify-actor-langchain/src/models.py:75-78 | An accepted job has the required int `id` and str `title`; `description` and `location` default to None |
| Models.ValidateJobComplete | apify-actor-langchain/src/models.py:75-78 | Every job that the arguments explain is accepted |
| Models.ValidateCompany | apify-actor-langchain/src/models.py:102-117 | An accepted company has the required `company_id` and `company_name`; lists default to `[]`, `is_hiring` to False, every other field to None |
| Models.ValidateCompanyComplete | apify-actor-langchain/src/models.py:102-117 | Every company that the arguments explain is accepted |
| Models.ValidateCompanyIgnoresLists | apify-actor-langchain/src/models.py:107-113 | Whether a company is accepted does not depend on the already-validated founder and job lists passed to it |
| Models.StringsRoundTrip | apify-actor-langchain/src/models.py:109 | A list of strings, written as JSON, validates back to itself |
| Tools.CalculatorSum | apify-actor-langchain/src/tools.py:34-44 | The sum of the empty list is 0; a list of non-negative numbers has a non-negative sum |
| Tools.SumAppend | apify-actor-langchain/src/tools.py:44 | The sum of a concatenation is the sum of the parts' sums |
| Tools.SumFromFront | apify-actor-langchain/src/tools.py:44 | The sum is the first element plus the sum of the rest |
| Tools.CalculatorSumGivesTotals | apify-actor-langchain/src/models.py:34-46 | Summing the posts' likes and comments with the calculator gives the totals that `AgentStructuredOutput` documents |
| Tools.InstagramRunInput | apify-actor-langchain/src/tools.py:61-66 | The payload has exactly the keys `directUrls`, `resultsLimit`, `resultsType` and `searchLimit`; `directUrls` is the handle's profile URL and `resultsLimit` is `max_posts`; it asks for posts only, from a single profile search |
| Tools.InstagramRunInputInjective | apify-actor-langchain/src/tools.py:61-66 | The handle and the post limit can be read back from the payload |
| Tools.YCRunInput | apify-actor-langchain/src/tools.py:126-131 | The payload has exactly the keys `url`, `scrape_founders`, `scrape_open_jobs` and `scrape_all_companies`; `url` carries the company URL, `scrape_founders` and `scrape_open_jobs` carry the two flags, and `scrape_all_companies` is always False |
| Tools.YCRunInputInjective | apify-actor-langchain/src/tools.py:126-131 | The URL and both flags can be read back from the payload |
| Tools.PostStep | apify-actor-langchain/src/tools.py:75-96 | An item is skipped iff one of `url`, `likesCount`, `commentsCount`, `timestamp` is falsy; a kept post copies the item's values verbatim; a rejected post raises |
| Tools.PostStepKeepsIff | apify-actor-langchain/src/tools.py:83-96 | A post is kept iff the guard passes and every value is well typed; the tool raises iff only the guard passes |
| Tools.ZeroEngagementPostDropped | apify-actor-langchain/src/tools.py:83 | A post with 0 likes or 0 comments is dropped |
| Tools.MapPostItems | apify-actor-langchain/src/tools.py:73-98 | The Instagram loop computes `Collect` over `PostStep` |
| Tools.InstagramOutputIsStableFilter | apify-actor-langchain/src/tools.py:73-98 | A successful mapping keeps exactly the items that pass the guard, in input order, each post copying its item |
| Tools.ScrapeInstagramProfilePosts | apify-actor-langchain/src/tools.py:47-98 | A falsy run raises RuntimeError; a run without `defaultDatasetId` raises; otherwise the result is the mapping of the dataset's items |
| Tools.FounderStep | apify-actor-langchain/src/tools.py:163-173 | A founder entry never raises; a kept founder takes `id` (default 0), `name` (default `''`) and `linkedin` from the entry |
| Tools.FounderStepKeepsIff | apify-actor-langchain/src/tools.py:163-173 | A founder entry is kept iff it is an object whose values, with defaults applied, are well typed |
| Tools.FounderEntries | apify-actor-langchain/src/tools.py:163 | Iterating the value raises iff it is None, a bool or an int; only `True` or a non-zero int gets past the truthiness check at tools.py:162 |
| Tools.FoundersOf | apify-actor-langchain/src/tools.py:161-162 | Founders are empty unless `scrape_founders` is set and the item's `founders` is truthy |
| Tools.MalformedFounderKeepsSiblings | apify-actor-langchain/src/tools.py:164-173 | A malformed founder entry is dropped and its siblings are kept |
| Tools.ParseFounders | apify-actor-langchain/src/tools.py:160-173 | The founders loop computes `FoundersOf` |
| Tools.JobStep | apify-actor-langchain/src/tools.py:178-189 | A job entry never raises; a kept job takes `id` (default 0), `title` (default `'Unknown Position'`), `description` and `location` from the entry |
| Tools.JobStepKeepsIff | apify-actor-langchain/src/tools.py:178-189 | A job entry is kept iff it is an object whose values, with defaults applied, are well typed |
| Tools.JobEntries | apify-actor-langchain/src/tools.py:178 | Iterating the value raises iff it is None, a bool or an int; only `True` or a non-zero int gets past the truthiness check at tools.py:177 |
| Tools.JobsOf | apify-actor-langchain/src/tools.py:176-177 | Jobs are empty unless `scrape_jobs` is set and the item's `open_jobs` is truthy |
| Tools.MalformedJobKeepsSiblings | apify-actor-langchain/src/tools.py:179-189 | A malformed job entry is dropped and its siblings are kept |
| Tools.ParseJobs | apify-actor-langchain/src/tools.py:175-189 | The jobs loop computes `JobsOf` |
| Tools.CompanyStep | apify-actor-langchain/src/tools.py:152-215 | Falsy name or id (0 included) skips the item; it raises iff founders or jobs raise; a kept company carries the parsed founders and jobs and is explained by the item's values |
| Tools.CompanyStepKeepsIff | apify-actor-langchain/src/tools.py:156-211 | A company is kept iff its name and id are truthy, its founders and jobs parse and `YCCompany(...)` accepts the arguments |
| Tools.CompanyKeepsItemFields | apify-actor-langchain/src/tools.py:193-210 | A kept company copies id, name and every optional field (`batch`, both descriptions, `team_size`, `company_location`, `website`, `url`, `company_linkedin`, `status`, `year_founded`) verbatim; tags become `[]` when missing or falsy; `is_hiring` defaults to False |
| Tools.NullIsHiringDropsCompany | apify-actor-langchain/src/tools.py:206 | An explicit null `is_hiring` is passed as None, which the bool field rejects, so the company is dropped |
| Tools.FailedCompanyDropsOnlyItself | apify-actor-langchain/src/tools.py:192-215 | A company whose construction fails is dropped without disturbing the other companies |
| Tools.YCOutputIsStableFilter | apify-actor-langchain/src/tools.py:151-218 | A successful mapping keeps, in input order, exactly the items whose company is accepted (truthy name and id, parseable founders and jobs, a valid company), each as its own company |
| Tools.SameFieldsSameFate | apify-actor-langchain/src/tools.py:192-211 | Two items that give the constructor the same arguments, and whose founders and jobs both parse, are kept alike |
| Tools.FoundersNeverDropCompany | apify-actor-langchain/src/tools.py:160-173 | However malformed its entries are, a `founders` list never decides whether its company is kept |
| Tools.JobsNeverDropCompany | apify-actor-langchain/src/tools.py:175-189 | However malformed its entries are, an `open_jobs` list never decides whether its company is kept |
| Tools.MapCompanyItems | apify-actor-langchain/src/tools.py:151-218 | The company loop computes `Collect` over `CompanyStep` |
| Tools.ScrapeYCCompany | apify-actor-langchain/src/tools.py:105-218 | A falsy run raises RuntimeError; a run without `defaultDatasetId` raises; otherwise the result is the company mapping of the dataset's items |

## Left out

- Tools.CalculatorSum: its own contract states only the empty-list and sign facts. What makes it `sum` is given by `SumAppend`, `SumFromFront` and `CalculatorSumGivesTotals`.
- Pydantic's lax coercions are not modelled. Examples are `True` accepted as an int, a numeric string accepted as an int, and a float with an integral value. Each field accepts exactly the JSON type it declares.
- Dataset items are modelled as JSON objects only (`RawRecord`). A non-dict item would make `item.get` raise `AttributeError` (tools.py:75, 153); that error path is not modelled.
- Floats are not modelled. A JSON value is null, a bool, an int, a string, a list or an object.
- `get_apify_client` (tools.py:20-31) and its `ValueError` for a missing `APIFY_API_TOKEN` are not modelled. The Apify client, the actor call and the dataset read are the parameters `callActor` and `fetch`. Network failures and exceptions raised inside them are not modelled.
- `async`/`await` and the `@tool` wrapper are not modelled. The tools are ordinary methods.
- Logging (`Actor.log`) is not modelled, because it does not affect any result.
- The default arguments of the tools (`max_posts = 30`, `scrape_founders = True`, `scrape_jobs = True`) are not modelled; every argument is explicit.
- A `founders` or `open_jobs` value that is a string or a dict yields only strings when iterated. Every such entry fails inside the `try` and is skipped, so the model returns the empty list directly; the order in which a dict is iterated therefore never matters.
- `TotalsMatchPosts` is the documented meaning of the agent's totals. The `AgentStructuredOutput` class does not enforce it, and how the language model fills in the answer is not modelled.
- `src/main.py`, the test scripts and the other projects in the repository are not part of this model.
