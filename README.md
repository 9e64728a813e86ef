# qscrapy in Dafny

qscrapy scrapes the Harvard Q guide, the FAS course evaluation reports. It
walks the reports of one term at a time:

- terms are split into categories (departments), and categories into courses;
- for each course it reads the summary page, its rating and reason graphs,
  the page of every instructor and the student comments;
- it builds a `Course` record, validates it, and writes it as one JSON file
  per course.

Every page goes through a `RequestMaker`. It answers from a file cache when it
can. Otherwise it logs in lazily through a browser, sends the request, logs in
again and starts over whenever the login page comes back instead of content,
and caches every content page it gets.

The model has eight modules:

| module | file | contents |
|---|---|---|
| `Common` | common.dfy | `Option`, `Result`, the Python exceptions the code can raise, and `Outcome`, the result of an `assert` sequence |
| `PyStr` | pystr.dfy | the Python string operations the scrapers use (`find`, `split(c)`, `split()`, `strip`, `replace`, `int()`, `'{}'.format`, slicing, `os.path.join`), with the lemmas that say what they return |
| `Page` | page.dfy | a parsed page, reduced to the results of the CSS selectors the scrapers run |
| `Models` | models.dfy | the records of models.py as dynamic Python values, the `validate` methods as functions of the exception they raise, a declarative validity predicate for each record, the loop-based `validate` methods proved against those functions, `to_json_dict`, and a JSON reader that proves serialisation loses nothing |
| `Fetch` | fetch.dfy | `make_request` as a function of the requester's state, and the class `RequestMaker` whose `MakeRequest` method is proved against it |
| `Urls` | urls.dfy | the paths the scrapers request, with a query-string reader that recovers every parameter, the course ids read from links, output file names, and how `main` names a fresh output directory |
| `Parsing` | parsing.dfy | the page decoders: the course title, the summary statistics, the histogram and bar image names, the rating and reason rows, the instructor page and the comment pages |
| `Scrapers` | scrapers.dfy | the `scrape_*` functions: row loops as methods, the page-fetching scrapers as methods on a `RequestMaker` and a `Sink` (the output directory), each proved equal to a function of the state it starts in, and the whole-run properties |

A Python exception is an `Err` value that is passed up unchanged. A few
`except` clauses are handled where they occur: the `isinstance` fallback in
`Rating.validate` (models.py:104-107), the cache miss in `make_request`
(request_maker.py:42, the test whether the path is in the cache), and its
guard around `makedirs` (request_maker.py:68-70, absorbed by the file system
being a map). Apart from those, no function of the core catches an exception,
except `scrape_category`, which prints the traceback and raises again. So an error in any course ends its
category and the whole term (`CourseErrorEndsCategory`).

Points where the model follows the code over its description:

- `make_request` restarts after a login wall with no retry limit (`LoginWallUnbounded`).
- An error inside a category is re-raised, not skipped.
- The tuple fallback in `Rating.validate` always raises TypeError, since `len(tuple)` asks for the length of the type. `RatingCheck` states this.
- The instructor fan-out visits every option after the first. That is not "every option but the selected one".

## Model

| member | source | states |
|---|---|---|
| PyStr.Clamp | scrapers.py:73-74 | a Python slice bound lands in `0..n`; a negative bound counts from the end |
| PyStr.Rest | scrapers.py:108 | `xs[1:]` is the tail of a nonempty list and `[]` for an empty one |
| PyStr.PathJoin | request_maker.py:38 | `os.path.join` keeps an absolute second path as is |
| PyStr.PathJoinInjective | scrapers.py:97 | joining one directory with two different relative names gives two different paths |
| PyStr.Find | scrapers.py:72 | `find` is -1 exactly when the character is absent, and otherwise the index of its first occurrence |
| PyStr.Split | scrapers.py:39 | `split(c)` always yields at least one piece |
| PyStr.SplitJoin | scrapers.py:39 | joining the pieces of `split(c)` with `c` gives back the string |
| PyStr.SplitPiecesFree | scrapers.py:118 | no piece of `split(c)` contains `c` |
| PyStr.SplitNoSep | scrapers.py:159 | a string without `c` splits into itself alone |
| PyStr.SplitAppend | scrapers.py:159 | splitting `a + c + b` gives `a` and then the pieces of `b` |
| PyStr.JoinSplit | scrapers.py:118 | splitting a `c`-join of pieces without `c` returns exactly those pieces |
| PyStr.Words | scrapers.py:72-76 | definition; property in `WordsAreWords`, `WordsOfTwo` and `Parsing.FourWords` |
| PyStr.Word | scrapers.py:73 | the first word is a space-free prefix that ends at a space or at the end |
| PyStr.WordsAreWords | scrapers.py:76 | every word `split()` returns is nonempty and space-free |
| PyStr.WordsOfTwo | scrapers.py:73 | `split()` of two words joined by a space is exactly those two words |
| PyStr.Strip | scrapers.py:196 | `strip()` leaves no leading or trailing whitespace |
| PyStr.StripPadded | scrapers.py:160 | `strip()` of a trimmed text padded with whitespace gives back the text |
| PyStr.StripTrimmed | scrapers.py:196 | `strip()` leaves a trimmed string unchanged |
| PyStr.ReplaceAll | scrapers.py:117 | definition; property in `ReplaceSkips` and `ReplaceHead` |
| PyStr.ReplaceSkips | scrapers.py:117 | `replace` leaves a prefix that cannot start the pattern untouched |
| PyStr.ReplaceHead | scrapers.py:117 | `replace` rewrites a leading occurrence of the pattern |
| PyStr.IntToStr | scrapers.py:16-18 | `'{}'.format(n)` is nonempty and made only of digits and `-` |
| PyStr.ParseInt | scrapers.py:39 | definition; property in `ParseIntRoundTrip` |
| PyStr.ParseIntRoundTrip | scrapers.py:39 | `int()` reads back every formatted integer |
| PyStr.IntToStrInjective | scrapers.py:97 | different integers format differently |
| PyStr.NatToStrValue | scrapers.py:216 | the digits of a formatted natural number have its value |
| Page.Attr | scrapers.py:158 | `attrs[name]` is the attribute when present, and KeyError exactly when it is absent |
| Page.AttrOfEach | scrapers.py:20 | the list comprehension over `attrs[name]` succeeds exactly when every element has the attribute; it keeps order and length, and otherwise raises KeyError |
| Models.PyInt | scrapers.py:77 | `int()` gives an `int` exactly inside the 64-bit range and a `long` outside it |
| Models.NewCourse | models.py:33-45 | the constructor sets the three given fields and leaves the others None |
| Models.RatingCheck | models.py:102-112 | `Rating.validate` passes exactly on valid ratings; a str category with a plain tuple breakdown raises TypeError; only that path raises something other than AssertionError |
| Models.ReasonsCheck | models.py:129-154 | definition; property in `ReasonsCheckValid` |
| Models.InstructorCheck | models.py:175-184 | definition; property in `InstructorCheckValid` |
| Models.QuestionCheck | models.py:205-210 | definition; property in `QuestionCheckValid` |
| Models.CourseCheck | models.py:47-73 | definition; property in `CourseCheckValid` and `NewCourseInvalid` |
| Models.CheckEachPass | models.py:63-73 | a loop of per-item assertions passes iff every item passes, and a failure is the first failing item's failure |
| Models.ReasonsCheckValid | models.py:129-154 | `Reasons.validate` passes iff the reasons are valid, and can only raise AssertionError |
| Models.InstructorCheckValid | models.py:175-184 | `Instructor.validate` passes iff the instructor is valid |
| Models.QuestionCheckValid | models.py:205-210 | `Question.validate` passes iff the question is valid, and can only raise AssertionError |
| Models.CourseCheckValid | models.py:47-73 | `Course.validate` passes iff every field has its type and every nested record validates |
| Models.NewCourseInvalid | models.py:47-49 | a freshly constructed course never validates |
| Models.ReasonsKeysExact | models.py:133-151 | valid reasons have exactly the 7 keys used before 2007 or exactly the 4 used since |
| Models.VocabularySizes | models.py:133-148 | the vocabularies have 7 and 4 reasons and share only Elective and Pre-Med Requirement |
| Models.MixedReasonsRejected | models.py:150-151 | a breakdown that mixes the two vocabularies is rejected with AssertionError |
| Models.PartialReasonsRejected | models.py:150-151 | a breakdown with only part of either vocabulary is rejected |
| Models.ValidateEach | models.py:63-73 | the assertion loop returns what the check function prescribes |
| Models.ValidateInstructor | models.py:175-184 | the loop-based `Instructor.validate` passes iff the instructor is valid |
| Models.ValidateQuestion | models.py:205-210 | the loop-based `Question.validate` passes iff the question is valid |
| Models.ValidateCourse | models.py:47-73 | the loop-based `Course.validate` passes iff the course is valid |
| Models.CourseToJsonDict | models.py:75-90 | `to_json_dict` yields a document exactly for valid courses, with the twelve keys in order; otherwise it raises validate's exception |
| Models.RatingJson | models.py:114-118 | definition; property in `RatingRoundTrip` |
| Models.ReasonsJson | models.py:156-160 | definition; property in `ReasonsRoundTrip` |
| Models.InstructorJson | models.py:186-193 | definition; property in `InstructorRoundTrip` |
| Models.QuestionJson | models.py:212-216 | definition; property in `QuestionRoundTrip` |
| Models.CourseJson | models.py:77-90 | definition; property in `CourseRoundTrip` |
| Models.IntRoundTrip | models.py:78 | an int field reads back from its JSON |
| Models.RatingRoundTrip | models.py:114-118 | a valid rating reads back from its JSON |
| Models.ReasonsRoundTrip | models.py:156-160 | valid reasons read back from their JSON |
| Models.ListRoundTrip | models.py:86-89 | a list reads back when each element does |
| Models.InstructorRoundTrip | models.py:186-193 | a valid instructor reads back from its JSON |
| Models.QuestionRoundTrip | models.py:212-216 | a valid question reads back from its JSON |
| Models.RatingsRoundTrip | models.py:86 | the ratings list reads back |
| Models.InstructorsRoundTrip | models.py:88 | the instructors list reads back |
| Models.QuestionsRoundTrip | models.py:89 | the questions list reads back |
| Models.CourseFieldRoundTrip | models.py:77-90 | each of the twelve fields of a valid course reads back from its entry |
| Models.CourseRoundTrip | models.py:75-90 | the JSON of a valid course reads back as that same course |
| Fetch.RequestMaker.constructor | request_maker.py:16-21 | a new requester keeps its credentials and its data directory (`data` unless one is given), has no cookies, and has made no login or request |
| Fetch.RequestMaker.GetCookies | request_maker.py:23-33 | one login attempt; the cookies are replaced exactly when it succeeds; cache, transport and requests are untouched |
| Fetch.RequestMaker.MakeRequest | request_maker.py:35-74 | the result and the new requester state are those of `Fetch` on the old state |
| Fetch.CacheKey | request_maker.py:38 | definition; property in `CacheKeyShape` and `CacheKeyInjective` |
| Fetch.Fetch | request_maker.py:35-74 | definition; property in `FetchCacheEffect`, `FetchSentEffect`, `FetchIdempotent`, `LoginWallUnbounded`, and `MakeRequest`, which is proved equal to it |
| Fetch.Send | request_maker.py:43-74 | definition; property in `SendCacheEffect`, `SendSentEffect`, `SendFirstRequest` and `HttpErrorNotCached` |
| Fetch.CacheKeyShape | request_maker.py:38 | the cache file of a path is the data directory, a slash, and the path without its leading character |
| Fetch.CacheKeyInjective | request_maker.py:38 | different paths with the same leading character are cached in different files |
| Fetch.CacheHit | request_maker.py:39-41 | a cached path is answered from the file, with no state change |
| Fetch.FetchCacheEffect | request_maker.py:39-74 | a failed call leaves the cache as it was; a successful one returns the page parsed from the path's cache entry; the only entry ever added is the path's own, holding a body that is not the login page |
| Fetch.SendCacheEffect | request_maker.py:49-72 | the same cache property for the network half, on an uncached path |
| Fetch.FetchSentEffect | request_maker.py:39-74 | requests are only appended, one per reply consumed from the front of the script, each to the base URL plus the path; login attempts only grow |
| Fetch.SendSentEffect | request_maker.py:49-61 | the same append-only property for the network half |
| Fetch.FetchIdempotent | request_maker.py:39-41 | after a successful call, the same call returns the same page and changes nothing |
| Fetch.ExistingCookiesSent | request_maker.py:44-51 | with cookies held, the first request carries them unchanged |
| Fetch.SendFirstRequest | request_maker.py:50-51 | the first request the network half sends goes to the base URL plus the path, carrying the cookies it started with |
| Fetch.MissingCookiesMinted | request_maker.py:44-51 | with no cookies, a login comes first; a failed login ends the call before any request; otherwise the first request carries the new cookies |
| Fetch.HttpErrorNotCached | request_maker.py:52-53 | a non-OK response is an error after one request, with cache and cookies unchanged |
| Fetch.ContentCached | request_maker.py:56-74 | an OK page that is not the login wall is returned and written to the cache |
| Fetch.LoginWallRestarts | request_maker.py:57-61 | a login wall is not cached; fresh cookies are fetched and the call starts over |
| Fetch.LoginWallUnbounded | request_maker.py:57-61 | after any number n of login walls, the content page is returned, after n more logins and n+1 requests, and it is cached |
| Fetch.PersistentLoginWall | request_maker.py:57-61 | a transport that serves only login walls never yields content and caches nothing |
| Urls.TermUrl | scrapers.py:15-18 | definition; property in `TermUrlParams` and `TermUrlInjective` |
| Urls.CategoryUrl | scrapers.py:34-37 | definition; property in `CategoryUrlParams` |
| Urls.CourseUrl | scrapers.py:60-62 | definition; property in `CourseUrlParams` and `CourseIdRoundTrip` |
| Urls.InstructorUrl | scrapers.py:146-148 | definition; property in `InstructorUrlParams` |
| Urls.CommentsUrl | scrapers.py:187-188 | definition; property in `CommentsUrlParams` |
| Urls.QuestionUrl | scrapers.py:194 | definition: the comments directory followed by the link's `href` |
| Urls.UrlParts | scrapers.py:16-18 | a URL splits into its path and its query parameters |
| Urls.PairParts | scrapers.py:34-35 | a `name=value` pair reads back as its name and value |
| Urls.PairsCons | scrapers.py:34-35 | the first pair of a query answers its own name |
| Urls.PairsSkip | scrapers.py:34-35 | a pair for another name is skipped over |
| Urls.PairsLast | scrapers.py:148 | a final pair answers its own name |
| Urls.PairsLastOther | scrapers.py:146 | a final pair does not answer another name |
| Urls.OnePairUrl | scrapers.py:15-18 | a URL with one `name=value` parameter has that path and that value for the name, and no value for any other name |
| Urls.TwoPairUrl | scrapers.py:146-148 | a URL with two parameters of different names has that path and both values |
| Urls.ThreePairUrl | scrapers.py:34-37 | a URL with three parameters of different names has that path and all three values |
| Urls.NamesPlain | scrapers.py:15-188 | the parameter names the scrapers send contain no `=` or `&` and are pairwise different where they share a URL |
| Urls.PathsPlain | scrapers.py:15 | the page paths contain no `?` |
| Urls.TermUrlParams | scrapers.py:15-18 | the term URL is the list page with `yearterm=<year>_<term>` |
| Urls.UnderscoreInjective | scrapers.py:16-18 | `a_b` determines `a` and `b` when neither contains `_` |
| Urls.TermUrlInjective | scrapers.py:15-18 | different terms have different URLs |
| Urls.CategoryUrlParams | scrapers.py:34-37 | the category URL is the department guide page with the category, term and year |
| Urls.CourseUrlParams | scrapers.py:60-62 | the course URL is the summary page with `course_id` |
| Urls.InstructorUrlParams | scrapers.py:146-148 | the instructor URL is the instructor summary page with the course and, when given, the instructor id |
| Urls.CommentsUrlParams | scrapers.py:187-188 | the comments URL is the comments page with `course_id` |
| Urls.CourseIdOf | scrapers.py:39 | definition; property in `CourseIdOfLink` and `CourseIdRoundTrip` |
| Urls.CourseIds | scrapers.py:39 | reading ids succeeds exactly when every link yields an id; it keeps order; otherwise it raises the error of the first link that fails |
| Urls.CourseIdOfLink | scrapers.py:39 | the text after `=` in a link with one `=` reads as the id |
| Urls.CourseIdRoundTrip | scrapers.py:39 | the id read from a course URL is that course's id |
| Urls.CourseFileNameInjective | scrapers.py:97 | different courses are written to different files |
| Urls.NumericEntries | scrapers.py:216 | the numeric entries are no more than the directory's entries |
| Urls.MaxIsMax | scrapers.py:217 | `max` bounds every element and is one of them |
| Urls.NumericEntriesMembers | scrapers.py:216 | the numeric entries are exactly the values of the all-digit names |
| Urls.NextOutputDir | scrapers.py:216-218 | definition; property in `NextOutputDirFresh` |
| Urls.NextOutputDirFresh | scrapers.py:216-218 | the new output directory is 0 exactly when no entry is numeric; it exceeds every numeric entry; its name is not already taken |
| Urls.YearTermsNewestFirst | scrapers.py:222-225 | the terms `main` scrapes are listed from the newest back |
| Urls.NewestFirstOrdered | scrapers.py:222-225 | in a newest-first list every later term is strictly older than every earlier one |
| Urls.YearTermsDistinct | scrapers.py:222-225 | the 19 terms scraped all have different URLs |
| Parsing.TitleParts | scrapers.py:71-74 | department and code are nonempty space-free words; the name is a suffix of the title; the only error is ValueError |
| Parsing.TitleSplit | scrapers.py:71-74 | a title `<dept> <code>: <name>` yields exactly its three parts |
| Parsing.TitleWithoutColon | scrapers.py:72-74 | with no colon, `find` gives -1: the name is the title minus its first character, and the two words come from the title minus its last character |
| Parsing.StatsCounts | scrapers.py:76-78 | no statistics element raises IndexError; the only errors are IndexError and ValueError; success needs at least four words |
| Parsing.IntToStrWord | scrapers.py:76 | a formatted integer is one word |
| Parsing.FourWords | scrapers.py:76-78 | `split()` of four nonempty space-free words followed by any text begins with those four words |
| Parsing.StatsRoundTrip | scrapers.py:76-78 | statistics text of the form `<label> <enrollment> <label> <evaluations> …` reads back as those two counts |
| Parsing.Dashes | scrapers.py:117-118 | an image name always yields at least one piece |
| Parsing.ParseAll | scrapers.py:118 | `map(int, …)` succeeds exactly when every piece parses, keeps order, and otherwise raises ValueError |
| Parsing.DecodeHistobar | scrapers.py:117-118 | a histogram name decodes to a breakdown; a piece count other than five raises TypeError |
| Parsing.DecodeBarPercentage | scrapers.py:134-135 | a bar name decodes only from exactly three pieces; the only error is ValueError |
| Parsing.Numerals | scrapers.py:117 | the numerals of an image name are the formatted numbers, in order |
| Parsing.DashesOfImage | scrapers.py:117-118 | the pieces of an image name are exactly its numerals |
| Parsing.ParseNumerals | scrapers.py:118 | parsing the numerals gives back the numbers |
| Parsing.HistobarRoundTrip | scrapers.py:117-118 | `histobar-a-b-c-d-e.png` decodes to the breakdown (a, b, c, d, e) |
| Parsing.HistobarWrongCount | scrapers.py:118 | a histogram name with other than five numbers raises TypeError |
| Parsing.BarRoundTrip | scrapers.py:134-135 | `barPercentage-n-total-x.png` decodes to (n, total) |
| Parsing.BarWrongCount | scrapers.py:135 | a bar name with other than three numbers raises ValueError |
| Parsing.RatingOfRow | scrapers.py:110-120 | a one-cell row is skipped, and it is the only row skipped; no cell raises IndexError; a rating is named by the first cell's strong text; no image means the zero breakdown |
| Parsing.RatingRowRoundTrip | scrapers.py:113-120 | a row whose image is `histobar-a-b-c-d-e.png` is the rating (a, b, c, d, e) of its strong text |
| Parsing.RatedRows | scrapers.py:111 | skipping rows never adds any |
| Parsing.RatingsOfRows | scrapers.py:109-120 | the row loop succeeds exactly when every row does; each result is a rating with a string category; otherwise it raises some row's error |
| Parsing.RatingsOfRatedRows | scrapers.py:109-122 | there is one rating per row that is not skipped, in row order, each that row's rating |
| Parsing.ReportRatings | scrapers.py:108 | the header row is dropped before the loop |
| Parsing.RatingsOfReports | scrapers.py:86-88 | concatenating the reports' ratings succeeds exactly when every report does, and yields only ratings |
| Parsing.RatingsOfReportsAppend | scrapers.py:87-88 | the ratings of two runs of reports are the ratings of the first followed by those of the second |
| Parsing.ReasonOfRow | scrapers.py:132-135 | fewer than two cells raises IndexError; no image raises AttributeError; a reason is named by the first cell's text |
| Parsing.ReasonEntries | scrapers.py:131-135 | the row loop succeeds exactly when every row does, one entry per row in order; otherwise the error of the first row that fails |
| Parsing.TallySnoc | scrapers.py:135-136 | a later row overwrites its category's count and sets the total |
| Parsing.ReasonsValue | scrapers.py:138 | the reasons hold a dictionary with the tallied keys |
| Parsing.ReportReasons | scrapers.py:125-138 | a report with no data row gives total 0 and an empty breakdown; success is always a reasons object with a dictionary |
| Parsing.TallyKeys | scrapers.py:136 | the breakdown's keys are exactly the rows' categories |
| Parsing.TallyLastWins | scrapers.py:136 | a category's count comes from its last row |
| Parsing.ReportReasonsShape | scrapers.py:129-138 | the keys are the categories of the data rows, and the total comes from the last row |
| Parsing.ReportReasonsLastWins | scrapers.py:136 | a category's count is the `n` of its last row in the report |
| Parsing.SelectedOptions | scrapers.py:157 | the selected options are exactly the options marked selected |
| Parsing.SelectedFirst | scrapers.py:157 | `[0]` of the selected options is the first option, in document order, that is selected |
| Parsing.IdRoleSplit | scrapers.py:158-159 | `id:role` with no other colon splits into exactly its id and role |
| Parsing.NamesSplit | scrapers.py:160 | `last, first` splits at the comma, and stripping the two pieces gives back the names |
| Parsing.InstructorPage | scrapers.py:151-170 | no select raises IndexError; no options means no instructors; a success is a typed instructor returned with the page's options; which instructor it is, is stated in `InstructorIdentity` |
| Parsing.InstructorIdentity | scrapers.py:157-170 | when the first selected option is `id:role` with the text `last, first`, the page yields exactly that instructor, rated by the first graph report, or with no ratings when there is none |
| Parsing.InstructorPageErrors | scrapers.py:157-158 | with options but none selected, `[0]` raises IndexError; a selected option without `value` raises KeyError |
| Parsing.Responses | scrapers.py:196 | one stripped response per paragraph, in order |
| Parsing.QuestionOf | scrapers.py:193-196 | a question is the link's text and one response per paragraph, and it validates |
| Scrapers.ScrapeRatings | scrapers.py:102-122 | the loop returns the ratings of the report's rows after the header |
| Scrapers.ScrapeReasons | scrapers.py:125-138 | the loop returns the tallied reasons of the report |
| Scrapers.ScrapeReportRatings | scrapers.py:86-88 | the loop returns the ratings of all the reports, concatenated |
| Scrapers.CourseSummary | scrapers.py:59-91 | no h1, or no graph report, means no data; a course holds the given ids, the title's parts, the statistics' counts, the ratings of every report but the last and the reasons of the last |
| Scrapers.SummarizeCourse | scrapers.py:64-91 | the steps of scrape_course in order compute the course summary |
| Scrapers.Instructors | scrapers.py:141-179 | definition; property in `InstructorSubCall` and `InstructorsFanOut`, and `ScrapeInstructors`, which is proved equal to it |
| Scrapers.OtherInstructors | scrapers.py:174-177 | definition; property in `OtherInstructorsBound` |
| Scrapers.ScrapeInstructors | scrapers.py:141-179 | the result and the requester's new state are those of `Instructors` on the old state |
| Scrapers.Questions | scrapers.py:182-200 | definition; property in `ScrapeQuestions`, which is proved equal to it |
| Scrapers.QuestionPages | scrapers.py:192-198 | definition; property in `QuestionPagesShape` |
| Scrapers.ScrapeQuestions | scrapers.py:182-200 | the result and the requester's new state are those of `Questions` on the old state |
| Scrapers.Sink.constructor | scrapers.py:97-99 | the output directory starts with the given files |
| Scrapers.Sink.Write | scrapers.py:98-99 | writing a file sets exactly that file |
| Scrapers.CourseOutcome | scrapers.py:49-99 | definition; property in `WrittenCourseValid`, `SkippedCourseUntouched` and `CourseKeepsOutput`, and `ScrapeCourse`, which is proved equal to it |
| Scrapers.CompleteCourse | scrapers.py:93-99 | definition; property in `CompletedCourseValid`, and `FinishCourse`, which is proved equal to it |
| Scrapers.ScrapeCourse | scrapers.py:49-99 | the result and the requester's state are those of `CourseOutcome`; exactly the written course's file is added on success, and nothing is written on an error |
| Scrapers.FinishCourse | scrapers.py:93-99 | the result and the requester's state are those of `CompleteCourse`; the course file is added exactly on success |
| Scrapers.CoursesOutcome | scrapers.py:41-43 | definition; property in `CoursesKeepOutput` and `CourseErrorEndsCategory` |
| Scrapers.CategoryOutcome | scrapers.py:27-46 | definition; property in `CategoryKeepsOutput`, and `ScrapeCategory`, which is proved equal to it |
| Scrapers.CategoriesOutcome | scrapers.py:22-24 | definition; property in `CategoriesKeepOutput` |
| Scrapers.TermOutcome | scrapers.py:11-24 | definition; property in `TermKeepsOutput`, and `ScrapeTerm`, which is proved equal to it |
| Scrapers.ScrapeCategory | scrapers.py:27-46 | the outcome, the requester's state and the files are those of `CategoryOutcome` |
| Scrapers.ScrapeTerm | scrapers.py:11-24 | the outcome, the requester's state and the files are those of `TermOutcome` |
| Scrapers.InstructorSubCall | scrapers.py:147-148 | a call with an instructor id makes exactly one fetch and returns at most one instructor |
| Scrapers.OtherInstructorsBound | scrapers.py:174-177 | the fan-out adds at most one instructor per option |
| Scrapers.InstructorsFanOut | scrapers.py:153-179 | no options means no instructors; otherwise the selected instructor comes first, with at most one more per option |
| Scrapers.QuestionPagesShape | scrapers.py:192-198 | one question per link, in order, each with the link's text; every question validates |
| Scrapers.WrittenCourseValid | scrapers.py:96-99 | a written course is not skipped, is filed under its own id, validates, carries the given ids, and its JSON reads back as it |
| Scrapers.CompletedCourseValid | scrapers.py:93-99 | once the summary yields a course, a completed course keeps every summary field, validates, is filed under its id, and its JSON reads back as it |
| Scrapers.SkippedCourseUntouched | scrapers.py:55-57 | course 44050 is never requested and never written |
| Scrapers.StoreKeepsOutput | scrapers.py:97-99 | storing a valid course other than 44050 under its own file keeps the output sound |
| Scrapers.CourseKeepsOutput | scrapers.py:49-99 | a course run keeps the output sound: every file is a valid course, and 44050 has none |
| Scrapers.CoursesKeepOutput | scrapers.py:41-43 | the course loop keeps the output sound |
| Scrapers.CategoryKeepsOutput | scrapers.py:27-46 | a category keeps the output sound |
| Scrapers.CategoriesKeepOutput | scrapers.py:22-24 | the category loop keeps the output sound |
| Scrapers.TermKeepsOutput | scrapers.py:11-24 | a whole term leaves only valid course files, and none for 44050 |
| Scrapers.CourseErrorEndsCategory | scrapers.py:41-46 | an error in a course is raised again: no later course is scraped, and the files stay as they were |

## Left out

- The browser login (`_get_cookies`, request_maker.py:24-33) is an oracle. `env.login(username, password, k)` gives the cookies of the k-th login attempt, or None when the browser raises. Selenium and PhantomJS are not modelled.
- The transport is a finite, scripted sequence of replies. `requests.get` is not modelled, and neither is the parser: BeautifulSoup is a function from a body to a `Document` holding what the CSS selectors return. When the script runs out, the model stops with `RepliesExhausted`. The source has no such error; it marks the limit of what the model can say.
- `r.status` in the HTTPError message (request_maker.py:53) does not exist on a `requests` response, so the line raises AttributeError in practice. Either way the call fails, and the model returns `RequestFailed`.
- The file system is a map from file names to contents. This covers the cache files, `makedirs` and its EEXIST race guard, the utf8 decoding and encoding, `json.dump` with its indentation, and the output files. The JSON document is modelled as a `Json` value.
- `RequestMaker.copy` (scrapers.py:32 and 236) is not defined in request_maker.py. The model runs each category on the requester it is given.
- `main`'s sequencing is not modelled: reading credentials.txt, the `os.path.exists` checks, `os.listdir`, and the `Pool(5)` map over `_helper`. Concurrency, and the cache being shared between processes, are out of scope. What `main` computes is modelled: the next output directory name (`NextOutputDir`) and the list of terms (`YEAR_TERMS`).
- `print`, `logging`, `traceback.print_exc` and the unbuffered stdout have no effect on the result, and are left out.
- Python 2's distinction between `str` and `unicode` is not modelled. The code is Python 2 (request_maker.py:36 uses the print statement), and BeautifulSoup gives `unicode` for `.text` and for attribute values. Read literally, a course whose instructor page has options would raise TypeError at `map(str.strip, ...)` (scrapers.py:160, reached from line 93) before `c.validate()` runs at line 96. A course whose instructor page has no options would reach `validate` and fail its `isinstance(..., str)` checks (models.py:48-50) with AssertionError. The model treats page text as `str`, which is the evidently intended behaviour.
- The base `Model` class (models.py:6-26) is never used by the records, and is left out.
- Course: the record is a value. `scrape_course` builds it in one step from the decoded parts, not by assigning its fields one by one.
- Models.RatingJson and the other encoders are defined only on valid records. `to_json_dict` runs validate first (models.py:76), and a rating or instructor is only ever serialised inside a course.
- Models.RatingCheck: the coercion at models.py:109 is unreachable, because line 108 always raises. So the model has no coerced breakdown.
