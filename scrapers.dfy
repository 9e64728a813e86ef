/** scrapers.py: the loops that walk a page's reports, the instructor fan-out,
    the question pages, and the course, category and term scrapers, each run
    against a RequestMaker and an output directory.  Every method is proved
    against a function of the requester's state that says what it returns,
    which requests it makes and which files it leaves. */
module Scrapers {

  import opened Common
  import opened PyStr
  import opened Page
  import opened Models
  import opened Fetch
  import opened Urls
  import opened Parsing

  // ---------------------------------------------------------------------
  // The loops over a report's rows

  /** `scrape_ratings(graph_report)` */
  method ScrapeRatings(report: GraphReport) returns (r: Result<seq<Value>>)
    ensures r == ReportRatings(report)
  {
    var graphs := Rest(report.rows);
    var ratings: seq<Value> := [];
    assert graphs[0..] == graphs;
    ThenNil(RatingsOfRows(graphs));
    for i := 0 to |graphs|
      invariant Then(ratings, RatingsOfRows(graphs[i..])) == RatingsOfRows(graphs)
    {
      assert graphs[i..][0] == graphs[i] && graphs[i..][1..] == graphs[i + 1..];
      var rating := RatingOfRow(graphs[i]);
      match rating
      case Err(e) =>
        return Err(e);
      case Ok(None) =>
      case Ok(Some(v)) =>
        ThenThen(ratings, [v], RatingsOfRows(graphs[i + 1..]));
        ratings := ratings + [v];
    }
    assert graphs[|graphs|..] == [];
    assert ratings + [] == ratings;
    return Ok(ratings);
  }

  /** `scrape_reasons(reasons_graph)`: `total` and `breakdown` updated row by
      row. */
  method ScrapeReasons(report: GraphReport) returns (r: Result<Value>)
    ensures r == ReportReasons(report)
  {
    var rows := Rest(report.rows);
    var total := 0;
    var breakdown: map<string, int> := map[];
    ghost var entries: seq<(string, int, int)> := [];
    assert rows[0..] == rows;
    ThenNil(ReasonEntries(rows));
    for i := 0 to |rows|
      invariant Then(entries, ReasonEntries(rows[i..])) == ReasonEntries(rows)
      invariant total == LastTotal(entries) && breakdown == Tally(entries)
    {
      assert rows[i..][0] == rows[i] && rows[i..][1..] == rows[i + 1..];
      ReasonEntriesStep(rows[i..]);
      var row := ReasonOfRow(rows[i]);
      if row.Err? {
        return Err(row.error);
      }
      var (category, n, t) := row.value;
      TallySnoc(entries, row.value);
      ThenThen(entries, [row.value], ReasonEntries(rows[i + 1..]));
      entries := entries + [row.value];
      breakdown := breakdown[category := n];
      total := t;
    }
    assert rows[|rows|..] == [];
    assert entries + [] == entries;
    return Ok(ReasonsValue(total, breakdown));
  }

  /** `for graph_report in graph_reports[:-1]: c.ratings += scrape_ratings(graph_report)` */
  method ScrapeReportRatings(reports: seq<GraphReport>) returns (r: Result<seq<Value>>)
    ensures r == RatingsOfReports(reports)
  {
    var ratings: seq<Value> := [];
    assert reports[0..] == reports;
    ThenNil(RatingsOfReports(reports));
    for i := 0 to |reports|
      invariant Then(ratings, RatingsOfReports(reports[i..])) == RatingsOfReports(reports)
    {
      assert reports[i..][0] == reports[i] && reports[i..][1..] == reports[i + 1..];
      var more := ScrapeRatings(reports[i]);
      if more.Err? {
        return Err(more.error);
      }
      ThenThen(ratings, more.value, RatingsOfReports(reports[i + 1..]));
      ratings := ratings + more.value;
    }
    assert reports[|reports|..] == [];
    assert ratings + [] == ratings;
    return Ok(ratings);
  }

  // ---------------------------------------------------------------------
  // The course summary page

  /** What a course summary holds: the given ids, the title's department,
      code and name, the statistics' counts, the ratings of every report but
      the last and the reasons of the last, and no instructors or questions
      yet. */
  predicate SummaryOf(doc: Document, courseId: int, year: int, term: int, c: Course)
  {
    var reports := doc.graphReports;
    && doc.h1.Some? && reports != []
    && c.courseId == PyInt(courseId) && c.year == PyInt(year) && c.term == PyInt(term)
    && c.department.Str? && c.courseCode.Str? && c.courseName.Str?
    && TitleParts(doc.h1.value) == Ok((c.department.s, c.courseCode.s, c.courseName.s))
    && StatsCounts(doc.summaryStats).Ok?
    && c.enrollment == PyInt(StatsCounts(doc.summaryStats).value.0)
    && c.evaluations == PyInt(StatsCounts(doc.summaryStats).value.1)
    && c.ratings.List? && RatingsOfReports(reports[..|reports| - 1]) == Ok(c.ratings.items)
    && ReportReasons(reports[|reports| - 1]) == Ok(c.reasons)
    && c.instructors == NoneValue && c.questions == NoneValue
  }

  /** The record scrape_course fills from the summary page: None when the
      page has no h1 or no graph report (the course is reported and skipped).
      The department, code and name come from the title, enrollment and
      evaluations from the statistics, the ratings from every report but the
      last and the reasons from the last one. */
  function CourseSummary(doc: Document, courseId: int, year: int, term: int): (r: Result<Option<Course>>)
    ensures doc.h1.None? ==> r == Ok(None)
    ensures doc.h1.Some? && TitleParts(doc.h1.value).Ok? && StatsCounts(doc.summaryStats).Ok? && doc.graphReports == []
            ==> r == Ok(None)
    ensures r.Ok? && r.value.Some? ==> SummaryOf(doc, courseId, year, term, r.value.value)
  {
    if doc.h1.None? then Ok(None)
    else
      match TitleParts(doc.h1.value)
      case Err(e) => Err(e)
      case Ok((department, code, name)) =>
        match StatsCounts(doc.summaryStats)
        case Err(e) => Err(e)
        case Ok((enrollment, evaluations)) =>
          var reports := doc.graphReports;
          if reports == [] then Ok(None)
          else
            match RatingsOfReports(reports[..|reports| - 1])
            case Err(e) => Err(e)
            case Ok(ratings) =>
              match ReportReasons(reports[|reports| - 1])
              case Err(e) => Err(e)
              case Ok(reasons) =>
                Ok(Some(NewCourse(PyInt(courseId), PyInt(year), PyInt(term)).(
                  department := Str(department), courseCode := Str(code), courseName := Str(name),
                  enrollment := PyInt(enrollment), evaluations := PyInt(evaluations),
                  ratings := List(ratings), reasons := reasons)))
  }

  /** scrape_course from the parsed summary page up to the reasons: the
      Course fields assigned one after the other. */
  method SummarizeCourse(doc: Document, courseId: int, year: int, term: int) returns (r: Result<Option<Course>>)
    ensures r == CourseSummary(doc, courseId, year, term)
  {
    var c := NewCourse(PyInt(courseId), PyInt(year), PyInt(term));
    if doc.h1.None? {
      return Ok(None);
    }
    var title := TitleParts(doc.h1.value);
    if title.Err? {
      return Err(title.error);
    }
    c := c.(department := Str(title.value.0), courseCode := Str(title.value.1));
    c := c.(courseName := Str(title.value.2));
    var stats := StatsCounts(doc.summaryStats);
    if stats.Err? {
      return Err(stats.error);
    }
    c := c.(enrollment := PyInt(stats.value.0));
    c := c.(evaluations := PyInt(stats.value.1));
    var reports := doc.graphReports;
    if reports == [] {
      return Ok(None);
    }
    var ratings := ScrapeReportRatings(reports[..|reports| - 1]);
    if ratings.Err? {
      return Err(ratings.error);
    }
    c := c.(ratings := List(ratings.value));
    var reasons := ScrapeReasons(reports[|reports| - 1]);
    if reasons.Err? {
      return Err(reasons.error);
    }
    c := c.(reasons := reasons.value);
    return Ok(Some(c));
  }

  // ---------------------------------------------------------------------
  // The instructor pages

  /** A result and the requester state after it, with `acc` put in front of
      the result's list. */
  function Prepend<T>(acc: seq<T>, p: (Result<seq<T>>, State)): (Result<seq<T>>, State)
  {
    (Then(acc, p.0), p.1)
  }

  /** `scrape_instuctors(requester, course_id, instr_id)`: the page of the
      selected instructor and, for the top-level call only, one call per
      option after the first. */
  function Instructors(env: Env, st: State, courseId: int, instrId: Option<string>): (Result<seq<Value>>, State)
    decreases if instrId.None? then 1 else 0, 0
  {
    var (page, st1) := Fetch.Fetch(env, st, InstructorUrl(courseId, instrId));
    match page
    case Err(e) => (Err(e), st1)
    case Ok(doc) =>
      match InstructorPage(doc)
      case Err(e) => (Err(e), st1)
      case Ok(None) => (Ok([]), st1)
      case Ok(Some((instr, options))) =>
        if instrId.Some? then (Ok([instr]), st1)
        else Prepend([instr], OtherInstructors(env, st1, courseId, Rest(options)))
  }

  /** `for option in select.select('option')[1:]: instr_lst += scrape_instuctors(requester, course_id, option.attrs['value'])` */
  function OtherInstructors(env: Env, st: State, courseId: int, options: seq<Element>): (Result<seq<Value>>, State)
    decreases 0, |options|
  {
    if options == [] then (Ok([]), st)
    else
      match Attr(options[0], "value")
      case Err(e) => (Err(e), st)
      case Ok(iid) =>
        var (one, st1) := Instructors(env, st, courseId, Some(iid));
        match one
        case Err(e) => (Err(e), st1)
        case Ok(xs) => Prepend(xs, OtherInstructors(env, st1, courseId, options[1..]))
  }

  /** `scrape_instuctors(requester, course_id, instr_id)` */
  method ScrapeInstructors(rm: RequestMaker, courseId: int, instrId: Option<string>) returns (r: Result<seq<Value>>)
    modifies rm
    decreases if instrId.None? then 1 else 0
    ensures (r, rm.Snapshot()) == Instructors(rm.Config(), old(rm.Snapshot()), courseId, instrId)
  {
    var page := rm.MakeRequest(InstructorUrl(courseId, instrId));
    if page.Err? {
      return Err(page.error);
    }
    var decoded := InstructorPage(page.value);
    if decoded.Err? {
      return Err(decoded.error);
    }
    if decoded.value.None? {
      return Ok([]);
    }
    var (instr, options) := decoded.value.value;
    var lst := [instr];
    if instrId.None? {
      var others := Rest(options);
      ghost var st1 := rm.Snapshot();
      assert others[0..] == others;
      ThenNil(OtherInstructors(rm.Config(), st1, courseId, others).0);
      for i := 0 to |others|
        invariant Prepend(lst, OtherInstructors(rm.Config(), rm.Snapshot(), courseId, others[i..]))
                  == Prepend([instr], OtherInstructors(rm.Config(), st1, courseId, others))
      {
        assert others[i..][0] == others[i] && others[i..][1..] == others[i + 1..];
        var iid := Attr(others[i], "value");
        if iid.Err? {
          return Err(iid.error);
        }
        ghost var before := rm.Snapshot();
        var sub := ScrapeInstructors(rm, courseId, Some(iid.value));
        if sub.Err? {
          return Err(sub.error);
        }
        ThenThen(lst, sub.value, OtherInstructors(rm.Config(), rm.Snapshot(), courseId, others[i + 1..]).0);
        lst := lst + sub.value;
      }
      assert others[|others|..] == [];
      assert lst + [] == lst;
    }
    return Ok(lst);
  }

  // ---------------------------------------------------------------------
  // The question pages

  /** The loop of scrape_questions over the question links: each link's
      page is requested and its responses collected. */
  function QuestionPages(env: Env, st: State, links: seq<Element>): (Result<seq<Value>>, State)
    decreases |links|
  {
    if links == [] then (Ok([]), st)
    else
      match Attr(links[0], "href")
      case Err(e) => (Err(e), st)
      case Ok(href) =>
        var (page, st1) := Fetch.Fetch(env, st, QuestionUrl(href));
        match page
        case Err(e) => (Err(e), st1)
        case Ok(doc) => Prepend([QuestionOf(links[0], doc)], QuestionPages(env, st1, links[1..]))
  }

  /** `scrape_questions(requester, course_id)` */
  function Questions(env: Env, st: State, courseId: int): (Result<seq<Value>>, State)
  {
    var (page, st1) := Fetch.Fetch(env, st, CommentsUrl(courseId));
    match page
    case Err(e) => (Err(e), st1)
    case Ok(doc) => QuestionPages(env, st1, doc.questionLinks)
  }

  /** `scrape_questions(requester, course_id)` */
  method ScrapeQuestions(rm: RequestMaker, courseId: int) returns (r: Result<seq<Value>>)
    modifies rm
    ensures (r, rm.Snapshot()) == Questions(rm.Config(), old(rm.Snapshot()), courseId)
  {
    var page := rm.MakeRequest(CommentsUrl(courseId));
    if page.Err? {
      return Err(page.error);
    }
    var links := page.value.questionLinks;
    var questions: seq<Value> := [];
    ghost var st1 := rm.Snapshot();
    assert links[0..] == links;
    ThenNil(QuestionPages(rm.Config(), st1, links).0);
    for i := 0 to |links|
      invariant Prepend(questions, QuestionPages(rm.Config(), rm.Snapshot(), links[i..]))
                == QuestionPages(rm.Config(), st1, links)
    {
      assert links[i..][0] == links[i] && links[i..][1..] == links[i + 1..];
      var href := Attr(links[i], "href");
      if href.Err? {
        return Err(href.error);
      }
      var qPage := rm.MakeRequest(QuestionUrl(href.value));
      if qPage.Err? {
        return Err(qPage.error);
      }
      var q := QuestionOf(links[i], qPage.value);
      ThenThen(questions, [q], QuestionPages(rm.Config(), rm.Snapshot(), links[i + 1..]).0);
      questions := questions + [q];
    }
    assert links[|links|..] == [];
    assert questions + [] == questions;
    return Ok(questions);
  }

  // ---------------------------------------------------------------------
  // scrape_course, scrape_category and scrape_term

  /** The course ids scrape_course refuses to touch. */
  const SKIPPED_COURSES: set<int> := {44050}

  /** The output directory: file name to the JSON document written there. */
  type Files = map<string, Json>

  /** How scrape_course returns normally: it skipped the course, found no
      data on its summary page, or wrote a file. */
  datatype Scraped = Skipped | NoData | Written(file: string, course: Course, json: Json)

  /** The output directory after a course. */
  function Store(files: Files, s: Scraped): Files
  {
    if s.Written? then files[s.file := s.json] else files
  }

  /** `scrape_course(requester, output_dir, course_id, year, term)` */
  function CourseOutcome(env: Env, st: State, outputDir: string, courseId: int, year: int, term: int): (Result<Scraped>, State)
  {
    if courseId in SKIPPED_COURSES then (Ok(Skipped), st)
    else
      var (page, st1) := Fetch.Fetch(env, st, CourseUrl(courseId));
      match page
      case Err(e) => (Err(e), st1)
      case Ok(doc) =>
        match CourseSummary(doc, courseId, year, term)
        case Err(e) => (Err(e), st1)
        case Ok(None) => (Ok(NoData), st1)
        case Ok(Some(c)) => CompleteCourse(env, st1, outputDir, courseId, c)
  }

  /** scrape_course after the summary page: the instructors, the questions,
      `validate` (which `to_json_dict` repeats, raising the same exception)
      and the file named after the course id. */
  function CompleteCourse(env: Env, st: State, outputDir: string, courseId: int, c: Course): (Result<Scraped>, State)
  {
    var (instructors, st1) := Instructors(env, st, courseId, None);
    match instructors
    case Err(e) => (Err(e), st1)
    case Ok(ins) =>
      var (questions, st2) := Questions(env, st1, courseId);
      match questions
      case Err(e) => (Err(e), st2)
      case Ok(qs) =>
        var full := c.(instructors := List(ins), questions := List(qs));
        match CourseToJsonDict(full)
        case Err(e) => (Err(e), st2)
        case Ok(json) => (Ok(Written(CourseFileName(outputDir, courseId), full, json)), st2)
  }

  /** The output directory as a set of files. */
  class Sink {
    var files: Files

    constructor (files: Files)
      ensures this.files == files
    {
      this.files := files;
    }

    /** `with open(name, 'w') as f: json.dump(json, f, indent=3)` */
    method Write(name: string, json: Json)
      modifies this
      ensures files == old(files)[name := json]
    {
      files := files[name := json];
    }
  }

  /** `scrape_course(requester, output_dir, course_id, year, term)` */
  method ScrapeCourse(rm: RequestMaker, sink: Sink, outputDir: string, courseId: int, year: int, term: int)
    returns (r: Result<Scraped>)
    modifies rm, sink
    ensures (r, rm.Snapshot()) == CourseOutcome(rm.Config(), old(rm.Snapshot()), outputDir, courseId, year, term)
    ensures sink.files == (if r.Ok? then Store(old(sink.files), r.value) else old(sink.files))
  {
    if courseId in SKIPPED_COURSES {
      return Ok(Skipped);
    }
    var page := rm.MakeRequest(CourseUrl(courseId));
    if page.Err? {
      return Err(page.error);
    }
    var summary := SummarizeCourse(page.value, courseId, year, term);
    if summary.Err? {
      return Err(summary.error);
    }
    if summary.value.None? {
      return Ok(NoData);
    }
    r := FinishCourse(rm, sink, outputDir, courseId, summary.value.value);
  }

  /** The rest of scrape_course once the summary page has given a course. */
  method FinishCourse(rm: RequestMaker, sink: Sink, outputDir: string, courseId: int, course: Course)
    returns (r: Result<Scraped>)
    modifies rm, sink
    ensures (r, rm.Snapshot()) == CompleteCourse(rm.Config(), old(rm.Snapshot()), outputDir, courseId, course)
    ensures sink.files == (if r.Ok? then Store(old(sink.files), r.value) else old(sink.files))
  {
    var c := course;
    var instructors := ScrapeInstructors(rm, courseId, None);
    if instructors.Err? {
      return Err(instructors.error);
    }
    c := c.(instructors := List(instructors.value));
    var questions := ScrapeQuestions(rm, courseId);
    if questions.Err? {
      return Err(questions.error);
    }
    c := c.(questions := List(questions.value));
    var valid := ValidateCourse(c);
    if valid.Fail? {
      return Err(valid.error);
    }
    var filename := CourseFileName(outputDir, courseId);
    var json := CourseToJsonDict(c);
    sink.Write(filename, json.value);
    return Ok(Written(filename, c, json.value));
  }

  /** The loop of scrape_category over its course ids: the first course that
      raises ends the category with that error. */
  function CoursesOutcome(env: Env, st: State, files: Files, outputDir: string, ids: seq<int>, year: int, term: int)
    : (Outcome, State, Files)
    decreases |ids|
  {
    if ids == [] then (Pass, st, files)
    else
      var (r, st1) := CourseOutcome(env, st, outputDir, ids[0], year, term);
      match r
      case Err(e) => (Fail(e), st1, files)
      case Ok(s) => CoursesOutcome(env, st1, Store(files, s), outputDir, ids[1..], year, term)
  }

  /** `scrape_category(requester, output_dir, year, term, category)`: the
      category page, the `href` of every course link, the id in each, then
      every course in turn.  The `except` clause re-raises, so an error ends
      the category. */
  function CategoryOutcome(env: Env, st: State, files: Files, outputDir: string, year: int, term: int, category: string)
    : (Outcome, State, Files)
  {
    var (page, st1) := Fetch.Fetch(env, st, CategoryUrl(category, term, year));
    match page
    case Err(e) => (Fail(e), st1, files)
    case Ok(doc) =>
      match AttrOfEach(doc.courseLinks, "href")
      case Err(e) => (Fail(e), st1, files)
      case Ok(links) =>
        match CourseIds(links)
        case Err(e) => (Fail(e), st1, files)
        case Ok(ids) => CoursesOutcome(env, st1, files, outputDir, ids, year, term)
  }

  /** The loop of scrape_term over its categories. */
  function CategoriesOutcome(env: Env, st: State, files: Files, outputDir: string, year: int, term: int, categories: seq<string>)
    : (Outcome, State, Files)
    decreases |categories|
  {
    if categories == [] then (Pass, st, files)
    else
      var (o, st1, files1) := CategoryOutcome(env, st, files, outputDir, year, term, categories[0]);
      if o.Fail? then (o, st1, files1)
      else CategoriesOutcome(env, st1, files1, outputDir, year, term, categories[1..])
  }

  /** `scrape_term(requester, output_dir, year, term)`: the term page, the
      `title_abbrev` of every course block, then every category in turn. */
  function TermOutcome(env: Env, st: State, files: Files, outputDir: string, year: int, term: int)
    : (Outcome, State, Files)
  {
    var (page, st1) := Fetch.Fetch(env, st, TermUrl(year, term));
    match page
    case Err(e) => (Fail(e), st1, files)
    case Ok(doc) =>
      match AttrOfEach(doc.courseBlocks, "title_abbrev")
      case Err(e) => (Fail(e), st1, files)
      case Ok(categories) => CategoriesOutcome(env, st1, files, outputDir, year, term, categories)
  }

  /** `scrape_category(requester, output_dir, year, term, category)`, run on
      the requester it is given. */
  method ScrapeCategory(rm: RequestMaker, sink: Sink, outputDir: string, year: int, term: int, category: string)
    returns (o: Outcome)
    modifies rm, sink
    ensures (o, rm.Snapshot(), sink.files)
            == CategoryOutcome(rm.Config(), old(rm.Snapshot()), old(sink.files), outputDir, year, term, category)
  {
    var page := rm.MakeRequest(CategoryUrl(category, term, year));
    if page.Err? {
      return Fail(page.error);
    }
    var links := AttrOfEach(page.value.courseLinks, "href");
    if links.Err? {
      return Fail(links.error);
    }
    var ids := CourseIds(links.value);
    if ids.Err? {
      return Fail(ids.error);
    }
    var courses := ids.value;
    ghost var st1 := rm.Snapshot();
    ghost var files1 := sink.files;
    assert courses[0..] == courses;
    for i := 0 to |courses|
      invariant CoursesOutcome(rm.Config(), rm.Snapshot(), sink.files, outputDir, courses[i..], year, term)
                == CoursesOutcome(rm.Config(), st1, files1, outputDir, courses, year, term)
    {
      assert courses[i..][0] == courses[i] && courses[i..][1..] == courses[i + 1..];
      var r := ScrapeCourse(rm, sink, outputDir, courses[i], year, term);
      if r.Err? {
        return Fail(r.error);
      }
    }
    assert courses[|courses|..] == [];
    return Pass;
  }

  /** `scrape_term(requester, output_dir, year, term)` */
  method ScrapeTerm(rm: RequestMaker, sink: Sink, outputDir: string, year: int, term: int) returns (o: Outcome)
    modifies rm, sink
    ensures (o, rm.Snapshot(), sink.files) == TermOutcome(rm.Config(), old(rm.Snapshot()), old(sink.files), outputDir, year, term)
  {
    var page := rm.MakeRequest(TermUrl(year, term));
    if page.Err? {
      return Fail(page.error);
    }
    var categories := AttrOfEach(page.value.courseBlocks, "title_abbrev");
    if categories.Err? {
      return Fail(categories.error);
    }
    var cats := categories.value;
    ghost var st1 := rm.Snapshot();
    ghost var files1 := sink.files;
    assert cats[0..] == cats;
    for i := 0 to |cats|
      invariant CategoriesOutcome(rm.Config(), rm.Snapshot(), sink.files, outputDir, year, term, cats[i..])
                == CategoriesOutcome(rm.Config(), st1, files1, outputDir, year, term, cats)
    {
      assert cats[i..][0] == cats[i] && cats[i..][1..] == cats[i + 1..];
      var r := ScrapeCategory(rm, sink, outputDir, year, term, cats[i]);
      if r.Fail? {
        return r;
      }
    }
    assert cats[|cats|..] == [];
    return Pass;
  }

  // ---------------------------------------------------------------------
  // Properties of the scrapers

  /** A call with an instructor id makes one request and never recurses: it
      returns at most the selected instructor. */
  lemma InstructorSubCall(env: Env, st: State, courseId: int, iid: string)
    ensures Instructors(env, st, courseId, Some(iid)).1 == Fetch.Fetch(env, st, InstructorUrl(courseId, Some(iid))).1
    ensures Instructors(env, st, courseId, Some(iid)).0.Ok? ==> |Instructors(env, st, courseId, Some(iid)).0.value| <= 1
  {
  }

  /** The fan-out adds at most one instructor per option it visits. */
  lemma {:induction false} OtherInstructorsBound(env: Env, st: State, courseId: int, options: seq<Element>)
    ensures OtherInstructors(env, st, courseId, options).0.Ok? ==>
              |OtherInstructors(env, st, courseId, options).0.value| <= |options|
    decreases |options|
  {
    if options != [] && Attr(options[0], "value").Ok? {
      var iid := Attr(options[0], "value").value;
      InstructorSubCall(env, st, courseId, iid);
      var st1 := Instructors(env, st, courseId, Some(iid)).1;
      OtherInstructorsBound(env, st1, courseId, options[1..]);
    }
  }

  /** The instructors of a course: none when the select has no option;
      otherwise the selected instructor first and at most one instructor for
      each option. */
  lemma InstructorsFanOut(env: Env, st: State, courseId: int)
    requires Fetch.Fetch(env, st, InstructorUrl(courseId, None)).0.Ok?
    ensures var doc := Fetch.Fetch(env, st, InstructorUrl(courseId, None)).0.value;
            var r := Instructors(env, st, courseId, None).0;
            && (InstructorPage(doc) == Ok(None) ==> r == Ok([]))
            && (InstructorPage(doc).Ok? && InstructorPage(doc).value.Some? && r.Ok? ==>
                  && 1 <= |r.value| <= |InstructorPage(doc).value.value.1|
                  && r.value[0] == InstructorPage(doc).value.value.0)
  {
    var (page, st1) := Fetch.Fetch(env, st, InstructorUrl(courseId, None));
    var doc := page.value;
    if InstructorPage(doc).Ok? && InstructorPage(doc).value.Some? {
      var options := InstructorPage(doc).value.value.1;
      OtherInstructorsBound(env, st1, courseId, Rest(options));
    }
  }

  /** One question per link, in link order, each with the link's text as
      its question and a list of stripped responses: every one validates. */
  lemma {:induction false} QuestionPagesShape(env: Env, st: State, links: seq<Element>)
    requires QuestionPages(env, st, links).0.Ok?
    ensures var qs := QuestionPages(env, st, links).0.value;
            && |qs| == |links|
            && forall k :: 0 <= k < |links| ==> qs[k].QuestionObj? && qs[k].question == Str(links[k].text) && ValidQuestion(qs[k])
    decreases |links|
  {
    if links != [] {
      var href := Attr(links[0], "href").value;
      var (page, st1) := Fetch.Fetch(env, st, QuestionUrl(href));
      QuestionPagesShape(env, st1, links[1..]);
      var qs := QuestionPages(env, st, links).0.value;
      var rest := QuestionPages(env, st1, links[1..]).0.value;
      assert qs == [QuestionOf(links[0], page.value)] + rest;
      assert forall k :: 1 <= k < |links| ==> links[k] == links[1..][k - 1];
    }
  }

  /** Once the summary page has given a course, scrape_course ends by
      writing it: it keeps every summary field, validates, is filed under
      its id, and its JSON reads back as it. */
  lemma CompletedCourseValid(env: Env, st: State, outputDir: string, courseId: int, c: Course)
    requires CompleteCourse(env, st, outputDir, courseId, c).0.Ok?
    ensures var w := CompleteCourse(env, st, outputDir, courseId, c).0.value;
            && w.Written?
            && w.file == CourseFileName(outputDir, courseId)
            && w.course == c.(instructors := w.course.instructors, questions := w.course.questions)
            && ValidCourse(w.course)
            && CourseFromJson(w.json) == Some(w.course)
  {
    var w := CompleteCourse(env, st, outputDir, courseId, c).0.value;
    CourseRoundTrip(w.course);
  }

  /** A course that was written holds exactly the record that validated: the
      file is named after its id, and the JSON reads back as that record. */
  lemma WrittenCourseValid(env: Env, st: State, outputDir: string, courseId: int, year: int, term: int)
    requires CourseOutcome(env, st, outputDir, courseId, year, term).0.Ok?
    requires CourseOutcome(env, st, outputDir, courseId, year, term).0.value.Written?
    ensures var w := CourseOutcome(env, st, outputDir, courseId, year, term).0.value;
            && courseId !in SKIPPED_COURSES
            && w.file == CourseFileName(outputDir, courseId)
            && ValidCourse(w.course)
            && w.course.courseId == PyInt(courseId) && w.course.year == PyInt(year) && w.course.term == PyInt(term)
            && CourseFromJson(w.json) == Some(w.course)
  {
    var (page, st1) := Fetch.Fetch(env, st, CourseUrl(courseId));
    var doc := page.value;
    var c := CourseSummary(doc, courseId, year, term).value.value;
    assert SummaryOf(doc, courseId, year, term, c);
    CompletedCourseValid(env, st1, outputDir, courseId, c);
  }

  /** Course 44050 is never requested and never written. */
  lemma SkippedCourseUntouched(env: Env, st: State, outputDir: string, year: int, term: int)
    ensures CourseOutcome(env, st, outputDir, 44050, year, term) == (Ok(Skipped), st)
  {
  }

  /** A JSON document that reads back as a valid course. */
  predicate HoldsCourse(j: Json)
  {
    CourseFromJson(j).Some? && ValidCourse(CourseFromJson(j).value)
  }

  /** What the output directory keeps through a run: every file holds a
      valid course, and the skipped course has no file. */
  predicate SoundOutput(outputDir: string, files: Files)
  {
    && (forall f :: f in files ==> HoldsCourse(files[f]))
    && CourseFileName(outputDir, 44050) !in files
  }

  /** Storing a valid course under the file of an id other than 44050
      keeps the output sound. */
  lemma StoreKeepsOutput(files: Files, outputDir: string, courseId: int, s: Scraped)
    requires SoundOutput(outputDir, files)
    requires s.Written? ==> s.file == CourseFileName(outputDir, courseId) && courseId != 44050 && HoldsCourse(s.json)
    ensures SoundOutput(outputDir, Store(files, s))
  {
    if s.Written? && CourseFileName(outputDir, courseId) == CourseFileName(outputDir, 44050) {
      CourseFileNameInjective(outputDir, courseId, 44050);
    }
  }

  lemma CourseKeepsOutput(env: Env, st: State, files: Files, outputDir: string, courseId: int, year: int, term: int)
    requires SoundOutput(outputDir, files)
    requires CourseOutcome(env, st, outputDir, courseId, year, term).0.Ok?
    ensures SoundOutput(outputDir, Store(files, CourseOutcome(env, st, outputDir, courseId, year, term).0.value))
  {
    var s := CourseOutcome(env, st, outputDir, courseId, year, term).0.value;
    if s.Written? {
      WrittenCourseValid(env, st, outputDir, courseId, year, term);
    }
    StoreKeepsOutput(files, outputDir, courseId, s);
  }

  lemma {:induction false} CoursesKeepOutput(env: Env, st: State, files: Files, outputDir: string, ids: seq<int>, year: int, term: int)
    requires SoundOutput(outputDir, files)
    ensures SoundOutput(outputDir, CoursesOutcome(env, st, files, outputDir, ids, year, term).2)
    decreases |ids|
  {
    if ids != [] {
      var (r, st1) := CourseOutcome(env, st, outputDir, ids[0], year, term);
      if r.Ok? {
        CourseKeepsOutput(env, st, files, outputDir, ids[0], year, term);
        CoursesKeepOutput(env, st1, Store(files, r.value), outputDir, ids[1..], year, term);
      }
    }
  }

  lemma CategoryKeepsOutput(env: Env, st: State, files: Files, outputDir: string, year: int, term: int, category: string)
    requires SoundOutput(outputDir, files)
    ensures SoundOutput(outputDir, CategoryOutcome(env, st, files, outputDir, year, term, category).2)
  {
    var (page, st1) := Fetch.Fetch(env, st, CategoryUrl(category, term, year));
    if page.Ok? && AttrOfEach(page.value.courseLinks, "href").Ok? {
      var links := AttrOfEach(page.value.courseLinks, "href").value;
      if CourseIds(links).Ok? {
        CoursesKeepOutput(env, st1, files, outputDir, CourseIds(links).value, year, term);
      }
    }
  }

  /** One step of the walk over the categories of a term. */
  lemma CategoriesStep(env: Env, st: State, files: Files, outputDir: string, year: int, term: int,
                       categories: seq<string>)
    requires categories != []
    ensures var out := CategoryOutcome(env, st, files, outputDir, year, term, categories[0]);
            CategoriesOutcome(env, st, files, outputDir, year, term, categories)
            == if out.0.Fail? then out else CategoriesOutcome(env, out.1, out.2, outputDir, year, term, categories[1..])
  {
  }

  lemma {:induction false} CategoriesKeepOutput(env: Env, st: State, files: Files, outputDir: string, year: int, term: int,
                                                categories: seq<string>)
    requires SoundOutput(outputDir, files)
    ensures SoundOutput(outputDir, CategoriesOutcome(env, st, files, outputDir, year, term, categories).2)
    decreases |categories|
  {
    if categories != [] {
      var out := CategoryOutcome(env, st, files, outputDir, year, term, categories[0]);
      CategoriesStep(env, st, files, outputDir, year, term, categories);
      CategoryKeepsOutput(env, st, files, outputDir, year, term, categories[0]);
      if out.0.Pass? {
        CategoriesKeepOutput(env, out.1, out.2, outputDir, year, term, categories[1..]);
      }
    }
  }

  /** A whole term leaves only valid course files, and none for the skipped
      course. */
  lemma TermKeepsOutput(env: Env, st: State, files: Files, outputDir: string, year: int, term: int)
    requires SoundOutput(outputDir, files)
    ensures SoundOutput(outputDir, TermOutcome(env, st, files, outputDir, year, term).2)
  {
    var (page, st1) := Fetch.Fetch(env, st, TermUrl(year, term));
    if page.Ok? && AttrOfEach(page.value.courseBlocks, "title_abbrev").Ok? {
      CategoriesKeepOutput(env, st1, files, outputDir, year, term, AttrOfEach(page.value.courseBlocks, "title_abbrev").value);
    }
  }

  /** An error in one course ends its category: no later course is scraped
      and the output is left as the earlier courses made it. */
  lemma CourseErrorEndsCategory(env: Env, st: State, files: Files, outputDir: string, ids: seq<int>, year: int, term: int)
    requires ids != []
    requires CourseOutcome(env, st, outputDir, ids[0], year, term).0.Err?
    ensures CoursesOutcome(env, st, files, outputDir, ids, year, term)
            == (Fail(CourseOutcome(env, st, outputDir, ids[0], year, term).0.error),
                CourseOutcome(env, st, outputDir, ids[0], year, term).1, files)
  {
  }
}
