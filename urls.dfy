/** The paths scrapers.py asks the requester for, the course ids it reads
    out of links, and the names of the files it writes. */
module Urls {

  import opened Common
  import opened PyStr

  /** The directory of every Q-guide page. */
  const REPORTS_DIR: string := "/course_evaluation_reports/fas/"
  const LIST_PATH: string := REPORTS_DIR + "list"
  const CATEGORY_PATH: string := REPORTS_DIR + "guide_dept"
  const SUMMARY_PATH: string := REPORTS_DIR + "course_summary.html"
  const INSTRUCTOR_PATH: string := REPORTS_DIR + "inst-tf_summary.html"
  const COMMENTS_PATH: string := REPORTS_DIR + "view_comments.html"
  const INSTRUCTOR_PARAM: string := "current_instructor_or_tf_huid_param"

  // ---------------------------------------------------------------------
  // URL builders

  /** The list of categories of one term: `?yearterm=<year>_<term>`. */
  function TermUrl(year: int, term: int): string
  {
    LIST_PATH + "?" + Pair("yearterm", IntToStr(year) + "_" + IntToStr(term))
  }

  /** The list of courses of one category in one term:
      `?dept=<category>&term=<term>&year=<year>`. */
  function CategoryUrl(category: string, term: int, year: int): string
  {
    CATEGORY_PATH + "?" + CategoryQuery(category, term, year)
  }

  /** The summary page of a course: `?course_id=<id>`. */
  function CourseUrl(courseId: int): string
  {
    SUMMARY_PATH + "?" + Pair("course_id", IntToStr(courseId))
  }

  /** The instructor page of a course; the instructor parameter is appended
      only when an instructor id is given. */
  function InstructorUrl(courseId: int, instrId: Option<string>): string
  {
    INSTRUCTOR_PATH + "?" + InstructorQuery(courseId, instrId)
  }

  /** The page listing the comment questions of a course: `?course_id=<id>`. */
  function CommentsUrl(courseId: int): string
  {
    COMMENTS_PATH + "?" + Pair("course_id", IntToStr(courseId))
  }

  /** A question's page, from the relative link on the comments page. */
  function QuestionUrl(href: string): string
  {
    REPORTS_DIR + href
  }

  // ---------------------------------------------------------------------
  // Reading a URL back: path and query parameters

  /** Everything before the first `?`. */
  function UrlPath(url: string): string
  {
    var q := Find(url, '?');
    if q < 0 then url else url[..q]
  }

  /** The value of the first `name=value` pair named `name`. */
  function ParamValue(pairs: seq<string>, name: string): Option<string>
  {
    if pairs == [] then None
    else
      var e := Find(pairs[0], '=');
      if e >= 0 && pairs[0][..e] == name then Some(pairs[0][e + 1..])
      else ParamValue(pairs[1..], name)
  }

  /** The value of query parameter `name`: the query is everything after
      the first `?`, split into pairs at `&`. */
  function QueryParam(url: string, name: string): Option<string>
  {
    var q := Find(url, '?');
    if q < 0 then None else ParamValue(Split(url[q + 1..], '&'), name)
  }

  /** `path?query` with no `?` in the path has that path and query. */
  lemma UrlParts(path: string, query: string, name: string)
    requires '?' !in path
    ensures UrlPath(path + "?" + query) == path
    ensures QueryParam(path + "?" + query, name) == ParamValue(Split(query, '&'), name)
  {
    FindAfter(path, '?', query);
    assert path + "?" + query == path + ['?'] + query;
    assert (path + ['?'] + query)[|path| + 1..] == query;
  }

  /** One `name=value` pair of a query. */
  function Pair(name: string, value: string): string
  {
    name + "=" + value
  }

  lemma PairParts(name: string, value: string)
    requires '=' !in name && '&' !in name && '&' !in value
    ensures '&' !in Pair(name, value)
    ensures var e := Find(Pair(name, value), '=');
      e >= 0 && Pair(name, value)[..e] == name && Pair(name, value)[e + 1..] == value
  {
    var pair := Pair(name, value);
    assert pair == name + ['='] + value;
    FindAfter(name, '=', value);
    assert pair[..|name|] == name && pair[|name| + 1..] == value;
  }

  /** In `name=value&rest` the first pair is found first, and any other
      name is looked up in the rest. */
  lemma PairsCons(name: string, value: string, rest: string)
    requires '=' !in name && '&' !in name && '&' !in value
    ensures ParamValue(Split(Pair(name, value) + "&" + rest, '&'), name) == Some(value)
  {
    PairParts(name, value);
    assert Pair(name, value) + "&" + rest == Pair(name, value) + ['&'] + rest;
    SplitAppend(Pair(name, value), '&', rest);
  }

  /** Looking up another name skips the first pair. */
  lemma PairsSkip(name: string, value: string, rest: string, other: string)
    requires '=' !in name && '&' !in name && '&' !in value && other != name
    ensures ParamValue(Split(Pair(name, value) + "&" + rest, '&'), other) == ParamValue(Split(rest, '&'), other)
  {
    PairParts(name, value);
    assert Pair(name, value) + "&" + rest == Pair(name, value) + ['&'] + rest;
    SplitAppend(Pair(name, value), '&', rest);
  }

  /** A query that is a single pair. */
  lemma PairsLast(name: string, value: string)
    requires '=' !in name && '&' !in name && '&' !in value
    ensures ParamValue(Split(Pair(name, value), '&'), name) == Some(value)
  {
    PairParts(name, value);
    SplitNoSep(Pair(name, value), '&');
  }

  /** A single-pair query has no other parameter. */
  lemma PairsLastOther(name: string, value: string, other: string)
    requires '=' !in name && '&' !in name && '&' !in value && other != name
    ensures ParamValue(Split(Pair(name, value), '&'), other) == None
  {
    PairParts(name, value);
    SplitNoSep(Pair(name, value), '&');
  }

  /** A parameter name that cannot be confused with the delimiters. */
  predicate PlainName(name: string)
  {
    '=' !in name && '&' !in name
  }

  /** A URL with one parameter has that path and that parameter, and no
      other. */
  lemma OnePairUrl(path: string, name: string, value: string, other: string)
    requires '?' !in path && PlainName(name) && '&' !in value
    ensures UrlPath(path + "?" + Pair(name, value)) == path
    ensures QueryParam(path + "?" + Pair(name, value), name) == Some(value)
    ensures other != name ==> QueryParam(path + "?" + Pair(name, value), other) == None
  {
    UrlParts(path, Pair(name, value), name);
    UrlParts(path, Pair(name, value), other);
    PairsLast(name, value);
    if other != name {
      PairsLastOther(name, value, other);
    }
  }

  /** A URL with two parameters has that path and both parameters. */
  lemma TwoPairUrl(path: string, n1: string, v1: string, n2: string, v2: string)
    requires '?' !in path && PlainName(n1) && PlainName(n2) && n1 != n2 && '&' !in v1 && '&' !in v2
    ensures UrlPath(path + "?" + (Pair(n1, v1) + "&" + Pair(n2, v2))) == path
    ensures QueryParam(path + "?" + (Pair(n1, v1) + "&" + Pair(n2, v2)), n1) == Some(v1)
    ensures QueryParam(path + "?" + (Pair(n1, v1) + "&" + Pair(n2, v2)), n2) == Some(v2)
  {
    var query := Pair(n1, v1) + "&" + Pair(n2, v2);
    UrlParts(path, query, n1);
    UrlParts(path, query, n2);
    PairsCons(n1, v1, Pair(n2, v2));
    PairsSkip(n1, v1, Pair(n2, v2), n2);
    PairsLast(n2, v2);
  }

  /** A URL with three parameters has that path and all three parameters. */
  lemma ThreePairUrl(path: string, n1: string, v1: string, n2: string, v2: string, n3: string, v3: string)
    requires '?' !in path && PlainName(n1) && PlainName(n2) && PlainName(n3)
    requires n1 != n2 && n1 != n3 && n2 != n3
    requires '&' !in v1 && '&' !in v2 && '&' !in v3
    ensures var url := path + "?" + (Pair(n1, v1) + "&" + (Pair(n2, v2) + "&" + Pair(n3, v3)));
      && UrlPath(url) == path
      && QueryParam(url, n1) == Some(v1)
      && QueryParam(url, n2) == Some(v2)
      && QueryParam(url, n3) == Some(v3)
  {
    var rest := Pair(n2, v2) + "&" + Pair(n3, v3);
    var query := Pair(n1, v1) + "&" + rest;
    UrlParts(path, query, n1);
    UrlParts(path, query, n2);
    UrlParts(path, query, n3);
    PairsCons(n1, v1, rest);
    PairsSkip(n1, v1, rest, n2);
    PairsSkip(n1, v1, rest, n3);
    PairsCons(n2, v2, Pair(n3, v3));
    PairsSkip(n2, v2, Pair(n3, v3), n3);
    PairsLast(n3, v3);
  }

  /** None of the page paths holds a character that delimits the query. */
  lemma PathsPlain()
    ensures '?' !in LIST_PATH && '?' !in CATEGORY_PATH && '?' !in SUMMARY_PATH
    ensures '?' !in INSTRUCTOR_PATH && '?' !in COMMENTS_PATH
    ensures '=' !in SUMMARY_PATH
  {
    assert '?' !in REPORTS_DIR && '=' !in REPORTS_DIR;
  }

  /** The parameter names the scrapers use are plain and distinct. */
  lemma NamesPlain()
    ensures PlainName("yearterm") && PlainName("dept") && PlainName("term") && PlainName("year")
    ensures PlainName("course_id") && PlainName(INSTRUCTOR_PARAM)
    ensures "dept" != "term" && "dept" != "year" && "term" != "year" && INSTRUCTOR_PARAM != "course_id"
  {
    assert |INSTRUCTOR_PARAM| != |"course_id"|;
  }

  /** The term list URL names the list page and carries `yearterm=Y_T`. */
  lemma TermUrlParams(year: int, term: int)
    ensures UrlPath(TermUrl(year, term)) == LIST_PATH
    ensures QueryParam(TermUrl(year, term), "yearterm") == Some(IntToStr(year) + "_" + IntToStr(term))
  {
    var value := IntToStr(year) + "_" + IntToStr(term);
    IntToStrAvoids(year, '&');
    IntToStrAvoids(term, '&');
    assert '&' !in value;
    PathsPlain();
    NamesPlain();
    OnePairUrl(LIST_PATH, "yearterm", value, "yearterm");
  }

  /** `a_b` determines `a` and `b` when neither holds `_`. */
  lemma UnderscoreInjective(a1: string, b1: string, a2: string, b2: string)
    requires '_' !in a1 && '_' !in b1 && '_' !in a2 && '_' !in b2
    requires a1 + "_" + b1 == a2 + "_" + b2
    ensures a1 == a2 && b1 == b2
  {
    var w := a1 + "_" + b1;
    assert w == a1 + ['_'] + b1 && w == a2 + ['_'] + b2;
    SplitAppend(a1, '_', b1);
    SplitAppend(a2, '_', b2);
    SplitNoSep(b1, '_');
    SplitNoSep(b2, '_');
    assert Split(w, '_') == [a1, b1];
    assert Split(w, '_') == [a2, b2];
  }

  /** Different terms are fetched from different URLs. */
  lemma TermUrlInjective(y1: int, t1: int, y2: int, t2: int)
    requires TermUrl(y1, t1) == TermUrl(y2, t2)
    ensures y1 == y2 && t1 == t2
  {
    TermUrlParams(y1, t1);
    TermUrlParams(y2, t2);
    IntToStrAvoids(y1, '_');
    IntToStrAvoids(y2, '_');
    IntToStrAvoids(t1, '_');
    IntToStrAvoids(t2, '_');
    UnderscoreInjective(IntToStr(y1), IntToStr(t1), IntToStr(y2), IntToStr(t2));
    IntToStrInjective(y1, y2);
    IntToStrInjective(t1, t2);
  }

  /** The query of a category URL, pair by pair. */
  function CategoryQuery(category: string, term: int, year: int): string
  {
    Pair("dept", category) + "&" + (Pair("term", IntToStr(term)) + "&" + Pair("year", IntToStr(year)))
  }

  /** A category URL carries the category, the term and the year under
      their own names (for a category holding no `&`). */
  lemma CategoryUrlParams(category: string, term: int, year: int)
    requires '&' !in category
    ensures UrlPath(CategoryUrl(category, term, year)) == CATEGORY_PATH
    ensures QueryParam(CategoryUrl(category, term, year), "dept") == Some(category)
    ensures QueryParam(CategoryUrl(category, term, year), "term") == Some(IntToStr(term))
    ensures QueryParam(CategoryUrl(category, term, year), "year") == Some(IntToStr(year))
  {
    PathsPlain();
    NamesPlain();
    IntToStrAvoids(year, '&');
    IntToStrAvoids(term, '&');
    ThreePairUrl(CATEGORY_PATH, "dept", category, "term", IntToStr(term), "year", IntToStr(year));
  }

  /** The course summary URL carries the course id. */
  lemma CourseUrlParams(courseId: int)
    ensures UrlPath(CourseUrl(courseId)) == SUMMARY_PATH
    ensures QueryParam(CourseUrl(courseId), "course_id") == Some(IntToStr(courseId))
  {
    IntToStrAvoids(courseId, '&');
    PathsPlain();
    NamesPlain();
    OnePairUrl(SUMMARY_PATH, "course_id", IntToStr(courseId), "course_id");
  }

  /** The query of an instructor URL: the course id, then the instructor
      parameter when an instructor id is given. */
  function InstructorQuery(courseId: int, instrId: Option<string>): string
  {
    var first := Pair("course_id", IntToStr(courseId));
    if instrId.None? then first else first + "&" + Pair(INSTRUCTOR_PARAM, instrId.value)
  }

  /** The instructor URL always carries the course id, and carries the
      instructor parameter exactly when an instructor id is given. */
  lemma InstructorUrlParams(courseId: int, instrId: Option<string>)
    requires instrId.Some? ==> '&' !in instrId.value
    ensures UrlPath(InstructorUrl(courseId, instrId)) == INSTRUCTOR_PATH
    ensures QueryParam(InstructorUrl(courseId, instrId), "course_id") == Some(IntToStr(courseId))
    ensures QueryParam(InstructorUrl(courseId, instrId), INSTRUCTOR_PARAM) == instrId
  {
    IntToStrAvoids(courseId, '&');
    PathsPlain();
    NamesPlain();
    if instrId.None? {
      OnePairUrl(INSTRUCTOR_PATH, "course_id", IntToStr(courseId), INSTRUCTOR_PARAM);
    } else {
      TwoPairUrl(INSTRUCTOR_PATH, "course_id", IntToStr(courseId), INSTRUCTOR_PARAM, instrId.value);
    }
  }

  /** The comments URL carries the course id. */
  lemma CommentsUrlParams(courseId: int)
    ensures UrlPath(CommentsUrl(courseId)) == COMMENTS_PATH
    ensures QueryParam(CommentsUrl(courseId), "course_id") == Some(IntToStr(courseId))
  {
    IntToStrAvoids(courseId, '&');
    PathsPlain();
    NamesPlain();
    OnePairUrl(COMMENTS_PATH, "course_id", IntToStr(courseId), "course_id");
  }

  // ---------------------------------------------------------------------
  // Course ids from links

  /** `int(link.split('=')[1])` */
  function CourseIdOf(link: string): Result<int>
  {
    var parts := Split(link, '=');
    if |parts| < 2 then Err(IndexError)
    else match ParseInt(parts[1])
      case None => Err(ValueError)
      case Some(n) => Ok(n)
  }

  /** `[int(link.split('=')[1]) for link in course_links]`: the id of every
      link, in order, or the error of the first link that has none. */
  function CourseIds(links: seq<string>): (r: Result<seq<int>>)
    ensures r.Ok? <==> forall k :: 0 <= k < |links| ==> CourseIdOf(links[k]).Ok?
    ensures r.Ok? ==> |r.value| == |links| && forall k :: 0 <= k < |links| ==> r.value[k] == CourseIdOf(links[k]).value
    ensures r.Err? ==> exists k :: && 0 <= k < |links| && CourseIdOf(links[k]) == Err(r.error)
                                 && forall i :: 0 <= i < k ==> CourseIdOf(links[i]).Ok?
  {
    if links == [] then Ok([])
    else match CourseIdOf(links[0])
      case Err(e) => Err(e)
      case Ok(n) =>
        match CourseIds(links[1..])
        case Err(e) =>
          assert exists k :: && 0 <= k < |links| && CourseIdOf(links[k]) == Err(e)
                             && forall i :: 0 <= i < k ==> CourseIdOf(links[i]).Ok? by {
            var j :| && 0 <= j < |links[1..]| && CourseIdOf(links[1..][j]) == Err(e)
                     && forall i :: 0 <= i < j ==> CourseIdOf(links[1..][i]).Ok?;
            assert links[j + 1] == links[1..][j];
          }
          Err(e)
        case Ok(ns) =>
          assert forall k :: 1 <= k < |links| ==> links[k] == links[1..][k - 1];
          Ok([n] + ns)
  }

  /** The id is the text between the first and the second `=`: a link whose
      part before the first `=` holds no other `=` yields the number after it. */
  lemma CourseIdOfLink(prefix: string, courseId: int)
    requires '=' !in prefix
    ensures CourseIdOf(prefix + "=" + IntToStr(courseId)) == Ok(courseId)
  {
    IntToStrAvoids(courseId, '=');
    assert prefix + "=" + IntToStr(courseId) == prefix + ['='] + IntToStr(courseId);
    SplitAppend(prefix, '=', IntToStr(courseId));
    SplitNoSep(IntToStr(courseId), '=');
    ParseIntRoundTrip(courseId);
  }

  /** Reading the id back out of a course summary URL gives the id. */
  lemma CourseIdRoundTrip(courseId: int)
    ensures CourseIdOf(CourseUrl(courseId)) == Ok(courseId)
  {
    PathsPlain();
    assert '=' !in SUMMARY_PATH + "?course_id";
    assert CourseUrl(courseId) == (SUMMARY_PATH + "?course_id") + "=" + IntToStr(courseId);
    CourseIdOfLink(SUMMARY_PATH + "?course_id", courseId);
  }

  // ---------------------------------------------------------------------
  // Output files and directories

  /** The file a course is written to: `<output_dir>/<course_id>.json`. */
  function CourseFileName(outputDir: string, courseId: int): string
  {
    PathJoin(outputDir, IntToStr(courseId) + ".json")
  }

  /** Different courses are written to different files. */
  lemma CourseFileNameInjective(outputDir: string, a: int, b: int)
    requires CourseFileName(outputDir, a) == CourseFileName(outputDir, b)
    ensures a == b
  {
    var sa := IntToStr(a) + ".json";
    var sb := IntToStr(b) + ".json";
    assert sa[0] != '/' && sb[0] != '/';
    PathJoinInjective(outputDir, sa, sb);
    assert |IntToStr(a)| == |IntToStr(b)|;
    assert IntToStr(a) == sa[..|IntToStr(a)|] == sb[..|IntToStr(b)|] == IntToStr(b);
    IntToStrInjective(a, b);
  }

  /** The numbers of the numeric entries of the output directory:
      `map(int, filter(str.isdigit, entries))`. */
  function NumericEntries(entries: seq<string>): (ns: seq<nat>)
    ensures |ns| <= |entries|
  {
    if entries == [] then []
    else if IsDigits(entries[0]) then [DigitsValue(entries[0])] + NumericEntries(entries[1..])
    else NumericEntries(entries[1..])
  }

  function Max(ns: seq<nat>): nat
    requires ns != []
  {
    if |ns| == 1 then ns[0]
    else
      var m := Max(ns[1..]);
      if ns[0] > m then ns[0] else m
  }

  /** The number of the new output directory: 0 when no entry is numeric,
      otherwise one more than the largest. */
  function NextOutputDir(entries: seq<string>): nat
  {
    var ns := NumericEntries(entries);
    if ns == [] then 0 else Max(ns) + 1
  }

  lemma {:induction false} MaxIsMax(ns: seq<nat>)
    requires ns != []
    ensures forall k :: 0 <= k < |ns| ==> ns[k] <= Max(ns)
    ensures exists k :: 0 <= k < |ns| && ns[k] == Max(ns)
  {
    if |ns| > 1 {
      MaxIsMax(ns[1..]);
      assert forall k :: 1 <= k < |ns| ==> ns[k] == ns[1..][k - 1];
      var j :| 0 <= j < |ns[1..]| && ns[1..][j] == Max(ns[1..]);
      assert ns[j + 1] == Max(ns[1..]);
      if ns[0] > Max(ns[1..]) {
        assert ns[0] == Max(ns);
      } else {
        assert ns[j + 1] == Max(ns);
      }
    } else {
      assert ns[0] == Max(ns);
    }
  }

  /** An entry is numeric exactly when its number is among NumericEntries. */
  lemma {:induction false} NumericEntriesMembers(entries: seq<string>)
    ensures forall k :: 0 <= k < |entries| && IsDigits(entries[k]) ==> DigitsValue(entries[k]) in NumericEntries(entries)
    ensures forall n :: n in NumericEntries(entries) ==>
              exists k :: 0 <= k < |entries| && IsDigits(entries[k]) && DigitsValue(entries[k]) == n
  {
    if entries != [] {
      NumericEntriesMembers(entries[1..]);
      assert forall k :: 1 <= k < |entries| ==> entries[k] == entries[1..][k - 1];
      forall n | n in NumericEntries(entries)
        ensures exists k :: 0 <= k < |entries| && IsDigits(entries[k]) && DigitsValue(entries[k]) == n
      {
        if n !in NumericEntries(entries[1..]) {
          assert IsDigits(entries[0]) && DigitsValue(entries[0]) == n;
        } else {
          var j :| 0 <= j < |entries[1..]| && IsDigits(entries[1..][j]) && DigitsValue(entries[1..][j]) == n;
          assert entries[j + 1] == entries[1..][j];
        }
      }
    }
  }

  /** The new directory number is above every numeric entry, is 0 exactly
      when there is none, and otherwise follows the largest one; so its name
      is not among the entries and no earlier run is overwritten. */
  lemma NextOutputDirFresh(entries: seq<string>)
    ensures forall k :: 0 <= k < |entries| && IsDigits(entries[k]) ==> DigitsValue(entries[k]) < NextOutputDir(entries)
    ensures NextOutputDir(entries) == 0 <==> forall k :: 0 <= k < |entries| ==> !IsDigits(entries[k])
    ensures NextOutputDir(entries) > 0 ==>
      exists k :: 0 <= k < |entries| && IsDigits(entries[k]) && DigitsValue(entries[k]) == NextOutputDir(entries) - 1
    ensures NatToStr(NextOutputDir(entries)) !in entries
  {
    var ns := NumericEntries(entries);
    NumericEntriesMembers(entries);
    if ns != [] {
      MaxIsMax(ns);
      var j :| 0 <= j < |ns| && ns[j] == Max(ns);
      assert ns[j] in ns;
      var k :| 0 <= k < |entries| && IsDigits(entries[k]) && DigitsValue(entries[k]) == ns[j];
      assert !forall k :: 0 <= k < |entries| ==> !IsDigits(entries[k]);
    }
    var next := NextOutputDir(entries);
    NatToStrValue(next);
    forall k | 0 <= k < |entries| ensures entries[k] != NatToStr(next) {
      if IsDigits(entries[k]) {
        assert DigitsValue(entries[k]) != DigitsValue(NatToStr(next));
      } else {
        assert IsDigits(NatToStr(next));
      }
    }
  }

  /** The runs that main scrapes: nineteen terms, newest first. */
  const YEAR_TERMS: seq<(int, int)> := [
    (2015, 1), (2014, 2), (2014, 1), (2013, 2), (2013, 1),
    (2012, 2), (2012, 1), (2011, 2), (2011, 1), (2010, 2),
    (2010, 1), (2009, 2), (2009, 1), (2008, 2), (2008, 1),
    (2007, 2), (2007, 1), (2006, 2), (2006, 1)]

  /** Where a term falls in time: by year, then by term. */
  function TermKey(yt: (int, int)): int
  {
    yt.0 * 10 + yt.1
  }

  /** Each term in the list is older than the one before it. */
  predicate NewestFirst(s: seq<(int, int)>)
  {
    forall i :: 0 <= i < |s| - 1 ==> TermKey(s[i + 1]) < TermKey(s[i])
  }

  /** `main` lists the terms from the newest back. */
  lemma YearTermsNewestFirst()
    ensures NewestFirst(YEAR_TERMS)
  {
  }

  /** In a newest-first list every later term is older. */
  lemma {:induction false} NewestFirstOrdered(s: seq<(int, int)>, i: nat, j: nat)
    requires NewestFirst(s) && i < j < |s|
    ensures TermKey(s[j]) < TermKey(s[i])
    decreases j - i
  {
    if j > i + 1 {
      NewestFirstOrdered(s, i, j - 1);
      assert TermKey(s[j]) < TermKey(s[j - 1]);
    }
  }

  /** Every year and term appears once, so no term list is fetched twice. */
  lemma YearTermsDistinct()
    ensures |YEAR_TERMS| == 19
    ensures forall i, j :: 0 <= i < j < |YEAR_TERMS| ==>
      TermUrl(YEAR_TERMS[i].0, YEAR_TERMS[i].1) != TermUrl(YEAR_TERMS[j].0, YEAR_TERMS[j].1)
  {
    YearTermsNewestFirst();
    forall i, j | 0 <= i < j < |YEAR_TERMS|
      ensures TermUrl(YEAR_TERMS[i].0, YEAR_TERMS[i].1) != TermUrl(YEAR_TERMS[j].0, YEAR_TERMS[j].1)
    {
      NewestFirstOrdered(YEAR_TERMS, i, j);
      if TermUrl(YEAR_TERMS[i].0, YEAR_TERMS[i].1) == TermUrl(YEAR_TERMS[j].0, YEAR_TERMS[j].1) {
        TermUrlInjective(YEAR_TERMS[i].0, YEAR_TERMS[i].1, YEAR_TERMS[j].0, YEAR_TERMS[j].1);
      }
    }
  }
}
