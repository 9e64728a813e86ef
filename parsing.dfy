/** The pure decoding steps of scrapers.py: the course title and summary
    statistics, the image names that carry the rating and reason counts, and
    the rows of a `.graphReport` turned into Rating and Reasons values. */
module Parsing {

  import opened Common
  import opened PyStr
  import opened Page
  import opened Models

  // ---------------------------------------------------------------------
  // The course title: "DEPT CODE: Course name"

  /** `title.find(':')`, `title[:colon].split()` unpacked into the department
      and course code, and `title[colon + 2:]` as the course name.  Anything
      but exactly two words before the colon is a ValueError. */
  function TitleParts(title: string): (r: Result<(string, string, string)>)
    ensures r.Ok? ==> r.value.0 != "" && NoSpace(r.value.0) && r.value.1 != "" && NoSpace(r.value.1)
    ensures r.Ok? ==> |r.value.2| <= |title| && r.value.2 == title[|title| - |r.value.2|..]
    ensures r.Err? ==> r.error == ValueError
  {
    var colon := Find(title, ':');
    var words := Words(SliceTo(title, colon));
    if |words| != 2 then Err(ValueError)
    else
      WordsAreWords(SliceTo(title, colon));
      Ok((words[0], words[1], SliceFrom(title, colon + 2)))
  }

  /** A title of the form "D C: Name" gives back D, C and Name, whatever the
      name contains. */
  lemma TitleSplit(dept: string, code: string, name: string)
    requires dept != "" && NoSpace(dept) && ':' !in dept
    requires code != "" && NoSpace(code) && ':' !in code
    ensures TitleParts(dept + " " + code + ": " + name) == Ok((dept, code, name))
  {
    var head := dept + " " + code;
    var t := dept + " " + code + ": " + name;
    assert t == head + [':'] + (" " + name);
    assert ':' !in head;
    FindAfter(head, ':', " " + name);
    assert SliceTo(t, |head|) == head;
    WordsOfTwo(dept, code);
    assert SliceFrom(t, |head| + 2) == name;
  }

  /** Without a colon, `find` gives -1: the words are taken from the title
      minus its last character and the name is the title minus its first. */
  lemma TitleWithoutColon(title: string)
    requires ':' !in title && |title| >= 1
    requires TitleParts(title).Ok?
    ensures TitleParts(title).value.2 == title[1..]
    ensures Words(title[..|title| - 1]) == [TitleParts(title).value.0, TitleParts(title).value.1]
  {
    assert SliceTo(title, -1) == title[..|title| - 1];
  }

  // ---------------------------------------------------------------------
  // The summary statistics: enrollment and evaluation counts

  /** `soup.select('#summaryStats')[0].text.split()` and `int()` of its
      second and fourth words, in the order the source reads them. */
  function StatsCounts(stats: seq<Element>): (r: Result<(int, int)>)
    ensures stats == [] ==> r == Err(IndexError)
    ensures r.Err? ==> r.error == IndexError || r.error == ValueError
    ensures r.Ok? ==> |Words(stats[0].text)| >= 4
  {
    if stats == [] then Err(IndexError)
    else
      var words := Words(stats[0].text);
      if |words| < 2 then Err(IndexError)
      else match ParseInt(words[1])
        case None => Err(ValueError)
        case Some(enrollment) =>
          if |words| < 4 then Err(IndexError)
          else match ParseInt(words[3])
            case None => Err(ValueError)
            case Some(evaluations) => Ok((enrollment, evaluations))
  }

  lemma IntToStrWord(n: int)
    ensures IntToStr(n) != "" && NoSpace(IntToStr(n))
  {
  }

  /** The first four words of `a b c d rest`. */
  lemma FourWords(a: string, b: string, c: string, d: string, rest: string)
    requires a != "" && NoSpace(a) && b != "" && NoSpace(b)
    requires c != "" && NoSpace(c) && d != "" && NoSpace(d)
    ensures var ws := Words(a + " " + (b + " " + (c + " " + (d + " " + rest))));
      |ws| >= 4 && ws[0] == a && ws[1] == b && ws[2] == c && ws[3] == d
  {
    var t3 := d + " " + rest;
    var t2 := c + " " + t3;
    var t1 := b + " " + t2;
    WordsCons(d, rest);
    WordsCons(c, t3);
    WordsCons(b, t2);
    WordsCons(a, t1);
    assert |Words(t3)| >= 1 && Words(t3)[0] == d;
    assert |Words(t2)| >= 2 && Words(t2)[0] == c && Words(t2)[1] == d;
    assert |Words(t1)| >= 3 && Words(t1)[0] == b && Words(t1)[1] == c && Words(t1)[2] == d;
  }

  /** A statistics text "L1 <enrollment> L2 <evaluations> ..." gives back the
      two numbers. */
  lemma StatsRoundTrip(label1: string, enrollment: int, label2: string, evaluations: int,
                       rest: string, attrs: map<string, string>, more: seq<Element>)
    requires label1 != "" && NoSpace(label1) && label2 != "" && NoSpace(label2)
    ensures var text := label1 + " " + (IntToStr(enrollment) + " " + (label2 + " " + (IntToStr(evaluations) + " " + rest)));
      StatsCounts([Element(text, attrs)] + more) == Ok((enrollment, evaluations))
  {
    IntToStrWord(enrollment);
    IntToStrWord(evaluations);
    FourWords(label1, IntToStr(enrollment), label2, IntToStr(evaluations), rest);
    ParseIntRoundTrip(enrollment);
    ParseIntRoundTrip(evaluations);
  }

  // ---------------------------------------------------------------------
  // Image names: "../histobar-a-b-c-d-e.png" and "../barPercentage-n-t-x.png"

  const HISTOBAR_PREFIX: string := "../histobar-"
  const BAR_PREFIX: string := "../barPercentage-"
  const PNG: string := ".png"

  /** `src.replace(prefix, '').replace('.png', '').split('-')` */
  function Dashes(src: string, prefix: string): (parts: seq<string>)
    requires prefix != ""
    ensures |parts| >= 1
  {
    Split(ReplaceAll(ReplaceAll(src, prefix, ""), PNG, ""), '-')
  }

  /** `map(int, parts)`: every part as an integer, or the ValueError of the
      first part that is not one. */
  function ParseAll(parts: seq<string>): (r: Result<seq<int>>)
    ensures r.Ok? <==> forall k :: 0 <= k < |parts| ==> ParseInt(parts[k]).Some?
    ensures r.Ok? ==> |r.value| == |parts| && forall k :: 0 <= k < |parts| ==> ParseInt(parts[k]) == Some(r.value[k])
    ensures r.Err? ==> r.error == ValueError
  {
    if parts == [] then Ok([])
    else match ParseInt(parts[0])
      case None => Err(ValueError)
      case Some(n) =>
        match ParseAll(parts[1..])
        case Err(e) => Err(e)
        case Ok(ns) =>
          assert forall k :: 1 <= k < |parts| ==> parts[k] == parts[1..][k - 1];
          Ok([n] + ns)
  }

  /** `RatingBreakdown(*map(int, dashes.split('-')))`: five integers, a
      ValueError for a part that is no integer, a TypeError for any other
      number of parts. */
  function DecodeHistobar(src: string): (r: Result<Value>)
    ensures r.Ok? ==> r.value.Breakdown?
    ensures r.Err? ==> r.error == ValueError || r.error == TypeError
    ensures r.Err? && r.error == TypeError ==> |Dashes(src, HISTOBAR_PREFIX)| != 5
  {
    match ParseAll(Dashes(src, HISTOBAR_PREFIX))
    case Err(e) => Err(e)
    case Ok(ns) =>
      if |ns| != 5 then Err(TypeError)
      else Ok(Breakdown(PyInt(ns[0]), PyInt(ns[1]), PyInt(ns[2]), PyInt(ns[3]), PyInt(ns[4])))
  }

  /** `n, total, _ = map(int, dashes.split('-'))`: the first two of exactly
      three integers; any other number of parts is a ValueError. */
  function DecodeBarPercentage(src: string): (r: Result<(int, int)>)
    ensures r.Err? ==> r.error == ValueError
    ensures r.Ok? ==> |Dashes(src, BAR_PREFIX)| == 3
  {
    match ParseAll(Dashes(src, BAR_PREFIX))
    case Err(e) => Err(e)
    case Ok(ns) =>
      if |ns| != 3 then Err(ValueError)
      else Ok((ns[0], ns[1]))
  }

  /** The numerals of a list of counts. */
  function Numerals(ns: seq<nat>): (ss: seq<string>)
    ensures |ss| == |ns| && forall k :: 0 <= k < |ns| ==> ss[k] == NatToStr(ns[k])
  {
    seq(|ns|, k requires 0 <= k < |ns| => NatToStr(ns[k]))
  }

  /** The image name the site uses for a list of counts. */
  function ImageName(prefix: string, ns: seq<nat>): string
  {
    prefix + Join(Numerals(ns), '-') + PNG
  }

  /** Stripping the prefix and the extension and splitting on dashes gives
      back the numerals of the counts. */
  lemma DashesOfImage(prefix: string, ns: seq<nat>)
    requires |prefix| > |PNG| && prefix[0] == '.'
    requires |ns| >= 1
    ensures Dashes(ImageName(prefix, ns), prefix) == Numerals(ns)
  {
    var parts := Numerals(ns);
    var d := Join(parts, '-');
    forall k | 0 <= k < |parts|
      ensures Avoids(parts[k], '.') && '-' !in parts[k]
    {
      NatToStrAvoids(ns[k], '.');
      NatToStrAvoids(ns[k], '-');
    }
    JoinAvoids(parts, '-', '.');
    assert ImageName(prefix, ns) == prefix + (d + PNG);
    ReplaceHead(prefix, d + PNG, "");
    ReplaceSkips(d, PNG, prefix, "");
    assert ReplaceAll(PNG, prefix, "") == PNG;
    assert ReplaceAll(ImageName(prefix, ns), prefix, "") == d + PNG;
    ReplaceSkips(d, PNG, PNG, "");
    ReplaceHead(PNG, "", "");
    assert PNG + "" == PNG;
    assert ReplaceAll(d + PNG, PNG, "") == d;
    JoinSplit(parts, '-');
  }

  /** Reading the numerals back gives the counts. */
  lemma ParseNumerals(ns: seq<nat>)
    ensures ParseAll(Numerals(ns)) == Ok(ns)
  {
    forall k | 0 <= k < |ns|
      ensures ParseInt(Numerals(ns)[k]) == Some(ns[k] as int)
    {
      ParseIntRoundTrip(ns[k]);
    }
    var r := ParseAll(Numerals(ns));
    assert r.value == ns;
  }

  /** `../histobar-a-b-c-d-e.png` decodes to the breakdown (a, b, c, d, e). */
  lemma HistobarRoundTrip(a: nat, b: nat, c: nat, d: nat, e: nat)
    ensures DecodeHistobar(ImageName(HISTOBAR_PREFIX, [a, b, c, d, e]))
            == Ok(Breakdown(PyInt(a), PyInt(b), PyInt(c), PyInt(d), PyInt(e)))
  {
    DashesOfImage(HISTOBAR_PREFIX, [a, b, c, d, e]);
    ParseNumerals([a, b, c, d, e]);
  }

  /** A histobar name with any other number of counts is a TypeError. */
  lemma HistobarWrongCount(ns: seq<nat>)
    requires |ns| >= 1 && |ns| != 5
    ensures DecodeHistobar(ImageName(HISTOBAR_PREFIX, ns)) == Err(TypeError)
  {
    DashesOfImage(HISTOBAR_PREFIX, ns);
    ParseNumerals(ns);
  }

  /** `../barPercentage-n-total-x.png` decodes to (n, total). */
  lemma BarRoundTrip(n: nat, total: nat, x: nat)
    ensures DecodeBarPercentage(ImageName(BAR_PREFIX, [n, total, x])) == Ok((n, total))
  {
    DashesOfImage(BAR_PREFIX, [n, total, x]);
    ParseNumerals([n, total, x]);
  }

  /** A bar name with any other number of counts is a ValueError. */
  lemma BarWrongCount(ns: seq<nat>)
    requires |ns| >= 1 && |ns| != 3
    ensures DecodeBarPercentage(ImageName(BAR_PREFIX, ns)) == Err(ValueError)
  {
    DashesOfImage(BAR_PREFIX, ns);
    ParseNumerals(ns);
  }

  // ---------------------------------------------------------------------
  // scrape_ratings on values

  /** `RatingBreakdown(0, 0, 0, 0, 0)` */
  const ZERO_BREAKDOWN: Value := Breakdown(Int(0), Int(0), Int(0), Int(0), Int(0))

  /** One row of a ratings report: None for a row with a single cell, which
      the loop skips; otherwise the rating named by the first cell's `strong`
      with the breakdown of the second cell's image, or all zeros when that
      cell has no image. */
  function RatingOfRow(row: Row): (r: Result<Option<Value>>)
    ensures r == Ok(None) <==> |row.cells| == 1
    ensures row.cells == [] ==> r == Err(IndexError)
    ensures r.Ok? && r.value.Some? ==>
              && r.value.value.RatingObj? && r.value.value.breakdown.Breakdown?
              && |row.cells| >= 2 && row.cells[0].strong.Some?
              && r.value.value.category == Str(row.cells[0].strong.value.text)
    ensures |row.cells| >= 2 && row.cells[0].strong.Some? && row.cells[1].img.None? ==>
              r == Ok(Some(RatingObj(Str(row.cells[0].strong.value.text), ZERO_BREAKDOWN)))
  {
    var tds := row.cells;
    if |tds| == 1 then Ok(None)
    else if |tds| == 0 then Err(IndexError)
    else match tds[0].strong
      case None => Err(AttributeError)
      case Some(strong) =>
        match tds[1].img
        case None => Ok(Some(RatingObj(Str(strong.text), ZERO_BREAKDOWN)))
        case Some(img) =>
          match Attr(img, "src")
          case Err(e) => Err(e)
          case Ok(src) =>
            match DecodeHistobar(src)
            case Err(e) => Err(e)
            case Ok(b) => Ok(Some(RatingObj(Str(strong.text), b)))
  }

  /** A row whose second cell shows `../histobar-a-b-c-d-e.png` is rated
      (a, b, c, d, e). */
  lemma RatingRowRoundTrip(row: Row, a: nat, b: nat, c: nat, d: nat, e: nat)
    requires |row.cells| >= 2 && row.cells[0].strong.Some? && row.cells[1].img.Some?
    requires "src" in row.cells[1].img.value.attrs
    requires row.cells[1].img.value.attrs["src"] == ImageName(HISTOBAR_PREFIX, [a, b, c, d, e])
    ensures RatingOfRow(row)
            == Ok(Some(RatingObj(Str(row.cells[0].strong.value.text),
                                 Breakdown(PyInt(a), PyInt(b), PyInt(c), PyInt(d), PyInt(e)))))
  {
    HistobarRoundTrip(a, b, c, d, e);
  }

  /** The rows that are not skipped. */
  function RatedRows(rows: seq<Row>): (rs: seq<Row>)
    ensures |rs| <= |rows|
  {
    if rows == [] then []
    else if |rows[0].cells| == 1 then RatedRows(rows[1..])
    else [rows[0]] + RatedRows(rows[1..])
  }

  /** The body of the `for graph in graphs` loop over the given rows. */
  function RatingsOfRows(rows: seq<Row>): (r: Result<seq<Value>>)
    ensures r.Ok? <==> forall k :: 0 <= k < |rows| ==> RatingOfRow(rows[k]).Ok?
    ensures r.Ok? ==> forall k :: 0 <= k < |r.value| ==> r.value[k].RatingObj? && r.value[k].category.Str?
    ensures r.Err? ==> exists k :: 0 <= k < |rows| && RatingOfRow(rows[k]) == Err(r.error)
  {
    if rows == [] then Ok([])
    else
      assert forall k :: 1 <= k < |rows| ==> rows[k] == rows[1..][k - 1];
      match RatingOfRow(rows[0])
      case Err(e) => Err(e)
      case Ok(None) => RatingsOfRows(rows[1..])
      case Ok(Some(v)) =>
        match RatingsOfRows(rows[1..])
        case Err(e) => Err(e)
        case Ok(vs) => Ok([v] + vs)
  }

  /** The ratings are those of the rows that are not skipped, one each, in
      order. */
  lemma {:induction false} RatingsOfRatedRows(rows: seq<Row>)
    requires RatingsOfRows(rows).Ok?
    ensures |RatingsOfRows(rows).value| == |RatedRows(rows)|
    ensures forall k :: 0 <= k < |RatedRows(rows)| ==>
              RatingOfRow(RatedRows(rows)[k]) == Ok(Some(RatingsOfRows(rows).value[k]))
  {
    if rows != [] {
      RatingsOfRatedRows(rows[1..]);
    }
  }

  /** `scrape_ratings(graph_report)`: the header row is dropped. */
  function ReportRatings(report: GraphReport): (r: Result<seq<Value>>)
    ensures report.rows == [] ==> r == Ok([])
    ensures |report.rows| >= 1 ==> r == RatingsOfRows(report.rows[1..])
  {
    RatingsOfRows(Rest(report.rows))
  }

  /** `for graph_report in graph_reports: ratings += scrape_ratings(...)`:
      the ratings of every report, concatenated in order. */
  function RatingsOfReports(reports: seq<GraphReport>): (r: Result<seq<Value>>)
    ensures r.Ok? <==> forall k :: 0 <= k < |reports| ==> ReportRatings(reports[k]).Ok?
    ensures r.Ok? ==> forall k :: 0 <= k < |r.value| ==> r.value[k].RatingObj? && r.value[k].category.Str?
  {
    if reports == [] then Ok([])
    else
      assert forall k :: 1 <= k < |reports| ==> reports[k] == reports[1..][k - 1];
      match ReportRatings(reports[0])
      case Err(e) => Err(e)
      case Ok(a) => Then(a, RatingsOfReports(reports[1..]))
  }

  /** Splitting the reports anywhere splits the ratings at the same place. */
  lemma {:induction false} RatingsOfReportsAppend(a: seq<GraphReport>, b: seq<GraphReport>)
    ensures RatingsOfReports(a + b) ==
            match RatingsOfReports(a)
            case Err(e) => Err(e)
            case Ok(xs) => Then(xs, RatingsOfReports(b))
  {
    if a == [] {
      assert a + b == b;
      match RatingsOfReports(b)
      case Err(e) =>
      case Ok(ys) => assert [] + ys == ys;
    } else {
      assert (a + b)[0] == a[0];
      assert (a + b)[1..] == a[1..] + b;
      RatingsOfReportsAppend(a[1..], b);
      match ReportRatings(a[0])
      case Err(e) =>
      case Ok(x) =>
        match RatingsOfReports(a[1..])
        case Err(e) =>
        case Ok(xs) =>
          match RatingsOfReports(b)
          case Err(e) =>
          case Ok(ys) => assert x + (xs + ys) == (x + xs) + ys;
    }
  }

  // ---------------------------------------------------------------------
  // scrape_reasons on values

  /** One row of the reasons report: its category (the first cell's text),
      and the count and total of the second cell's bar image. */
  function ReasonOfRow(row: Row): (r: Result<(string, int, int)>)
    ensures |row.cells| < 2 ==> r == Err(IndexError)
    ensures |row.cells| >= 2 && row.cells[1].img.None? ==> r == Err(AttributeError)
    ensures r.Ok? ==> |row.cells| >= 2 && r.value.0 == row.cells[0].text
  {
    var tds := row.cells;
    if |tds| < 2 then Err(IndexError)
    else match tds[1].img
      case None => Err(AttributeError)
      case Some(img) =>
        match Attr(img, "src")
        case Err(e) => Err(e)
        case Ok(src) =>
          match DecodeBarPercentage(src)
          case Err(e) => Err(e)
          case Ok((n, total)) => Ok((tds[0].text, n, total))
  }

  /** The decoded reason rows, or the error of the first row that fails. */
  function ReasonEntries(rows: seq<Row>): (r: Result<seq<(string, int, int)>>)
    ensures r.Ok? <==> forall k :: 0 <= k < |rows| ==> ReasonOfRow(rows[k]).Ok?
    ensures r.Ok? ==> |r.value| == |rows| && forall k :: 0 <= k < |rows| ==> ReasonOfRow(rows[k]) == Ok(r.value[k])
    ensures r.Err? ==> exists k :: && 0 <= k < |rows| && ReasonOfRow(rows[k]) == Err(r.error)
                                 && forall i :: 0 <= i < k ==> ReasonOfRow(rows[i]).Ok?
  {
    if rows == [] then Ok([])
    else
      assert forall k :: 1 <= k < |rows| ==> rows[k] == rows[1..][k - 1];
      match ReasonOfRow(rows[0])
      case Err(e) => Err(e)
      case Ok(x) =>
        match ReasonEntries(rows[1..])
        case Err(e) =>
          assert exists k :: && 0 <= k < |rows| && ReasonOfRow(rows[k]) == Err(e)
                             && forall i :: 0 <= i < k ==> ReasonOfRow(rows[i]).Ok? by {
            var j :| && 0 <= j < |rows[1..]| && ReasonOfRow(rows[1..][j]) == Err(e)
                     && forall i :: 0 <= i < j ==> ReasonOfRow(rows[1..][i]).Ok?;
            assert rows[j + 1] == rows[1..][j];
          }
          Err(e)
        case Ok(xs) => Ok([x] + xs)
  }

  /** One step of the row loop: the first row's entry, then the rest. */
  lemma ReasonEntriesStep(rows: seq<Row>)
    requires rows != []
    ensures ReasonEntries(rows) ==
            match ReasonOfRow(rows[0])
            case Err(e) => Err(e)
            case Ok(x) => Then([x], ReasonEntries(rows[1..]))
  {
  }

  /** `breakdown[category] = n` for every entry in turn. */
  function Tally(es: seq<(string, int, int)>): map<string, int>
  {
    if es == [] then map[]
    else Tally(es[..|es| - 1])[es[|es| - 1].0 := es[|es| - 1].1]
  }

  lemma TallySnoc(es: seq<(string, int, int)>, x: (string, int, int))
    ensures Tally(es + [x]) == Tally(es)[x.0 := x.1]
    ensures LastTotal(es + [x]) == x.2
  {
    assert (es + [x])[..|es|] == es;
  }

  /** The `total` left by the loop: the last entry's, or the initial 0. */
  function LastTotal(es: seq<(string, int, int)>): int
  {
    if es == [] then 0 else es[|es| - 1].2
  }

  /** `Reasons(total_responses=total, breakdown=breakdown)` */
  function ReasonsValue(total: int, counts: map<string, int>): (v: Value)
    ensures v.ReasonsObj? && v.breakdown.Dict? && v.breakdown.entries.Keys == counts.Keys
  {
    ReasonsObj(PyInt(total), Dict(map k | k in counts :: PyInt(counts[k])))
  }

  /** `scrape_reasons(reasons_graph)` */
  function ReportReasons(report: GraphReport): (r: Result<Value>)
    ensures |report.rows| <= 1 ==> r == Ok(ReasonsValue(0, map[]))
    ensures r.Ok? ==> r.value.ReasonsObj? && r.value.breakdown.Dict?
  {
    match ReasonEntries(Rest(report.rows))
    case Err(e) => Err(e)
    case Ok(es) => Ok(ReasonsValue(LastTotal(es), Tally(es)))
  }

  /** The keys of the tally are the categories of the entries. */
  lemma {:induction false} TallyKeys(es: seq<(string, int, int)>)
    ensures Tally(es).Keys == set k | 0 <= k < |es| :: es[k].0
  {
    if es != [] {
      var init := es[..|es| - 1];
      TallyKeys(init);
      assert forall k :: 0 <= k < |init| ==> init[k] == es[k];
      assert (set k | 0 <= k < |es| :: es[k].0) == (set k | 0 <= k < |init| :: init[k].0) + {es[|es| - 1].0};
    }
  }

  /** A category counts with the number of its last row: a later row of the
      same category overwrites an earlier one. */
  lemma {:induction false} TallyLastWins(es: seq<(string, int, int)>, j: nat)
    requires j < |es|
    requires forall i :: j < i < |es| ==> es[i].0 != es[j].0
    ensures es[j].0 in Tally(es) && Tally(es)[es[j].0] == es[j].1
  {
    if j < |es| - 1 {
      var init := es[..|es| - 1];
      assert forall i :: j < i < |init| ==> init[i] == es[i];
      TallyLastWins(init, j);
    }
  }

  /** The reasons' keys are the categories of the rows after the header, and
      `total_responses` is the total of the last row, or 0 without rows. */
  lemma ReportReasonsShape(report: GraphReport)
    requires ReportReasons(report).Ok? && |report.rows| >= 2
    ensures ReportReasons(report).value.breakdown.entries.Keys
            == set k | 1 <= k < |report.rows| :: report.rows[k].cells[0].text
    ensures ReportReasons(report).value.totalResponses
            == PyInt(ReasonOfRow(report.rows[|report.rows| - 1]).value.2)
  {
    var rows := report.rows[1..];
    var es := ReasonEntries(rows).value;
    TallyKeys(es);
    assert forall k :: 0 <= k < |es| ==> es[k].0 == rows[k].cells[0].text;
    var cats := set k | 1 <= k < |report.rows| :: report.rows[k].cells[0].text;
    assert (set k | 0 <= k < |es| :: es[k].0) == cats by {
      forall x | x in cats
        ensures x in set k | 0 <= k < |es| :: es[k].0
      {
        var k :| 1 <= k < |report.rows| && report.rows[k].cells[0].text == x;
        assert es[k - 1].0 == x;
      }
    }
    assert rows[|rows| - 1] == report.rows[|report.rows| - 1];
  }

  /** The count of a category is the count in the last row that names it. */
  lemma ReportReasonsLastWins(report: GraphReport, j: nat)
    requires ReportReasons(report).Ok?
    requires 1 <= j < |report.rows|
    requires forall i :: j < i < |report.rows| ==> report.rows[i].cells[0].text != report.rows[j].cells[0].text
    ensures report.rows[j].cells[0].text in ReportReasons(report).value.breakdown.entries
    ensures ReportReasons(report).value.breakdown.entries[report.rows[j].cells[0].text]
            == PyInt(ReasonOfRow(report.rows[j]).value.1)
  {
    var rows := report.rows[1..];
    var es := ReasonEntries(rows).value;
    assert forall i :: 0 <= i < |es| ==> es[i] == ReasonOfRow(report.rows[i + 1]).value;
    TallyLastWins(es, j - 1);
  }

  // ---------------------------------------------------------------------
  // The instructor page

  predicate IsSelected(e: Element)
  {
    "selected" in e.attrs && e.attrs["selected"] == "selected"
  }

  /** `select.select('option[selected="selected"]')` */
  function SelectedOptions(options: seq<Element>): (r: seq<Element>)
    ensures forall k :: 0 <= k < |r| ==> r[k] in options && IsSelected(r[k])
    ensures forall e :: e in options && IsSelected(e) ==> e in r
  {
    if options == [] then []
    else if IsSelected(options[0]) then [options[0]] + SelectedOptions(options[1..])
    else SelectedOptions(options[1..])
  }

  /** The instructor a page is about: the selected option's `value` split
      into id and role on `:`, its text split into last and first name on `,`
      and stripped, rated by the page's first graph report (none without
      one).  Returned with the page's options for the fan-out; None when the
      select has no option at all. */
  function InstructorPage(doc: Document): (r: Result<Option<(Value, seq<Element>)>>)
    ensures doc.instructorSelects == [] ==> r == Err(IndexError)
    ensures doc.instructorSelects != [] && doc.instructorSelects[0].options == [] <==> r == Ok(None)
    ensures r.Ok? && r.value.Some? ==>
              && r.value.value.1 == doc.instructorSelects[0].options && r.value.value.1 != []
              && r.value.value.0.InstructorObj? && r.value.value.0.ratings.List?
              && IsStr(r.value.value.0.instructorId) && IsStr(r.value.value.0.instructorRole)
              && IsStr(r.value.value.0.firstName) && IsStr(r.value.value.0.lastName)
  {
    if doc.instructorSelects == [] then Err(IndexError)
    else
      var options := doc.instructorSelects[0].options;
      if options == [] then Ok(None)
      else
        var selected := SelectedOptions(options);
        if selected == [] then Err(IndexError)
        else
          var option := selected[0];
          match Attr(option, "value")
          case Err(e) => Err(e)
          case Ok(idRole) =>
            var ir := Split(idRole, ':');
            var names := Split(option.text, ',');
            if |ir| != 2 || |names| != 2 then Err(ValueError)
            else
              var ratings := if doc.graphReports == [] then Ok([]) else ReportRatings(doc.graphReports[0]);
              match ratings
              case Err(e) => Err(e)
              case Ok(rs) =>
                Ok(Some((InstructorObj(Str(ir[0]), Str(ir[1]), Str(Strip(names[1])), Str(Strip(names[0])), List(rs)),
                         options)))
  }

  /** `id:role` splits at the colon into its two parts. */
  lemma IdRoleSplit(id: string, role: string)
    requires ':' !in id && ':' !in role
    ensures Split(id + ":" + role, ':') == [id, role]
  {
    assert id + ":" + role == id + [':'] + role;
    SplitAppend(id, ':', role);
    SplitNoSep(role, ':');
  }

  /** `last, first` splits at the comma, and stripping gives back the names. */
  lemma NamesSplit(last: string, first: string)
    requires ',' !in last && ',' !in first && Trimmed(last) && Trimmed(first)
    ensures Split(last + ", " + first, ',') == [last, " " + first]
    ensures Strip(last) == last && Strip(" " + first) == first
  {
    var tail := " " + first;
    assert last + ", " + first == last + [','] + tail;
    assert ',' !in tail;
    SplitAppend(last, ',', tail);
    SplitNoSep(tail, ',');
    StripTrimmed(last);
    assert tail == " " + first + "";
    StripPadded(" ", first, "");
  }

  /** The option `[0]` picks is the first selected one in document order. */
  lemma {:induction false} SelectedFirst(options: seq<Element>, j: nat)
    requires j < |options| && IsSelected(options[j])
    requires forall k :: 0 <= k < j ==> !IsSelected(options[k])
    ensures SelectedOptions(options) != [] && SelectedOptions(options)[0] == options[j]
  {
    if j > 0 {
      assert !IsSelected(options[0]);
      forall k | 0 <= k < j - 1
        ensures !IsSelected(options[1..][k])
      {
        assert options[1..][k] == options[k + 1];
      }
      SelectedFirst(options[1..], j - 1);
    }
  }

  /** When the first selected option is "id:role" with the text
      "Last, First", the page is about that instructor, rated by the
      page's first graph report, or by nothing without one. */
  lemma InstructorIdentity(doc: Document, j: nat, id: string, role: string, last: string, first: string)
    requires doc.instructorSelects != []
    requires var options := doc.instructorSelects[0].options;
             && j < |options| && IsSelected(options[j])
             && (forall k :: 0 <= k < j ==> !IsSelected(options[k]))
             && options[j].text == last + ", " + first
             && "value" in options[j].attrs && options[j].attrs["value"] == id + ":" + role
    requires ':' !in id && ':' !in role && ',' !in last && ',' !in first
    requires Trimmed(last) && Trimmed(first)
    requires doc.graphReports != [] ==> ReportRatings(doc.graphReports[0]).Ok?
    ensures InstructorPage(doc)
            == Ok(Some((InstructorObj(Str(id), Str(role), Str(first), Str(last),
                                      List(if doc.graphReports == [] then [] else ReportRatings(doc.graphReports[0]).value)),
                        doc.instructorSelects[0].options)))
  {
    SelectedFirst(doc.instructorSelects[0].options, j);
    IdRoleSplit(id, role);
    NamesSplit(last, first);
  }

  /** A page whose options include none selected raises IndexError at `[0]`,
      and a selected option without a `value` raises KeyError. */
  lemma InstructorPageErrors(doc: Document)
    requires doc.instructorSelects != [] && doc.instructorSelects[0].options != []
    ensures SelectedOptions(doc.instructorSelects[0].options) == [] ==> InstructorPage(doc) == Err(IndexError)
    ensures var option := SelectedOptions(doc.instructorSelects[0].options);
            option != [] && "value" !in option[0].attrs ==> InstructorPage(doc) == Err(KeyError)
  {
  }

  // ---------------------------------------------------------------------
  // The question pages

  /** `[r.text.strip() for r in q_soup.select('.response p')]` */
  function Responses(es: seq<Element>): (rs: seq<Value>)
    ensures |rs| == |es|
    ensures forall k :: 0 <= k < |es| ==> rs[k] == Str(Strip(es[k].text)) && Trimmed(rs[k].s)
  {
    seq(|es|, k requires 0 <= k < |es| => Str(Strip(es[k].text)))
  }

  /** `Question(question=q_link.text)` with the responses of its page. */
  function QuestionOf(link: Element, page: Document): (q: Value)
    ensures ValidQuestion(q)
    ensures q.question == Str(link.text) && |q.responses.items| == |page.responses|
  {
    QuestionObj(Str(link.text), List(Responses(page.responses)))
  }
}
