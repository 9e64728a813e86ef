/** A parsed Q-guide page, reduced to the parts the scrapers select.  The
    HTML parser itself is outside the model: a page is whatever the parser
    oracle returns for a body. */
module Page {

  import opened Common

  /** An HTML element: its text content and its attributes. */
  datatype Element = Element(text: string, attrs: map<string, string>)

  /** One `td` of a graph-report row, with its first `strong` and `img`
      descendants when present. */
  datatype Cell = Cell(text: string, strong: Option<Element>, img: Option<Element>)

  /** One `tr` and the `td`s inside it. */
  datatype Row = Row(cells: seq<Cell>)

  /** A `.graphReport` section: its `tr`s in document order, header first. */
  datatype GraphReport = GraphReport(rows: seq<Row>)

  /** A `select` element and its `option`s in document order. */
  datatype Select = Select(options: seq<Element>)

  /** The results of the selectors the scrapers run, each in document order.
      `title` is `soup.title.text` and `h1` is `soup.h1.text`, absent when the
      page has no such element. */
  datatype Document = Document(
    title: Option<string>,
    h1: Option<string>,
    courseBlocks: seq<Element>,       // .course-block-title
    courseLinks: seq<Element>,        // .course a
    summaryStats: seq<Element>,       // #summaryStats
    graphReports: seq<GraphReport>,   // .graphReport
    instructorSelects: seq<Select>,   // select[name="current_instructor_or_tf_huid_param"]
    questionLinks: seq<Element>,      // #reportContent h3 a
    responses: seq<Element>)          // .response p

  /** `e.attrs[name]`, a KeyError when the attribute is missing. */
  function Attr(e: Element, name: string): (r: Result<string>)
    ensures r.Ok? <==> name in e.attrs
    ensures r.Ok? ==> r.value == e.attrs[name]
    ensures r.Err? ==> r.error == KeyError
  {
    if name in e.attrs then Ok(e.attrs[name]) else Err(KeyError)
  }

  /** `[e.attrs[name] for e in es]`: the attribute of every element, in order,
      or KeyError at the first element missing it. */
  function AttrOfEach(es: seq<Element>, name: string): (r: Result<seq<string>>)
    ensures r.Ok? <==> forall k :: 0 <= k < |es| ==> name in es[k].attrs
    ensures r.Ok? ==> |r.value| == |es| && forall k :: 0 <= k < |es| ==> r.value[k] == es[k].attrs[name]
    ensures r.Err? ==> r.error == KeyError
  {
    if es == [] then Ok([])
    else match Attr(es[0], name)
      case Err(e) => Err(e)
      case Ok(v) =>
        match AttrOfEach(es[1..], name)
        case Err(e) => Err(e)
        case Ok(vs) =>
          assert forall k :: 1 <= k < |es| ==> es[k] == es[1..][k - 1];
          Ok([v] + vs)
  }
}
