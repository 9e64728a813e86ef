/** The Q-guide records of models.py: what `validate` accepts, which exception
    it raises otherwise, and the JSON that `to_json_dict` produces. */
module Models {

  import opened Common

  // ---------------------------------------------------------------------
  // Python values

  /** Python 2's machine integer range (`sys.maxint` on a 64-bit build). */
  const MIN_INT: int := -0x8000_0000_0000_0000
  const MAX_INT: int := 0x7FFF_FFFF_FFFF_FFFF

  /** A Python value as the record fields can hold it.  The record classes
      appear as the variants `RatingObj` ... `QuestionObj`; `Breakdown` is the
      `RatingBreakdown` namedtuple. */
  datatype Value =
    | NoneValue
    | Bool(b: bool)
    | Int(i: int)
    | Long(l: int)
    | Str(s: string)
    | List(items: seq<Value>)
    | Tuple(elems: seq<Value>)
    | Dict(entries: map<string, Value>)
    | Breakdown(one: Value, two: Value, three: Value, four: Value, five: Value)
    | RatingObj(category: Value, breakdown: Value)
    | ReasonsObj(totalResponses: Value, breakdown: Value)
    | InstructorObj(instructorId: Value, instructorRole: Value, firstName: Value, lastName: Value, ratings: Value)
    | QuestionObj(question: Value, responses: Value)

  /** The value `int(...)` returns in Python 2: an `int` inside the machine
      range and a `long` outside it. */
  function PyInt(n: int): (v: Value)
    ensures IsInt(v) <==> MIN_INT <= n <= MAX_INT
    ensures v == Int(n) || v == Long(n)
  {
    if MIN_INT <= n <= MAX_INT then Int(n) else Long(n)
  }

  /** `isinstance(v, int)`; `bool` is a subclass of `int`, `long` is not. */
  predicate IsInt(v: Value)
  {
    v.Int? || v.Bool?
  }

  /** `isinstance(v, str)` */
  predicate IsStr(v: Value)
  {
    v.Str?
  }

  /** A Course as models.py builds it: every field a Python value, `None`
      until assigned. */
  datatype Course = Course(
    courseId: Value, department: Value, courseCode: Value, courseName: Value,
    term: Value, year: Value, enrollment: Value, evaluations: Value,
    ratings: Value, reasons: Value, instructors: Value, questions: Value)

  /** `Course(course_id=..., year=..., term=...)` */
  function NewCourse(courseId: Value, year: Value, term: Value): (c: Course)
    ensures c.courseId == courseId && c.year == year && c.term == term
    ensures c.department == NoneValue && c.courseCode == NoneValue && c.courseName == NoneValue
    ensures c.enrollment == NoneValue && c.evaluations == NoneValue
    ensures c.ratings == NoneValue && c.reasons == NoneValue
    ensures c.instructors == NoneValue && c.questions == NoneValue
  {
    Course(courseId, NoneValue, NoneValue, NoneValue, term, year, NoneValue, NoneValue,
           NoneValue, NoneValue, NoneValue, NoneValue)
  }

  // ---------------------------------------------------------------------
  // What validate accepts

  /** The two vocabularies of enrolment reasons (the set changed in ~2007). */
  const REASONS_BEFORE_2007: set<string> := {
    "Elective",
    "Concentration or Department Requirement",
    "Secondary Field or Language Citation Requirement",
    "Undergraduate Core or General Education Requirement",
    "Expository Writing Requirement",
    "Foreign Language Requirement",
    "Pre-Med Requirement"}

  const REASONS_SINCE_2007: set<string> := {
    "Elective",
    "Concentration/Program Requirement",
    "Undergraduate Core Requirement",
    "Pre-Med Requirement"}

  predicate ValidRating(r: Value)
  {
    && r.RatingObj?
    && IsStr(r.category)
    && r.breakdown.Breakdown?
    && IsInt(r.breakdown.one) && IsInt(r.breakdown.two) && IsInt(r.breakdown.three)
    && IsInt(r.breakdown.four) && IsInt(r.breakdown.five)
  }

  predicate ValidReasons(r: Value)
  {
    && r.ReasonsObj?
    && IsInt(r.totalResponses)
    && r.breakdown.Dict?
    && (r.breakdown.entries.Keys == REASONS_BEFORE_2007 || r.breakdown.entries.Keys == REASONS_SINCE_2007)
    && forall k :: k in r.breakdown.entries ==> IsInt(r.breakdown.entries[k])
  }

  predicate ValidInstructor(i: Value)
  {
    && i.InstructorObj?
    && IsStr(i.instructorId) && IsStr(i.instructorRole) && IsStr(i.firstName) && IsStr(i.lastName)
    && i.ratings.List?
    && forall k :: 0 <= k < |i.ratings.items| ==> ValidRating(i.ratings.items[k])
  }

  predicate ValidQuestion(q: Value)
  {
    && q.QuestionObj?
    && IsStr(q.question)
    && q.responses.List?
    && forall k :: 0 <= k < |q.responses.items| ==> IsStr(q.responses.items[k])
  }

  predicate ValidCourse(c: Course)
  {
    && IsInt(c.courseId) && IsStr(c.department) && IsStr(c.courseCode) && IsStr(c.courseName)
    && IsInt(c.term) && IsInt(c.year) && IsInt(c.enrollment) && IsInt(c.evaluations)
    && c.ratings.List? && ValidReasons(c.reasons) && c.instructors.List? && c.questions.List?
    && (forall k :: 0 <= k < |c.ratings.items| ==> ValidRating(c.ratings.items[k]))
    && (forall k :: 0 <= k < |c.instructors.items| ==> ValidInstructor(c.instructors.items[k]))
    && (forall k :: 0 <= k < |c.questions.items| ==> ValidQuestion(c.questions.items[k]))
  }

  // ---------------------------------------------------------------------
  // Which exception validate raises: the assertions in the order they run

  function Check(cond: bool): (o: Outcome)
  {
    if cond then Pass else Fail(AssertionError)
  }

  /** `Rating.validate()`.  A breakdown that is not a RatingBreakdown falls back
      to the tuple coercion, whose `len(tuple)` asks for the length of the
      type itself and raises TypeError, so the coercion never succeeds. */
  function RatingCheck(r: Value): (o: Outcome)
    requires r.RatingObj?
    ensures o == Pass <==> ValidRating(r)
    ensures IsStr(r.category) && r.breakdown.Tuple? ==> o == Fail(TypeError)
    ensures o.Fail? && o.error != AssertionError ==> r.breakdown.Tuple?
  {
    if !IsStr(r.category) then Fail(AssertionError)
    else
      match r.breakdown
      case Breakdown(a, b, c, d, e) => Check(IsInt(a) && IsInt(b) && IsInt(c) && IsInt(d) && IsInt(e))
      case Tuple(_) => Fail(TypeError)
      case _ => Fail(AssertionError)
  }

  /** `Reasons.validate()` */
  function ReasonsCheck(r: Value): (o: Outcome)
    requires r.ReasonsObj?
  {
    if !IsInt(r.totalResponses) then Fail(AssertionError)
    else if !r.breakdown.Dict? then Fail(AssertionError)
    else
      var keys := r.breakdown.entries.Keys;
      if keys != REASONS_BEFORE_2007 && keys != REASONS_SINCE_2007 then Fail(AssertionError)
      else Check(forall k :: k in r.breakdown.entries ==> IsInt(r.breakdown.entries[k]))
  }

  /** The body of a `for` loop that asserts of each item in turn: the first
      failure, or Pass. */
  function CheckEach(items: seq<Value>, check: Value -> Outcome): Outcome
  {
    if items == [] then Pass
    else if check(items[0]).Fail? then check(items[0])
    else CheckEach(items[1..], check)
  }

  /** `assert isinstance(r, Rating); r.validate()` */
  function RatingItemCheck(v: Value): Outcome
  {
    if !v.RatingObj? then Fail(AssertionError) else RatingCheck(v)
  }

  /** `assert isinstance(r, str)` */
  function StrItemCheck(v: Value): Outcome
  {
    Check(IsStr(v))
  }

  /** `Instructor.validate()` */
  function InstructorCheck(i: Value): Outcome
    requires i.InstructorObj?
  {
    if !IsStr(i.instructorId) || !IsStr(i.instructorRole) || !IsStr(i.firstName) || !IsStr(i.lastName) then
      Fail(AssertionError)
    else if !i.ratings.List? then Fail(AssertionError)
    else CheckEach(i.ratings.items, RatingItemCheck)
  }

  /** `assert isinstance(i, Instructor); i.validate()` */
  function InstructorItemCheck(v: Value): Outcome
  {
    if !v.InstructorObj? then Fail(AssertionError) else InstructorCheck(v)
  }

  /** `Question.validate()` */
  function QuestionCheck(q: Value): Outcome
    requires q.QuestionObj?
  {
    if !IsStr(q.question) || !q.responses.List? then Fail(AssertionError)
    else CheckEach(q.responses.items, StrItemCheck)
  }

  /** `assert isinstance(q, Question); q.validate()` */
  function QuestionItemCheck(v: Value): Outcome
  {
    if !v.QuestionObj? then Fail(AssertionError) else QuestionCheck(v)
  }

  /** `Course.validate()`: the field types, then the reasons, then every
      rating, instructor and question, in that order. */
  function CourseCheck(c: Course): Outcome
  {
    if !IsInt(c.courseId) || !IsStr(c.department) || !IsStr(c.courseCode) || !IsStr(c.courseName)
       || !IsInt(c.term) || !IsInt(c.year) || !IsInt(c.enrollment) || !IsInt(c.evaluations)
       || !c.ratings.List? || !c.reasons.ReasonsObj? || !c.instructors.List? || !c.questions.List? then
      Fail(AssertionError)
    else if ReasonsCheck(c.reasons).Fail? then ReasonsCheck(c.reasons)
    else if CheckEach(c.ratings.items, RatingItemCheck).Fail? then CheckEach(c.ratings.items, RatingItemCheck)
    else if CheckEach(c.instructors.items, InstructorItemCheck).Fail? then CheckEach(c.instructors.items, InstructorItemCheck)
    else CheckEach(c.questions.items, QuestionItemCheck)
  }

  // ---------------------------------------------------------------------
  // The checks accept exactly the valid records

  /** A loop of assertions passes exactly when every item passes, and a
      failure is the failure of the first item that fails. */
  lemma {:induction false} CheckEachPass(items: seq<Value>, check: Value -> Outcome)
    ensures CheckEach(items, check) == Pass <==> forall k :: 0 <= k < |items| ==> check(items[k]) == Pass
    ensures CheckEach(items, check).Fail? ==>
              exists k :: && 0 <= k < |items| && check(items[k]) == CheckEach(items, check)
                          && forall i :: 0 <= i < k ==> check(items[i]) == Pass
  {
    if items != [] && check(items[0]).Fail? {
      assert check(items[0]) == CheckEach(items, check);
    }
    if items != [] && check(items[0]).Pass? {
      CheckEachPass(items[1..], check);
      if CheckEach(items[1..], check).Fail? {
        var k :| && 0 <= k < |items[1..]| && check(items[1..][k]) == CheckEach(items[1..], check)
                 && forall i :: 0 <= i < k ==> check(items[1..][i]) == Pass;
        forall i | 0 <= i < k + 1
          ensures check(items[i]) == Pass
        {
          if i > 0 {
            assert items[i] == items[1..][i - 1];
          }
        }
        assert check(items[k + 1]) == CheckEach(items, check);
      }
      assert forall k :: 1 <= k < |items| ==> items[k] == items[1..][k - 1];
    }
  }

  lemma ReasonsCheckValid(r: Value)
    requires r.ReasonsObj?
    ensures ReasonsCheck(r) == Pass <==> ValidReasons(r)
    ensures ReasonsCheck(r) == Pass || ReasonsCheck(r) == Fail(AssertionError)
  {
  }

  lemma InstructorCheckValid(i: Value)
    requires i.InstructorObj?
    ensures InstructorCheck(i) == Pass <==> ValidInstructor(i)
  {
    if i.ratings.List? {
      CheckEachPass(i.ratings.items, RatingItemCheck);
    }
  }

  lemma QuestionCheckValid(q: Value)
    requires q.QuestionObj?
    ensures QuestionCheck(q) == Pass <==> ValidQuestion(q)
    ensures QuestionCheck(q) == Pass || QuestionCheck(q) == Fail(AssertionError)
  {
    if IsStr(q.question) && q.responses.List? {
      CheckEachPass(q.responses.items, StrItemCheck);
    }
  }

  /** `Course.validate()` returns normally exactly for a valid course. */
  lemma CourseCheckValid(c: Course)
    ensures CourseCheck(c) == Pass <==> ValidCourse(c)
  {
    if c.ratings.List? && c.instructors.List? && c.questions.List? && c.reasons.ReasonsObj? {
      ReasonsCheckValid(c.reasons);
      CheckEachPass(c.ratings.items, RatingItemCheck);
      CheckEachPass(c.instructors.items, InstructorItemCheck);
      CheckEachPass(c.questions.items, QuestionItemCheck);
      forall k | 0 <= k < |c.instructors.items| && c.instructors.items[k].InstructorObj?
        ensures InstructorItemCheck(c.instructors.items[k]) == Pass <==> ValidInstructor(c.instructors.items[k])
      {
        InstructorCheckValid(c.instructors.items[k]);
      }
      forall k | 0 <= k < |c.questions.items| && c.questions.items[k].QuestionObj?
        ensures QuestionItemCheck(c.questions.items[k]) == Pass <==> ValidQuestion(c.questions.items[k])
      {
        QuestionCheckValid(c.questions.items[k]);
      }
    }
  }

  /** A course fresh from the constructor, before scrape_course fills it,
      never validates. */
  lemma NewCourseInvalid(courseId: Value, year: Value, term: Value)
    ensures CourseCheck(NewCourse(courseId, year, term)) == Fail(AssertionError)
  {
  }

  /** The reasons vocabulary is matched as a whole: a valid breakdown has
      exactly the seven older keys or exactly the four newer ones. */
  lemma ReasonsKeysExact(r: Value)
    requires ValidReasons(r)
    ensures || (r.breakdown.entries.Keys == REASONS_BEFORE_2007 && |r.breakdown.entries| == 7)
            || (r.breakdown.entries.Keys == REASONS_SINCE_2007 && |r.breakdown.entries| == 4)
  {
    VocabularySizes();
  }

  lemma VocabularySizes()
    ensures |REASONS_BEFORE_2007| == 7 && |REASONS_SINCE_2007| == 4
    ensures REASONS_BEFORE_2007 * REASONS_SINCE_2007 == {"Elective", "Pre-Med Requirement"}
  {
  }

  /** A key set that mixes the two vocabularies is rejected. */
  lemma MixedReasonsRejected(r: Value)
    requires r.ReasonsObj? && r.breakdown.Dict?
    requires "Concentration or Department Requirement" in r.breakdown.entries
    requires "Concentration/Program Requirement" in r.breakdown.entries
    ensures !ValidReasons(r) && ReasonsCheck(r) == Fail(AssertionError)
  {
    assert "Concentration/Program Requirement" !in REASONS_BEFORE_2007;
    assert "Concentration or Department Requirement" !in REASONS_SINCE_2007;
  }

  /** A key set that is only part of either vocabulary is rejected. */
  lemma PartialReasonsRejected(r: Value)
    requires r.ReasonsObj? && r.breakdown.Dict?
    requires r.breakdown.entries.Keys < REASONS_BEFORE_2007 || r.breakdown.entries.Keys < REASONS_SINCE_2007
    ensures !ValidReasons(r)
  {
    VocabularySizes();
    var keys := r.breakdown.entries.Keys;
    if keys < REASONS_BEFORE_2007 {
      assert keys != REASONS_SINCE_2007 by {
        assert "Concentration/Program Requirement" !in REASONS_BEFORE_2007;
      }
    } else {
      assert keys != REASONS_BEFORE_2007 by {
        assert "Concentration or Department Requirement" !in REASONS_SINCE_2007;
      }
    }
  }

  // ---------------------------------------------------------------------
  // validate as the source runs it: for loops over the lists

  /** A `for` loop that asserts `check` of each item in turn. */
  method ValidateEach(items: seq<Value>, check: Value -> Outcome) returns (o: Outcome)
    ensures o == CheckEach(items, check)
  {
    for i := 0 to |items|
      invariant CheckEach(items, check) == CheckEach(items[i..], check)
    {
      assert items[i..][0] == items[i];
      if check(items[i]).Fail? {
        return check(items[i]);
      }
      assert items[i..][1..] == items[i + 1..];
    }
    assert items[|items|..] == [];
    return Pass;
  }

  /** `Instructor.validate()`: four string checks, then the ratings loop. */
  method ValidateInstructor(i: Value) returns (o: Outcome)
    requires i.InstructorObj?
    ensures o == InstructorCheck(i)
    ensures o == Pass <==> ValidInstructor(i)
  {
    InstructorCheckValid(i);
    if !IsStr(i.instructorId) || !IsStr(i.instructorRole) || !IsStr(i.firstName) || !IsStr(i.lastName) {
      return Fail(AssertionError);
    }
    if !i.ratings.List? {
      return Fail(AssertionError);
    }
    o := ValidateEach(i.ratings.items, RatingItemCheck);
  }

  /** `Question.validate()`: two type checks, then the responses loop. */
  method ValidateQuestion(q: Value) returns (o: Outcome)
    requires q.QuestionObj?
    ensures o == QuestionCheck(q)
    ensures o == Pass <==> ValidQuestion(q)
  {
    QuestionCheckValid(q);
    if !IsStr(q.question) || !q.responses.List? {
      return Fail(AssertionError);
    }
    o := ValidateEach(q.responses.items, StrItemCheck);
  }

  /** `Course.validate()`: the field checks, the reasons, and one loop each
      over the ratings, the instructors and the questions. */
  method ValidateCourse(c: Course) returns (o: Outcome)
    ensures o == CourseCheck(c)
    ensures o == Pass <==> ValidCourse(c)
  {
    CourseCheckValid(c);
    if !IsInt(c.courseId) || !IsStr(c.department) || !IsStr(c.courseCode) || !IsStr(c.courseName)
       || !IsInt(c.term) || !IsInt(c.year) || !IsInt(c.enrollment) || !IsInt(c.evaluations)
       || !c.ratings.List? || !c.reasons.ReasonsObj? || !c.instructors.List? || !c.questions.List? {
      return Fail(AssertionError);
    }
    o := ReasonsCheck(c.reasons);
    if o.Fail? {
      return;
    }
    o := ValidateEach(c.ratings.items, RatingItemCheck);
    if o.Fail? {
      return;
    }
    var instructors := c.instructors.items;
    for k := 0 to |instructors|
      invariant CheckEach(instructors, InstructorItemCheck) == CheckEach(instructors[k..], InstructorItemCheck)
    {
      assert instructors[k..][0] == instructors[k];
      if !instructors[k].InstructorObj? {
        return Fail(AssertionError);
      }
      o := ValidateInstructor(instructors[k]);
      if o.Fail? {
        return;
      }
      assert instructors[k..][1..] == instructors[k + 1..];
    }
    assert instructors[|instructors|..] == [];
    var questions := c.questions.items;
    for k := 0 to |questions|
      invariant CheckEach(questions, QuestionItemCheck) == CheckEach(questions[k..], QuestionItemCheck)
    {
      assert questions[k..][0] == questions[k];
      if !questions[k].QuestionObj? {
        return Fail(AssertionError);
      }
      o := ValidateQuestion(questions[k]);
      if o.Fail? {
        return;
      }
      assert questions[k..][1..] == questions[k + 1..];
    }
    assert questions[|questions|..] == [];
    return Pass;
  }

  // ---------------------------------------------------------------------
  // to_json_dict, as the JSON document json.dump writes for it

  /** A JSON value.  `JObject` keeps its keys in order (an OrderedDict);
      `JDict` is a plain dict, whose key order Python 2 leaves unspecified. */
  datatype Json =
    | JNull
    | JBool(b: bool)
    | JInt(n: int)
    | JStr(s: string)
    | JArray(elems: seq<Json>)
    | JObject(fields: seq<(string, Json)>)
    | JDict(members: map<string, Json>)

  const COURSE_KEYS: seq<string> := [
    "course_id", "department", "course_code", "course_name", "term", "year",
    "enrollment", "evaluations", "ratings", "reasons", "instructors", "questions"]

  function Keys(fields: seq<(string, Json)>): seq<string>
  {
    seq(|fields|, k requires 0 <= k < |fields| => fields[k].0)
  }

  function IntJson(v: Value): Json
    requires IsInt(v)
  {
    if v.Bool? then JBool(v.b) else JInt(v.i)
  }

  /** `Rating.to_json_dict()`; the breakdown namedtuple becomes a 5-array. */
  function RatingJson(r: Value): Json
    requires ValidRating(r)
  {
    var b := r.breakdown;
    JObject([("category", JStr(r.category.s)),
             ("breakdown", JArray([IntJson(b.one), IntJson(b.two), IntJson(b.three), IntJson(b.four), IntJson(b.five)]))])
  }

  /** `Reasons.to_json_dict()` */
  function ReasonsJson(r: Value): Json
    requires ValidReasons(r)
  {
    JObject([("total_responses", IntJson(r.totalResponses)),
             ("breakdown", JDict(map k | k in r.breakdown.entries :: IntJson(r.breakdown.entries[k])))])
  }

  /** `[r.to_json_dict() for r in ratings]` */
  function RatingsJson(rs: seq<Value>): (js: seq<Json>)
    requires forall k :: 0 <= k < |rs| ==> ValidRating(rs[k])
  {
    seq(|rs|, k requires 0 <= k < |rs| => RatingJson(rs[k]))
  }

  /** `Instructor.to_json_dict()` */
  function InstructorJson(i: Value): Json
    requires ValidInstructor(i)
  {
    JObject([("instructor_id", JStr(i.instructorId.s)),
             ("instructor_role", JStr(i.instructorRole.s)),
             ("first_name", JStr(i.firstName.s)),
             ("last_name", JStr(i.lastName.s)),
             ("ratings", JArray(RatingsJson(i.ratings.items)))])
  }

  /** `Question.to_json_dict()` */
  function QuestionJson(q: Value): Json
    requires ValidQuestion(q)
  {
    var rs := q.responses.items;
    JObject([("question", JStr(q.question.s)),
             ("responses", JArray(seq(|rs|, k requires 0 <= k < |rs| => JStr(rs[k].s))))])
  }

  /** The body of `Course.to_json_dict()` once validate has passed: the fields
      in a fixed order, each nested list mapped element by element. */
  function CourseJson(c: Course): Json
    requires ValidCourse(c)
  {
    var ins := c.instructors.items;
    var qs := c.questions.items;
    JObject([
      ("course_id", IntJson(c.courseId)),
      ("department", JStr(c.department.s)),
      ("course_code", JStr(c.courseCode.s)),
      ("course_name", JStr(c.courseName.s)),
      ("term", IntJson(c.term)),
      ("year", IntJson(c.year)),
      ("enrollment", IntJson(c.enrollment)),
      ("evaluations", IntJson(c.evaluations)),
      ("ratings", JArray(RatingsJson(c.ratings.items))),
      ("reasons", ReasonsJson(c.reasons)),
      ("instructors", JArray(seq(|ins|, k requires 0 <= k < |ins| => InstructorJson(ins[k])))),
      ("questions", JArray(seq(|qs|, k requires 0 <= k < |qs| => QuestionJson(qs[k]))))])
  }

  /** `Course.to_json_dict()`: validates first, so an invalid course raises
      validate's exception and never yields a document. */
  function CourseToJsonDict(c: Course): (r: Result<Json>)
    ensures r.Ok? <==> ValidCourse(c)
    ensures r.Err? ==> CourseCheck(c) == Fail(r.error)
    ensures r.Ok? ==> r.value.JObject? && Keys(r.value.fields) == COURSE_KEYS
  {
    CourseCheckValid(c);
    match CourseCheck(c)
    case Fail(e) => Err(e)
    case Pass => Ok(CourseJson(c))
  }

  // ---------------------------------------------------------------------
  // Reading the JSON back: serialisation loses nothing

  function IntFromJson(j: Json): Option<Value>
  {
    match j
    case JBool(b) => Some(Bool(b))
    case JInt(n) => Some(Int(n))
    case _ => None
  }

  function StrFromJson(j: Json): Option<Value>
  {
    if j.JStr? then Some(Str(j.s)) else None
  }

  function BreakdownFromJson(j: Json): Option<Value>
  {
    if !j.JArray? || |j.elems| != 5 then None
    else
      var a := IntFromJson(j.elems[0]);
      var b := IntFromJson(j.elems[1]);
      var c := IntFromJson(j.elems[2]);
      var d := IntFromJson(j.elems[3]);
      var e := IntFromJson(j.elems[4]);
      if a.None? || b.None? || c.None? || d.None? || e.None? then None
      else Some(Breakdown(a.value, b.value, c.value, d.value, e.value))
  }

  function RatingFromJson(j: Json): Option<Value>
  {
    if !j.JObject? || |j.fields| != 2 || j.fields[0].0 != "category" || j.fields[1].0 != "breakdown" then None
    else
      var cat := StrFromJson(j.fields[0].1);
      var bd := BreakdownFromJson(j.fields[1].1);
      if cat.None? || bd.None? then None else Some(RatingObj(cat.value, bd.value))
  }

  function DictFromJson(m: map<string, Json>): Option<map<string, Value>>
  {
    if forall k :: k in m ==> IntFromJson(m[k]).Some? then
      Some(map k | k in m :: IntFromJson(m[k]).value)
    else None
  }

  function ReasonsFromJson(j: Json): Option<Value>
  {
    if !j.JObject? || |j.fields| != 2 || j.fields[0].0 != "total_responses" || j.fields[1].0 != "breakdown" then None
    else
      var total := IntFromJson(j.fields[0].1);
      var bd := j.fields[1].1;
      if total.None? || !bd.JDict? then None
      else
        var entries := DictFromJson(bd.members);
        if entries.None? then None else Some(ReasonsObj(total.value, Dict(entries.value)))
  }

  /** Decodes every element with `decode`, failing as a whole if one fails. */
  function ListFromJson(js: seq<Json>, decode: Json -> Option<Value>): Option<seq<Value>>
  {
    if js == [] then Some([])
    else
      var head := decode(js[0]);
      var tail := ListFromJson(js[1..], decode);
      if head.None? || tail.None? then None else Some([head.value] + tail.value)
  }

  function InstructorFromJson(j: Json): Option<Value>
  {
    if !j.JObject? || |j.fields| != 5 || j.fields[0].0 != "instructor_id" || j.fields[1].0 != "instructor_role"
       || j.fields[2].0 != "first_name" || j.fields[3].0 != "last_name" || j.fields[4].0 != "ratings" then None
    else
      var id := StrFromJson(j.fields[0].1);
      var role := StrFromJson(j.fields[1].1);
      var first := StrFromJson(j.fields[2].1);
      var last := StrFromJson(j.fields[3].1);
      var rs := j.fields[4].1;
      if id.None? || role.None? || first.None? || last.None? || !rs.JArray? then None
      else
        var ratings := ListFromJson(rs.elems, RatingFromJson);
        if ratings.None? then None
        else Some(InstructorObj(id.value, role.value, first.value, last.value, List(ratings.value)))
  }

  function QuestionFromJson(j: Json): Option<Value>
  {
    if !j.JObject? || |j.fields| != 2 || j.fields[0].0 != "question" || j.fields[1].0 != "responses" then None
    else
      var question := StrFromJson(j.fields[0].1);
      var rs := j.fields[1].1;
      if question.None? || !rs.JArray? then None
      else
        var responses := ListFromJson(rs.elems, StrFromJson);
        if responses.None? then None else Some(QuestionObj(question.value, List(responses.value)))
  }

  /** A JSON array decoded element-wise into a Python list. */
  function ListValueFromJson(j: Json, decode: Json -> Option<Value>): Option<Value>
  {
    if !j.JArray? then None
    else
      var xs := ListFromJson(j.elems, decode);
      if xs.None? then None else Some(List(xs.value))
  }

  /** The decoder for the value under the `k`-th key of a course document. */
  function FieldFromJson(k: nat, j: Json): Option<Value>
  {
    if k == 0 || 4 <= k <= 7 then IntFromJson(j)
    else if k <= 3 then StrFromJson(j)
    else if k == 8 then ListValueFromJson(j, RatingFromJson)
    else if k == 9 then ReasonsFromJson(j)
    else if k == 10 then ListValueFromJson(j, InstructorFromJson)
    else ListValueFromJson(j, QuestionFromJson)
  }

  /** Decodes the values of `fields`, the first of them at key position `k`. */
  function FieldsFromJson(fields: seq<(string, Json)>, k: nat): (vs: Option<seq<Value>>)
    ensures vs.Some? ==> |vs.value| == |fields|
  {
    if fields == [] then Some([])
    else
      var head := FieldFromJson(k, fields[0].1);
      var tail := FieldsFromJson(fields[1..], k + 1);
      if head.None? || tail.None? then None else Some([head.value] + tail.value)
  }

  /** The fields of a course in the order of COURSE_KEYS. */
  function CourseFields(c: Course): seq<Value>
  {
    [c.courseId, c.department, c.courseCode, c.courseName, c.term, c.year,
     c.enrollment, c.evaluations, c.ratings, c.reasons, c.instructors, c.questions]
  }

  /** Reads a course document back, insisting on the twelve keys in order. */
  function CourseFromJson(j: Json): Option<Course>
  {
    if !j.JObject? || Keys(j.fields) != COURSE_KEYS then None
    else
      match FieldsFromJson(j.fields, 0)
      case None => None
      case Some(v) =>
        Some(Course(v[0], v[1], v[2], v[3], v[4], v[5], v[6], v[7], v[8], v[9], v[10], v[11]))
  }

  lemma IntRoundTrip(v: Value)
    requires IsInt(v)
    ensures IntFromJson(IntJson(v)) == Some(v)
  {
  }

  lemma RatingRoundTrip(r: Value)
    requires ValidRating(r)
    ensures RatingFromJson(RatingJson(r)) == Some(r)
  {
  }

  lemma ReasonsRoundTrip(r: Value)
    requires ValidReasons(r)
    ensures ReasonsFromJson(ReasonsJson(r)) == Some(r)
  {
    var entries := r.breakdown.entries;
    var m := map k | k in entries :: IntJson(entries[k]);
    assert forall k :: k in m ==> IntFromJson(m[k]) == Some(entries[k]);
    var back := map k | k in m :: IntFromJson(m[k]).value;
    assert back.Keys == entries.Keys;
    assert back == entries;
  }

  /** Mapping an encoder over a list and decoding element-wise gives the list
      back, provided each element round-trips. */
  lemma {:induction false} ListRoundTrip(xs: seq<Value>, js: seq<Json>, decode: Json -> Option<Value>)
    requires |js| == |xs|
    requires forall k :: 0 <= k < |xs| ==> decode(js[k]) == Some(xs[k])
    ensures ListFromJson(js, decode) == Some(xs)
  {
    if xs != [] {
      ListRoundTrip(xs[1..], js[1..], decode);
      assert [xs[0]] + xs[1..] == xs;
    }
  }

  lemma InstructorRoundTrip(i: Value)
    requires ValidInstructor(i)
    ensures InstructorFromJson(InstructorJson(i)) == Some(i)
  {
    var rs := i.ratings.items;
    forall k | 0 <= k < |rs| ensures RatingFromJson(RatingsJson(rs)[k]) == Some(rs[k]) {
      RatingRoundTrip(rs[k]);
    }
    ListRoundTrip(rs, RatingsJson(rs), RatingFromJson);
  }

  lemma QuestionRoundTrip(q: Value)
    requires ValidQuestion(q)
    ensures QuestionFromJson(QuestionJson(q)) == Some(q)
  {
    var rs := q.responses.items;
    var js := seq(|rs|, k requires 0 <= k < |rs| => JStr(rs[k].s));
    ListRoundTrip(rs, js, StrFromJson);
  }

  lemma RatingsRoundTrip(rs: seq<Value>)
    requires forall k :: 0 <= k < |rs| ==> ValidRating(rs[k])
    ensures ListFromJson(RatingsJson(rs), RatingFromJson) == Some(rs)
  {
    forall k | 0 <= k < |rs| ensures RatingFromJson(RatingsJson(rs)[k]) == Some(rs[k]) {
      RatingRoundTrip(rs[k]);
    }
    ListRoundTrip(rs, RatingsJson(rs), RatingFromJson);
  }

  lemma InstructorsRoundTrip(ins: seq<Value>)
    requires forall k :: 0 <= k < |ins| ==> ValidInstructor(ins[k])
    ensures ListFromJson(seq(|ins|, k requires 0 <= k < |ins| => InstructorJson(ins[k])), InstructorFromJson) == Some(ins)
  {
    var js := seq(|ins|, k requires 0 <= k < |ins| => InstructorJson(ins[k]));
    forall k | 0 <= k < |ins| ensures InstructorFromJson(js[k]) == Some(ins[k]) {
      InstructorRoundTrip(ins[k]);
    }
    ListRoundTrip(ins, js, InstructorFromJson);
  }

  lemma QuestionsRoundTrip(qs: seq<Value>)
    requires forall k :: 0 <= k < |qs| ==> ValidQuestion(qs[k])
    ensures ListFromJson(seq(|qs|, k requires 0 <= k < |qs| => QuestionJson(qs[k])), QuestionFromJson) == Some(qs)
  {
    var js := seq(|qs|, k requires 0 <= k < |qs| => QuestionJson(qs[k]));
    forall k | 0 <= k < |qs| ensures QuestionFromJson(js[k]) == Some(qs[k]) {
      QuestionRoundTrip(qs[k]);
    }
    ListRoundTrip(qs, js, QuestionFromJson);
  }

  /** Position-wise decoding gives back `vs` when every value does. */
  lemma {:induction false} FieldsRoundTrip(fields: seq<(string, Json)>, k: nat, vs: seq<Value>)
    requires |fields| == |vs|
    requires forall i :: 0 <= i < |vs| ==> FieldFromJson(k + i, fields[i].1) == Some(vs[i])
    ensures FieldsFromJson(fields, k) == Some(vs)
  {
    if vs != [] {
      forall i | 0 <= i < |vs[1..]| ensures FieldFromJson(k + 1 + i, fields[1..][i].1) == Some(vs[1..][i]) {
        assert FieldFromJson(k + (i + 1), fields[i + 1].1) == Some(vs[i + 1]);
      }
      FieldsRoundTrip(fields[1..], k + 1, vs[1..]);
      assert FieldFromJson(k + 0, fields[0].1) == Some(vs[0]);
      assert [vs[0]] + vs[1..] == vs;
    }
  }

  /** Each value of a course document decodes to the field it came from. */
  lemma CourseFieldRoundTrip(c: Course, i: nat)
    requires ValidCourse(c) && i < 12
    ensures FieldFromJson(i, CourseJson(c).fields[i].1) == Some(CourseFields(c)[i])
  {
    var f := CourseJson(c).fields;
    if i == 8 {
      RatingsRoundTrip(c.ratings.items);
    } else if i == 9 {
      ReasonsRoundTrip(c.reasons);
    } else if i == 10 {
      InstructorsRoundTrip(c.instructors.items);
    } else if i == 11 {
      QuestionsRoundTrip(c.questions.items);
    }
  }

  /** Reading back what to_json_dict produced gives the course back: no field
      is lost, every key is in its fixed place and every nested list keeps
      its length and order. */
  lemma CourseRoundTrip(c: Course)
    requires ValidCourse(c)
    ensures CourseFromJson(CourseJson(c)) == Some(c)
  {
    var f := CourseJson(c).fields;
    var vs := CourseFields(c);
    assert Keys(f) == COURSE_KEYS;
    forall i | 0 <= i < 12 ensures FieldFromJson(0 + i, f[i].1) == Some(vs[i]) {
      CourseFieldRoundTrip(c, i);
    }
    FieldsRoundTrip(f, 0, vs);
  }



}
