/** The tools the model can call (content search and course outline) and the
    registry that advertises them, dispatches calls by name and collects the
    citations the last call produced. */
module SearchTools {
  import opened Wrappers
  import opened Text
  import opened VectorStore
  import Dedup
  import PyDict

  // ---------------------------------------------------------------------------
  // Tool definitions and the calling convention
  // ---------------------------------------------------------------------------

  /** One property of a tool's input schema. */
  datatype Param = Param(name: string, kind: string, description: string)

  /** The definition a tool advertises to the model. A definition without a
      `name` key is represented by the empty name. */
  datatype ToolDefinition = ToolDefinition(
    name: string,
    description: string,
    properties: seq<Param>,
    required: seq<string>)

  const SEARCH_TOOL_NAME: string := "search_course_content"
  const OUTLINE_TOOL_NAME: string := "get_course_outline"

  const SEARCH_DEFINITION: ToolDefinition := ToolDefinition(
    SEARCH_TOOL_NAME,
    "Search course materials with smart course name matching and lesson filtering",
    [ Param("query", "string", "What to search for in the course content"),
      Param("course_name", "string", "Course title (partial matches work, e.g. 'MCP', 'Introduction')"),
      Param("lesson_number", "integer", "Specific lesson number to search within (e.g. 1, 2, 3)") ],
    ["query"])

  const OUTLINE_DEFINITION: ToolDefinition := ToolDefinition(
    OUTLINE_TOOL_NAME,
    "Get the complete outline/structure of a course including all lessons. Use this when users ask about course structure, lesson lists, what topics are covered, or the outline of a course.",
    [ Param("course_title", "string", "The course title to get the outline for (partial matches work, e.g. 'MCP', 'Claude Code')") ],
    ["course_title"])

  /** The keyword arguments of a tool call, one record per tool signature. */
  datatype Arguments =
    | SearchArgs(query: string, courseName: Option<string>, lessonNumber: Option<int>)
    | OutlineArgs(courseTitle: string)

  const SEARCH_ARGS_ERROR: string := "CourseSearchTool.execute() got an unexpected keyword argument 'course_title'"
  const OUTLINE_ARGS_ERROR: string := "CourseOutlineTool.execute() got an unexpected keyword argument 'query'"

  /** Fixed message texts of the tools and the manager. */
  const NO_CONTENT: string := "No relevant content found"
  const NO_COURSE: string := "No course found matching '"
  const NO_METADATA: string := "Could not retrieve metadata for course '"
  const NAME_REQUIRED: string := "Tool must have a 'name' in its definition"

  /** What running a tool does: return text, or raise with a message. */
  datatype Outcome = Returned(text: string) | Raised(message: string)

  // ---------------------------------------------------------------------------
  // Content search: formatting and citations
  // ---------------------------------------------------------------------------

  /** One (document, metadata) pair after the defaults are applied:
      `meta.get('course_title', 'unknown')` and `meta.get('lesson_number')`. */
  datatype Row = Row(doc: string, title: string, lesson: Option<int>)

  function CourseTitleOf(m: ChunkMeta): string {
    match m.courseTitle
    case Some(t) => t
    case None => "unknown"
  }

  /** `zip(results.documents, results.metadata)`: pairs up to the shorter list. */
  function RowsOf(r: SearchResults): (rows: seq<Row>)
    ensures |rows| == if |r.documents| <= |r.metadata| then |r.documents| else |r.metadata|
    ensures forall i :: 0 <= i < |rows| ==>
              rows[i] == Row(r.documents[i], CourseTitleOf(r.metadata[i]), r.metadata[i].lessonNumber)
  {
    var n := if |r.documents| <= |r.metadata| then |r.documents| else |r.metadata|;
    seq(n, i requires 0 <= i < n => Row(r.documents[i], CourseTitleOf(r.metadata[i]), r.metadata[i].lessonNumber))
  }

  /** `" - Lesson n"` when the lesson number is not `None` (lesson 0 included). */
  function LessonSuffix(lesson: Option<int>): string {
    if lesson.Some? then " - Lesson " + IntToString(lesson.value) else ""
  }

  /** The labelled block of one retrieved chunk. */
  function Block(r: Row): string {
    "[" + r.title + LessonSuffix(r.lesson) + "]" + "\n" + r.doc
  }

  /** The text handed back to the model: the blocks in store order, separated
      by blank lines. */
  function ResultsText(rows: seq<Row>): string {
    Join(seq(|rows|, i requires 0 <= i < |rows| => Block(rows[i])), "\n\n")
  }

  /** The deduplication key `f"{course_title}|{lesson_num}"`. */
  function SourceKey(title: string, lesson: Option<int>): string {
    title + "|" + LessonKey(lesson)
  }

  function LessonKey(lesson: Option<int>): string {
    match lesson
    case Some(n) => IntToString(n)
    case None => "None"
  }

  /** The pair the string key stands for. */
  function RowKey(r: Row): (string, Option<int>) {
    (r.title, r.lesson)
  }

  /** The citation for a row: the lesson link is looked up only when there is a
      lesson number. */
  function SourceFor(store: Store, r: Row): Source {
    Source(r.title + LessonSuffix(r.lesson),
           if r.lesson.Some? then store.lessonLink(r.title, r.lesson.value) else None)
  }

  function SourcesOfRows(store: Store, fs: seq<Row>): (ss: seq<Source>)
    ensures |ss| == |fs|
  {
    seq(|fs|, i requires 0 <= i < |fs| => SourceFor(store, fs[i]))
  }

  /** The citations a formatting records: one per distinct (title, lesson) pair,
      in first-seen order. */
  function SourcesFor(store: Store, rows: seq<Row>): seq<Source> {
    SourcesOfRows(store, Dedup.FirstSeen(rows, RowKey))
  }

  /** The `get_lesson_link` calls made for the given new sources, in order. */
  function LessonLookups(fs: seq<Row>): seq<(string, int)>
    decreases |fs|
  {
    if fs == [] then []
    else
      var r := fs[|fs| - 1];
      LessonLookups(fs[..|fs| - 1]) + (if r.lesson.Some? then [(r.title, r.lesson.value)] else [])
  }

  /** The `get_lesson_link` calls a formatting of `rows` makes. */
  function LinkLookups(rows: seq<Row>): seq<(string, int)> {
    LessonLookups(Dedup.FirstSeen(rows, RowKey))
  }

  /** `filter_info`: each filter is mentioned only when it is truthy. */
  function FilterInfo(courseName: Option<string>, lessonNumber: Option<int>): string {
    (if TruthyString(courseName) then " in course '" + courseName.value + "'" else "")
    + (if TruthyInt(lessonNumber) then " in lesson " + IntToString(lessonNumber.value) else "")
  }

  function NoContentMessage(courseName: Option<string>, lessonNumber: Option<int>): string {
    NO_CONTENT + FilterInfo(courseName, lessonNumber) + "."
  }

  /** What `CourseSearchTool.execute` returns for the given store and arguments. */
  function SearchOutput(store: Store, query: string, courseName: Option<string>, lessonNumber: Option<int>): string {
    var results := store.search(query, courseName, lessonNumber);
    if TruthyString(results.error) then results.error.value
    else if |results.documents| == 0 then NoContentMessage(courseName, lessonNumber)
    else ResultsText(RowsOf(results))
  }

  /** The search tool's `last_sources` after `execute`, given its value before. */
  function SearchSourcesAfter(store: Store, query: string, courseName: Option<string>,
                              lessonNumber: Option<int>, before: seq<Source>): seq<Source> {
    var results := store.search(query, courseName, lessonNumber);
    if TruthyString(results.error) || |results.documents| == 0 then before
    else SourcesFor(store, RowsOf(results))
  }

  /** The `get_lesson_link` calls recorded after `execute`: only the formatting
      path looks links up. */
  function SearchLookupsAfter(store: Store, query: string, courseName: Option<string>,
                              lessonNumber: Option<int>, before: seq<(string, int)>): seq<(string, int)> {
    var results := store.search(query, courseName, lessonNumber);
    if TruthyString(results.error) || |results.documents| == 0 then before
    else LinkLookups(RowsOf(results))
  }

  // ---------------------------------------------------------------------------
  // Lemmas about search formatting and citations
  // ---------------------------------------------------------------------------

  lemma NoneIsNotANumber(n: int)
    ensures IntToString(n) != "None"
  {
    assert "None"[0] == 'N';
  }

  lemma LessonKeyInjective(a: Option<int>, b: Option<int>)
    requires LessonKey(a) == LessonKey(b)
    ensures a == b
  {
    if a.Some? { NoneIsNotANumber(a.value); }
    if b.Some? { NoneIsNotANumber(b.value); }
    if a.Some? && b.Some? { IntToStringInjective(a.value, b.value); }
  }

  predicate NoPipe(s: string) {
    forall i :: 0 <= i < |s| ==> s[i] != '|'
  }

  lemma LessonKeyNoPipe(lesson: Option<int>)
    ensures NoPipe(LessonKey(lesson))
  {
    if lesson.None? {
      assert LessonKey(lesson) == ['N', 'o', 'n', 'e'];
    }
  }

  /** Two keys whose pipe-free tails differ in length differ: the last '|'
      sits at different positions. */
  lemma KeyTailLength(t1: string, l1: string, t2: string, l2: string)
    requires NoPipe(l1) && NoPipe(l2)
    ensures |l1| < |l2| ==> t1 + "|" + l1 != t2 + "|" + l2
  {
    if |l1| < |l2| {
      var k1, k2 := t1 + "|" + l1, t2 + "|" + l2;
      if |k1| == |k2| {
        var p := |k1| - |l1| - 1;
        assert k1[p] == '|';
        assert k2[p] == l2[p - (|k2| - |l2|)];
      }
    }
  }

  /** The string key identifies the (title, lesson) pair: deduplicating on the
      string is deduplicating on the pair, even for titles containing '|'. */
  lemma SourceKeyInjective(t1: string, l1: Option<int>, t2: string, l2: Option<int>)
    requires SourceKey(t1, l1) == SourceKey(t2, l2)
    ensures t1 == t2 && l1 == l2
  {
    var s1, s2 := LessonKey(l1), LessonKey(l2);
    LessonKeyNoPipe(l1);
    LessonKeyNoPipe(l2);
    KeyTailLength(t1, s1, t2, s2);
    KeyTailLength(t2, s2, t1, s1);
    var k := SourceKey(t1, l1);
    assert s1 == k[|k| - |s1|..] == s2;
    assert t1 == k[..|t1|] == t2;
    LessonKeyInjective(l1, l2);
  }

  /** The string keys of the first `i` rows, as `seen_sources` collects them. */
  ghost function SeenKeys(rows: seq<Row>, i: nat): set<string>
    requires i <= |rows|
    decreases i
  {
    if i == 0 then {} else SeenKeys(rows, i - 1) + {SourceKey(rows[i - 1].title, rows[i - 1].lesson)}
  }

  /** A key in `SeenKeys(rows, i)` comes from one of the first `i` rows. */
  lemma {:induction false} SeenKeysWitness(rows: seq<Row>, i: nat, k: string) returns (j: nat)
    requires i <= |rows| && k in SeenKeys(rows, i)
    ensures j < i && SourceKey(rows[j].title, rows[j].lesson) == k
    decreases i
  {
    if SourceKey(rows[i - 1].title, rows[i - 1].lesson) == k {
      j := i - 1;
    } else {
      j := SeenKeysWitness(rows, i - 1, k);
    }
  }

  /** The key of each of the first `i` rows is in `SeenKeys(rows, i)`. */
  lemma SeenKeysHas(rows: seq<Row>, i: nat, j: nat)
    requires j < i <= |rows|
    ensures SourceKey(rows[j].title, rows[j].lesson) in SeenKeys(rows, i)
  {
    assert SourceKey(rows[j].title, rows[j].lesson) in SeenKeys(rows, j + 1);
    for m := j + 1 to i
      invariant SourceKey(rows[j].title, rows[j].lesson) in SeenKeys(rows, m)
    {
      assert SeenKeys(rows, m + 1) == SeenKeys(rows, m) + {SourceKey(rows[m].title, rows[m].lesson)};
    }
  }

  /** A row's string key has been seen exactly when its pair has. */
  lemma SeenIffKnown(rows: seq<Row>, i: nat)
    requires i < |rows|
    ensures SourceKey(rows[i].title, rows[i].lesson) in SeenKeys(rows, i)
        <==> RowKey(rows[i]) in Dedup.KeySet(rows[..i], RowKey)
  {
    if SourceKey(rows[i].title, rows[i].lesson) in SeenKeys(rows, i) {
      var j := SeenKeysWitness(rows, i, SourceKey(rows[i].title, rows[i].lesson));
      SourceKeyInjective(rows[j].title, rows[j].lesson, rows[i].title, rows[i].lesson);
      assert rows[..i][j] == rows[j];
    }
    if RowKey(rows[i]) in Dedup.KeySet(rows[..i], RowKey) {
      var j :| 0 <= j < i && RowKey(rows[..i][j]) == RowKey(rows[i]);
      assert rows[..i][j] == rows[j];
      SeenKeysHas(rows, i, j);
    }
  }

  lemma LessonLookupsSnoc(fs: seq<Row>, r: Row)
    ensures LessonLookups(fs + [r]) == LessonLookups(fs) + (if r.lesson.Some? then [(r.title, r.lesson.value)] else [])
  {
    assert (fs + [r])[..|fs|] == fs;
  }

  lemma SourcesOfRowsSnoc(store: Store, fs: seq<Row>, r: Row)
    ensures SourcesOfRows(store, fs + [r]) == SourcesOfRows(store, fs) + [SourceFor(store, r)]
  {
  }

  /** One more row: a new pair adds its citation, a pair already seen adds
      nothing. */
  lemma SourcesStep(store: Store, rows: seq<Row>, i: nat)
    requires i < |rows|
    ensures SourcesFor(store, rows[..i + 1])
         == SourcesFor(store, rows[..i])
            + (if RowKey(rows[i]) in Dedup.KeySet(rows[..i], RowKey) then [] else [SourceFor(store, rows[i])])
  {
    Dedup.FirstSeenSnoc(rows, RowKey, i);
    var prev := Dedup.FirstSeen(rows[..i], RowKey);
    if RowKey(rows[i]) !in Dedup.KeySet(rows[..i], RowKey) {
      SourcesOfRowsSnoc(store, prev, rows[i]);
    } else {
      assert prev + [] == prev;
    }
  }

  /** One more row: a new pair with a lesson adds one link lookup; anything
      else adds none. */
  lemma LookupsStep(rows: seq<Row>, i: nat)
    requires i < |rows|
    ensures LinkLookups(rows[..i + 1])
         == LinkLookups(rows[..i])
            + (if RowKey(rows[i]) in Dedup.KeySet(rows[..i], RowKey) || rows[i].lesson.None? then []
               else [(rows[i].title, rows[i].lesson.value)])
  {
    Dedup.FirstSeenSnoc(rows, RowKey, i);
    var prev := Dedup.FirstSeen(rows[..i], RowKey);
    if RowKey(rows[i]) !in Dedup.KeySet(rows[..i], RowKey) {
      LessonLookupsSnoc(prev, rows[i]);
    } else {
      assert prev + [] == prev;
    }
  }

  /** The blocks the loop of `_format_results` has formatted after `i` rows. */
  ghost function LoopBlocks(rows: seq<Row>, i: nat): seq<string>
    requires i <= |rows|
    decreases i
  {
    if i == 0 then [] else LoopBlocks(rows, i - 1) + [Block(rows[i - 1])]
  }

  lemma {:induction false} LoopBlocksAreBlocks(rows: seq<Row>, i: nat)
    requires i <= |rows|
    ensures |LoopBlocks(rows, i)| == i
    ensures forall j :: 0 <= j < i ==> LoopBlocks(rows, i)[j] == Block(rows[j])
    decreases i
  {
    if i > 0 {
      LoopBlocksAreBlocks(rows, i - 1);
    }
  }

  /** The citations the loop of `_format_results` has collected after `i`
      rows, deduplicating on the string key. */
  ghost function LoopSources(store: Store, rows: seq<Row>, i: nat): seq<Source>
    requires i <= |rows|
    decreases i
  {
    if i == 0 then []
    else LoopSources(store, rows, i - 1)
         + (if SourceKey(rows[i - 1].title, rows[i - 1].lesson) in SeenKeys(rows, i - 1) then []
            else [SourceFor(store, rows[i - 1])])
  }

  /** The link lookups the loop has made after `i` rows. */
  ghost function LoopLookups(rows: seq<Row>, i: nat): seq<(string, int)>
    requires i <= |rows|
    decreases i
  {
    if i == 0 then []
    else LoopLookups(rows, i - 1)
         + (if SourceKey(rows[i - 1].title, rows[i - 1].lesson) in SeenKeys(rows, i - 1) || rows[i - 1].lesson.None? then []
            else [(rows[i - 1].title, rows[i - 1].lesson.value)])
  }

  /** Deduplicating on the string key `title|lesson` gives the first-seen
      citations of the (title, lesson) pairs. */
  lemma LoopSourcesCorrect(store: Store, rows: seq<Row>, i: nat)
    requires i <= |rows|
    ensures LoopSources(store, rows, i) == SourcesFor(store, rows[..i])
  {
    assert rows[..0] == [];
    for k := 0 to i
      invariant LoopSources(store, rows, k) == SourcesFor(store, rows[..k])
    {
      SeenIffKnown(rows, k);
      SourcesStep(store, rows, k);
    }
  }

  /** The loop looks up the links of exactly the first-seen pairs that have a
      lesson number. */
  lemma LoopLookupsCorrect(rows: seq<Row>, i: nat)
    requires i <= |rows|
    ensures LoopLookups(rows, i) == LinkLookups(rows[..i])
  {
    assert rows[..0] == [];
    for k := 0 to i
      invariant LoopLookups(rows, k) == LinkLookups(rows[..k])
    {
      SeenIffKnown(rows, k);
      LookupsStep(rows, k);
    }
  }

  /** After the last row the loop has produced the results text, the
      citations and the lookups of the specification. */
  lemma LoopFinished(store: Store, rows: seq<Row>)
    ensures Join(LoopBlocks(rows, |rows|), "\n\n") == ResultsText(rows)
    ensures LoopSources(store, rows, |rows|) == SourcesFor(store, rows)
    ensures LoopLookups(rows, |rows|) == LinkLookups(rows)
  {
    assert rows[..|rows|] == rows;
    LoopSourcesCorrect(store, rows, |rows|);
    LoopLookupsCorrect(rows, |rows|);
    LoopBlocksAreBlocks(rows, |rows|);
    assert LoopBlocks(rows, |rows|) == seq(|rows|, j requires 0 <= j < |rows| => Block(rows[j]));
  }

  /** Citations: one per distinct (title, lesson) pair of the results, no pair
      twice, each built from the first row with its pair, in the order the
      pairs first occur. */
  lemma SourcesDeduplicated(store: Store, rows: seq<Row>)
    ensures |SourcesFor(store, rows)| == |Dedup.KeySet(rows, RowKey)|
    ensures Dedup.KeySet(Dedup.FirstSeen(rows, RowKey), RowKey) == Dedup.KeySet(rows, RowKey)
    ensures forall p :: 0 <= p < |SourcesFor(store, rows)| ==>
              SourcesFor(store, rows)[p]
                == SourceFor(store, rows[Dedup.FirstIndex(rows, RowKey, RowKey(Dedup.FirstSeen(rows, RowKey)[p]))])
    ensures forall p, q :: 0 <= p < q < |SourcesFor(store, rows)| ==>
              RowKey(Dedup.FirstSeen(rows, RowKey)[p]) != RowKey(Dedup.FirstSeen(rows, RowKey)[q])
              && Dedup.FirstIndex(rows, RowKey, RowKey(Dedup.FirstSeen(rows, RowKey)[p]))
                 < Dedup.FirstIndex(rows, RowKey, RowKey(Dedup.FirstSeen(rows, RowKey)[q]))
  {
    Dedup.FirstSeenLength(rows, RowKey);
    Dedup.FirstSeenKeys(rows, RowKey);
    Dedup.FirstSeenDistinct(rows, RowKey);
    Dedup.FirstSeenOrder(rows, RowKey);
  }

  /** The rows of the search tool's deduplication example: two chunks of
      lesson 1 and one chunk of lesson 2 of the same course. */
  function DuplicateLessonRows(title: string, d1: string, d2: string, d3: string): seq<Row> {
    [Row(d1, title, Some(1)), Row(d2, title, Some(1)), Row(d3, title, Some(2))]
  }

  lemma DuplicateLessonFirstSeen(title: string, d1: string, d2: string, d3: string)
    ensures Dedup.FirstSeen(DuplicateLessonRows(title, d1, d2, d3), RowKey)
         == [Row(d1, title, Some(1)), Row(d3, title, Some(2))]
  {
    var r0, r1, r2 := Row(d1, title, Some(1)), Row(d2, title, Some(1)), Row(d3, title, Some(2));
    SameLessonFirstSeen(r0, r1);
    assert [r0, r1, r2] == [r0, r1] + [r2];
    Dedup.FirstSeenAppend([r0, r1], r2, RowKey);
    Dedup.KeySetPair(r0, r1, RowKey);
  }

  /** A second chunk of the same lesson adds no citation. */
  lemma SameLessonFirstSeen(r0: Row, r1: Row)
    requires RowKey(r0) == RowKey(r1)
    ensures Dedup.FirstSeen([r0, r1], RowKey) == [r0]
  {
    assert [r0] == [] + [r0] && [r0, r1] == [r0] + [r1];
    Dedup.FirstSeenAppend([], r0, RowKey);
    Dedup.FirstSeenAppend([r0], r1, RowKey);
    assert [r0][0] == r0;
  }

  /** The example of the search tool's tests: two chunks of lesson 1 and one of
      lesson 2 of the same course give exactly two citations, with one link
      lookup each. */
  lemma DuplicateLessonGivesTwoSources(store: Store, title: string, d1: string, d2: string, d3: string)
    ensures SourcesFor(store, DuplicateLessonRows(title, d1, d2, d3))
         == [Source(title + " - Lesson 1", store.lessonLink(title, 1)),
             Source(title + " - Lesson 2", store.lessonLink(title, 2))]
  {
    var r0, r2 := Row(d1, title, Some(1)), Row(d3, title, Some(2));
    DuplicateLessonFirstSeen(title, d1, d2, d3);
    assert IntToString(1) == "1" && IntToString(2) == "2";
    assert LessonSuffix(Some(1)) == " - Lesson 1" && LessonSuffix(Some(2)) == " - Lesson 2";
    assert SourcesOfRows(store, [r0, r2]) == [SourceFor(store, r0), SourceFor(store, r2)];
  }

  lemma {:induction false} LessonLookupsMembers(fs: seq<Row>)
    ensures forall x :: x in LessonLookups(fs) ==>
              exists p :: 0 <= p < |fs| && fs[p].lesson == Some(x.1) && fs[p].title == x.0
    ensures forall p :: 0 <= p < |fs| && fs[p].lesson.Some? ==> (fs[p].title, fs[p].lesson.value) in LessonLookups(fs)
    ensures |LessonLookups(fs)| <= |fs|
    ensures (forall p :: 0 <= p < |fs| ==> fs[p].lesson.None?) ==> LessonLookups(fs) == []
    decreases |fs|
  {
    if fs != [] {
      var init := fs[..|fs| - 1];
      LessonLookupsMembers(init);
      assert forall p :: 0 <= p < |init| ==> init[p] == fs[p];
      forall x | x in LessonLookups(fs)
        ensures exists p :: 0 <= p < |fs| && fs[p].lesson == Some(x.1) && fs[p].title == x.0
      {
        if x in LessonLookups(init) {
          var p :| 0 <= p < |init| && init[p].lesson == Some(x.1) && init[p].title == x.0;
          assert fs[p] == init[p];
        } else {
          assert fs[|fs| - 1].lesson == Some(x.1) && fs[|fs| - 1].title == x.0;
        }
      }
      forall p | 0 <= p < |fs| && fs[p].lesson.Some?
        ensures (fs[p].title, fs[p].lesson.value) in LessonLookups(fs)
      {
        if p < |init| { assert fs[p] == init[p]; }
      }
    }
  }

  /** Rows with pairwise distinct keys look up pairwise distinct links. */
  lemma {:induction false} LessonLookupsDistinct(fs: seq<Row>)
    requires forall p, q :: 0 <= p < q < |fs| ==> RowKey(fs[p]) != RowKey(fs[q])
    ensures forall p, q :: 0 <= p < q < |LessonLookups(fs)| ==> LessonLookups(fs)[p] != LessonLookups(fs)[q]
    decreases |fs|
  {
    if fs != [] {
      var init, r := fs[..|fs| - 1], fs[|fs| - 1];
      assert forall p :: 0 <= p < |init| ==> init[p] == fs[p];
      LessonLookupsDistinct(init);
      LessonLookupsMembers(init);
      if r.lesson.Some? {
        var x := (r.title, r.lesson.value);
        forall p | 0 <= p < |init| ensures !(init[p].lesson == Some(x.1) && init[p].title == x.0) {
          assert RowKey(fs[p]) != RowKey(fs[|fs| - 1]);
        }
        assert x !in LessonLookups(init);
        assert LessonLookups(fs) == LessonLookups(init) + [x];
      }
    }
  }

  /** No link is looked up twice. */
  lemma LinkLookupsDistinct(rows: seq<Row>)
    ensures forall p, q :: 0 <= p < q < |LinkLookups(rows)| ==> LinkLookups(rows)[p] != LinkLookups(rows)[q]
  {
    Dedup.FirstSeenDistinct(rows, RowKey);
    assert forall p, q :: 0 <= p < q < |Dedup.FirstSeen(rows, RowKey)| ==>
      RowKey(Dedup.FirstSeen(rows, RowKey)[p]) != RowKey(Dedup.FirstSeen(rows, RowKey)[q]);
    LessonLookupsDistinct(Dedup.FirstSeen(rows, RowKey));
  }

  /** `get_lesson_link` is called once per new citation that has a lesson
      number, and for nothing else: a call is made for (t, n) exactly when
      (t, n) is a pair of the results, no pair is looked up twice, and no
      call is made when no row has a lesson. */
  lemma LinkLookupsOnlyForLessons(rows: seq<Row>)
    ensures forall x :: x in LinkLookups(rows) <==> (x.0, Some(x.1)) in Dedup.KeySet(rows, RowKey)
    ensures forall p, q :: 0 <= p < q < |LinkLookups(rows)| ==> LinkLookups(rows)[p] != LinkLookups(rows)[q]
    ensures |LinkLookups(rows)| <= |Dedup.KeySet(rows, RowKey)|
    ensures (forall i :: 0 <= i < |rows| ==> rows[i].lesson.None?) ==> LinkLookups(rows) == []
  {
    LinkLookupsDistinct(rows);
    var fs := Dedup.FirstSeen(rows, RowKey);
    LessonLookupsMembers(fs);
    Dedup.FirstSeenKeys(rows, RowKey);
    Dedup.FirstSeenLength(rows, RowKey);
    forall x: (string, int) | (x.0, Some(x.1)) in Dedup.KeySet(rows, RowKey) ensures x in LinkLookups(rows) {
      assert (x.0, Some(x.1)) in Dedup.KeySet(fs, RowKey);
      var p :| 0 <= p < |fs| && RowKey(fs[p]) == (x.0, Some(x.1));
    }
    forall x | x in LinkLookups(rows) ensures (x.0, Some(x.1)) in Dedup.KeySet(rows, RowKey) {
      var p :| 0 <= p < |fs| && fs[p].lesson == Some(x.1) && fs[p].title == x.0;
      assert RowKey(fs[p]) == (x.0, Some(x.1));
    }
    if forall i :: 0 <= i < |rows| ==> rows[i].lesson.None? {
      forall p | 0 <= p < |fs| ensures fs[p].lesson.None? {
        var k := RowKey(fs[p]);
        assert k in Dedup.KeySet(rows, RowKey);
        var i :| 0 <= i < |rows| && RowKey(rows[i]) == k;
      }
    }
  }

  /** Every chunk's labelled block occurs in the text handed to the model. */
  lemma ResultsTextHasEveryBlock(rows: seq<Row>, i: nat)
    requires i < |rows|
    ensures Contains(ResultsText(rows), "[" + rows[i].title + LessonSuffix(rows[i].lesson) + "]" + "\n" + rows[i].doc)
  {
    JoinContains(seq(|rows|, j requires 0 <= j < |rows| => Block(rows[j])), "\n\n", i);
  }

  /** The "no content" message names the course filter when it is truthy. */
  lemma NoContentMentionsCourse(courseName: Option<string>, lessonNumber: Option<int>)
    requires TruthyString(courseName)
    ensures Contains(NoContentMessage(courseName, lessonNumber), " in course '" + courseName.value + "'")
  {
    var cpart := " in course '" + courseName.value + "'";
    var lpart := if TruthyInt(lessonNumber) then " in lesson " + IntToString(lessonNumber.value) else "";
    assert NoContentMessage(courseName, lessonNumber) == NO_CONTENT + cpart + (lpart + ".");
    ContainsMiddle(NO_CONTENT, cpart, lpart + ".");
  }

  /** The "no content" message names the lesson filter when it is truthy. */
  lemma NoContentMentionsLesson(courseName: Option<string>, lessonNumber: Option<int>)
    requires TruthyInt(lessonNumber)
    ensures Contains(NoContentMessage(courseName, lessonNumber), " in lesson " + IntToString(lessonNumber.value))
  {
    var cpart := if TruthyString(courseName) then " in course '" + courseName.value + "'" else "";
    var lpart := " in lesson " + IntToString(lessonNumber.value);
    assert NoContentMessage(courseName, lessonNumber) == (NO_CONTENT + cpart) + lpart + ".";
    ContainsMiddle(NO_CONTENT + cpart, lpart, ".");
  }

  /** Lesson 0 and the empty course name count as no filter; with no truthy
      filter the message is the bare sentence. */
  lemma NoContentIgnoresFalsyFilters(courseName: Option<string>, lessonNumber: Option<int>)
    ensures NoContentMessage(courseName, Some(0)) == NoContentMessage(courseName, None)
    ensures NoContentMessage(Some(""), lessonNumber) == NoContentMessage(None, lessonNumber)
    ensures !TruthyString(courseName) && !TruthyInt(lessonNumber) ==>
              NoContentMessage(courseName, lessonNumber) == NO_CONTENT + "."
  {
  }

  /** A store error is returned verbatim, whatever documents came with it. */
  lemma SearchErrorIsReturned(store: Store, query: string, courseName: Option<string>, lessonNumber: Option<int>,
                               before: seq<Source>)
    requires TruthyString(store.search(query, courseName, lessonNumber).error)
    ensures SearchOutput(store, query, courseName, lessonNumber) == store.search(query, courseName, lessonNumber).error.value
    ensures SearchSourcesAfter(store, query, courseName, lessonNumber, before) == before
  {
  }

  // ---------------------------------------------------------------------------
  // Course outline
  // ---------------------------------------------------------------------------

  /** `next((c for c in all_courses if c.get('title') == title), None)`. */
  function FindCourse(courses: seq<CourseMeta>, title: string): (r: Option<CourseMeta>)
    ensures r.None? <==> forall i :: 0 <= i < |courses| ==> courses[i].title != Some(title)
    ensures r.Some? ==> exists i :: 0 <= i < |courses| && r.value == courses[i]
                          && courses[i].title == Some(title)
                          && forall j :: 0 <= j < i ==> courses[j].title != Some(title)
    decreases |courses|
  {
    if courses == [] then None
    else if courses[0].title == Some(title) then Some(courses[0])
    else
      var r := FindCourse(courses[1..], title);
      assert forall i :: 1 <= i < |courses| ==> courses[i] == courses[1..][i - 1];
      if r.Some? then
        assert exists i :: 0 <= i < |courses[1..]| && r.value == courses[1..][i]
                 && courses[1..][i].title == Some(title)
                 && forall j :: 0 <= j < i ==> courses[1..][j].title != Some(title);
        var i :| 0 <= i < |courses[1..]| && r.value == courses[1..][i]
                 && courses[1..][i].title == Some(title)
                 && forall j :: 0 <= j < i ==> courses[1..][j].title != Some(title);
        assert forall j :: 1 <= j < i + 1 ==> courses[j].title != Some(title);
        r
      else r
  }

  function CourseTitleOrDefault(c: CourseMeta): string {
    match c.title
    case Some(t) => t
    case None => "Unknown Course"
  }

  /** `f"  {lesson_num}. {lesson_title}"` with the defaults '?' and 'Untitled'. */
  function LessonLine(l: LessonMeta): string {
    "  " + (match l.lessonNumber case Some(n) => IntToString(n) case None => "?")
    + ". " + (match l.lessonTitle case Some(t) => t case None => "Untitled")
  }

  function LessonLines(ls: seq<LessonMeta>): (lines: seq<string>)
    ensures |lines| == |ls|
  {
    seq(|ls|, i requires 0 <= i < |ls| => LessonLine(ls[i]))
  }

  /** The header lines of an outline, before empty lines are dropped. */
  function OutlineHeader(c: CourseMeta): seq<string> {
    [ "Course: " + CourseTitleOrDefault(c),
      if TruthyString(c.courseLink) then "Course Link: " + c.courseLink.value else "",
      "Total Lessons: " + IntToString(|c.lessons|),
      "",
      "Lessons:" ]
  }

  /** `[line for line in lines if line]`. */
  function NonEmptyLines(lines: seq<string>): seq<string>
    decreases |lines|
  {
    if lines == [] then []
    else NonEmptyLines(lines[..|lines| - 1]) + (if lines[|lines| - 1] != "" then [lines[|lines| - 1]] else [])
  }

  /** The outline text of a course record. */
  function OutlineText(c: CourseMeta): string {
    Join(NonEmptyLines(OutlineHeader(c) + LessonLines(c.lessons)), "\n")
  }

  /** What `CourseOutlineTool.execute` returns. */
  function OutlineOutput(store: Store, courseTitle: string): string {
    var resolved := store.resolveCourseName(courseTitle);
    if !TruthyString(resolved) then NO_COURSE + courseTitle + "'"
    else match FindCourse(store.coursesMetadata, resolved.value)
      case None => NO_METADATA + resolved.value + "'"
      case Some(c) => OutlineText(c)
  }

  /** The outline tool's `last_sources` after `execute`, given its value before. */
  function OutlineSourcesAfter(store: Store, courseTitle: string, before: seq<Source>): seq<Source> {
    var resolved := store.resolveCourseName(courseTitle);
    if !TruthyString(resolved) then before
    else match FindCourse(store.coursesMetadata, resolved.value)
      case None => before
      case Some(c) => [Source(CourseTitleOrDefault(c), c.courseLink)]
  }

  lemma NonEmptyLinesSnoc(lines: seq<string>, x: string)
    ensures NonEmptyLines(lines + [x]) == NonEmptyLines(lines) + (if x != "" then [x] else [])
  {
    assert (lines + [x])[..|lines|] == lines;
  }

  lemma {:induction false} NonEmptyLinesConcat(a: seq<string>, b: seq<string>)
    ensures NonEmptyLines(a + b) == NonEmptyLines(a) + NonEmptyLines(b)
    decreases |b|
  {
    if b != [] {
      var init, last := b[..|b| - 1], b[|b| - 1];
      var tail := if last != "" then [last] else [];
      NonEmptyLinesConcat(a, init);
      assert a + b == (a + init) + [last];
      NonEmptyLinesSnoc(a + init, last);
      NonEmptyLinesSnoc(init, last);
      assert b == init + [last];
      calc {
        NonEmptyLines(a + b);
        NonEmptyLines(a + init) + tail;
        (NonEmptyLines(a) + NonEmptyLines(init)) + tail;
        NonEmptyLines(a) + (NonEmptyLines(init) + tail);
        NonEmptyLines(a) + NonEmptyLines(b);
      }
    } else {
      assert a + b == a;
    }
  }

  lemma {:induction false} NonEmptyLinesKeepsNonEmpty(lines: seq<string>)
    requires forall i :: 0 <= i < |lines| ==> lines[i] != ""
    ensures NonEmptyLines(lines) == lines
    decreases |lines|
  {
    if lines != [] {
      NonEmptyLinesKeepsNonEmpty(lines[..|lines| - 1]);
    }
  }

  /** The header lines that survive the filter. */
  function OutlineHeaderKept(c: CourseMeta): seq<string> {
    ["Course: " + CourseTitleOrDefault(c)]
    + (if TruthyString(c.courseLink) then ["Course Link: " + c.courseLink.value] else [])
    + ["Total Lessons: " + IntToString(|c.lessons|), "Lessons:"]
  }

  lemma OutlineHeaderFiltered(c: CourseMeta)
    ensures NonEmptyLines(OutlineHeader(c)) == OutlineHeaderKept(c)
  {
    var h := OutlineHeader(c);
    var link := if TruthyString(c.courseLink) then ["Course Link: " + c.courseLink.value] else [];
    assert h[0] != "" && h[2] != "" && h[3] == "" && h[4] != "";
    assert h[1] != "" <==> TruthyString(c.courseLink);
    assert h[..0] == [];
    assert h[..1][..0] == [] && h[..2][..1] == h[..1] && h[..3][..2] == h[..2];
    assert h[..4][..3] == h[..3] && h[..5] == h && h[..5][..4] == h[..4];
    assert NonEmptyLines(h[..1]) == [h[0]];
    assert NonEmptyLines(h[..2]) == [h[0]] + link;
    assert NonEmptyLines(h[..3]) == [h[0]] + link + [h[2]];
    assert NonEmptyLines(h[..4]) == [h[0]] + link + [h[2]];
    assert NonEmptyLines(h) == [h[0]] + link + [h[2]] + [h[4]];
  }

  /** Dropping empty lines removes exactly the course-link line when there is
      no truthy link and the blank separator: the outline is the course line,
      the link line if the link is truthy, the lesson count (the number of
      lessons), the "Lessons:" heading and one line per lesson in stored
      order. */
  lemma OutlineLines(c: CourseMeta)
    ensures OutlineText(c) == Join(
              ["Course: " + CourseTitleOrDefault(c)]
              + (if TruthyString(c.courseLink) then ["Course Link: " + c.courseLink.value] else [])
              + ["Total Lessons: " + IntToString(|c.lessons|), "Lessons:"]
              + LessonLines(c.lessons), "\n")
  {
    NonEmptyLinesConcat(OutlineHeader(c), LessonLines(c.lessons));
    NonEmptyLinesKeepsNonEmpty(LessonLines(c.lessons));
    OutlineHeaderFiltered(c);
  }

  /** An unresolved title and a title without a metadata record give the two
      error messages and leave the citations alone. */
  lemma OutlineErrors(store: Store, courseTitle: string, before: seq<Source>)
    ensures !TruthyString(store.resolveCourseName(courseTitle)) ==>
              OutlineOutput(store, courseTitle) == NO_COURSE + courseTitle + "'"
              && OutlineSourcesAfter(store, courseTitle, before) == before
    ensures TruthyString(store.resolveCourseName(courseTitle))
            && (forall i :: 0 <= i < |store.coursesMetadata| ==>
                  store.coursesMetadata[i].title != store.resolveCourseName(courseTitle)) ==>
              OutlineOutput(store, courseTitle)
                == NO_METADATA + store.resolveCourseName(courseTitle).value + "'"
              && OutlineSourcesAfter(store, courseTitle, before) == before
  {
  }

  /** A found course yields exactly one citation: its own title and link. */
  lemma OutlineSourceIsTheCourse(store: Store, courseTitle: string, before: seq<Source>)
    requires TruthyString(store.resolveCourseName(courseTitle))
    requires FindCourse(store.coursesMetadata, store.resolveCourseName(courseTitle).value).Some?
    ensures var c := FindCourse(store.coursesMetadata, store.resolveCourseName(courseTitle).value).value;
            OutlineSourcesAfter(store, courseTitle, before)
              == [Source(store.resolveCourseName(courseTitle).value, c.courseLink)]
  {
  }

  // ---------------------------------------------------------------------------
  // The two tool classes
  // ---------------------------------------------------------------------------

  /** Searches course content and remembers the citations of its last search. */
  class CourseSearchTool {
    const store: Store
    var lastSources: seq<Source>
    /** The `get_lesson_link` calls made by the most recent formatting. */
    ghost var lookups: seq<(string, int)>

    constructor (store: Store)
      ensures this.store == store && lastSources == [] && lookups == []
    {
      this.store := store;
      lastSources := [];
      lookups := [];
    }

    /** `execute(query, course_name, lesson_number)`. */
    method Execute(query: string, courseName: Option<string>, lessonNumber: Option<int>) returns (text: string)
      modifies this
      ensures text == SearchOutput(store, query, courseName, lessonNumber)
      ensures lastSources == SearchSourcesAfter(store, query, courseName, lessonNumber, old(lastSources))
      ensures lookups == SearchLookupsAfter(store, query, courseName, lessonNumber, old(lookups))
    {
      var results := store.search(query, courseName, lessonNumber);
      if TruthyString(results.error) {
        return results.error.value;
      }
      if |results.documents| == 0 {
        var filterInfo := FilterText(courseName, lessonNumber);
        return NO_CONTENT + filterInfo + ".";
      }
      text := FormatResults(results);
    }

    /** The description of the active filters in the "no content" message. */
    static method FilterText(courseName: Option<string>, lessonNumber: Option<int>) returns (filterInfo: string)
      ensures filterInfo == FilterInfo(courseName, lessonNumber)
    {
      filterInfo := "";
      if TruthyString(courseName) {
        filterInfo := filterInfo + (" in course '" + courseName.value + "'");
      }
      if TruthyInt(lessonNumber) {
        filterInfo := filterInfo + (" in lesson " + IntToString(lessonNumber.value));
      }
    }

    /** The bracketed context header of one chunk. */
    static method Header(courseTitle: string, lessonNum: Option<int>) returns (header: string)
      ensures header == "[" + courseTitle + LessonSuffix(lessonNum) + "]"
    {
      header := "[" + courseTitle;
      if lessonNum.Some? {
        header := header + (" - Lesson " + IntToString(lessonNum.value));
      }
      header := header + "]";
    }

    /** The citation of a (title, lesson) pair seen for the first time; the
        lesson link is looked up only when there is a lesson number. */
    method NewSource(ghost r: Row, courseTitle: string, lessonNum: Option<int>)
      returns (source: Source, ghost call: seq<(string, int)>)
      requires r.title == courseTitle && r.lesson == lessonNum
      ensures source == SourceFor(store, r)
      ensures call == if lessonNum.Some? then [(courseTitle, lessonNum.value)] else []
    {
      var sourceText := courseTitle;
      if lessonNum.Some? {
        sourceText := sourceText + (" - Lesson " + IntToString(lessonNum.value));
      }
      var link: Option<string> := None;
      call := [];
      if lessonNum.Some? {
        link := store.lessonLink(courseTitle, lessonNum.value);
        call := [(courseTitle, lessonNum.value)];
      }
      source := Source(sourceText, link);
    }

    /** Records the citation of row `i` unless its key was seen before. */
    method Cite(ghost rows: seq<Row>, ghost i: nat, courseTitle: string, lessonNum: Option<int>,
                seenSources: set<string>, sources: seq<Source>, ghost calls: seq<(string, int)>)
      returns (seen': set<string>, sources': seq<Source>, ghost calls': seq<(string, int)>)
      requires i < |rows| && rows[i].title == courseTitle && rows[i].lesson == lessonNum
      requires seenSources == SeenKeys(rows, i)
      requires sources == LoopSources(store, rows, i) && calls == LoopLookups(rows, i)
      ensures seen' == SeenKeys(rows, i + 1)
      ensures sources' == LoopSources(store, rows, i + 1) && calls' == LoopLookups(rows, i + 1)
    {
      seen', sources', calls' := seenSources, sources, calls;
      var sourceKey := SourceKey(courseTitle, lessonNum);
      if sourceKey !in seenSources {
        seen' := seenSources + {sourceKey};
        var source, call := NewSource(rows[i], courseTitle, lessonNum);
        sources' := sources + [source];
        calls' := calls + call;
      }
    }

    /** `_format_results(results)`: one labelled block per chunk, and the
        deduplicated citations stored in `lastSources`. */
    method FormatResults(results: SearchResults) returns (text: string)
      modifies this
      ensures text == ResultsText(RowsOf(results))
      ensures lastSources == SourcesFor(store, RowsOf(results))
      ensures lookups == LinkLookups(RowsOf(results))
    {
      ghost var rows := RowsOf(results);
      var n := if |results.documents| <= |results.metadata| then |results.documents| else |results.metadata|;
      var formatted: seq<string> := [];
      var sources: seq<Source> := [];
      var seenSources: set<string> := {};
      ghost var calls: seq<(string, int)> := [];
      for i := 0 to n
        invariant |rows| == n
        invariant formatted == LoopBlocks(rows, i)
        invariant seenSources == SeenKeys(rows, i)
        invariant sources == LoopSources(store, rows, i)
        invariant calls == LoopLookups(rows, i)
      {
        var doc, meta := results.documents[i], results.metadata[i];
        var courseTitle := CourseTitleOf(meta);
        var lessonNum := meta.lessonNumber;
        assert rows[i] == Row(doc, courseTitle, lessonNum);

        var header := Header(courseTitle, lessonNum);

        seenSources, sources, calls := Cite(rows, i, courseTitle, lessonNum, seenSources, sources, calls);
        assert header + "\n" + doc == Block(rows[i]);
        formatted := formatted + [header + "\n" + doc];
      }
      LoopFinished(store, rows);
      lastSources := sources;
      lookups := calls;
      text := Join(formatted, "\n\n");
    }
  }

  /** Looks up a course outline and remembers the course as its citation. */
  class CourseOutlineTool {
    const store: Store
    var lastSources: seq<Source>

    constructor (store: Store)
      ensures this.store == store && lastSources == []
    {
      this.store := store;
      lastSources := [];
    }

    /** `execute(course_title)`. */
    method Execute(courseTitle: string) returns (text: string)
      modifies this
      ensures text == OutlineOutput(store, courseTitle)
      ensures lastSources == OutlineSourcesAfter(store, courseTitle, old(lastSources))
    {
      var resolvedTitle := store.resolveCourseName(courseTitle);
      if !TruthyString(resolvedTitle) {
        return NO_COURSE + courseTitle + "'";
      }
      var courseData := FindCourse(store.coursesMetadata, resolvedTitle.value);
      if courseData.None? {
        return NO_METADATA + resolvedTitle.value + "'";
      }
      text := FormatOutline(courseData.value);
    }

    /** `_format_outline(course_data)`. */
    method FormatOutline(courseData: CourseMeta) returns (text: string)
      modifies this
      ensures text == OutlineText(courseData)
      ensures lastSources == [Source(CourseTitleOrDefault(courseData), courseData.courseLink)]
    {
      var title := CourseTitleOrDefault(courseData);
      var courseLink := courseData.courseLink;
      var lessons := courseData.lessons;
      var lines := [ "Course: " + title,
                     if TruthyString(courseLink) then "Course Link: " + courseLink.value else "",
                     "Total Lessons: " + IntToString(|lessons|),
                     "",
                     "Lessons:" ];
      var i := 0;
      while i < |lessons|
        invariant 0 <= i <= |lessons|
        invariant lines == OutlineHeader(courseData) + LessonLines(lessons[..i])
      {
        assert LessonLines(lessons[..i + 1]) == LessonLines(lessons[..i]) + [LessonLine(lessons[i])];
        lines := lines + [LessonLine(lessons[i])];
        i := i + 1;
      }
      assert lessons[..i] == lessons;
      lastSources := [Source(title, courseLink)];
      text := Join(NonEmptyLines(lines), "\n");
    }
  }

  // ---------------------------------------------------------------------------
  // The registry
  // ---------------------------------------------------------------------------

  /** A registered tool: one of the two tool classes, or any other object with
      a definition and an `execute`; such tools keep no `last_sources`. */
  datatype ToolRef =
    | SearchTool(search: CourseSearchTool)
    | OutlineTool(outline: CourseOutlineTool)
    | OtherTool(definition: ToolDefinition, run: Arguments -> Outcome)

  /** `tool.get_tool_definition()`. */
  function DefinitionOf(t: ToolRef): ToolDefinition {
    match t
    case SearchTool(_) => SEARCH_DEFINITION
    case OutlineTool(_) => OUTLINE_DEFINITION
    case OtherTool(d, _) => d
  }

  /** The `name` of the tool's definition. */
  function NameOf(t: ToolRef): string {
    match t
    case SearchTool(_) => SEARCH_TOOL_NAME
    case OutlineTool(_) => OUTLINE_TOOL_NAME
    case OtherTool(d, _) => d.name
  }

  /** A tool is registered under the name its definition advertises. */
  lemma NameIsDefinitionName(t: ToolRef)
    ensures NameOf(t) == DefinitionOf(t).name
  {
  }

  /** `tool.execute(**kwargs)`: a record of the other tool's signature binds to
      no parameter list and raises Python's `TypeError`. */
  function Run(t: ToolRef, args: Arguments): Outcome {
    match t
    case SearchTool(o) => (
      match args
      case SearchArgs(q, c, l) => Returned(SearchOutput(o.store, q, c, l))
      case OutlineArgs(_) => Raised(SEARCH_ARGS_ERROR))
    case OutlineTool(o) => (
      match args
      case OutlineArgs(ct) => Returned(OutlineOutput(o.store, ct))
      case SearchArgs(_, _, _) => Raised(OUTLINE_ARGS_ERROR))
    case OtherTool(_, run) => run(args)
  }

  /** `execute_tool(name, **kwargs)` over a registry's contents. */
  function Dispatch(tools: map<string, ToolRef>, name: string, args: Arguments): Outcome {
    if name !in tools then Returned("Tool '" + name + "' not found")
    else Run(tools[name], args)
  }

  /** The tool's `last_sources` after `Run`, given its value before. */
  function SourcesAfterRun(t: ToolRef, args: Arguments, before: seq<Source>): seq<Source> {
    match t
    case SearchTool(o) => (
      match args
      case SearchArgs(q, c, l) => SearchSourcesAfter(o.store, q, c, l, before)
      case OutlineArgs(_) => before)
    case OutlineTool(o) => (
      match args
      case OutlineArgs(ct) => OutlineSourcesAfter(o.store, ct, before)
      case SearchArgs(_, _, _) => before)
    case OtherTool(_, _) => before
  }

  function ObjectsOf(t: ToolRef): set<object> {
    match t
    case SearchTool(o) => {o}
    case OutlineTool(o) => {o}
    case OtherTool(_, _) => {}
  }

  /** `tool.last_sources`, or nothing for a tool without that attribute. */
  function SourcesOf(t: ToolRef): seq<Source>
    reads ObjectsOf(t)
  {
    match t
    case SearchTool(o) => o.lastSources
    case OutlineTool(o) => o.lastSources
    case OtherTool(_, _) => []
  }

  /** `tool.execute(**kwargs)` on a registered tool. */
  method RunTool(tool: ToolRef, args: Arguments) returns (out: Outcome)
    modifies ObjectsOf(tool)
    ensures out == Run(tool, args)
    ensures SourcesOf(tool) == SourcesAfterRun(tool, args, old(SourcesOf(tool)))
  {
    match tool
    case SearchTool(o) =>
      match args {
        case SearchArgs(q, c, l) =>
          var text := o.Execute(q, c, l);
          out := Returned(text);
        case OutlineArgs(_) =>
          out := Raised(SEARCH_ARGS_ERROR);
      }
    case OutlineTool(o) =>
      match args {
        case OutlineArgs(ct) =>
          var text := o.Execute(ct);
          out := Returned(text);
        case SearchArgs(_, _, _) =>
          out := Raised(OUTLINE_ARGS_ERROR);
      }
    case OtherTool(_, run) =>
      out := run(args);
  }

  /** `register_tool` on a registry's contents: a tool without a name is
      refused (the registry is unchanged), otherwise its name is assigned. */
  function Register(d: PyDict.Dict<string, ToolRef>, t: ToolRef): (r: PyDict.Dict<string, ToolRef>)
    requires d.Valid()
    ensures r.Valid()
  {
    if NameOf(t) == "" then d else d.Put(NameOf(t), t)
  }

  /** Registering the tools of `ts` one after another into an empty registry. */
  function RegisterAll(ts: seq<ToolRef>): (r: PyDict.Dict<string, ToolRef>)
    ensures r.Valid()
    decreases |ts|
  {
    if ts == [] then PyDict.Empty() else Register(RegisterAll(ts[..|ts| - 1]), ts[|ts| - 1])
  }

  /** The tools of `ts` that have a name. */
  function Named(ts: seq<ToolRef>): seq<ToolRef>
    decreases |ts|
  {
    if ts == [] then []
    else Named(ts[..|ts| - 1]) + (if NameOf(ts[|ts| - 1]) != "" then [ts[|ts| - 1]] else [])
  }

  /** `get_tool_definitions()` over a registry's contents. */
  function DefinitionsOf(d: PyDict.Dict<string, ToolRef>): (defs: seq<ToolDefinition>)
    requires d.Valid()
    ensures |defs| == |d.keys|
  {
    seq(|d.keys|, i requires 0 <= i < |d.keys| => DefinitionOf(d.entries[d.keys[i]]))
  }

  lemma {:induction false} RegisterAllIsPutAll(ts: seq<ToolRef>)
    ensures RegisterAll(ts) == PyDict.PutAll(PyDict.Empty(), Named(ts), NameOf)
    decreases |ts|
  {
    if ts != [] {
      var init, last := ts[..|ts| - 1], ts[|ts| - 1];
      RegisterAllIsPutAll(init);
      var n := Named(init);
      if NameOf(last) != "" {
        var m := n + [last];
        assert Named(ts) == m;
        assert m[..|m| - 1] == n && m[|m| - 1] == last;
        assert PyDict.PutAll(PyDict.Empty(), m, NameOf) == PyDict.PutAll(PyDict.Empty(), n, NameOf).Put(NameOf(last), last);
      } else {
        assert Named(ts) == n;
      }
    }
  }

  /** Registration: re-registering a name replaces the tool in place, so there
      is one definition per distinct non-empty name, in the order the names
      were first registered, each from the tool registered last under it. */
  lemma RegistrationDefinitions(ts: seq<ToolRef>)
    ensures |DefinitionsOf(RegisterAll(ts))| == |Dedup.KeySet(Named(ts), NameOf)|
    ensures RegisterAll(ts).keys == Dedup.Project(Dedup.FirstSeen(Named(ts), NameOf), NameOf)
  {
    RegisterAllIsPutAll(ts);
    PyDict.PutAllSize(Named(ts), NameOf);
    PyDict.PutAllKeys(Named(ts), NameOf);
  }

  /** A named tool not followed by another tool of the same name is the one
      the registry holds under that name. */
  lemma RegistrationLastWins(ts: seq<ToolRef>, i: nat)
    requires i < |Named(ts)|
    requires forall j :: i < j < |Named(ts)| ==> NameOf(Named(ts)[j]) != NameOf(Named(ts)[i])
    ensures NameOf(Named(ts)[i]) in RegisterAll(ts).entries
    ensures RegisterAll(ts).entries[NameOf(Named(ts)[i])] == Named(ts)[i]
  {
    RegisterAllIsPutAll(ts);
    PyDict.PutAllLastWins(Named(ts), NameOf, i);
  }

  /** Registering one more tool after `ts`. */
  lemma RegisterAllSnoc(ts: seq<ToolRef>, t: ToolRef)
    ensures RegisterAll(ts + [t]) == Register(RegisterAll(ts), t)
  {
    assert (ts + [t])[..|ts|] == ts;
  }

  /** Registering the search tool, the outline tool and the search tool again
      leaves two names, in first-registration order, the second search tool winning. */
  lemma RegisteringTwiceKeepsTwo(s1: CourseSearchTool, s2: CourseSearchTool, o1: CourseOutlineTool)
    ensures RegisterAll([SearchTool(s1), OutlineTool(o1), SearchTool(s2)]).keys == [SEARCH_TOOL_NAME, OUTLINE_TOOL_NAME]
    ensures RegisterAll([SearchTool(s1), OutlineTool(o1), SearchTool(s2)]).entries[SEARCH_TOOL_NAME] == SearchTool(s2)
  {
    var a, b, c := SearchTool(s1), OutlineTool(o1), SearchTool(s2);
    ContentToolsRegistered(s1, o1);
    RegisterAllSnoc([a, b], c);
    assert [a, b, c] == [a, b] + [c];
  }

  /** Registering the search tool and then the outline tool. */
  lemma ContentToolsRegistered(s1: CourseSearchTool, o1: CourseOutlineTool)
    ensures RegisterAll([SearchTool(s1), OutlineTool(o1)]).keys == [SEARCH_TOOL_NAME, OUTLINE_TOOL_NAME]
    ensures SEARCH_TOOL_NAME in RegisterAll([SearchTool(s1), OutlineTool(o1)]).entries
  {
    var a, b := SearchTool(s1), OutlineTool(o1);
    RegisterAllSnoc([], a);
    RegisterAllSnoc([a], b);
    assert [a] == [] + [a] && [a, b] == [a] + [b];
    assert SEARCH_TOOL_NAME[0] != OUTLINE_TOOL_NAME[0];
    assert SEARCH_TOOL_NAME != "" && OUTLINE_TOOL_NAME != "";
    var d1 := Register(PyDict.Empty(), a);
    assert d1.keys == [SEARCH_TOOL_NAME] && d1.entries.Keys == {SEARCH_TOOL_NAME};
  }

  /** Holds the registered tools by name, in registration order. */
  class ToolManager {
    var tools: PyDict.Dict<string, ToolRef>

    /** Every tool is stored under its own non-empty name. */
    ghost predicate Valid()
      reads this
    {
      && tools.Valid()
      && (forall n :: n in tools.entries ==> n != "" && NameOf(tools.entries[n]) == n)
    }

    /** The tool objects whose `last_sources` the registry may touch. */
    ghost function Repr(): set<object>
      reads this
    {
      set n, o | n in tools.entries && o in ObjectsOf(tools.entries[n]) :: o
    }

    constructor ()
      ensures Valid() && tools == PyDict.Empty()
    {
      tools := PyDict.Empty();
    }

    /** `register_tool(tool)`; the error is the `ValueError` message. */
    method RegisterTool(tool: ToolRef) returns (error: Option<string>)
      requires Valid()
      modifies this
      ensures Valid()
      ensures tools == Register(old(tools), tool)
      ensures error.Some? <==> NameOf(tool) == ""
      ensures error.Some? ==> error.value == NAME_REQUIRED
    {
      var toolName := NameOf(tool);
      if toolName == "" {
        return Some(NAME_REQUIRED);
      }
      tools := tools.Put(toolName, tool);
      error := None;
    }

    /** `get_tool_definitions()`: one definition per registered name, in
        registration order, each carrying that name. */
    function GetToolDefinitions(): (defs: seq<ToolDefinition>)
      requires Valid()
      reads this
      ensures |defs| == |tools.keys|
      ensures forall i :: 0 <= i < |defs| ==> defs[i].name == tools.keys[i]
    {
      DefinitionsOf(tools)
    }

    /** The `last_sources` of the tool registered at position `i`. */
    function SourcesAt(i: nat): seq<Source>
      requires Valid() && i < |tools.keys|
      reads this, Repr()
    {
      SourcesOf(tools.entries[tools.keys[i]])
    }

    /** The first non-empty `last_sources` from position `i` on. */
    function LastSourcesFrom(i: nat): (r: seq<Source>)
      requires Valid() && i <= |tools.keys|
      reads this, Repr()
      ensures r == [] <==> forall j :: i <= j < |tools.keys| ==> SourcesAt(j) == []
      ensures r != [] ==> exists j :: i <= j < |tools.keys| && r == SourcesAt(j)
                            && forall k :: i <= k < j ==> SourcesAt(k) == []
      decreases |tools.keys| - i
    {
      if i == |tools.keys| then []
      else if SourcesAt(i) != [] then SourcesAt(i)
      else LastSourcesFrom(i + 1)
    }

    /** `get_last_sources()`: the first non-empty `last_sources` in registration
        order, or the empty list when every tool's is empty. */
    function GetLastSources(): (r: seq<Source>)
      requires Valid()
      reads this, Repr()
      ensures r == [] <==> forall i :: 0 <= i < |tools.keys| ==> SourcesAt(i) == []
      ensures r != [] ==> exists i :: 0 <= i < |tools.keys| && r == SourcesAt(i)
                            && forall j :: 0 <= j < i ==> SourcesAt(j) == []
    {
      LastSourcesFrom(0)
    }

    /** Tools under different names share no object: each class has one name. */
    lemma ObjectsSeparate(name: string)
      requires Valid() && name in tools.entries
      ensures forall n :: n in tools.entries && n != name ==>
                ObjectsOf(tools.entries[n]) !! ObjectsOf(tools.entries[name])
    {
    }

    /** `execute_tool(name, **kwargs)`: an unknown name is answered with a
        message and never raises; only the named tool's citations change. */
    method ExecuteTool(toolName: string, args: Arguments) returns (out: Outcome)
      requires Valid()
      modifies Repr()
      ensures unchanged(this)
      ensures out == Dispatch(tools.entries, toolName, args)
      ensures forall n :: n in tools.entries && n != toolName ==>
                SourcesOf(tools.entries[n]) == old(SourcesOf(tools.entries[n]))
      ensures toolName in tools.entries ==>
                SourcesOf(tools.entries[toolName])
                  == SourcesAfterRun(tools.entries[toolName], args, old(SourcesOf(tools.entries[toolName])))
    {
      if toolName !in tools.entries {
        return Returned("Tool '" + toolName + "' not found");
      }
      var tool := tools.entries[toolName];
      assert ObjectsOf(tool) <= Repr();
      ObjectsSeparate(toolName);
      out := RunTool(tool, args);
    }

    /** `reset_sources()`: every tool that keeps citations forgets them. */
    method ResetSources()
      requires Valid()
      modifies Repr()
      ensures forall i :: 0 <= i < |tools.keys| ==> SourcesAt(i) == []
      ensures GetLastSources() == []
    {
      var i := 0;
      while i < |tools.keys|
        invariant 0 <= i <= |tools.keys|
        invariant forall j :: 0 <= j < i ==> SourcesOf(tools.entries[tools.keys[j]]) == []
      {
        var name := tools.keys[i];
        assert name in tools.entries;
        match tools.entries[name] {
          case SearchTool(o) =>
            assert o in ObjectsOf(tools.entries[name]);
            o.lastSources := [];
          case OutlineTool(o) =>
            assert o in ObjectsOf(tools.entries[name]);
            o.lastSources := [];
          case OtherTool(_, _) =>
        }
        i := i + 1;
      }
    }
  }
}
