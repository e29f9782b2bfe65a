/** The data the tools receive from the vector store, and the store itself
    reduced to the lookups the tools make. Indexing, embedding and similarity
    ranking happen behind these functions. */
module VectorStore {
  import opened Wrappers

  /** A citation shown to the user: a label and an optional URL. */
  datatype Source = Source(text: string, link: Option<string>)

  /** The metadata of one retrieved chunk, as far as the tools read it:
      `course_title` (absent: `None`) and `lesson_number` (absent or null: `None`). */
  datatype ChunkMeta = ChunkMeta(courseTitle: Option<string>, lessonNumber: Option<int>)

  /** What a search returns: chunk texts and their metadata in ranked order,
      or an error. The distances are never read by the tools and are not kept. */
  datatype SearchResults = SearchResults(
    documents: seq<string>,
    metadata: seq<ChunkMeta>,
    error: Option<string>)

  /** One lesson entry of a course record (`lesson_number` and `lesson_title`,
      `None` when the key is absent). */
  datatype LessonMeta = LessonMeta(lessonNumber: Option<int>, lessonTitle: Option<string>)

  /** One course record from `get_all_courses_metadata`. `courseLink` is the
      value `course_data.get('course_link', '')` yields: `Some("")` when the key
      is absent, `None` when it is stored as null. */
  datatype CourseMeta = CourseMeta(
    title: Option<string>,
    courseLink: Option<string>,
    lessons: seq<LessonMeta>)

  /** The store as the tools see it: `search(query, course_name, lesson_number)`,
      `get_lesson_link(course_title, lesson_number)`, `_resolve_course_name(name)`
      and the list `get_all_courses_metadata()` returns. */
  datatype Store = Store(
    search: (string, Option<string>, Option<int>) -> SearchResults,
    lessonLink: (string, int) -> Option<string>,
    resolveCourseName: string -> Option<string>,
    coursesMetadata: seq<CourseMeta>)
}
