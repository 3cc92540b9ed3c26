/** The student record the dashboard reads from the `students` path. */
module Types {
  import opened Wrappers

  /** The three external profile links of a student. */
  datatype Profiles = Profiles(github: string, codepen: string, codewars: string)

  /**
   * The three certificates. Each may be missing from the stored record or
   * hold the empty string; a non-empty value is the completion label.
   */
  datatype Certificates = Certificates(
    english: Option<string>,
    cyberSecurity: Option<string>,
    scrum: Option<string>)

  /** One grading period: its key and the score recorded for it. */
  datatype GradeEntry = GradeEntry(key: string, score: int)

  /** A student record; `grades` keeps the entries in their stored order. */
  datatype Data = Data(
    id: string,
    name: string,
    email: string,
    phone: string,
    profiles: Profiles,
    grades: seq<GradeEntry>,
    certificates: Certificates,
    batch: int,
    stack: string)

  /** The six period keys a record's grades are declared with, in order. */
  const GradeKeys: seq<string> :=
    ["w0102", "w0304", "week0506", "week0708", "week0910", "week1112"]

  /** The grades carry exactly the declared period keys, in declared order. */
  predicate HasDeclaredGradeKeys(d: Data)
  {
    |d.grades| == |GradeKeys| &&
    forall i :: 0 <= i < |d.grades| ==> d.grades[i].key == GradeKeys[i]
  }
}
