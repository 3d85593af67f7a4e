/**
 * Values shared by the frontend and backend models: optional values, the
 * outcome of a call into a collaborator the model does not see, message roles,
 * project references and uploaded documents.
 */
module Common {

  datatype Option<+T> = None | Some(value: T)

  /** Outcome of a network call or a foreign call: the value it produced, or the
      message of the exception it raised. */
  datatype Reply<+T> = Ok(value: T) | Failed(message: string)

  /** The `type` of a message in the frontend logs ('user', 'ai', 'system'). */
  datatype Role = User | Ai | System

  /** A project reference: `{name, description, github_url, technologies}`. */
  datatype Project = Project(
    name: string,
    description: string,
    githubUrl: Option<string>,
    technologies: seq<string>)

  /** The three lists of an analysis: `project_critique`, `false_claims` and
      `resume_suggestions`. */
  datatype AnalysisLists = AnalysisLists(critique: seq<string>, claims: seq<string>, suggestions: seq<string>)

  /** The uploaded resume: an opaque handle to a file's name and bytes. */
  datatype Document = Document(filename: string, content: seq<bv8>)

  /** Python's `s[:n]` for n >= 0. */
  function Take<T>(s: seq<T>, n: nat): (r: seq<T>)
    ensures |r| == if |s| <= n then |s| else n
    ensures r <= s
  {
    if |s| <= n then s else s[..n]
  }

  /** Python's truthiness of an optional string: neither None nor empty. */
  predicate Truthy(s: Option<string>)
  {
    s.Some? && s.value != ""
  }
}
