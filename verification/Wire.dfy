/** The wire types that the remote core and the provider SDK share.
    Text that only travels (argument objects, schemas) is its canonical RFC 8785 text. */
module Wire {

  datatype Option<+T> = None | Some(value: T)

  datatype Result<+T, +E> = Ok(value: T) | Err(error: E)

  /** A refusal: HTTP status and error code. */
  datatype Failure = Failure(status: nat, code: string)

  /** A UUID. Only identity matters. */
  type Id = nat

  type Args = string
  type Schema = string

  /** SHA-256 of canonical text, taken to be injective. */
  datatype Digest = Sha256(canonical: string)

  /** Time in nanoseconds. */
  type Instant = int

  const SECOND: int := 1_000_000_000
  const MINUTE: int := 60 * SECOND
  const HOUR: int := 60 * MINUTE

  datatype Effect = Read | Write | Destructive | Unknown

  datatype Tool = Tool(
    id: string, name: string, title: string, description: string,
    aliases: seq<string>, tags: seq<string>,
    effect: Effect, openWorld: bool, input: Schema)

  datatype Selected = Selected(
    id: string, name: string, title: string, description: string,
    effect: Effect, openWorld: bool, input: Schema, digest: Digest)

  datatype Candidate = Candidate(id: string, title: string, description: string, effect: Effect)

  datatype Issue = Issue(code: string, instancePath: string, schemaPath: string, messageKey: string)

  datatype Decision = Decision(
    id: Id, operationId: Id, revision: int, catalogId: string, version: string,
    toolId: string, schemaDigest: Digest, argumentsDigest: Digest, effect: Effect,
    executionKey: Id, issued: Instant, notAfter: Instant)

  datatype Status = NoMatch | NeedsChoice | NeedsArguments | Ready | DecisionIssued | Cancelled

  /** An operation as both parties see it; an absent text field is the empty string. */
  datatype View = View(
    id: Id, revision: int, catalogId: string, version: string, expires: Instant, status: Status,
    selected: Option<Selected>, digest: Option<Digest>, next: string,
    issues: Option<seq<Issue>>, missing: Option<seq<string>>,
    candidates: seq<Candidate>, reason: string, message: string,
    decision: Option<Decision>)

  /** An Idempotency-Key: chosen by the client, or the SHA-256 the SDK derives for a decision request. */
  datatype Token =
    | Text(s: string)
    | DecisionToken(operation: Id, revision: int, arguments: Args)

  datatype Actor = Actor(principal: string, workspace: string, revision: string, allowed: seq<string>)

  /** The JSON Schema evaluator shared by the cores and the SDK: issues and missing paths. */
  type Validator = (Schema, Args) -> (seq<Issue>, seq<string>)

  function ToolIds(tools: seq<Tool>): (ids: set<string>)
    ensures forall t <- tools :: t.id in ids
  {
    set t <- tools :: t.id
  }

  function CandidateIds(candidates: seq<Candidate>): (ids: set<string>)
    ensures forall c <- candidates :: c.id in ids
  {
    set c <- candidates :: c.id
  }

  predicate DistinctTools(tools: seq<Tool>) {
    forall i, j :: 0 <= i < j < |tools| ==> tools[i].id != tools[j].id
  }

  predicate DistinctCandidates(candidates: seq<Candidate>) {
    forall i, j :: 0 <= i < j < |candidates| ==> candidates[i].id != candidates[j].id
  }

  /** At most the first 768 characters. */
  function Short(s: string): (r: string)
    ensures |r| <= 768 && r <= s
  {
    if |s| > 768 then s[..768] else s
  }

  function AsCandidate(t: Tool): Candidate {
    Candidate(t.id, t.title, Short(t.description), t.effect)
  }
}
