/** a2a/protocol.go: tasks, their states, and the events of a running task. */
module A2aTypes {
  import opened Prelude
  import Decimal

  datatype TaskState = Submitted | Working | InputRequired | AuthRequired | Completed | Failed | Canceled | Rejected

  predicate IsTerminal(s: TaskState) {
    s == Completed || s == Failed || s == Canceled || s == Rejected
  }

  datatype Part = Part(text: Bytes, file: Option<Bytes>, data: Bytes)

  function TextPart(s: Bytes): Part {
    Part(s, None, "")
  }

  function PartsText(parts: seq<Part>): Bytes {
    if parts == [] then "" else parts[0].text + PartsText(parts[1..])
  }

  /** `stamp` is the parsed timestamp, if it parses. */
  datatype Status = Status(state: TaskState, message: Option<seq<Part>>, stamp: Option<int>)

  datatype Artifact = Artifact(id: Bytes, parts: seq<Part>)

  datatype Task = Task(status: Status, artifacts: seq<Artifact>)

  function ArtifactId(id: nat): Bytes {
    "task-" + Decimal.Format(id) + "-artifact"
  }

  /** What a stream sink is told about a task. */
  datatype TaskEvent =
    | StatusEvent(status: Status, final: bool)
    | ArtifactEvent(artifact: Artifact, append: bool, last: bool)
}
