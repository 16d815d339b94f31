/** The wire messages an agent publishes (protocol.go, lib/protocol.ts). */
module Protocol {
  import opened Prelude

  datatype Kind = KindAccepted | KindChunk | KindResult

  datatype Status = Queued | Running | Completed | Failed | TimedOut | Canceled | Rejected

  datatype Stream = Stdout | Stderr

  /** One message on the result topic; fields a kind does not use keep their zero value. */
  datatype Report = Report(
    id: string, kind: Kind, status: Option<Status>,
    exitCode: Option<int>, stdout: string, stderr: string, error: string,
    seqNo: nat, stream: Stream, data: string)

  function Accepted(id: string, status: Status): Report {
    Report(id, KindAccepted, Some(status), None, "", "", "", 0, Stdout, "")
  }

  function ChunkReport(id: string, seqNo: nat, stream: Stream, data: string): Report {
    Report(id, KindChunk, None, None, "", "", "", seqNo, stream, data)
  }

  function Final(id: string, status: Status, exitCode: Option<int>,
                 stdout: string, stderr: string, error: string): Report {
    Report(id, KindResult, Some(status), exitCode, stdout, stderr, error, 0, Stdout, "")
  }

  /** The statuses an agent may put in a result: a run that is over. */
  predicate TerminalStatus(s: Status) {
    s.Completed? || s.Failed? || s.TimedOut? || s.Canceled? || s.Rejected?
  }
}
