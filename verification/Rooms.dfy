/** What the coordination models share: identities of results, the ChatGPT
    participant's access, and the clock (internal/chat/chatgpt.go,
    internal/chat/handoff.go).

    A time is a number of nanoseconds; 0 stands for the zero time.
 */
module Rooms {
  import opened Options

  const SECOND: int := 1_000_000_000

  /** "reply:<job>" or "work:<workflow>". */
  datatype Base = Reply(job: string) | Work(workflow: string)

  /** A result, or "<base>@<time>" for a later result of the same job. */
  datatype ResultId = ResultId(base: Base, at: Option<int>)

  datatype Limits = Limits(followUps: int, seconds: int)

  const DEFAULT_LIMITS := Limits(32, 3600)

  /** Why the connection takes no further requests. */
  datatype PauseReason = NotPaused | NoProgress | ExchangeLimit | PausedByHost

  function PauseText(reason: PauseReason): string {
    match reason
    case NotPaused => ""
    case NoProgress => "no_progress"
    case ExchangeLimit => "exchange_limit"
    case PausedByHost => "host_paused"
  }

  datatype Access = Access(enabled: bool, connected: bool, paused: bool, expiresAt: int, limits: Limits, pauseReason: PauseReason)

  // ----- messages and reply jobs

  /** A registered review: one read-only assignment after its parent. */
  datatype Spec = Spec(target: string, text: string, effort: string, replyClass: string)

  datatype Dispatch = Dispatch(run: string, handoff: Option<ResultId>, spec: Option<Spec>)

  datatype Author = User | ChatGPT | Agent(name: string) | OtherAuthor

  datatype Post = Post(text: string, replyTo: nat, recipients: seq<string>, effort: string, replyClass: string)

  /** `work` says that the message is a text whose input intent is work; a route
      is the message identity its publisher chose. */
  datatype Message = Message(sequence: nat, author: Author, isText: bool, work: bool, post: Post, target: string,
                             workflow: string, createdAt: int, route: Option<string>, dispatch: Option<Dispatch>)

  datatype JobState =
    | Finding | Waiting | Answering | Retrying
    | Answered | NeedsAttention | Failed | Dismissed | Cancelled

  predicate Terminal(s: JobState) { s.Answered? || s.NeedsAttention? || s.Failed? || s.Dismissed? || s.Cancelled? }

  /** `unscheduled` says that the reply request could not be persisted. */
  datatype Job = Job(id: string, source: nat, state: JobState, unscheduled: bool, completedAt: Option<int>,
                     answer: nat, responder: string, requested: seq<string>)
}
