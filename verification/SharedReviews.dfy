/** Registered reviews as one process updates them in place
    (internal/room/continuation.go, internal/room/chatgpt.go). */
module SharedReviews {
  import opened Options
  import opened Rooms
  import opened Text
  import opened C = Continuations

  lemma FirstSource(messages: seq<Message>, i: nat, sequence: nat)
    requires i <= |messages| && (forall j :: 0 <= j < i ==> messages[j].sequence != sequence)
    requires i < |messages| ==> messages[i].sequence == sequence
    ensures FromChatGPT(messages, sequence) == (i < |messages| && messages[i].author == ChatGPT)
    decreases i
  {
    if i > 0 {
      FirstSource(messages[1..], i - 1, sequence);
    }
  }

  class Process {
    var closed: bool
    var run: Option<Run>
    var messages: seq<Message>
    var jobs: seq<Job>
    var next: nat

    ghost function View(): Memory
      reads this
    {
      Memory(closed, run, messages, jobs, next)
    }

    constructor (disk: Disk, next: nat)
      ensures View() == Memory(false, disk.run, disk.transcript, disk.jobs, next)
    {
      this.closed, this.run, this.messages, this.jobs, this.next := false, disk.run, disk.transcript, disk.jobs, next;
    }

    method Review(parent: string) returns (i: nat)
      requires run.Some?
      ensures i == Find(run.value.reviews, parent)
    {
      i := 0;
      while i < |run.value.reviews| && run.value.reviews[i].workflow != parent
        invariant i <= |run.value.reviews| && forall j :: 0 <= j < i ==> run.value.reviews[j].workflow != parent
      {
        i := i + 1;
      }
    }

    method MessageOf(id: string) returns (i: nat)
      ensures i == Published(messages, id)
    {
      i := 0;
      while i < |messages| && messages[i].route != Some(id)
        invariant i <= |messages| && forall j :: 0 <= j < i ==> messages[j].route != Some(id)
      {
        i := i + 1;
      }
    }

    /** Account for the durable message of the review, if there is one. */
    method ReconcileDispatch(c: Continuation) returns (found: bool, now: Continuation)
      ensures found == Account(messages, jobs, c).Some?
      ensures now == if found then Account(messages, jobs, c).value else c
    {
      now := c;
      var i := MessageOf(Id(c.workflow));
      found := i < |messages|;
      if found {
        var sequence := messages[i].sequence;
        now := c.(assignment := sequence, state := Blocked, reason := OutcomeUnknown);
        var k := 0;
        while k < |jobs|
          invariant k <= |jobs|
          invariant Account(messages, jobs, c) == Some(Judge(jobs[k..], sequence, now))
        {
          if jobs[k].source == sequence {
            now := now.(state := Running, reason := Nothing);
            if Terminal(jobs[k].state) {
              now := now.(state := Completed);
              if jobs[k].state != Answered {
                now := now.(state := Blocked, reason := ReviewFailed);
              }
            }
          }
          k := k + 1;
        }
      }
    }

    method CancelContinuations(reason: Reason)
      modifies this`run
      ensures run == if old(run).None? then None else Some(old(run).value.(reviews := Cancel(old(run).value.reviews, messages, jobs, reason)))
    {
      if run.None? {
        return;
      }
      var reviews := run.value.reviews;
      var i := 0;
      while i < |reviews|
        invariant run == old(run) && i <= |reviews| == |old(run).value.reviews|
        invariant forall k :: 0 <= k < |reviews| ==>
          reviews[k] == if k < i then CancelOne(old(run).value.reviews[k], messages, jobs, reason) else old(run).value.reviews[k]
      {
        if reviews[i].state == Queued {
          var found, c := ReconcileDispatch(reviews[i]);
          if !found {
            c := reviews[i].(state := Withdrawn, reason := reason);
          }
          reviews := reviews[i := c];
        }
        i := i + 1;
      }
      assert reviews == Cancel(old(run).value.reviews, messages, jobs, reason);
      run := Some(run.value.(reviews := reviews));
    }

    /** Replies the ChatGPT participant still waits for. */
    method Outstanding() returns (pending: nat)
      ensures pending == CountOutstanding(messages, jobs)
    {
      pending := 0;
      var k := 0;
      while k < |jobs|
        invariant k <= |jobs|
        invariant CountOutstanding(messages, jobs) == pending + CountOutstanding(messages, jobs[k..])
      {
        var i := 0;
        while i < |messages| && messages[i].sequence != jobs[k].source
          invariant i <= |messages| && forall j :: 0 <= j < i ==> messages[j].sequence != jobs[k].source
        {
          i := i + 1;
        }
        FirstSource(messages, i, jobs[k].source);
        if !Terminal(jobs[k].state) && i < |messages| && messages[i].author == ChatGPT {
          pending := pending + 1;
        }
        k := k + 1;
      }
    }

    method SetReview(i: nat, c: Continuation)
      requires run.Some? && i < |run.value.reviews|
      modifies this`run
      ensures View() == WithReviews(old(View()), old(run).value.reviews[i := c])
    {
      run := Some(run.value.(reviews := run.value.reviews[i := c]));
    }

    method AdvanceContinuation(parent: string, access: Option<Access>, view: Parent, task: string, now: int) returns (scheduler: Scheduler)
      modifies this`run
      ensures (View(), scheduler) == Advance(old(View()), parent, access, view, task, now)
    {
      scheduler := Idle;
      if closed || run.None? {
        return;
      }
      var i := Review(parent);
      if i == |run.value.reviews| {
        return;
      }
      var c := run.value.reviews[i];
      var found, reconciled := ReconcileDispatch(c);
      if found {
        SetReview(i, reconciled);
        return;
      }
      if c.state != Queued {
        return;
      }
      var outstanding := Outstanding();
      match Choose(run.value, c, access, view, outstanding, task, now)
      case Leave =>
      case Mark(state, reason) => SetReview(i, c.(state := state, reason := reason));
      case Go(post, dispatch) => scheduler := Publishing(parent, post, dispatch);
    }

    method Scheduled(sequence: nat) returns (ok: bool)
      ensures ok == !WasUnscheduled(jobs, sequence)
    {
      var i := 0;
      while i < |jobs|
        invariant i <= |jobs| && forall k :: 0 <= k < i ==> !(jobs[k].source == sequence && jobs[k].unscheduled)
      {
        if jobs[i].source == sequence && jobs[i].unscheduled {
          return false;
        }
        i := i + 1;
      }
      ok := true;
    }

    method Compose(id: string, post: Post, dispatch: Option<Dispatch>, replies: seq<Job>, admissible: bool, now: int) returns (p: Publication)
      ensures p == Publish(View(), id, post, dispatch, replies, admissible, now)
    {
      var i := MessageOf(id);
      if i < |messages| {
        var ok := Scheduled(messages[i].sequence);
        return if SameContent(messages[i], post, dispatch) && ok then Found(i) else RefusedPost;
      }
      var pending := Outstanding();
      if !admissible || |post.recipients| > 4 || |post.text| > 16000 || Blank(post.text) || pending + |post.recipients| > 4 {
        return RefusedPost;
      }
      return New(Message(next, ChatGPT, true, false, post, "", "", now, Some(id), dispatch), replies);
    }

    /** Publish under a message identity.  The transcript is the disk's. */
    method PublishCoordinated(transcript: seq<Message>, id: string, post: Post, dispatch: Option<Dispatch>, replies: seq<Job>,
                              admissible: bool, now: int, append: Append)
      returns (p: Publication, durable: seq<Message>)
      modifies this`messages, this`jobs, this`next
      ensures p == Publish(old(View()), id, post, dispatch, replies, admissible, now)
      ensures (View(), durable) ==
        if p.New? then var (m, d) := Appended(old(View()), Disk(transcript, None, []), p.message, p.jobs, append); (m, d.transcript)
        else (old(View()), transcript)
    {
      durable := transcript;
      p := Compose(id, post, dispatch, replies, admissible, now);
      if p.New? {
        if append != NotWritten {
          durable := durable + [p.message];
        }
        if append == Written {
          next := next + 1;
          messages := messages + [p.message];
          jobs := jobs + p.jobs;
        }
      }
    }

    method RecordOutcome(parent: string, outcome: Option<nat>)
      modifies this`run
      ensures View() == Settle(old(View()), parent, outcome)
    {
      if run.None? {
        return;
      }
      var i := Review(parent);
      if i < |run.value.reviews| {
        var c := run.value.reviews[i];
        SetReview(i, if outcome.None? then c.(state := Blocked, reason := NotScheduled)
                     else c.(state := Running, reason := Nothing, assignment := outcome.value));
      }
    }
  }
}
