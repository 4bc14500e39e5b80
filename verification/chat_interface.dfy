/**
  The conversation state of components/chat/ChatInterface.tsx and its one
  transition, `handleSendMessage`, taken as a single atomic step.

  The network call is abstracted to a `GatewayOutcome`: either something
  threw (the fetch rejected, the body was not JSON, or it was `null`), or a
  JSON value came back whose `message` and `artifact` fields the client
  reads. Ids (`generateId()`) and times (`new Date()`) are supplied by the
  caller as `SendStamps`.
 */
module ChatInterface {
  import opened Wrappers
  import opened Types
  import opened Json
  import ChatRoute
  import InputArea

  /** The message log, the artifact log and the loading flag. */
  datatype Session = Session(messages: seq<Message>, artifacts: seq<Artifact>, loading: bool)

  const InitialSession: Session := Session([], [], false)

  /** The fresh ids and times one send uses. */
  datatype SendStamps = SendStamps(userId: string, userTime: Time, replyId: string, replyTime: Time)

  /** What the client got from the gateway. `message` is `None` when the
      field is absent or not a string; `artifact` is `None` when the field
      is absent or falsy. */
  datatype GatewayOutcome =
    | Threw
    | Answered(message: Option<string>, artifact: Option<Artifact>)

  const DefaultReply: string := "I understand your question. Let me analyze..."

  const ApologyReply: string :=
    "I apologize, but I encountered an error. This is a demo interface. In production, I would provide detailed pricing strategy insights based on your query."

  /* ---------------- the request ---------------- */

  /** What travels for each attachment: its name and type only. */
  datatype FileRef = FileRef(name: string, mimeType: string)

  datatype ChatRequest = ChatRequest(message: string, files: Option<seq<FileRef>>)

  /** The request body: the content, and `name`/`type` of each attachment
      when there are attachments. */
  function RequestFor(content: string, files: Option<seq<FileAttachment>>): (req: ChatRequest)
    ensures req.message == content
    ensures req.files.Some? <==> files.Some?
    ensures files.Some? ==> |req.files.value| == |files.value|
    ensures files.Some? ==> forall i :: 0 <= i < |files.value| ==>
      req.files.value[i] == FileRef(files.value[i].name, files.value[i].mimeType)
  {
    match files
    case None => ChatRequest(content, None)
    case Some(fs) =>
      ChatRequest(content, Some(seq(|fs|, i requires 0 <= i < |fs| => FileRef(fs[i].name, fs[i].mimeType))))
  }

  /** The request as the route reads it back: `JSON.stringify` drops a
      `files` that is `undefined`. Each file reference is an object. */
  function RequestBody(req: ChatRequest): Body {
    match req.files
    case None => Fields(map["message" := Str(req.message)])
    case Some(fs) =>
      Fields(map["message" := Str(req.message), "files" := Arr(seq(|fs|, _ => Obj))])
  }

  /** What the client reads from the mock route's answer: the success body
      carries `message` and `artifact`; the 500 body parses fine but has
      neither. */
  function Deliver(response: ChatRoute.ChatResponse): GatewayOutcome {
    match response
    case ChatOk(topic, artifact) => Answered(Some(ChatRoute.ReplyText(topic)), artifact)
    case ChatFailed(_, _) => Answered(None, None)
  }

  /* ---------------- the transition ---------------- */

  /** `data.message || 'I understand…'` on the success path, the apology
      when anything threw. */
  function ReplyContent(outcome: GatewayOutcome): (text: string)
    ensures outcome.Threw? ==> text == ApologyReply
    ensures outcome.Answered? && outcome.message.Some? && outcome.message.value != [] ==>
      text == outcome.message.value
    ensures outcome.Answered? && (outcome.message.None? || outcome.message.value == []) ==>
      text == DefaultReply
  {
    match outcome
    case Threw => ApologyReply
    case Answered(message, _) =>
      if message.Some? && Truthy(Str(message.value)) then message.value else DefaultReply
  }

  /** The artifacts a send adds: `data.artifact` when truthy, whatever
      `success` says; nothing when something threw. */
  function NewArtifacts(outcome: GatewayOutcome): (added: seq<Artifact>)
    ensures |added| <= 1
    ensures |added| == 1 <==> outcome.Answered? && outcome.artifact.Some?
    ensures |added| == 1 ==> added[0] == outcome.artifact.value
  {
    if outcome.Answered? && outcome.artifact.Some? then [outcome.artifact.value] else []
  }

  function UserMessage(content: string, files: Option<seq<FileAttachment>>, stamps: SendStamps): Message {
    Message(stamps.userId, User, content, stamps.userTime, files, None)
  }

  function ReplyMessage(outcome: GatewayOutcome, stamps: SendStamps): Message {
    Message(stamps.replyId, Assistant, ReplyContent(outcome), stamps.replyTime, None, None)
  }

  /** First half of a send: the user turn is appended and the flag set. */
  function BeginSend(s: Session, content: string, files: Option<seq<FileAttachment>>, stamps: SendStamps)
    : Session
  {
    Session(s.messages + [UserMessage(content, files, stamps)], s.artifacts, true)
  }

  /** Second half: one assistant turn, the artifact if any, and the `finally`
      that clears the flag. */
  function FinishSend(s: Session, outcome: GatewayOutcome, stamps: SendStamps): Session {
    Session(s.messages + [ReplyMessage(outcome, stamps)], s.artifacts + NewArtifacts(outcome), false)
  }

  /** `handleSendMessage`: the user turn then one assistant turn are
      appended to the log, the artifacts the answer carried are appended to
      the artifact log, and the flag ends false. */
  function Send(s: Session, content: string, files: Option<seq<FileAttachment>>,
                stamps: SendStamps, outcome: GatewayOutcome): (r: Session)
    ensures r.messages == s.messages + [UserMessage(content, files, stamps), ReplyMessage(outcome, stamps)]
    ensures r.artifacts == s.artifacts + NewArtifacts(outcome)
    ensures !r.loading
  {
    FinishSend(BeginSend(s, content, files, stamps), outcome, stamps)
  }

  /** What one send does to the logs, turn by turn: exactly two turns are
      appended, the user turn (with the given content and attachments) then
      one assistant turn (without attachments or artifact id); earlier turns
      and artifacts stay as they were; the flag ends false on every path. */
  lemma SendTurns(s: Session, content: string, files: Option<seq<FileAttachment>>,
                  stamps: SendStamps, outcome: GatewayOutcome)
    ensures var r := Send(s, content, files, stamps, outcome);
      && |r.messages| == |s.messages| + 2
      && r.messages[..|s.messages|] == s.messages
      && r.messages[|s.messages|].role == User
      && r.messages[|s.messages|].content == content
      && r.messages[|s.messages|].attachments == files
      && r.messages[|s.messages| + 1].role == Assistant
      && r.messages[|s.messages| + 1].content == ReplyContent(outcome)
      && r.messages[|s.messages| + 1].attachments.None?
      && r.messages[|s.messages| + 1].artifactId.None?
      && r.artifacts[..|s.artifacts|] == s.artifacts
      && |r.artifacts| <= |s.artifacts| + 1
      && !r.loading
  {
    var r := Send(s, content, files, stamps, outcome);
    assert r.messages[..|s.messages|] == s.messages;
    assert r.artifacts[..|s.artifacts|] == s.artifacts;
  }

  /** While the reply is pending the session is busy: after the first half
      of a send the user turn is the last message, the artifacts are
      untouched and the flag is set, so the composer it is passed to as
      `disabled` cannot send; the full send is that first half followed by
      the second. */
  lemma BeginSendIsBusy(s: Session, content: string, files: Option<seq<FileAttachment>>,
                        stamps: SendStamps, outcome: GatewayOutcome, d: InputArea.Draft)
    ensures var b := BeginSend(s, content, files, stamps);
      && b.loading
      && |b.messages| == |s.messages| + 1
      && b.messages[..|s.messages|] == s.messages
      && b.messages[|s.messages|] == Message(stamps.userId, User, content, stamps.userTime, files, None)
      && b.artifacts == s.artifacts
      && !InputArea.SendEnabled(d, b.loading)
    ensures Send(s, content, files, stamps, outcome)
      == FinishSend(BeginSend(s, content, files, stamps), outcome, stamps)
  {
    var b := BeginSend(s, content, files, stamps);
    assert b.messages[..|s.messages|] == s.messages;
  }

  /* ---------------- runs of sends ---------------- */

  datatype SendCall = SendCall(
    content: string,
    files: Option<seq<FileAttachment>>,
    stamps: SendStamps,
    outcome: GatewayOutcome)

  /** Sends issued one after another. */
  function Run(s: Session, calls: seq<SendCall>): Session
    decreases |calls|
  {
    if calls == [] then s
    else
      var c := calls[0];
      Run(Send(s, c.content, c.files, c.stamps, c.outcome), calls[1..])
  }

  /** The artifacts a run of sends adds, in order. */
  function RunArtifacts(calls: seq<SendCall>): seq<Artifact>
    decreases |calls|
  {
    if calls == [] then [] else NewArtifacts(calls[0].outcome) + RunArtifacts(calls[1..])
  }

  /** The log is a sequence of (user, assistant) pairs. */
  ghost predicate Paired(messages: seq<Message>) {
    && |messages| % 2 == 0
    && forall i :: 0 <= i < |messages| ==>
         messages[i].role == (if i % 2 == 0 then User else Assistant)
  }

  /** One send keeps the log a sequence of pairs. */
  lemma SendKeepsPaired(s: Session, c: SendCall)
    requires Paired(s.messages)
    ensures Paired(Send(s, c.content, c.files, c.stamps, c.outcome).messages)
  {
    var s1 := Send(s, c.content, c.files, c.stamps, c.outcome);
    forall i | 0 <= i < |s1.messages|
      ensures s1.messages[i].role == (if i % 2 == 0 then User else Assistant)
    {
      if i < |s.messages| {
        assert s1.messages[..|s.messages|][i] == s1.messages[i];
      }
    }
  }

  /** A run keeps the turns that were there and adds two per call. */
  lemma {:induction false} RunAppendsTurns(s: Session, calls: seq<SendCall>)
    ensures var r := Run(s, calls);
      && |r.messages| == |s.messages| + 2 * |calls|
      && r.messages[..|s.messages|] == s.messages
    decreases |calls|
  {
    if calls != [] {
      var c := calls[0];
      var s1 := Send(s, c.content, c.files, c.stamps, c.outcome);
      RunAppendsTurns(s1, calls[1..]);
      var m := Run(s1, calls[1..]).messages;
      assert m[..|s.messages|] == m[..|s1.messages|][..|s.messages|];
    }
  }

  /** A run appends the calls' artifacts in call order. */
  lemma {:induction false} RunAppendsArtifacts(s: Session, calls: seq<SendCall>)
    ensures Run(s, calls).artifacts == s.artifacts + RunArtifacts(calls)
    decreases |calls|
  {
    if calls != [] {
      var c := calls[0];
      RunAppendsArtifacts(Send(s, c.content, c.files, c.stamps, c.outcome), calls[1..]);
      assert s.artifacts + RunArtifacts(calls)
          == (s.artifacts + NewArtifacts(c.outcome)) + RunArtifacts(calls[1..]);
    }
  }

  /** Once any call has been made, the flag is false. */
  lemma {:induction false} RunEndsIdle(s: Session, calls: seq<SendCall>)
    requires calls != []
    ensures !Run(s, calls).loading
    decreases |calls|
  {
    if |calls| > 1 {
      var c := calls[0];
      RunEndsIdle(Send(s, c.content, c.files, c.stamps, c.outcome), calls[1..]);
    }
  }

  /** Starting from a log of pairs, a run ends in a log of pairs: every user
      turn is followed by exactly one assistant turn. */
  lemma {:induction false} RunKeepsPaired(s: Session, calls: seq<SendCall>)
    requires Paired(s.messages)
    ensures Paired(Run(s, calls).messages)
    decreases |calls|
  {
    if calls != [] {
      var c := calls[0];
      SendKeepsPaired(s, c);
      RunKeepsPaired(Send(s, c.content, c.files, c.stamps, c.outcome), calls[1..]);
    }
  }

  /** From the empty initial session, n sends give exactly n (user,
      assistant) pairs, and the artifact log is the sends' artifacts. */
  lemma RunFromInitialSession(calls: seq<SendCall>)
    ensures var r := Run(InitialSession, calls);
      && |r.messages| == 2 * |calls|
      && Paired(r.messages)
      && r.artifacts == RunArtifacts(calls)
  {
    RunAppendsTurns(InitialSession, calls);
    RunKeepsPaired(InitialSession, calls);
    RunAppendsArtifacts(InitialSession, calls);
  }

  /** The k-th call's turns sit at positions 2k and 2k+1 after the old log:
      the call's content, then the reply chosen for its outcome. */
  lemma {:induction false} RunTurnContents(s: Session, calls: seq<SendCall>, k: nat)
    requires k < |calls|
    ensures var r := Run(s, calls);
      && |r.messages| == |s.messages| + 2 * |calls|
      && r.messages[|s.messages| + 2 * k].content == calls[k].content
      && r.messages[|s.messages| + 2 * k + 1].content == ReplyContent(calls[k].outcome)
    decreases |calls|
  {
    var c := calls[0];
    var s1 := Send(s, c.content, c.files, c.stamps, c.outcome);
    var r := Run(s1, calls[1..]);
    assert Run(s, calls) == r;
    RunAppendsTurns(s1, calls[1..]);
    var n := |s.messages|;
    assert |s1.messages| == n + 2;
    if k == 0 {
      assert r.messages[n] == r.messages[..n + 2][n];
      assert r.messages[n + 1] == r.messages[..n + 2][n + 1];
    } else {
      RunTurnContents(s1, calls[1..], k - 1);
      assert calls[1..][k - 1] == calls[k];
      assert n + 2 + 2 * (k - 1) == n + 2 * k;
    }
  }

  /* ---------------- the client against the mock route ---------------- */

  /** The outcome the client sees from the mock route: the request the
      client builds always carries a string message, so the route never
      fails on it; the client gets the reply text for the content and, for a
      pricing question only, the pricing artifact. */
  lemma MockRouteOutcome(content: string, files: Option<seq<FileAttachment>>, clock: ChatRoute.ChatClock)
    ensures var outcome := Deliver(ChatRoute.HandleChat(RequestBody(RequestFor(content, files)), clock));
      && outcome.Answered?
      && outcome.message == Some(ChatRoute.ReplyText(ChatRoute.Classify(content)))
      && (outcome.artifact.Some? <==> ChatRoute.Classify(content) == ChatRoute.PricingTopic)
      && (outcome.artifact.Some? ==> outcome.artifact.value.kind == PricingAnalysis)
  {
    var body := RequestBody(RequestFor(content, files));
    assert Get(body.fields, "message") == Str(content);
  }

  /** Hence, with the mock route behind it, a send never takes the apology
      path: the assistant turn is the route's reply for the content, and an
      artifact is appended exactly for a pricing question. */
  lemma SendThroughMockRoute(s: Session, content: string, files: Option<seq<FileAttachment>>,
                             stamps: SendStamps, clock: ChatRoute.ChatClock)
    ensures var outcome := Deliver(ChatRoute.HandleChat(RequestBody(RequestFor(content, files)), clock));
      var r := Send(s, content, files, stamps, outcome);
      && ReplyContent(outcome) == ChatRoute.ReplyText(ChatRoute.Classify(content))
      && (|r.artifacts| == |s.artifacts| + 1 <==> ChatRoute.Classify(content) == ChatRoute.PricingTopic)
  {
    MockRouteOutcome(content, files, clock);
    ChatRoute.ReplyTextNonEmpty(ChatRoute.Classify(content));
  }

  /** A parsed error body (the route's 500 answer) yields the default text,
      not the apology, and adds no artifact. */
  lemma FailedRouteGivesDefault(status: nat, error: string)
    ensures var outcome := Deliver(ChatRoute.ChatFailed(status, error));
      ReplyContent(outcome) == DefaultReply && NewArtifacts(outcome) == []
  {
  }

  /** A send that throws still appends exactly one assistant turn, the
      apology, adds no artifact and clears the flag. */
  lemma ThrowGivesApology(s: Session, content: string, files: Option<seq<FileAttachment>>, stamps: SendStamps)
    ensures var r := Send(s, content, files, stamps, Threw);
      && |r.messages| == |s.messages| + 2
      && r.messages[|s.messages| + 1].content == ApologyReply
      && r.artifacts == s.artifacts && !r.loading
  {
  }
}
