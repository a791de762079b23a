/** Generate, guard, verify, retry (ai/generate.py), and the response built from it (ask_flow.py). */
module Generate {
  import opened Common
  import opened ToolChat
  import opened SqlVerify

  datatype Status = StatusOk | NeedsClarification | Unanswerable

  datatype SqlResult = SqlResult(status: Status, sql: string, explanation: string)

  datatype ChatMessage = ChatMessage(role: Role, content: string)

  type Messages = seq<ChatMessage>

  /** The foreign parts: the model (any behaviour per attempt and transcript), the read-only guard, the
      identifier check, and the two text renderings that go back to the model. */
  datatype Backend = Backend(
    generate: (nat, Messages) -> Result<(SqlResult, TokenUsage), string>,
    validate: string -> Result<string, string>,
    verify: string -> VerificationResult,
    dump: SqlResult -> string,
    guardFeedback: string -> string,
    correctionFeedback: VerificationResult -> string)

  datatype GenerationOutcome = GenerationOutcome(
    result: SqlResult, safeSql: Option<string>, retryCount: nat,
    verification: Option<VerificationResult>, usage: TokenUsage)

  datatype GenerationError = ProviderFailed(detail: string) | GuardRejected(detail: string)

  // ------------------------------------------------- the run, attempt by attempt

  type Reply = Result<(SqlResult, TokenUsage), string>

  /** What guard and verifier say about a reply with status ok; any other status is a final answer. */
  datatype Judgement = Answered | Refused(detail: string) | Ungrounded(found: VerificationResult)

  function Judge(b: Backend, verifying: bool, result: SqlResult): Judgement {
    if result.status != StatusOk then Answered
    else match b.validate(result.sql)
      case Err(detail) => Refused(detail)
      case Ok(safe) =>
        if verifying && !b.verify(safe).Ok() then Ungrounded(b.verify(safe)) else Answered
  }

  /** Attempt `k`, asked with `before`, is sent back: an ok reply that the guard rejects or the verifier finds
      ungrounded. The next attempt is asked with the same messages, the reply, and what was wrong with it. */
  ghost predicate SentBack(b: Backend, verifying: bool, k: nat, before: Messages, after: Messages) {
    match b.generate(k, before)
    case Err(_) => false
    case Ok(answer) =>
      && answer.0.status == StatusOk
      && match b.validate(answer.0.sql)
         case Err(detail) =>
           after == before + [ChatMessage(Assistant, b.dump(answer.0)), ChatMessage(User, b.guardFeedback(detail))]
         case Ok(safe) =>
           && verifying && !b.verify(safe).Ok()
           && after == before + [ChatMessage(Assistant, b.dump(answer.0)),
                                 ChatMessage(User, b.correctionFeedback(b.verify(safe)))]
  }

  /** The messages of each attempt: the initial ones, then after every attempt but the last the corrected ones. */
  ghost predicate History(b: Backend, verifying: bool, initial: Messages, asked: seq<Messages>) {
    && (asked != [] ==> asked[0] == initial)
    && forall k {:trigger Follows(b, verifying, asked, k)} :: 0 < k < |asked| ==> Follows(b, verifying, asked, k)
  }

  ghost predicate Follows(b: Backend, verifying: bool, asked: seq<Messages>, k: nat)
    requires 0 < k < |asked|
  {
    SentBack(b, verifying, k - 1, asked[k - 1], asked[k])
  }

  /** What may be asked next. */
  ghost predicate IsNext(b: Backend, verifying: bool, initial: Messages, asked: seq<Messages>, next: Messages) {
    if asked == [] then next == initial else SentBack(b, verifying, |asked| - 1, asked[|asked| - 1], next)
  }

  lemma HistoryGrows(b: Backend, verifying: bool, initial: Messages, asked: seq<Messages>, next: Messages)
    requires History(b, verifying, initial, asked) && IsNext(b, verifying, initial, asked, next)
    ensures History(b, verifying, initial, asked + [next])
  {
    forall k | 0 < k < |asked| + 1 ensures Follows(b, verifying, asked + [next], k) {
      assert k < |asked| ==> Follows(b, verifying, asked, k);
    }
  }

  /** The usage of the attempts in `asked`. */
  function UsageOf(b: Backend, asked: seq<Messages>): TokenUsage {
    if asked == [] then NO_USAGE
    else
      var last := |asked| - 1;
      var before := UsageOf(b, asked[..last]);
      match b.generate(last, asked[last])
      case Ok(reply) => before.Plus(reply.1)
      case Err(_) => before
  }

  lemma UsageGrows(b: Backend, asked: seq<Messages>, next: Messages)
    ensures var reply := b.generate(|asked|, next);
            UsageOf(b, asked + [next]) == if reply.Ok? then UsageOf(b, asked).Plus(reply.value.1) else UsageOf(b, asked)
  {
    assert (asked + [next])[..|asked|] == asked;
  }

  /** What the last attempt ends in. `outOfRetries`: no further attempt was allowed. */
  ghost predicate EndsIn(b: Backend, verifying: bool, outOfRetries: bool, reply: Reply,
                         outcome: Result<GenerationOutcome, GenerationError>)
  {
    match reply
    case Err(detail) => outcome == Err(ProviderFailed(detail))
    case Ok(answer) =>
      match Judge(b, verifying, answer.0)
      case Refused(detail) => outOfRetries && outcome == Err(GuardRejected(detail))
      case Ungrounded(found) => outOfRetries && outcome.Ok? && Carries(b, answer.0, Some(found), outcome.value)
      case Answered => outcome.Ok? && Carries(b, answer.0, None, outcome.value)
  }

  /** Result, statement and verification of an outcome all come from one reply. */
  ghost predicate Carries(b: Backend, result: SqlResult, found: Option<VerificationResult>, o: GenerationOutcome) {
    && o.result == result && o.verification == found
    && if result.status != StatusOk then o.safeSql == None
       else b.validate(result.sql).Ok? && o.safeSql == Some(b.validate(result.sql).value)
  }

  /** One pass of the loop. The reply either ends the run or is sent back; it is never sent back when no retry is left.
      An ungrounded reply to the last attempt falls out of the loop and is returned with its verification. */
  method RunAttempt(b: Backend, attempt: nat, isLast: bool, messages: Messages, verifying: bool, usage: TokenUsage)
    returns (outcome: Option<Result<GenerationOutcome, GenerationError>>, messages': Messages, usage': TokenUsage)
    ensures var reply := b.generate(attempt, messages);
            && usage' == (if reply.Ok? then usage.Plus(reply.value.1) else usage)
            && (outcome.Some? ==> EndsIn(b, verifying, isLast, reply, outcome.value))
    ensures outcome.Some? && outcome.value.Ok? ==>
      outcome.value.value.retryCount == attempt && outcome.value.value.usage == usage'
    ensures outcome.None? ==> !isLast && SentBack(b, verifying, attempt, messages, messages')
  {
    messages', usage' := messages, usage;
    var reply := b.generate(attempt, messages);
    if reply.Err? {
      return Some(Err(ProviderFailed(reply.error))), messages', usage';
    }
    var result := reply.value.0;
    usage' := usage.Plus(reply.value.1);
    if result.status != StatusOk {
      return Some(Ok(GenerationOutcome(result, None, attempt, None, usage'))), messages', usage';
    }
    var guarded := b.validate(result.sql);
    if guarded.Err? {
      if isLast {
        return Some(Err(GuardRejected(guarded.error))), messages', usage';
      }
      messages' := messages + [ChatMessage(Assistant, b.dump(result)), ChatMessage(User, b.guardFeedback(guarded.error))];
      return None, messages', usage';
    }
    var safeSql := Some(guarded.value);
    if !verifying {
      return Some(Ok(GenerationOutcome(result, safeSql, attempt, None, usage'))), messages', usage';
    }
    var verification := b.verify(guarded.value);
    if verification.Ok() {
      return Some(Ok(GenerationOutcome(result, safeSql, attempt, None, usage'))), messages', usage';
    }
    if !isLast {
      messages' := messages + [ChatMessage(Assistant, b.dump(result)),
                               ChatMessage(User, b.correctionFeedback(verification))];
      return None, messages', usage';
    }
    return Some(Ok(GenerationOutcome(result, safeSql, attempt, Some(verification), usage'))), messages', usage';
  }

  /** generate_with_verification; `asked` are the messages of each attempt. At most 1 + max(0, maxRetries) attempts, and
      a refused or ungrounded reply is final only at the last of them. */
  method GenerateWithVerification(b: Backend, initial: Messages, maxRetries: int, verifying: bool)
    returns (outcome: Result<GenerationOutcome, GenerationError>, asked: seq<Messages>)
    ensures 1 <= |asked| <= 1 + (if maxRetries > 0 then maxRetries else 0)
    ensures History(b, verifying, initial, asked)
    ensures EndsIn(b, verifying, |asked| == 1 + (if maxRetries > 0 then maxRetries else 0),
                   b.generate(|asked| - 1, asked[|asked| - 1]), outcome)
    ensures outcome.Ok? ==> outcome.value.retryCount == |asked| - 1 && outcome.value.usage == UsageOf(b, asked)
  {
    var messages := initial;
    var attempts := 1 + (if maxRetries > 0 then maxRetries else 0);
    var usage := NO_USAGE;
    asked := [];
    while true
      invariant |asked| < attempts && History(b, verifying, initial, asked)
      invariant IsNext(b, verifying, initial, asked, messages) && usage == UsageOf(b, asked)
      decreases attempts - |asked|
    {
      UsageGrows(b, asked, messages);
      HistoryGrows(b, verifying, initial, asked, messages);
      var ended, next;
      ended, next, usage := RunAttempt(b, |asked|, |asked| == attempts - 1, messages, verifying, usage);
      asked := asked + [messages];
      if ended.Some? {
        return ended.value, asked;
      }
      messages := next;
    }
  }

  /** Every retry adds exactly two messages and takes none away. */
  lemma {:induction false} TwoMessagesPerRetry(b: Backend, verifying: bool, initial: Messages, asked: seq<Messages>, k: nat)
    requires History(b, verifying, initial, asked) && k < |asked|
    ensures initial <= asked[k] && |asked[k]| == |initial| + 2 * k
  {
    if k > 0 {
      TwoMessagesPerRetry(b, verifying, initial, asked, k - 1);
      assert Follows(b, verifying, asked, k);
    }
  }

  // --------------------------------------------------------------- the response

  datatype ResponseStatus = ResponseOk | VerificationFailed | Clarify | CannotAnswer

  datatype AskResponse = AskResponse(
    status: ResponseStatus, generatedSql: Option<string>, invalidIdentifiers: seq<string>, retryCount: nat,
    extraWarning: bool)

  const GUARD_MESSAGE := "The generated statement is not a single read-only SELECT: "

  /** Expected failures carry an HTTP status. */
  datatype FlowError = FlowError(code: nat, detail: string)

  /** The tail of run_ask_flow: response, and the usage recorded for the request. */
  method BuildResponse(outcome: Result<GenerationOutcome, GenerationError>, discoveryUsage: TokenUsage)
    returns (r: Result<(AskResponse, TokenUsage), FlowError>)
    ensures r.Ok? <==> outcome.Ok?
    ensures outcome.Err? ==> r.error == match outcome.error
      case ProviderFailed(detail) => FlowError(502, detail)
      case GuardRejected(detail) => FlowError(422, GUARD_MESSAGE + detail)
    ensures outcome.Ok? ==> Reports(outcome.value, r.value.0) && r.value.1 == discoveryUsage.Plus(outcome.value.usage)
  {
    if outcome.Err? {
      match outcome.error
      case ProviderFailed(detail) => return Err(FlowError(502, detail));
      case GuardRejected(detail) => return Err(FlowError(422, GUARD_MESSAGE + detail));
    }
    var o := outcome.value;
    var status, generatedSql, invalid := ResponseOk, o.safeSql, [];
    if o.result.status != StatusOk {
      status := if o.result.status.NeedsClarification? then Clarify else CannotAnswer;
      generatedSql := None;
    } else if o.verification.Some? {
      status := VerificationFailed;
      invalid := o.verification.value.unknownTables + o.verification.value.unknownColumns;
    }
    var warn := status == VerificationFailed && o.verification.Some?;
    r := Ok((AskResponse(status, generatedSql, invalid, o.retryCount, warn), discoveryUsage.Plus(o.usage)));
  }

  /** The response carries the outcome: SQL for an ok result only, identifiers and a warning for a failed check only. */
  ghost predicate Reports(o: GenerationOutcome, response: AskResponse) {
    && response.retryCount == o.retryCount
    && response.generatedSql == (if o.result.status == StatusOk then o.safeSql else None)
    && (response.status == VerificationFailed <==> o.result.status == StatusOk && o.verification.Some?)
    && (response.status == ResponseOk <==> o.result.status == StatusOk && o.verification.None?)
    && (response.status == Clarify <==> o.result.status == NeedsClarification)
    && (response.extraWarning <==> response.status == VerificationFailed)
    && response.invalidIdentifiers == if response.status == VerificationFailed
                                      then o.verification.value.unknownTables + o.verification.value.unknownColumns else []
  }

  /** What the user sees agrees with what guard and verifier say about the reply it was made from. */
  ghost predicate Agrees(b: Backend, verifying: bool, result: SqlResult, response: AskResponse) {
    var judgement := Judge(b, verifying, result);
    && (response.invalidIdentifiers != [] <==> response.status == VerificationFailed)
    && (response.status == VerificationFailed <==> judgement.Ungrounded?)
    && (judgement.Ungrounded? ==>
          response.invalidIdentifiers == judgement.found.unknownTables + judgement.found.unknownColumns)
    && (response.status == ResponseOk <==> result.status == StatusOk && judgement.Answered?)
    && (response.status == Clarify <==> result.status == NeedsClarification)
    && (response.status == CannotAnswer <==> result.status == Unanswerable)
    && (response.generatedSql.Some? <==> result.status == StatusOk)
    && (response.generatedSql.Some? ==> b.validate(result.sql) == Ok(response.generatedSql.value))
    && (response.status == ResponseOk && verifying ==>
          response.generatedSql.Some? && b.verify(response.generatedSql.value).Ok())
  }

  lemma CarriedAgrees(b: Backend, verifying: bool, outOfRetries: bool, reply: Reply, o: GenerationOutcome,
                      response: AskResponse)
    requires EndsIn(b, verifying, outOfRetries, reply, Ok(o)) && Reports(o, response)
    ensures reply.Ok? && Agrees(b, verifying, reply.value.0, response)
    ensures response.status == VerificationFailed ==> outOfRetries
  {}

  /** run_ask_flow from the first generation call: whatever model, guard and verifier do, the answer agrees with what
      they said about the last reply, after all retries if it failed the check; an error tells which of them ended the
      run; and the usage covers discovery and every attempt. */
  method RunAskFlow(b: Backend, initial: Messages, maxRetries: int, verifying: bool, discoveryUsage: TokenUsage)
    returns (r: Result<(AskResponse, TokenUsage), FlowError>, asked: seq<Messages>)
    ensures 1 <= |asked| <= 1 + (if maxRetries > 0 then maxRetries else 0) && History(b, verifying, initial, asked)
    ensures r.Ok? ==>
      var reply, response := b.generate(|asked| - 1, asked[|asked| - 1]), r.value.0;
      && reply.Ok? && Agrees(b, verifying, reply.value.0, response)
      && response.retryCount == |asked| - 1
      && (response.status == VerificationFailed ==> |asked| == 1 + (if maxRetries > 0 then maxRetries else 0))
      && r.value.1 == discoveryUsage.Plus(UsageOf(b, asked))
    ensures r.Err? ==>
      match b.generate(|asked| - 1, asked[|asked| - 1])
      case Err(detail) => r.error == FlowError(502, detail)
      case Ok(answer) =>
        && |asked| == 1 + (if maxRetries > 0 then maxRetries else 0)
        && answer.0.status == StatusOk && b.validate(answer.0.sql).Err?
        && r.error == FlowError(422, GUARD_MESSAGE + b.validate(answer.0.sql).error)
  {
    var outcome;
    outcome, asked := GenerateWithVerification(b, initial, maxRetries, verifying);
    r := BuildResponse(outcome, discoveryUsage);
    if outcome.Ok? {
      CarriedAgrees(b, verifying, |asked| == 1 + (if maxRetries > 0 then maxRetries else 0),
                    b.generate(|asked| - 1, asked[|asked| - 1]), outcome.value, r.value.0);
    }
  }
}
