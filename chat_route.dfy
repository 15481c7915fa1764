/**
  * `POST /api/chat` (app/api/chat/route.ts): a stub responder that checks
  * for a session, reads the JSON body, ignores the message in it and answers
  * with one of ten canned sentences followed by a fixed follow-up question.
  * The session lookup, the body parse and `Math.random()` are inputs.
  */
module ChatApi {

  /** The canned answers, fixed for the life of the process. */
  const TaxResponses: seq<string> := [
    "Based on your situation, you might be eligible for the home office deduction if you use part of your home exclusively for business.",
    "Have you considered maximizing your retirement contributions? This can significantly reduce your taxable income.",
    "For self-employed individuals, quarterly estimated tax payments are crucial to avoid penalties.",
    "The standard deduction for 2025 is $13,850 for single filers and $27,700 for married couples filing jointly.",
    "If you've worked remotely in different states, you may need to file multiple state tax returns.",
    "Charitable donations are deductible if you itemize your deductions rather than taking the standard deduction.",
    "Capital gains from investments held longer than a year qualify for lower long-term capital gains tax rates.",
    "If you're a gig worker or freelancer, don't forget to deduct your business expenses to reduce your taxable income.",
    "Education expenses might qualify for tax credits like the American Opportunity Credit or the Lifetime Learning Credit.",
    "Medical expenses exceeding 7.5% of your adjusted gross income can be deducted if you itemize."
  ]

  const FollowUp := " Would you like more specific advice about your tax situation?"
  const UnauthorizedText := "Unauthorized"
  const ServerErrorText := "Failed to process your request"

  /** What `supabase.auth.getSession()` gave: no session, a session, or an exception. */
  datatype SessionLookup = NoSession | HasSession | LookupThrew

  /**
    * What `await request.json()` gave: an exception (malformed body), the
    * JSON value `null` (destructuring it throws), or any other value; its
    * `message` field is carried along but never read.
    */
  datatype RequestBody = Malformed | JsonNull | Json(message: string)

  datatype ReplyBody = ErrorBody(error: string) | AnswerBody(response: string)
  datatype Reply = Reply(status: int, body: ReplyBody)

  /** `0 <= r < 1` and `n > 0` put `r * n` in `[0, n)`. */
  lemma ScaledInRange(r: real, n: nat)
    requires 0.0 <= r < 1.0 && n > 0
    ensures 0.0 <= r * (n as real) < n as real
  {
    var x := n as real;
    assert r * x <= 1.0 * x;
    assert (1.0 - r) * x > 0.0;
  }

  /** `Math.floor(r * n)` for `r = Math.random()`: always an index of a table of `n` entries. */
  function PickIndex(r: real, n: nat): (i: nat)
    requires 0.0 <= r < 1.0 && n > 0
    ensures i < n
    ensures i as real <= r * (n as real) < i as real + 1.0
  {
    ScaledInRange(r, n);
    (r * (n as real)).Floor
  }

  /** The sentence returned for a random draw `r`. */
  function Answer(r: real): (s: string)
    requires 0.0 <= r < 1.0
    ensures exists i :: 0 <= i < |TaxResponses| && s == TaxResponses[i] + FollowUp
  {
    var i := PickIndex(r, |TaxResponses|);
    TaxResponses[i] + FollowUp
  }

  /** The handler: session check first, then the body, then the answer; every exception becomes a 500. */
  function Chat(session: SessionLookup, body: RequestBody, r: real): (reply: Reply)
    requires 0.0 <= r < 1.0
    ensures reply.status == 401 <==> session == NoSession
    ensures reply.status == 401 ==> reply.body == ErrorBody(UnauthorizedText)
    ensures reply.status == 500 <==> session == LookupThrew || (session == HasSession && !body.Json?)
    ensures reply.status == 500 ==> reply.body == ErrorBody(ServerErrorText)
    ensures reply.status == 200 <==> session == HasSession && body.Json?
    ensures reply.status == 200 ==>
              exists i :: 0 <= i < |TaxResponses| && reply.body == AnswerBody(TaxResponses[i] + FollowUp)
    ensures reply.body.AnswerBody? <==> reply.status == 200
  {
    match session
    case LookupThrew => Reply(500, ErrorBody(ServerErrorText))
    case NoSession => Reply(401, ErrorBody(UnauthorizedText))
    case HasSession =>
      match body
      case Json(_) => Reply(200, AnswerBody(Answer(r)))
      case _ => Reply(500, ErrorBody(ServerErrorText))
  }

  /** The table has exactly ten entries. */
  lemma TenResponses()
    ensures |TaxResponses| == 10
  {
  }

  /** The message a client sends never shows in, nor changes, the reply. */
  lemma MessageIgnored(session: SessionLookup, m1: string, m2: string, r: real)
    requires 0.0 <= r < 1.0
    ensures Chat(session, Json(m1), r) == Chat(session, Json(m2), r)
  {
  }

  /** Without a session the body is never looked at: a malformed one still gets 401. */
  lemma UnauthorizedBeforeBody(body: RequestBody, r: real)
    requires 0.0 <= r < 1.0
    ensures Chat(NoSession, body, r) == Reply(401, ErrorBody(UnauthorizedText))
  {
  }

  /** The draw `r` selects entry `floor(10 r)`, followed by the follow-up question. */
  lemma AnswerForDraw(r: real, i: nat)
    requires 0.0 <= r < 1.0 && i < |TaxResponses|
    requires i as real <= r * 10.0 < i as real + 1.0
    ensures Answer(r) == TaxResponses[i] + FollowUp
  {
    var j := PickIndex(r, |TaxResponses|);
    assert j == i;
  }

  /** Every entry is reachable: the draw `i / 10` selects entry `i`. */
  lemma EveryResponseReachable(i: nat, message: string)
    requires i < |TaxResponses|
    ensures exists r: real :: 0.0 <= r < 1.0 &&
              Chat(HasSession, Json(message), r) == Reply(200, AnswerBody(TaxResponses[i] + FollowUp))
  {
    var r := i as real / 10.0;
    AnswerForDraw(r, i);
    assert Chat(HasSession, Json(message), r) == Reply(200, AnswerBody(TaxResponses[i] + FollowUp));
  }
}
