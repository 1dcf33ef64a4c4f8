/** The AI routes (routes/ai.js): the plan-limit table, the usage-tracking step
    that runs before /analyze (find or create the user, roll over, gate,
    consume), the /analyze handler up to the upstream call, and /usage.
    Token verification is reduced to the claims it yields; the upstream call is
    reduced to the request it would send. */
module AiRoute {
  import opened UserModel

  /** PLAN_LIMITS: the table the 429 payload and the usage reports quote.  It is
      a second copy of the gate's table and agrees with it tier for tier. */
  function PlanLimit(t: Tier): (r: Limit)
    ensures r == QueryLimit(t)
  {
    match t
    case Free => Finite(10)
    case Professional => Finite(100)
    case Business => Finite(500)
    case Enterprise => Unbounded
  }

  /** What a verified bearer token yields: subject, and optional email and name. */
  datatype Claims = Claims(sub: string, email: Option<string>, name: Option<string>)

  /** JavaScript truthiness of an optional string: present and non-empty. */
  predicate Truthy(s: Option<string>) {
    s.Some? && s.value != ""
  }

  /** `s || fallback` */
  function OrElse(s: Option<string>, fallback: string): string {
    if Truthy(s) then s.value else fallback
  }

  /** The body of the 429 response. */
  datatype QuotaExceeded = QuotaExceeded(limit: Limit, used: nat, tier: Tier)

  /** How trackUsage ends: it calls next() with the user, answers 429, or answers 500. */
  datatype TrackOutcome = Permitted(user: UserDoc) | Denied(body: QuotaExceeded) | TrackFailed

  /** The record created for an identity seen for the first time. */
  function CreatedDoc(c: Claims, now: Instant): UserDoc {
    var userEmail := OrElse(c.email, c.sub);
    NewDoc(c.sub, userEmail, OrElse(c.name, userEmail), Some(Free), Some(now), now)
  }

  /** Roll over, gate, and on permit consume one query and save. */
  function GateAndConsume(docs: map<string, UserDoc>, d: UserDoc, now: Instant)
    : (map<string, UserDoc>, TrackOutcome)
  {
    var rolled := d.(usage := RolledOver(d.usage, now));
    if !Below(rolled.usage.aiQueriesThisMonth, QueryLimit(rolled.tier)) then
      (docs, Denied(QuotaExceeded(PlanLimit(rolled.tier), rolled.usage.aiQueriesThisMonth, rolled.tier)))
    else
      var consumed := rolled.(usage := rolled.usage.(aiQueriesThisMonth := rolled.usage.aiQueriesThisMonth + 1));
      if ValidDoc(consumed) then (docs[consumed.auth0Id := consumed], Permitted(consumed))
      else (docs, TrackFailed)
  }

  /** trackUsage on the stored records: the records afterwards and the outcome. */
  function Track(docs: map<string, UserDoc>, c: Claims, now: Instant): (r: (map<string, UserDoc>, TrackOutcome))
    // a denial saves nothing, and a first-time identity is never denied
    ensures r.1.Denied? ==> c.sub in docs && r.0 == docs
    // the 429 body quotes the limit that caused the denial and a count at it
    ensures r.1.Denied? ==> r.1.body.limit == QueryLimit(r.1.body.tier) && !Below(r.1.body.used, r.1.body.limit)
    // after any permitted consume the count is at least one and at most the limit
    ensures r.1.Permitted? ==> 1 <= r.1.user.usage.aiQueriesThisMonth && WithinQuota(r.1.user)
    // what is passed on is what was saved
    ensures r.1.Permitted? ==> r.1.user.auth0Id in r.0 && r.0[r.1.user.auth0Id] == r.1.user
    ensures StoreValid(docs) ==> StoreValid(r.0)
    ensures StoreWithinQuota(docs) ==> StoreWithinQuota(r.0)
  {
    if c.sub !in docs then
      var created := CreatedDoc(c, now);
      if !ValidDoc(created) then (docs, TrackFailed)
      else GateAndConsume(docs[c.sub := created], created, now)
    else
      GateAndConsume(docs, docs[c.sub].(lastLoginAt := Some(now)), now)
  }

  /** The count never exceeds a finite limit. */
  predicate WithinQuota(d: UserDoc) {
    QueryLimit(d.tier).Unbounded? || d.usage.aiQueriesThisMonth <= QueryLimit(d.tier).n
  }

  predicate StoreWithinQuota(docs: map<string, UserDoc>) {
    forall id :: id in docs ==> WithinQuota(docs[id])
  }

  /** trackUsage, with the loaded document changed in place. */
  datatype Tracked = Proceed(user: User) | Reject(body: QuotaExceeded) | Failed

  method TrackUsage(users: UserCollection, c: Claims, now: Instant) returns (t: Tracked)
    modifies users
    ensures users.docs == Track(old(users.docs), c, now).0
    ensures t.Proceed? ==> fresh(t.user) && Track(old(users.docs), c, now).1 == Permitted(t.user.Doc())
    ensures t.Reject? ==> Track(old(users.docs), c, now).1 == Denied(t.body)
    ensures t.Failed? ==> Track(old(users.docs), c, now).1 == TrackFailed
  {
    var userEmail := OrElse(c.email, c.sub);
    var user := users.FindOne(c.sub);
    if user == null {
      user := new User.Create(c.sub, userEmail, OrElse(c.name, userEmail), Some(Free), Some(now), now);
      var ok := users.Save(user);
      if !ok {
        return Failed;
      }
    } else {
      user.lastLoginAt := Some(now);
    }
    var _ := user.ResetMonthlyUsage(now);
    if !user.CanMakeAIQuery() {
      var limit := PlanLimit(user.tier);
      return Reject(QuotaExceeded(limit, user.usage.aiQueriesThisMonth, user.tier));
    }
    var saved := user.IncrementAIUsage(users);
    if !saved {
      return Failed;
    }
    t := Proceed(user);
  }

  // ---------------------------------------------------------------- /analyze

  datatype ChatMessage = ChatMessage(role: string, content: string)

  /** The `messages` field of the body: absent, some non-array value, or an array. */
  datatype MessagesField = NoMessages | NotAnArray | MessageArray(items: seq<ChatMessage>)

  /** The fields /analyze reads from the request body. */
  datatype AnalyzeBody = AnalyzeBody(prompt: Option<string>, messages: MessagesField, systemMessage: Option<string>)

  /** The caller's prior messages that are forwarded: only an array is. */
  function PriorMessages(m: MessagesField): seq<ChatMessage> {
    if m.MessageArray? then m.items else []
  }

  /** The message list sent upstream: an optional system message, the caller's
      messages in order, and the prompt as the last, user, message. */
  function MessageList(systemMessage: Option<string>, messages: MessagesField, prompt: string)
    : (r: seq<ChatMessage>)
    ensures var off := if Truthy(systemMessage) then 1 else 0;
      && |r| == off + |PriorMessages(messages)| + 1
      && (Truthy(systemMessage) ==> r[0] == ChatMessage("system", systemMessage.value))
      && r[off..off + |PriorMessages(messages)|] == PriorMessages(messages)
      && r[|r| - 1] == ChatMessage("user", prompt)
  {
    (if Truthy(systemMessage) then [ChatMessage("system", systemMessage.value)] else [])
    + PriorMessages(messages) + [ChatMessage("user", prompt)]
  }

  /** Builds the list by pushing onto it, as the handler does. */
  method BuildMessages(systemMessage: Option<string>, messages: MessagesField, prompt: string)
    returns (out: seq<ChatMessage>)
    ensures out == MessageList(systemMessage, messages, prompt)
  {
    out := [];
    if Truthy(systemMessage) {
      out := out + [ChatMessage("system", systemMessage.value)];
    }
    if messages.MessageArray? {
      out := out + messages.items;
    }
    out := out + [ChatMessage("user", prompt)];
  }

  /** The usage block of a successful /analyze response. */
  datatype UserUsage = UserUsage(used: nat, limit: Limit, tier: Tier)

  /** How /analyze answers: 429 or 500 from tracking, 400 for a missing prompt,
      500 for a missing API key, or the upstream call with its message list and
      the usage block to return with the upstream answer. */
  datatype AnalyzeResponse =
    | TooManyRequests(body: QuotaExceeded)
    | TrackingError
    | PromptRequired
    | MissingApiKey
    | CallUpstream(messages: seq<ChatMessage>, userUsage: UserUsage)

  /** The handler's answer once tracking has ended with outcome `t`. */
  function Respond(t: TrackOutcome, body: AnalyzeBody, apiKeySet: bool): AnalyzeResponse {
    match t
    case TrackFailed => TrackingError
    case Denied(q) => TooManyRequests(q)
    case Permitted(d) =>
      if !Truthy(body.prompt) then PromptRequired
      else if !apiKeySet then MissingApiKey
      else CallUpstream(MessageList(body.systemMessage, body.messages, body.prompt.value),
                        UserUsage(d.usage.aiQueriesThisMonth, PlanLimit(d.tier), d.tier))
  }

  /** POST /analyze up to the upstream call. */
  method Analyze(users: UserCollection, c: Claims, body: AnalyzeBody, now: Instant, apiKeySet: bool)
    returns (resp: AnalyzeResponse)
    modifies users
    ensures users.docs == Track(old(users.docs), c, now).0
    ensures resp == Respond(Track(old(users.docs), c, now).1, body, apiKeySet)
  {
    var t := TrackUsage(users, c, now);
    match t
    case Failed => return TrackingError;
    case Reject(q) => return TooManyRequests(q);
    case Proceed(user) =>
      if !Truthy(body.prompt) {
        return PromptRequired;
      }
      if !apiKeySet {
        return MissingApiKey;
      }
      var msgs := BuildMessages(body.systemMessage, body.messages, body.prompt.value);
      resp := CallUpstream(msgs, UserUsage(user.usage.aiQueriesThisMonth, PlanLimit(user.tier), user.tier));
  }

  // ------------------------------------------------------------------ /usage

  datatype UsageResponse = UserNotFound | UsageStats(used: nat, limit: Limit, tier: Tier, resetDate: Instant)

  /** GET /usage: the counts after a rollover of the loaded copy, which is not saved. */
  method GetUsage(users: UserCollection, sub: string, now: Instant) returns (r: UsageResponse)
    ensures r.UserNotFound? <==> sub !in users.docs
    ensures r.UsageStats? ==>
      var d := users.docs[sub];
      && r.used == RolledOver(d.usage, now).aiQueriesThisMonth
      && r.limit == QueryLimit(d.tier) && r.tier == d.tier
      && r.resetDate == RolledOver(d.usage, now).lastResetDate
  {
    var user := users.FindOne(sub);
    if user == null {
      return UserNotFound;
    }
    var _ := user.ResetMonthlyUsage(now);
    r := UsageStats(user.usage.aiQueriesThisMonth, PlanLimit(user.tier), user.tier, user.usage.lastResetDate);
  }

  // ------------------------------------------------------------------ properties

  /** A first-time identity is saved with tier free, the email falling back to the
      subject and the name to that email; it is refused only without a subject. */
  lemma NewIdentityIsCreatedFree(docs: map<string, UserDoc>, c: Claims, now: Instant)
    requires c.sub !in docs
    ensures Track(docs, c, now).1.TrackFailed? <==> c.sub == ""
    ensures c.sub != "" ==>
      var r := Track(docs, c, now);
      var userEmail := if Truthy(c.email) then c.email.value else c.sub;
      && r.1.Permitted? && c.sub in r.0 && r.0[c.sub] == r.1.user
      && r.1.user.tier == Free && r.1.user.subscriptionStatus == Trialing
      && r.1.user.email == Lowercase(userEmail)
      && r.1.user.name == (if Truthy(c.name) then c.name.value else userEmail)
      && r.1.user.usage == Usage(1, 0, now)
      && r.0 - {c.sub} == docs
  {
    var userEmail := OrElse(c.email, c.sub);
    assert c.sub != "" ==> userEmail != "";
    if c.sub != "" {
      var created := CreatedDoc(c, now);
      assert ValidDoc(created);
      assert docs[c.sub := created] - {c.sub} == docs;
    }
  }

  /** Rollover runs before the gate: whatever the count of an earlier month, the
      first request of a new month is permitted and leaves the count at one. */
  lemma NewMonthIsNeverBlocked(docs: map<string, UserDoc>, c: Claims, now: Instant)
    requires StoreValid(docs) && c.sub in docs
    requires !SamePeriod(docs[c.sub].usage.lastResetDate, now)
    ensures var r := Track(docs, c, now);
      && r.1.Permitted? && r.1.user.usage == Usage(1, 0, now)
      && r.0 == docs[c.sub := r.1.user]
  {
  }

  /** A permitted request adds exactly one query to the rolled-over count and
      changes nothing else of the record but the login time. */
  lemma PermitConsumesExactlyOne(docs: map<string, UserDoc>, c: Claims, now: Instant)
    requires StoreValid(docs) && c.sub in docs
    ensures var r := Track(docs, c, now);
      var before := docs[c.sub];
      var rolled := RolledOver(before.usage, now);
      r.1.Permitted? ==>
        r.1.user == before.(lastLoginAt := Some(now),
                            usage := rolled.(aiQueriesThisMonth := rolled.aiQueriesThisMonth + 1))
        && r.0 == docs[c.sub := r.1.user]
  {
  }

  /** A stored record is never refused for an internal error, and the gate decides
      exactly as the rolled-over count against the tier's limit. */
  lemma GateDecidesStoredUser(docs: map<string, UserDoc>, c: Claims, now: Instant)
    requires StoreValid(docs) && c.sub in docs
    ensures var r := Track(docs, c, now);
      var d := docs[c.sub];
      && !r.1.TrackFailed?
      && (r.1.Permitted? <==> Below(RolledOver(d.usage, now).aiQueriesThisMonth, QueryLimit(d.tier)))
      && (r.1.Denied? ==> r.1.body == QuotaExceeded(PlanLimit(d.tier), RolledOver(d.usage, now).aiQueriesThisMonth, d.tier))
  {
  }

  /** Quota is consumed before the prompt is looked at: a request without a prompt
      still uses one query, saved, and is then answered 400. */
  lemma MissingPromptStillConsumes(docs: map<string, UserDoc>, c: Claims, body: AnalyzeBody,
                                    now: Instant, apiKeySet: bool)
    requires StoreValid(docs) && c.sub in docs
    requires !Truthy(body.prompt)
    requires Below(RolledOver(docs[c.sub].usage, now).aiQueriesThisMonth, QueryLimit(docs[c.sub].tier))
    ensures var r := Track(docs, c, now);
      && Respond(r.1, body, apiKeySet) == PromptRequired
      && r.0[c.sub].usage.aiQueriesThisMonth == RolledOver(docs[c.sub].usage, now).aiQueriesThisMonth + 1
  {
  }

  /** A forwarded request reports the count just saved and the limit that gates it,
      and sends the prompt as the last message. */
  lemma ForwardReportsSavedUsage(docs: map<string, UserDoc>, c: Claims, body: AnalyzeBody,
                                 now: Instant, apiKeySet: bool)
    ensures var r := Track(docs, c, now);
      var resp := Respond(r.1, body, apiKeySet);
      resp.CallUpstream? ==>
        && r.1.Permitted?
        && resp.userUsage.used == r.0[r.1.user.auth0Id].usage.aiQueriesThisMonth
        && resp.userUsage.limit == QueryLimit(r.0[r.1.user.auth0Id].tier)
        && Below(resp.userUsage.used - 1, resp.userUsage.limit)
        && resp.messages[|resp.messages| - 1] == ChatMessage("user", body.prompt.value)
  {
  }

  /** What /usage reports predicts the next request at the same time: it is
      permitted iff the reported count is below the reported limit. */
  lemma UsageReportPredictsGate(docs: map<string, UserDoc>, c: Claims, now: Instant)
    requires StoreValid(docs) && c.sub in docs
    ensures var d := docs[c.sub];
      (Below(RolledOver(d.usage, now).aiQueriesThisMonth, PlanLimit(d.tier))
       <==> Track(docs, c, now).1.Permitted?)
  {
  }
}
