/** The user record of the quota service (Models/User.js): its fields and schema
    defaults, the three usage methods attached to it, and the collection that
    persists it.  The clock is an explicit parameter (`now`) and the database
    collection is a map from identity to stored record. */
module UserModel {

  datatype Option<+T> = None | Some(value: T)

  /** A wall-clock instant reduced to its local calendar parts.  `month` counts
      as Date.getMonth does: 0 is January, 11 is December. */
  datatype Instant = Instant(year: int, month: int, day: int)

  predicate ValidInstant(t: Instant) {
    0 <= t.month < 12 && 1 <= t.day <= 31
  }

  /** Two instants lie in the same counting period iff month and year agree. */
  predicate SamePeriod(a: Instant, b: Instant) {
    a.month == b.month && a.year == b.year
  }

  /** Calendar months since year 0; used only to say that periods move forward. */
  function PeriodIndex(t: Instant): int {
    t.year * 12 + t.month
  }

  datatype Tier = Free | Professional | Business | Enterprise

  datatype SubscriptionStatus = Active | Canceled | PastDue | Trialing

  /** A monthly query limit; `Unbounded` stands for JavaScript's Infinity. */
  datatype Limit = Finite(n: nat) | Unbounded

  /** `count < limit`, where every count is below Infinity. */
  predicate Below(count: nat, limit: Limit) {
    limit.Unbounded? || count < limit.n
  }

  /** The limit table inside canMakeAIQuery. */
  function QueryLimit(t: Tier): (r: Limit)
    ensures r.Unbounded? <==> t == Enterprise
    ensures r.Finite? ==> r.n >= 10
  {
    match t
    case Free => Finite(10)
    case Professional => Finite(100)
    case Business => Finite(500)
    case Enterprise => Unbounded
  }

  /** The `usage` sub-document. */
  datatype Usage = Usage(aiQueriesThisMonth: nat, reportsThisMonth: nat, lastResetDate: Instant)

  /** The usage after resetMonthlyUsage has run at `now`. */
  function RolledOver(u: Usage, now: Instant): (r: Usage)
    ensures SamePeriod(r.lastResetDate, now)
    ensures r.aiQueriesThisMonth <= u.aiQueriesThisMonth
    ensures r.reportsThisMonth <= u.reportsThisMonth
  {
    if now.month != u.lastResetDate.month || now.year != u.lastResetDate.year then
      Usage(0, 0, now)
    else
      u
  }

  /** A stored user record. */
  datatype UserDoc = UserDoc(
    auth0Id: string,
    email: string,
    name: string,
    tier: Tier,
    usage: Usage,
    subscriptionStatus: SubscriptionStatus,
    createdAt: Instant,
    lastLoginAt: Option<Instant>)

  /** The schema's `required` validators: auth0Id and email must be non-empty. */
  predicate ValidDoc(d: UserDoc) {
    d.auth0Id != "" && d.email != ""
  }

  /** Every stored record sits under its own identity and passed validation. */
  predicate StoreValid(docs: map<string, UserDoc>) {
    forall id :: id in docs ==> docs[id].auth0Id == id && ValidDoc(docs[id])
  }

  function LowerChar(c: char): char {
    if 'A' <= c <= 'Z' then (c as int + 32) as char else c
  }

  /** The schema's `lowercase: true` setter on email (ASCII letters only). */
  function Lowercase(s: string): (r: string)
    ensures |r| == |s|
    ensures forall i :: 0 <= i < |r| ==> !('A' <= r[i] <= 'Z')
    ensures forall i :: 0 <= i < |s| && !('A' <= s[i] <= 'Z') ==> r[i] == s[i]
    ensures forall i :: 0 <= i < |s| && 'A' <= s[i] <= 'Z' ==> r[i] == (s[i] as int + 32) as char
  {
    seq(|s|, i requires 0 <= i < |s| => LowerChar(s[i]))
  }

  /** The record `new User({...})` builds: the given fields plus the schema
      defaults (tier free, zero counters, period anchored at now, trialing). */
  function NewDoc(auth0Id: string, email: string, name: string, tier: Option<Tier>,
                  lastLoginAt: Option<Instant>, now: Instant): (d: UserDoc)
    ensures d.usage.aiQueriesThisMonth == 0 && d.usage.reportsThisMonth == 0
    ensures d.usage.lastResetDate == now && d.createdAt == now
    ensures d.subscriptionStatus == Trialing
    ensures tier.None? ==> d.tier == Free
    ensures tier.Some? ==> d.tier == tier.value
    ensures ValidDoc(d) <==> auth0Id != "" && email != ""
  {
    UserDoc(auth0Id, Lowercase(email), name,
            if tier.Some? then tier.value else Free,
            Usage(0, 0, now), Trialing, now, lastLoginAt)
  }

  /** A user document loaded into memory.  The usage methods change it in place. */
  class User {
    const auth0Id: string
    var email: string
    var name: string
    var tier: Tier
    var usage: Usage
    var subscriptionStatus: SubscriptionStatus
    const createdAt: Instant
    var lastLoginAt: Option<Instant>

    /** The record this document would be saved as. */
    function Doc(): UserDoc
      reads this
    {
      UserDoc(auth0Id, email, name, tier, usage, subscriptionStatus, createdAt, lastLoginAt)
    }

    /** `new User({...})`, with the schema defaults filled in. */
    constructor Create(auth0Id: string, email: string, name: string, tier: Option<Tier>,
                       lastLoginAt: Option<Instant>, now: Instant)
      ensures Doc() == NewDoc(auth0Id, email, name, tier, lastLoginAt, now)
    {
      this.auth0Id := auth0Id;
      this.email := Lowercase(email);
      this.name := name;
      this.tier := if tier.Some? then tier.value else Free;
      this.usage := Usage(0, 0, now);
      this.subscriptionStatus := Trialing;
      this.createdAt := now;
      this.lastLoginAt := lastLoginAt;
    }

    /** A document hydrated from a stored record. */
    constructor Load(d: UserDoc)
      ensures Doc() == d
    {
      auth0Id := d.auth0Id;
      email := d.email;
      name := d.name;
      tier := d.tier;
      usage := d.usage;
      subscriptionStatus := d.subscriptionStatus;
      createdAt := d.createdAt;
      lastLoginAt := d.lastLoginAt;
    }

    /** resetMonthlyUsage: a new calendar month zeroes both counters and moves
        the anchor to now; within the anchor's month nothing changes. */
    method ResetMonthlyUsage(now: Instant) returns (reset: bool)
      modifies this`usage
      ensures reset <==> !SamePeriod(old(usage.lastResetDate), now)
      ensures reset ==> usage == Usage(0, 0, now)
      ensures !reset ==> usage == old(usage)
      ensures usage == RolledOver(old(usage), now)
    {
      var lastReset := usage.lastResetDate;
      if now.month != lastReset.month || now.year != lastReset.year {
        usage := usage.(aiQueriesThisMonth := 0);
        usage := usage.(reportsThisMonth := 0);
        usage := usage.(lastResetDate := now);
        return true;
      }
      return false;
    }

    /** canMakeAIQuery: the query count is below the tier's limit. */
    predicate CanMakeAIQuery()
      reads this
      ensures CanMakeAIQuery() <==>
        match tier
        case Free => usage.aiQueriesThisMonth < 10
        case Professional => usage.aiQueriesThisMonth < 100
        case Business => usage.aiQueriesThisMonth < 500
        case Enterprise => true
    {
      Below(usage.aiQueriesThisMonth, QueryLimit(tier))
    }

    /** incrementAIUsage: one more query this month, then save the document. */
    method IncrementAIUsage(users: UserCollection) returns (saved: bool)
      modifies this`usage, users
      ensures usage == old(usage).(aiQueriesThisMonth := old(usage.aiQueriesThisMonth) + 1)
      ensures saved <==> ValidDoc(Doc())
      ensures users.docs == if saved then old(users.docs)[auth0Id := Doc()] else old(users.docs)
    {
      usage := usage.(aiQueriesThisMonth := usage.aiQueriesThisMonth + 1);
      saved := users.Save(this);
    }
  }

  /** The users collection, keyed by the unique auth0Id. */
  class UserCollection {
    var docs: map<string, UserDoc>

    constructor ()
      ensures docs == map[] && StoreValid(docs)
    {
      docs := map[];
    }

    /** findOne({auth0Id}): a fresh in-memory copy of the stored record, or null. */
    method FindOne(auth0Id: string) returns (u: User?)
      ensures u == null <==> auth0Id !in docs
      ensures u != null ==> fresh(u) && u.Doc() == docs[auth0Id]
    {
      if auth0Id in docs {
        u := new User.Load(docs[auth0Id]);
      } else {
        u := null;
      }
    }

    /** save(): validate, then insert or overwrite the record under its auth0Id. */
    method Save(u: User) returns (ok: bool)
      modifies this
      ensures ok <==> ValidDoc(u.Doc())
      ensures docs == if ok then old(docs)[u.auth0Id := u.Doc()] else old(docs)
      ensures old(StoreValid(docs)) ==> StoreValid(docs)
    {
      ok := ValidDoc(u.Doc());
      if ok {
        docs := docs[u.auth0Id := u.Doc()];
      }
    }
  }

  /** Within the anchor's month a rollover changes nothing and reports no reset. */
  lemma RolloverWithinPeriodIsNoOp(u: Usage, now: Instant)
    requires SamePeriod(u.lastResetDate, now)
    ensures RolledOver(u, now) == u
  {
  }

  /** In any other month both counters restart at zero and the anchor becomes now. */
  lemma RolloverOnNewPeriodResets(u: Usage, now: Instant)
    requires !SamePeriod(u.lastResetDate, now)
    ensures RolledOver(u, now) == Usage(0, 0, now)
  {
  }

  /** The comparison is by calendar month, not elapsed time: the last day of a
      month followed by the first day of the next resets. */
  lemma RolloverAtMonthBoundary(u: Usage, next: Instant)
    requires ValidInstant(u.lastResetDate)
    requires u.lastResetDate.day == 31
    requires next.day == 1
    requires PeriodIndex(next) == PeriodIndex(u.lastResetDate) + 1
    ensures RolledOver(u, next) == Usage(0, 0, next)
  {
  }

  /** The same calendar month in another year resets too. */
  lemma RolloverInSameMonthOfOtherYear(u: Usage, later: Instant)
    requires later.month == u.lastResetDate.month && later.year != u.lastResetDate.year
    ensures RolledOver(u, later) == Usage(0, 0, later)
  {
  }

  /** However many months were missed, the result is one reset: it does not depend
      on the old anchor or the old counters. */
  lemma ManyMissedMonthsResetOnce(u: Usage, v: Usage, now: Instant)
    requires !SamePeriod(u.lastResetDate, now) && !SamePeriod(v.lastResetDate, now)
    ensures RolledOver(u, now) == RolledOver(v, now)
  {
  }

  /** A second rollover anywhere in the same month is a no-op. */
  lemma RolloverIdempotent(u: Usage, now: Instant, again: Instant)
    requires SamePeriod(now, again)
    ensures RolledOver(RolledOver(u, now), again) == RolledOver(u, now)
  {
  }

  /** The anchor never moves back while the clock does not. */
  lemma AnchorMovesForward(u: Usage, now: Instant)
    requires ValidInstant(u.lastResetDate) && ValidInstant(now)
    requires PeriodIndex(u.lastResetDate) <= PeriodIndex(now)
    ensures PeriodIndex(u.lastResetDate) <= PeriodIndex(RolledOver(u, now).lastResetDate)
  {
  }
}
