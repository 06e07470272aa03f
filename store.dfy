/** The bot's SQLite database as an in-memory store, and each command or button
    handler as a method that updates its tables. A row id is the row's position plus
    one in its table. */
module Handlers {
  import opened Ledger

  class Store {
    var users: seq<User>
    var submissions: seq<Submission>
    var withdrawals: seq<Withdrawal>
    var attendance: seq<Attendance>
    var pricing: seq<PricingRow>
    var logs: seq<LogEntry>

    /** Platform ids are unique, every rank matches its chapter count, and every
        submission, withdrawal and attendance row names an existing member. Log rows
        are unconstrained: admin actions are logged under the system id 0. */
    ghost predicate Valid()
      reads this
    {
      UniqueDiscordIds(users) && RanksConsistent(users)
      && (forall s :: s in submissions ==> 1 <= s.userId <= |users|)
      && (forall w :: w in withdrawals ==> 1 <= w.userId <= |users|)
      && (forall a :: a in attendance ==> 1 <= a.userId <= |users|)
    }

    /** No member is in debt and no pricing rule is negative. */
    ghost predicate Sound()
      reads this
    {
      Solvent(users) && NonNegativePricing(pricing)
    }

    constructor ()
      ensures Valid() && Sound()
      ensures users == [] && submissions == [] && withdrawals == []
      ensures attendance == [] && pricing == [] && logs == []
    {
      users, submissions, withdrawals := [], [], [];
      attendance, pricing, logs := [], [], [];
    }

    /** `log`: append one audit row. */
    method Log(action: string, userId: nat, details: Details)
      requires Valid()
      modifies this
      ensures Valid()
      ensures logs == old(logs) + [LogEntry(action, userId, details)]
      ensures users == old(users) && submissions == old(submissions)
      ensures withdrawals == old(withdrawals) && attendance == old(attendance) && pricing == old(pricing)
    {
      logs := logs + [LogEntry(action, userId, details)];
    }

    /** `ensure_user`: look the member up by platform id; refresh the username of a
        known member, insert an unknown one. */
    method EnsureUser(discordId: string, username: string) returns (id: nat)
      requires Valid()
      modifies this
      ensures Valid()
      ensures users == Upsert(old(users), discordId, username).users
      ensures id == Upsert(old(users), discordId, username).id
      ensures 1 <= id <= |users| && users[id - 1].discordId == discordId
      ensures Solvent(old(users)) ==> Solvent(users)
      ensures submissions == old(submissions) && withdrawals == old(withdrawals)
      ensures attendance == old(attendance) && pricing == old(pricing) && logs == old(logs)
    {
      UpsertKeepsInvariant(users, discordId, username);
      match FindUser(users, discordId) {
        case Some(k) =>
          users := users[k := users[k].(username := username)];
          id := k + 1;
        case None =>
          users := users + [NewUser(discordId, username)];
          id := |users|;
      }
    }

    /** The approve button: mark the submission approved, credit its owner from the
        effective pricing rule, re-rank the owner and log. An unknown id changes nothing. */
    method Approve(submissionId: int) returns (found: bool)
      requires Valid()
      modifies this
      ensures Valid()
      ensures found <==> 0 < submissionId <= |old(submissions)|
      ensures !found ==> users == old(users) && submissions == old(submissions) && logs == old(logs)
      ensures found ==>
                var owner := old(submissions)[submissionId - 1].userId;
                var rule := EffectivePricing(old(pricing));
                && submissions == old(submissions)[submissionId - 1 := old(submissions)[submissionId - 1].(status := Approved)]
                && users == old(users)[owner - 1 := Approval(old(users)[owner - 1], rule)]
                && logs == old(logs) + [LogEntry("approve", owner, SubmissionRef(submissionId, Note(rule)))]
      ensures pricing == old(pricing) && withdrawals == old(withdrawals) && attendance == old(attendance)
      ensures old(Sound()) ==> Sound()
    {
      if !(0 < submissionId <= |submissions|) {
        return false;
      }
      var owner := submissions[submissionId - 1].userId;
      assert submissions[submissionId - 1] in submissions;
      submissions := submissions[submissionId - 1 := submissions[submissionId - 1].(status := Approved)];
      var rule := EffectivePricing(pricing);
      if NonNegativePricing(pricing) {
        ApprovalNeverDebits(users[owner - 1], rule);
      }
      users := users[owner - 1 := Approval(users[owner - 1], rule)];
      Log("approve", owner, SubmissionRef(submissionId, Note(rule)));
      found := true;
    }

    /** The reject button: mark the submission rejected, whatever its status was, and
        log. No member is touched. An unknown id changes nothing. */
    method Reject(submissionId: int) returns (found: bool)
      requires Valid()
      modifies this
      ensures Valid()
      ensures found <==> 0 < submissionId <= |old(submissions)|
      ensures !found ==> submissions == old(submissions) && logs == old(logs)
      ensures found ==>
                && submissions == old(submissions)[submissionId - 1 := old(submissions)[submissionId - 1].(status := Rejected)]
                && logs == old(logs) + [LogEntry("reject", old(submissions)[submissionId - 1].userId, SubmissionRef(submissionId, NoReward))]
      ensures users == old(users) && pricing == old(pricing)
      ensures withdrawals == old(withdrawals) && attendance == old(attendance)
    {
      if !(0 < submissionId <= |submissions|) {
        return false;
      }
      var owner := submissions[submissionId - 1].userId;
      submissions := submissions[submissionId - 1 := submissions[submissionId - 1].(status := Rejected)];
      Log("reject", owner, SubmissionRef(submissionId, NoReward));
      found := true;
    }

    /** The attendance command: upsert the caller, add one attendance row, log. */
    method MarkAttendance(discordId: string, username: string) returns (id: nat)
      requires Valid()
      modifies this
      ensures Valid()
      ensures users == Upsert(old(users), discordId, username).users
      ensures id == Upsert(old(users), discordId, username).id
      ensures attendance == old(attendance) + [Attendance(id)]
      ensures logs == old(logs) + [LogEntry("attendance", id, PresenceMarked)]
      ensures submissions == old(submissions) && withdrawals == old(withdrawals) && pricing == old(pricing)
      ensures old(Sound()) ==> Sound()
    {
      id := EnsureUser(discordId, username);
      attendance := attendance + [Attendance(id)];
      Log("attendance", id, PresenceMarked);
    }

    /** The submit command: upsert the caller, add a pending submission, log its id. */
    method Submit(discordId: string, username: string, content: string) returns (submissionId: nat)
      requires Valid()
      modifies this
      ensures Valid()
      ensures users == Upsert(old(users), discordId, username).users
      ensures submissions == old(submissions) + [Submission(Upsert(old(users), discordId, username).id, content, Pending)]
      ensures submissionId == |submissions|
      ensures logs == old(logs) + [LogEntry("submit", Upsert(old(users), discordId, username).id, SubmissionRef(submissionId, NoReward))]
      ensures withdrawals == old(withdrawals) && attendance == old(attendance) && pricing == old(pricing)
      ensures old(Sound()) ==> Sound()
    {
      var id := EnsureUser(discordId, username);
      submissions := submissions + [Submission(id, content, Pending)];
      submissionId := |submissions|;
      Log("submit", id, SubmissionRef(submissionId, NoReward));
    }

    /** The withdraw command: upsert the caller, then refuse an amount that is not
        positive or exceeds the balance; otherwise record the request and debit it. */
    method Withdraw(discordId: string, username: string, amount: real, via: string) returns (ok: bool)
      requires Valid()
      modifies this
      ensures Valid()
      ensures var up := Upsert(old(users), discordId, username);
              ok <==> 0.0 < amount <= up.users[up.id - 1].balance
      ensures var up := Upsert(old(users), discordId, username);
              !ok ==> users == up.users && withdrawals == old(withdrawals) && logs == old(logs)
      ensures var up := Upsert(old(users), discordId, username);
              ok ==>
                && withdrawals == old(withdrawals) + [Withdrawal(up.id, amount, via, Pending)]
                && users == up.users[up.id - 1 := up.users[up.id - 1].(balance := up.users[up.id - 1].balance - amount)]
                && logs == old(logs) + [LogEntry("withdraw_request", up.id, WithdrawRequest(amount, via))]
      ensures submissions == old(submissions) && attendance == old(attendance) && pricing == old(pricing)
      ensures Solvent(old(users)) ==> Solvent(users)
    {
      var id := EnsureUser(discordId, username);
      var balance := users[id - 1].balance;
      if amount <= 0.0 || amount > balance {
        return false;
      }
      withdrawals := withdrawals + [Withdrawal(id, amount, via, Pending)];
      users := users[id - 1 := users[id - 1].(balance := balance - amount)];
      Log("withdraw_request", id, WithdrawRequest(amount, via));
      ok := true;
    }

    /** The pricing command: refuse a kind other than points or money; otherwise add
        a default-scope row, which becomes the effective rule, and log. */
    method SetPricing(kind: string, value: real) returns (ok: bool)
      requires Valid()
      modifies this
      ensures Valid()
      ensures ok <==> kind == PointsKind || kind == MoneyKind
      ensures !ok ==> pricing == old(pricing) && logs == old(logs)
      ensures ok ==> pricing == old(pricing) + [PricingRow(kind, value, DefaultScope)]
      ensures ok ==> EffectivePricing(pricing) == Some(PricingRow(kind, value, DefaultScope))
      ensures ok ==> logs == old(logs) + [LogEntry("pricing_update", SystemUser, PricingChange(kind, value))]
      ensures users == old(users) && submissions == old(submissions)
      ensures withdrawals == old(withdrawals) && attendance == old(attendance)
      ensures Sound() <==> old(Sound()) && (ok ==> value >= 0.0)
    {
      if kind != PointsKind && kind != MoneyKind {
        return false;
      }
      pricing := pricing + [PricingRow(kind, value, DefaultScope)];
      LatestPricingWins(old(pricing), kind, value);
      NonNegativeAppend(old(pricing), PricingRow(kind, value, DefaultScope));
      Log("pricing_update", SystemUser, PricingChange(kind, value));
      ok := true;
    }
  }
}
