/** Rows of the bot's ledger tables and the pure rules the handlers apply to them.
    Every table is append-only or updated in place, rows are never deleted, so a
    row's id is its position plus one. Money (balances, pricing values, withdrawal
    amounts) is a `real`; the bot keeps it in floating point. */
module Ledger {

  datatype Option<+T> = None | Some(value: T)

  /** Tier derived from the number of accepted chapters. */
  datatype Rank = Member | Pro | Legend

  /** Status column of submissions and withdrawals. */
  datatype Status = Pending | Approved | Rejected

  /** A row of `users`. `withdraw_method` is never written by the handlers and is omitted. */
  datatype User = User(discordId: string, username: string, points: int, balance: real,
                       acceptedChapters: nat, rank: Rank)

  datatype Submission = Submission(userId: nat, content: string, status: Status)

  /** A row of `withdrawals`. No handler moves its status off the schema's default,
      so every row the model creates is `Pending`. */
  datatype Withdrawal = Withdrawal(userId: nat, amount: real, via: string, status: Status)

  datatype Attendance = Attendance(userId: nat)

  /** A row of `pricing`: the reward kind, its value per approval and the scope it applies to. */
  datatype PricingRow = PricingRow(kind: string, value: real, roleName: string)

  /** The reward part of an approval log line. */
  datatype RewardNote = NoReward | PointsReward(points: int) | MoneyReward(amount: real)

  /** The `details` column of a log row, kept structured instead of formatted as text. */
  datatype Details =
    | SubmissionRef(submissionId: int, reward: RewardNote)
    | PresenceMarked
    | WithdrawRequest(amount: real, via: string)
    | PricingChange(kind: string, value: real)

  datatype LogEntry = LogEntry(action: string, userId: nat, details: Details)

  const DefaultScope := "default"
  const PointsKind := "points"
  const MoneyKind := "money"
  const ProThreshold := 15
  const LegendThreshold := 30
  /** The user id written on log rows of admin actions that have no acting member. */
  const SystemUser := 0

  /** The row `ensure_user` inserts: the schema's defaults for every counter. */
  function NewUser(discordId: string, username: string): (u: User)
    ensures u.discordId == discordId && u.username == username
    ensures InCredit(u) && u.acceptedChapters == 0 && u.rank == RankFor(u.acceptedChapters)
  {
    User(discordId, username, 0, 0.0, 0, Member)
  }

  // ---------- rank ----------

  /** The rank the approval handler stores for a chapter count. */
  function RankFor(chapters: int): (r: Rank)
    ensures r == Member <==> chapters < ProThreshold
    ensures r == Legend <==> chapters >= LegendThreshold
  {
    if chapters >= LegendThreshold then Legend
    else if chapters >= ProThreshold then Pro
    else Member
  }

  function Tier(r: Rank): nat
  {
    match r
    case Member => 0
    case Pro => 1
    case Legend => 2
  }

  /** More accepted chapters never lower the rank. */
  lemma RankMonotone(a: int, b: int)
    requires a <= b
    ensures Tier(RankFor(a)) <= Tier(RankFor(b))
  {
  }

  /** The thresholds sit exactly at 15 and 30 chapters. */
  lemma RankThresholds()
    ensures RankFor(14) == Member && RankFor(15) == Pro
    ensures RankFor(29) == Pro && RankFor(30) == Legend
  {
  }

  /** The user with the rank column recomputed from the chapter count. */
  function Rerank(u: User): User
  {
    u.(rank := RankFor(u.acceptedChapters))
  }

  predicate RanksConsistent(users: seq<User>)
  {
    forall i :: 0 <= i < |users| ==> users[i].rank == RankFor(users[i].acceptedChapters)
  }

  // ---------- pricing ----------

  /** Python's int() on a float: truncation toward zero. */
  function Trunc(v: real): (n: int)
    ensures 0.0 <= v ==> n as real <= v < n as real + 1.0
    ensures v < 0.0 ==> n as real - 1.0 < v <= n as real
  {
    if v >= 0.0 then v.Floor else -((-v).Floor)
  }

  /** Position of the pricing row with the highest id in the default scope, if any. */
  function LatestDefault(rows: seq<PricingRow>): (k: Option<nat>)
    ensures k.Some? ==> k.value < |rows| && rows[k.value].roleName == DefaultScope
    ensures k.Some? ==> forall j :: k.value < j < |rows| ==> rows[j].roleName != DefaultScope
    ensures k.None? <==> forall j :: 0 <= j < |rows| ==> rows[j].roleName != DefaultScope
  {
    if rows == [] then None
    else if rows[|rows| - 1].roleName == DefaultScope then Some(|rows| - 1)
    else LatestDefault(rows[..|rows| - 1])
  }

  /** The pricing rule an approval reads. */
  function EffectivePricing(rows: seq<PricingRow>): (r: Option<PricingRow>)
    ensures r.None? <==> forall j :: 0 <= j < |rows| ==> rows[j].roleName != DefaultScope
    ensures r.Some? ==> exists i :: 0 <= i < |rows| && rows[i] == r.value && r.value.roleName == DefaultScope
                          && forall j :: i < j < |rows| ==> rows[j].roleName != DefaultScope
  {
    match LatestDefault(rows)
    case None => None
    case Some(k) => Some(rows[k])
  }

  /** A newly inserted default row takes effect at once, whatever came before it. */
  lemma LatestPricingWins(rows: seq<PricingRow>, kind: string, value: real)
    ensures EffectivePricing(rows + [PricingRow(kind, value, DefaultScope)])
         == Some(PricingRow(kind, value, DefaultScope))
  {
  }

  /** A row of another scope never changes the effective rule. */
  lemma OtherScopeIgnored(rows: seq<PricingRow>, row: PricingRow)
    requires row.roleName != DefaultScope
    ensures EffectivePricing(rows + [row]) == EffectivePricing(rows)
  {
  }

  /** Insertion order alone picks the effective rule: a default row followed only by
      rows of other scopes is the one in effect, whatever the values. */
  lemma EffectiveIsLastDefault(rows: seq<PricingRow>, i: nat)
    requires i < |rows| && rows[i].roleName == DefaultScope
    requires forall j :: i < j < |rows| ==> rows[j].roleName != DefaultScope
    ensures EffectivePricing(rows) == Some(rows[i])
  {
  }

  predicate NonNegativePricing(rows: seq<PricingRow>)
  {
    forall j :: 0 <= j < |rows| ==> rows[j].value >= 0.0
  }

  /** Appending a rule keeps every value non-negative exactly when the new value is. */
  lemma NonNegativeAppend(rows: seq<PricingRow>, row: PricingRow)
    ensures NonNegativePricing(rows + [row]) <==> NonNegativePricing(rows) && row.value >= 0.0
  {
    assert forall j :: 0 <= j < |rows| ==> (rows + [row])[j] == rows[j];
    assert (rows + [row])[|rows|] == row;
  }

  /** Pricing value as the approval handler applies it to the owner: points are credited
      as int(value), any other kind is credited to the balance; either way one more
      chapter is accepted. Without a pricing rule nothing is credited. */
  function Credit(u: User, p: Option<PricingRow>): (r: User)
    ensures r.discordId == u.discordId && r.username == u.username && r.rank == u.rank
    ensures p.None? ==> r == u
    ensures p.Some? ==> r.acceptedChapters == u.acceptedChapters + 1
    ensures p.Some? && p.value.kind == PointsKind ==>
              r.points == u.points + Trunc(p.value.value) && r.balance == u.balance
    ensures p.Some? && p.value.kind != PointsKind ==>
              r.balance == u.balance + p.value.value && r.points == u.points
  {
    match p
    case None => u
    case Some(row) =>
      if row.kind == PointsKind then
        u.(points := u.points + Trunc(row.value), acceptedChapters := u.acceptedChapters + 1)
      else
        u.(balance := u.balance + row.value, acceptedChapters := u.acceptedChapters + 1)
  }

  /** The reward text of the approval log line. */
  function Note(p: Option<PricingRow>): (r: RewardNote)
    ensures r.NoReward? <==> p.None?
    ensures r.PointsReward? <==> p.Some? && p.value.kind == PointsKind
  {
    match p
    case None => NoReward
    case Some(row) => if row.kind == PointsKind then PointsReward(Trunc(row.value)) else MoneyReward(row.value)
  }

  /** The reward written to the approval log is exactly what the owner was credited. */
  lemma NoteMatchesCredit(u: User, p: Option<PricingRow>)
    ensures Note(p).NoReward? ==> Credit(u, p) == u
    ensures Note(p).PointsReward? ==> Credit(u, p).points == u.points + Note(p).points
    ensures Note(p).MoneyReward? ==> Credit(u, p).balance == u.balance + Note(p).amount
  {
  }

  /** The owner's row after an approval: credited, then re-ranked. */
  function Approval(u: User, p: Option<PricingRow>): (r: User)
    ensures r.rank == RankFor(r.acceptedChapters)
    ensures r.acceptedChapters == u.acceptedChapters || r.acceptedChapters == u.acceptedChapters + 1
  {
    Rerank(Credit(u, p))
  }

  /** Neither counter of a member is in debt. */
  predicate InCredit(u: User)
  {
    u.points >= 0 && u.balance >= 0.0
  }

  predicate Solvent(users: seq<User>)
  {
    forall i :: 0 <= i < |users| ==> InCredit(users[i])
  }

  /** With a non-negative rule, an approval only ever adds to a member's counters. */
  lemma ApprovalNeverDebits(u: User, p: Option<PricingRow>)
    requires p.Some? ==> p.value.value >= 0.0
    ensures Approval(u, p).points >= u.points && Approval(u, p).balance >= u.balance
    ensures InCredit(u) ==> InCredit(Approval(u, p))
  {
  }

  /** The pricing value is never checked, so a negative money rule overdraws the owner. */
  lemma NegativeRuleOverdraws()
    ensures !InCredit(Approval(NewUser("1", "a"), Some(PricingRow(MoneyKind, -5.0, DefaultScope))))
  {
  }

  // ---------- users ----------

  /** `SELECT id FROM users WHERE discord_id=?`: the first row with that platform id. */
  function FindUser(users: seq<User>, discordId: string): (k: Option<nat>)
    ensures k.Some? ==> k.value < |users| && users[k.value].discordId == discordId
    ensures k.Some? ==> forall j :: 0 <= j < k.value ==> users[j].discordId != discordId
    ensures k.None? <==> forall j :: 0 <= j < |users| ==> users[j].discordId != discordId
  {
    if users == [] then None
    else if users[0].discordId == discordId then Some(0)
    else
      match FindUser(users[1..], discordId)
      case None => None
      case Some(k) => Some(k + 1)
  }

  predicate UniqueDiscordIds(users: seq<User>)
  {
    forall i, j :: 0 <= i < j < |users| ==> users[i].discordId != users[j].discordId
  }

  /** The users table and the id `ensure_user` returns. */
  datatype Upserted = Upserted(users: seq<User>, id: nat)

  /** `ensure_user`: refresh the username of the member with that platform id, or
      append a fresh member; in both cases return the member's row id. */
  function Upsert(users: seq<User>, discordId: string, username: string): (r: Upserted)
    ensures 1 <= r.id <= |r.users|
    ensures r.users[r.id - 1].discordId == discordId && r.users[r.id - 1].username == username
    ensures FindUser(users, discordId).Some? ==>
              |r.users| == |users| && r.users[r.id - 1] == users[r.id - 1].(username := username)
              && forall j :: 0 <= j < |users| && j != r.id - 1 ==> r.users[j] == users[j]
    ensures FindUser(users, discordId).None? ==>
              r.users == users + [NewUser(discordId, username)]
  {
    match FindUser(users, discordId)
    case Some(k) => Upserted(users[k := users[k].(username := username)], k + 1)
    case None => Upserted(users + [NewUser(discordId, username)], |users| + 1)
  }

  /** Renaming a member does not move any platform id. */
  lemma {:induction false} FindUserAfterRename(users: seq<User>, k: nat, name: string, discordId: string)
    requires k < |users|
    ensures FindUser(users[k := users[k].(username := name)], discordId) == FindUser(users, discordId)
  {
    var renamed := users[k := users[k].(username := name)];
    assert forall j :: 0 <= j < |users| ==> renamed[j].discordId == users[j].discordId;
  }

  /** Upserting twice with the same platform id returns the same id both times, and the
      table ends as if only the second call had happened: only the username moved. */
  lemma UpsertTwice(users: seq<User>, discordId: string, first: string, second: string)
    ensures Upsert(Upsert(users, discordId, first).users, discordId, second).id
         == Upsert(users, discordId, first).id
    ensures Upsert(Upsert(users, discordId, first).users, discordId, second).users
         == Upsert(users, discordId, second).users
  {
  }

  /** Upserting keeps platform ids unique, ranks consistent with chapter counts and
      members out of debt. */
  lemma UpsertKeepsInvariant(users: seq<User>, discordId: string, username: string)
    requires UniqueDiscordIds(users) && RanksConsistent(users)
    ensures UniqueDiscordIds(Upsert(users, discordId, username).users)
    ensures RanksConsistent(Upsert(users, discordId, username).users)
    ensures Solvent(users) ==> Solvent(Upsert(users, discordId, username).users)
  {
  }
}
