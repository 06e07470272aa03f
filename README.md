# Reward ledger of the community bot

The Discord bot runs a reward program for a content-submission community.
Members mark attendance, submit chapters for review, earn points or money when a
moderator approves a submission, and ask to withdraw their balance. Admins set the
reward rule. All of this state lives in six SQLite tables: `users`,
`submissions`, `withdrawals`, `attendance`, `pricing` and `logs`.

This project models that ledger in Dafny:

- `ledger.dfy` (module `Ledger`) holds one datatype per table row and the pure rules the
  handlers apply. These are the rank thresholds, Python's `int()` truncation, the
  effective pricing rule (the default-scope row with the highest id), the credit an
  approval pays, the user lookup by platform id, and the `ensure_user` upsert.
- `leaderboard.dfy` (module `Leaderboard`) models the top-ten query as a pure function:
  an insertion sort by accepted chapters and then points, both highest first, cut to
  ten rows.
- `store.dfy` (module `Handlers`) models the database as a class `Store` with one
  sequence per table. A row's id is its position plus one, because no handler deletes
  rows. Each handler is a method that updates the tables. Its contract gives every
  table's new contents in terms of the old ones and the pure rules. It also states that
  the store invariant `Valid()` still holds: platform ids are unique, every rank matches
  its chapter count, and every submission, withdrawal and attendance row points at an
  existing user. Log rows are not constrained: admin actions log the system id 0. Finally it says when
  `Sound()` is preserved: no member is in debt and no pricing value is negative.
- `scenarios.dfy` (module `Scenarios`) replays short command sessions on a fresh store.
  The results follow from the handlers' contracts alone.

Money (balances, pricing values, withdrawal amounts) is a `real`. The bot stores it
as a floating-point number.

Three behaviours of the handlers are worth knowing, because the names in the code
suggest otherwise:

- An approval with no pricing rule marks the submission approved but does not count a
  chapter. The payout and the chapter increment sit in the same `UPDATE`
  (`bot.py:70-76`). The moderator is still told the member was rewarded (`bot.py:88`).
- The `accepted_chapters` column does not always equal the number of the member's
  approved submissions, which the statistics command counts separately
  (`bot.py:228`). Besides the case above, nothing stops a second approval of the same
  submission, and it pays again and counts again. Rejecting an approved submission
  changes its status and takes nothing back. `Scenarios.ResolvedTwice` and
  `Scenarios.ApprovalWithoutPricing` show both.
- The pricing command checks only the kind, never the value (`bot.py:215-218`). A
  negative money rule makes the next approval overdraw the owner
  (`Ledger.NegativeRuleOverdraws`). So the model proves balances stay non-negative only
  while every pricing value is non-negative (`Sound()`). A withdrawal alone never
  breaks solvency, because `bot.py:177` refuses any amount above the balance.

## Model

| member | source | states |
|---|---|---|
| `Ledger.FindUser` | UnifiedBot-UltimaV6te/bot.py:25-26 | the result is the first user row with the given platform id, and none means no row has it |
| `Ledger.Upsert` | UnifiedBot-UltimaV6te/bot.py:23-36 | a known platform id keeps its row id and only that row's username changes; an unknown one appends exactly one fresh row with zero counters and rank Member; the returned id names a row with that platform id and username |
| `Ledger.NewUser` | UnifiedBot-UltimaV6te/bot.py:28 | the inserted row carries the given platform id and username, is out of debt, has no accepted chapter and a rank consistent with that (the schema's column defaults are taken as zero and Member) |
| `Ledger.FindUserAfterRename` | UnifiedBot-UltimaV6te/bot.py:33 | refreshing a username never changes which row a platform id finds |
| `Ledger.UpsertTwice` | UnifiedBot-UltimaV6te/bot.py:23-36 | two upserts with the same platform id return the same id, and the table ends as if only the second had run |
| `Ledger.UpsertKeepsInvariant` | UnifiedBot-UltimaV6te/bot.py:23-36 | an upsert keeps platform ids unique, ranks consistent and members out of debt |
| `Handlers.Store.EnsureUser` | UnifiedBot-UltimaV6te/bot.py:23-36 | the users table becomes the upsert of the old one; every other table is unchanged; the store invariant holds |
| `Handlers.Store.Log` | UnifiedBot-UltimaV6te/bot.py:44-47 | exactly one audit row is appended and no other table changes |
| `Ledger.EffectivePricing` | UnifiedBot-UltimaV6te/bot.py:67-68 | the rule an approval reads is a default-scope row of the table with no default-scope row after it, and there is none exactly when no default-scope row exists (with `LatestDefault`, `EffectiveIsLastDefault` and `LatestPricingWins`) |
| `Ledger.LatestDefault` | UnifiedBot-UltimaV6te/bot.py:67-68 | the chosen pricing row is in the default scope and no later row is; none means no default-scope row exists |
| `Ledger.LatestPricingWins` | UnifiedBot-UltimaV6te/bot.py:218 | a newly inserted default row is the effective rule at once |
| `Ledger.OtherScopeIgnored` | UnifiedBot-UltimaV6te/bot.py:67 | a row of another scope never changes the effective rule |
| `Ledger.EffectiveIsLastDefault` | UnifiedBot-UltimaV6te/bot.py:67-68 | the effective rule is the last default-scope row by insertion order |
| `Ledger.NonNegativeAppend` | UnifiedBot-UltimaV6te/bot.py:218 | appending one pricing row leaves every row's value non-negative exactly when the earlier rows' values and the new one are; it is the step behind the `Sound()` clause of `Handlers.Store.SetPricing` |
| `Ledger.Trunc` | UnifiedBot-UltimaV6te/bot.py:72 | `int()` of a float truncates toward zero: it is within one of the value, on the value's side of zero |
| `Ledger.Credit` | UnifiedBot-UltimaV6te/bot.py:70-76 | with a points rule the owner gains int(value) points and one chapter; with any other kind the balance gains value and one chapter; with no rule nothing changes; identity fields are kept |
| `Ledger.Note` | UnifiedBot-UltimaV6te/bot.py:69-76 | the logged reward is empty exactly when there is no pricing rule, and in points exactly when the rule's kind is points |
| `Ledger.NoteMatchesCredit` | UnifiedBot-UltimaV6te/bot.py:69-76 | the reward written to the approval log is exactly the amount credited to the owner: nothing, int(value) points, or value added to the balance |
| `Ledger.Approval` | UnifiedBot-UltimaV6te/bot.py:70-84 | after an approval the owner's rank matches the new chapter count, and the count rose by at most one |
| `Ledger.RankFor` | UnifiedBot-UltimaV6te/bot.py:81-83 | the rank is Member exactly below 15 chapters and Legend exactly from 30 chapters, Pro in between (with `RankThresholds` and `RankMonotone`) |
| `Ledger.RankMonotone` | UnifiedBot-UltimaV6te/bot.py:81-83 | more accepted chapters never give a lower rank |
| `Ledger.RankThresholds` | UnifiedBot-UltimaV6te/bot.py:81-83 | 14 chapters is Member, 15 and 29 are Pro, 30 is Legend |
| `Ledger.ApprovalNeverDebits` | UnifiedBot-UltimaV6te/bot.py:70-84 | with a non-negative rule an approval never lowers points or balance, so a member out of debt stays so |
| `Ledger.NegativeRuleOverdraws` | UnifiedBot-UltimaV6te/bot.py:214-218 | since the pricing value is unchecked, a money rule of -5 leaves a fresh member's balance negative after one approval |
| `Handlers.Store.Approve` | UnifiedBot-UltimaV6te/bot.py:56-88 | an unknown submission id changes nothing; otherwise the status becomes approved, the owner is credited from the effective rule and re-ranked, one approve row is logged, pricing, withdrawals and attendance are untouched, and solvency under non-negative pricing is kept |
| `Handlers.Store.Reject` | UnifiedBot-UltimaV6te/bot.py:91-100 | an unknown id changes nothing; otherwise the status becomes rejected whatever it was, one reject row is logged, and no user, pricing, withdrawal or attendance row changes |
| `Handlers.Store.MarkAttendance` | UnifiedBot-UltimaV6te/bot.py:119-124 | the caller is upserted, exactly one attendance row with the caller's id is appended and one attendance row is logged |
| `Handlers.Store.Submit` | UnifiedBot-UltimaV6te/bot.py:156-161 | the caller is upserted, one pending submission is appended, its id is the new table length, and one submit row naming it is logged |
| `Handlers.Store.Withdraw` | UnifiedBot-UltimaV6te/bot.py:172-183 | after the upsert, an amount that is not positive or exceeds the balance changes nothing more; otherwise exactly one pending withdrawal row is appended, the balance drops by exactly the amount, one row is logged, and a non-negative balance stays non-negative |
| `Handlers.Store.SetPricing` | UnifiedBot-UltimaV6te/bot.py:214-220 | a kind other than points or money inserts nothing; otherwise exactly one default-scope row is appended after the earlier ones and becomes the effective rule, and one pricing_update row is logged with the system user id |
| `Leaderboard.Insert` | UnifiedBot-UltimaV6te/bot.py:203 | inserting a row into a leaderboard-ordered list keeps it ordered and adds exactly that row |
| `Leaderboard.Sort` | UnifiedBot-UltimaV6te/bot.py:203 | the result is a permutation of the users in order of chapters, then points, both highest first |
| `Leaderboard.PrefixDominates` | UnifiedBot-UltimaV6te/bot.py:203 | in a sorted table every row of a prefix ranks at least as high as every row after it |
| `Leaderboard.Top` | UnifiedBot-UltimaV6te/bot.py:203 | the leaderboard has min(10, number of users) rows, is ordered, is drawn from the users, and every listed user ranks at least as high as every user left off |
| `Scenarios.WithdrawWholeBalance` | UnifiedBot-UltimaV6te/bot.py:172-183 | a member holding 10.00 who withdraws 10.00 via Binance succeeds, ends at 0.00, and leaves exactly one pending withdrawal |
| `Scenarios.RefusedWithdrawals` | UnifiedBot-UltimaV6te/bot.py:175-179 | withdrawals of 0, of -5 and of more than the balance all fail and record no withdrawal |
| `Scenarios.PointsApproval` | UnifiedBot-UltimaV6te/bot.py:67-84 | with a points rule of 5, one approval gives 5 points, one chapter and rank Member |
| `Scenarios.ApprovalWithoutPricing` | UnifiedBot-UltimaV6te/bot.py:64-76 | with no pricing rule, an approval sets the status to approved but counts no chapter |
| `Scenarios.ResolvedTwice` | UnifiedBot-UltimaV6te/bot.py:64-99 | approving a submission twice pays and counts twice; a later rejection sets status rejected and leaves the balance and count as they were |
| `Scenarios.OverdraftByNegativeRule` | UnifiedBot-UltimaV6te/bot.py:214-218 | a money rule of -5 is accepted, and one approval then leaves the owner's balance at -5 |
| `Scenarios.BogusPricing` | UnifiedBot-UltimaV6te/bot.py:215-216 | an unknown pricing kind is refused and the earlier rule stays in effect |

## Left out

- Discord plumbing is not modelled. This covers replies, embeds, forwarding to the moderators' channel (`send_to_mods`), slash-command registration, `on_ready`, the empty hourly `cleanup_submissions` task, `ping` and process start-up. These are calls into the chat platform's library and hold no ledger logic.
- The administrator checks on pricing and export are not modelled. Discord supplies them as a boolean. `SetPricing` models a call that passed the check.
- The CSV export of attendance and the whole of `app/main.py` are left out. That file is the web dashboard: OAuth exchange, cookies, HTML rendering and CSV export.
- The read-only commands are left out. These are the profile view, the last-ten attendance list and the statistics. The profile view's only write is the `ensure_user` upsert, which `EnsureUser` models.
- Floating point is not modelled. Balances and pricing values are exact reals. Rounding and the NaN amount that passes `amount <= 0 or amount > balance` are absent.
- Timestamps (`created_at`, `timestamp`, `updated_at`) are left out. They come from the database clock.
- Log details are a structured `Details` value, not the formatted text the bot writes.
- Each handler is treated as one sequential step. In the bot, `log` commits on its own connection after the main commit.
- The table schema is not part of this model. The column defaults are taken as the model's initial values: status pending, counters zero and rank Member.
- Handlers.Store.Approve: every method requires the store invariant. Under it, the join between a submission and its owner in the approve query always succeeds. The case of a submission whose owner row is missing cannot arise from these handlers and is not modelled.
- Leaderboard.Top: the query does not fix the order of users with equal chapters and equal points. The contract leaves that order open too; the sort keeps such users in id order.
