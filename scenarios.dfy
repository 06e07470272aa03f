/** Client sessions on a fresh store: each one issues a short sequence of commands
    and states what the tables hold afterwards, proved from the handlers' contracts
    alone. */
module Scenarios {
  import opened Ledger
  import opened Handlers

  /** A member earns 10.00 from a money rule and withdraws all of it via Binance. */
  method WithdrawWholeBalance() returns (ok: bool, balance: real, requests: seq<Withdrawal>)
    ensures ok && balance == 0.0
    ensures requests == [Withdrawal(1, 10.0, "Binance", Pending)]
  {
    var s := new Store();
    var priced := s.SetPricing(MoneyKind, 10.0);
    var sid := s.Submit("1001", "alice", "chapter 1");
    var approved := s.Approve(sid);
    assert s.users[0].balance == 10.0;
    ok := s.Withdraw("1001", "alice", 10.0, "Binance");
    balance := s.users[0].balance;
    requests := s.withdrawals;
  }

  /** Amounts of 0, -5 and more than the balance are all refused and record nothing. */
  method RefusedWithdrawals() returns (zero: bool, negative: bool, excess: bool, requests: nat)
    ensures !zero && !negative && !excess && requests == 0
  {
    var s := new Store();
    zero := s.Withdraw("1001", "alice", 0.0, "x");
    negative := s.Withdraw("1001", "alice", -5.0, "x");
    excess := s.Withdraw("1001", "alice", 1.0, "x");
    requests := |s.withdrawals|;
  }

  /** With a points rule of 5, one approval gives 5 points, one chapter and rank Member. */
  method PointsApproval() returns (points: int, chapters: nat, rank: Rank)
    ensures points == 5 && chapters == 1 && rank == Member
  {
    var s := new Store();
    var priced := s.SetPricing(PointsKind, 5.0);
    var sid := s.Submit("1001", "alice", "chapter 1");
    var approved := s.Approve(sid);
    points, chapters, rank := s.users[0].points, s.users[0].acceptedChapters, s.users[0].rank;
  }

  /** Before any pricing rule exists an approval marks the submission approved but
      counts no chapter, so the chapter count falls behind the approved submissions. */
  method ApprovalWithoutPricing() returns (status: Status, chapters: nat)
    ensures status == Approved && chapters == 0
  {
    var s := new Store();
    var sid := s.Submit("1001", "alice", "chapter 1");
    var approved := s.Approve(sid);
    status, chapters := s.submissions[0].status, s.users[0].acceptedChapters;
  }

  /** Approving the same submission twice pays twice and counts two chapters; rejecting
      it afterwards flips its status but takes nothing back. */
  method ResolvedTwice() returns (balance: real, chapters: nat, status: Status)
    ensures balance == 4.0 && chapters == 2 && status == Rejected
  {
    var s := new Store();
    var priced := s.SetPricing(MoneyKind, 2.0);
    var sid := s.Submit("1001", "alice", "chapter 1");
    var first := s.Approve(sid);
    var second := s.Approve(sid);
    var rejected := s.Reject(sid);
    balance, chapters, status := s.users[0].balance, s.users[0].acceptedChapters, s.submissions[0].status;
  }

  /** An unknown pricing kind is refused and the earlier rule stays in effect. */
  method BogusPricing() returns (ok: bool, rule: Option<PricingRow>)
    ensures !ok && rule == Some(PricingRow(PointsKind, 3.0, DefaultScope))
  {
    var s := new Store();
    var first := s.SetPricing(PointsKind, 3.0);
    ok := s.SetPricing("bogus", 1.0);
    rule := EffectivePricing(s.pricing);
  }

  /** The pricing value is never checked: after a money rule of -5, one approval
      leaves the owner 5.00 in debt, so `Sound()` no longer holds. */
  method OverdraftByNegativeRule() returns (priced: bool, balance: real)
    ensures priced && balance == -5.0
  {
    var s := new Store();
    priced := s.SetPricing(MoneyKind, -5.0);
    var sid := s.Submit("1001", "alice", "chapter 1");
    var approved := s.Approve(sid);
    balance := s.users[0].balance;
  }
}
