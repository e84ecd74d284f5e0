/**
 Leaving the guild: what a member who burns shares is paid, one exit at a time and over any
 sequence of exits.
 */
module MolochRagequit {
  import opened Prelude
  import opened Currency
  import opened Moloch

  // ----- rounding -----

  lemma PayoutBounds(bank: nat, total: nat, burn: nat)
    requires total > 0
    ensures Payout(bank, total, burn) * total <= bank * burn < Payout(bank, total, burn) * total + total
  {
    QuotientBounds(bank * burn, total);
  }

  lemma FloorIsLargest(a: nat, d: nat, q: nat)
    requires d > 0 && q * d <= a
    ensures q <= a / d
  {
    QuotientBounds(a, d);
    if q > a / d {
      TimesMonotone(a / d + 1, q, d);
    }
  }

  lemma FloorAtMost(a: nat, d: nat, q: nat)
    requires d > 0 && a < (q + 1) * d
    ensures a / d <= q
  {
    QuotientBounds(a, d);
    if a / d > q {
      TimesMonotone(q + 1, a / d, d);
    }
  }

  lemma CancelFactor(x: nat, y: nat, d: nat)
    requires d > 0 && x * d <= y * d
    ensures x <= y
  {
    if x > y {
      TimesMonotone(y + 1, x, d);
    }
  }

  lemma PayoutAtMostBank(bank: nat, total: nat, burn: nat)
    requires total > 0 && burn <= total
    ensures Payout(bank, total, burn) <= bank
  {
    PayoutBounds(bank, total, burn);
    TimesMonotone(burn, total, bank);
    CancelFactor(Payout(bank, total, burn), bank, total);
  }

  /** Those who stay never lose: the bank per remaining share does not fall. */
  lemma PayoutKeepsValuePerShare(bank: nat, total: nat, burn: nat)
    requires total > 0 && burn <= total
    ensures (bank - Payout(bank, total, burn)) * total >= bank * (total - burn)
  {
    PayoutBounds(bank, total, burn);
    var p := Payout(bank, total, burn);
    assert (bank - p) * total == bank * total - p * total;
    assert bank * (total - burn) == bank * total - bank * burn;
  }

  // ----- sequences of exits -----

  function Burned(burns: seq<nat>): nat {
    if burns == [] then 0 else burns[0] + Burned(burns[1..])
  }

  /** Each exit burns at most the shares that are left, out of a guild that has some. */
  predicate Exitable(total: nat, burns: seq<nat>) {
    burns == [] || (0 < total && burns[0] <= total && Exitable(total - burns[0], burns[1..]))
  }

  /** What a sequence of exits is paid altogether when nothing else happens to the bank. */
  function Paid(bank: nat, total: nat, burns: seq<nat>): nat
    requires Exitable(total, burns)
  {
    if burns == [] then 0
    else
      PayoutAtMostBank(bank, total, burns[0]);
      var p := Payout(bank, total, burns[0]);
      p + Paid(bank - p, total - burns[0], burns[1..])
  }

  lemma {:induction false} BurnedAtMostTotal(total: nat, burns: seq<nat>)
    requires Exitable(total, burns)
    ensures Burned(burns) <= total
  {
    if burns != [] {
      BurnedAtMostTotal(total - burns[0], burns[1..]);
    }
  }

  lemma SwapFactors(x: nat, y: nat, z: nat)
    ensures x * y * z == x * z * y
  {
  }

  lemma SumTimes(x: nat, y: nat, d: nat)
    ensures (x + y) * d == x * d + y * d
  {
  }

  lemma DifferenceTimes(x: nat, y: nat, d: nat)
    requires y <= x
    ensures (x - y) * d == x * d - y * d
  {
  }

  /** The two parts of a payout, against a total of t + k, with r exits out of t. */
  lemma PaidParts(total: nat, t: nat, p: nat, r: nat)
    ensures (p + r) * total * t == p * total * t + r * t * total
  {
    SumTimes(p, r, total);
    SumTimes(p * total, r * total, t);
    SwapFactors(r, total, t);
  }

  /** p off the bank lowers the share s of it by p * s. */
  lemma RestParts(bank: nat, total: nat, t: nat, p: nat, s: nat)
    requires p <= bank && s <= t
    ensures p * total * t + (bank - p) * s * total == p * total * (t - s) + bank * s * total
  {
    DifferenceTimes(bank, p, s);
    DifferenceTimes(bank * s, p * s, total);
    SwapFactors(p, s, total);
    SumTimes(t - s, s, p * total);
  }

  lemma ShareParts(bank: nat, k: nat, t: nat, s: nat)
    requires s <= t
    ensures bank * k * (t - s) + bank * s * (t + k) == bank * (k + s) * t
  {
    SumTimes(t - s, s, bank * k);
    SumTimes(t, k, bank * s);
    SumTimes(k, s, bank);
    SumTimes(bank * k, bank * s, t);
    SwapFactors(bank, k, s);
  }

  /** One exit of k followed by exits worth r of the rest: together not more than their share. */
  lemma PaidStepUpper(bank: nat, total: nat, k: nat, p: nat, r: nat, s: nat)
    requires k < total && s <= total - k && p <= bank
    requires p * total <= bank * k
    requires r * (total - k) <= (bank - p) * s
    ensures (p + r) * total <= bank * (k + s)
  {
    var t := total - k;
    PaidParts(total, t, p, r);
    TimesMonotone(r * t, (bank - p) * s, total);
    RestParts(bank, total, t, p, s);
    TimesMonotone(p * total, bank * k, t - s);
    ShareParts(bank, k, t, s);
    Chained((p + r) * total * t, p * total * t, r * t * total, (bank - p) * s * total, p * total * (t - s),
            bank * s * total, bank * k * (t - s), bank * (k + s) * t);
    CancelFactor((p + r) * total, bank * (k + s), t);
  }

  lemma Chained(a: int, b: int, c: int, c': int, d: int, e: int, d': int, f: int)
    requires a == b + c && c <= c' && b + c' == d + e && d <= d' && d' + e == f
    ensures a <= f
  {
  }

  lemma {:induction false} PaidAtMostShare(bank: nat, total: nat, burns: seq<nat>)
    requires Exitable(total, burns)
    ensures Paid(bank, total, burns) * total <= bank * Burned(burns)
  {
    if burns != [] {
      var k, p := burns[0], Payout(bank, total, burns[0]);
      PayoutAtMostBank(bank, total, k);
      PayoutBounds(bank, total, k);
      PaidAtMostShare(bank - p, total - k, burns[1..]);
      BurnedAtMostTotal(total, burns);
      if k < total {
        PaidStepUpper(bank, total, k, p, Paid(bank - p, total - k, burns[1..]), Burned(burns[1..]));
      } else {
        assert burns[1..] == [];
      }
    }
  }

  /** A share q of one bank is a share of another that is at least as rich per share. */
  lemma ShareCarriesOver(q: nat, bank: nat, total: nat, bank': nat, total': nat, s: nat)
    requires 0 < total && q * total <= bank * s && bank * total' <= bank' * total
    ensures q * total' <= bank' * s
  {
    TimesMonotone(q * total, bank * s, total');
    SwapFactors(q, total, total');
    SwapFactors(bank, s, total');
    TimesMonotone(bank * total', bank' * total, s);
    SwapFactors(bank', total, s);
    CancelFactor(q * total', bank' * s, total);
  }

  lemma ShareGrows(bank: nat, total: nat, bank': nat, total': nat, s: nat)
    requires 0 < total && 0 < total' && bank * total' <= bank' * total
    ensures bank * s / total <= bank' * s / total'
  {
    var q := bank * s / total;
    QuotientBounds(bank * s, total);
    ShareCarriesOver(q, bank, total, bank', total', s);
    FloorIsLargest(bank' * s, total', q);
  }

  /** What was taken before leaves the later exits at least their share of the original bank. */
  lemma ShareOfRest(bank: nat, total: nat, k: nat, s: nat)
    requires k < total
    ensures Payout(bank, total, k) <= bank
    ensures Payout(bank, total, s) <= Payout(bank - Payout(bank, total, k), total - k, s)
  {
    PayoutAtMostBank(bank, total, k);
    PayoutKeepsValuePerShare(bank, total, k);
    ShareGrows(bank, total, bank - Payout(bank, total, k), total - k, s);
  }

  /** Splitting a division into two loses at most one unit. */
  lemma FloorOfSum(bank: nat, total: nat, k: nat, s: nat)
    requires total > 0
    ensures Payout(bank, total, k + s) <= Payout(bank, total, k) + Payout(bank, total, s) + 1
  {
    var x, y := bank * k / total, bank * s / total;
    QuotientBounds(bank * k, total);
    QuotientBounds(bank * s, total);
    assert bank * (k + s) == bank * k + bank * s;
    assert (x + y + 2) * total == x * total + total + (y * total + total);
    FloorAtMost(bank * (k + s), total, x + y + 1);
  }

  lemma {:induction false} PaidFallsShortByRounding(bank: nat, total: nat, burns: seq<nat>)
    requires Exitable(total, burns) && burns != []
    ensures Paid(bank, total, burns) >= Payout(bank, total, Burned(burns)) - (|burns| - 1)
  {
    var k, rest := burns[0], burns[1..];
    var p := Payout(bank, total, k);
    PayoutAtMostBank(bank, total, k);
    if rest == [] {
      assert Burned(burns) == k;
    } else {
      PaidFallsShortByRounding(bank - p, total - k, rest);
      ShareOfRest(bank, total, k, Burned(rest));
      FloorOfSum(bank, total, k, Burned(rest));
    }
  }

  /** n exits that burn S of T shares are together paid at most floor(B S / T), and at least that
      less n - 1: splitting an exit never gains. */
  lemma SplittingNeverGains(bank: nat, total: nat, burns: seq<nat>)
    requires Exitable(total, burns) && burns != []
    ensures Payout(bank, total, Burned(burns)) - (|burns| - 1)
            <= Paid(bank, total, burns)
            <= Payout(bank, total, Burned(burns))
  {
    PaidAtMostShare(bank, total, burns);
    FloorIsLargest(bank * Burned(burns), total, Paid(bank, total, burns));
    PaidFallsShortByRounding(bank, total, burns);
  }

  // ----- the same about the pallet's storage -----

  type Exit = (AccountId, u128)

  function AfterExits(cfg: Config, s: Storage, exits: seq<Exit>): Storage
    decreases |exits|
  {
    if exits == [] then s
    else AfterExits(cfg, Step(cfg, s, exits[0].0, Ragequit(exits[0].1)), exits[1..])
  }

  /** Every exit is accepted, its signer is not the bank itself, and its transfer goes through. */
  predicate AllPaid(cfg: Config, s: Storage, exits: seq<Exit>)
    decreases |exits|
  {
    exits == [] ||
    (var (who, burn) := exits[0];
     && who != cfg.guildBank
     && RagequitCheck(cfg, s, who, burn).Accept?
     && Transferable(cfg.existentialDeposit, s.balances, cfg.guildBank, who,
                     Payout(Free(s.balances, cfg.guildBank), s.totalShares, burn), KeepAlive)
     && AllPaid(cfg, Step(cfg, s, who, Ragequit(burn)), exits[1..]))
  }

  function Burns(exits: seq<Exit>): seq<nat> {
    if exits == [] then [] else [exits[0].1] + Burns(exits[1..])
  }

  /** What a sequence of exits leaves of the shares and of the bank. */
  predicate PaidExactly(s: Storage, bank: nat, burns: seq<nat>, s': Storage, bank': nat) {
    && Exitable(s.totalShares, burns)
    && bank' == bank - Paid(bank, s.totalShares, burns)
    && s'.totalShares == s.totalShares - Burned(burns)
  }

  /** One exit, and the exits after it. */
  lemma PaidFromFirst(s: Storage, bank: nat, k: nat, rest: seq<nat>, s1: Storage, bank1: nat, s': Storage, bank': nat)
    requires 0 < s.totalShares && k <= s.totalShares && s1.totalShares == s.totalShares - k
    requires bank1 == bank - Payout(bank, s.totalShares, k) && PaidExactly(s1, bank1, rest, s', bank')
    ensures PaidExactly(s, bank, [k] + rest, s', bank')
  {
    assert ([k] + rest)[1..] == rest;
  }

  lemma ExitIsPaid(cfg: Config, s: Storage, who: AccountId, burn: u128)
    requires who != cfg.guildBank && RagequitCheck(cfg, s, who, burn).Accept?
    requires Transferable(cfg.existentialDeposit, s.balances, cfg.guildBank, who,
                          Payout(Free(s.balances, cfg.guildBank), s.totalShares, burn), KeepAlive)
    ensures s.totalShares > 0 && burn <= s.totalShares
    ensures var s1, bank := Step(cfg, s, who, Ragequit(burn)), Free(s.balances, cfg.guildBank);
            && s1.totalShares == s.totalShares - burn
            && Free(s1.balances, cfg.guildBank) == bank - Payout(bank, s.totalShares, burn)
  {
  }

  lemma {:induction false} ExitsArePaid(cfg: Config, s: Storage, exits: seq<Exit>)
    requires AllPaid(cfg, s, exits)
    ensures |Burns(exits)| == |exits|
    ensures var s' := AfterExits(cfg, s, exits);
            PaidExactly(s, Free(s.balances, cfg.guildBank), Burns(exits), s', Free(s'.balances, cfg.guildBank))
    decreases |exits|
  {
    if exits != [] {
      var (who, burn) := exits[0];
      var s1, s' := Step(cfg, s, who, Ragequit(burn)), AfterExits(cfg, s, exits);
      ExitIsPaid(cfg, s, who, burn);
      ExitsArePaid(cfg, s1, exits[1..]);
      PaidFromFirst(s, Free(s.balances, cfg.guildBank), burn, Burns(exits[1..]), s1, Free(s1.balances, cfg.guildBank),
                    s', Free(s'.balances, cfg.guildBank));
    }
  }

  /** Consecutive ragequits whose transfers succeed take out of the guild bank what their shares
      were worth at the start, up to one unit of rounding per further exit. */
  lemma ConsecutiveRagequits(cfg: Config, s: Storage, exits: seq<Exit>)
    requires AllPaid(cfg, s, exits) && exits != []
    ensures var bank, burned := Free(s.balances, cfg.guildBank), Burned(Burns(exits));
            var taken := bank - Free(AfterExits(cfg, s, exits).balances, cfg.guildBank);
            && AfterExits(cfg, s, exits).totalShares == s.totalShares - burned
            && Payout(bank, s.totalShares, burned) - (|exits| - 1) <= taken <= Payout(bank, s.totalShares, burned)
  {
    ExitsArePaid(cfg, s, exits);
    SplittingNeverGains(Free(s.balances, cfg.guildBank), s.totalShares, Burns(exits));
  }

  /** One accepted ragequit, whether or not its transfer goes through. */
  lemma RagequitKeepsValuePerShare(cfg: Config, s: Storage, who: AccountId, burn: u128)
    requires RagequitCheck(cfg, s, who, burn).Accept?
    ensures var s' := Step(cfg, s, who, Ragequit(burn));
            Free(s'.balances, cfg.guildBank) * s.totalShares >= Free(s.balances, cfg.guildBank) * s'.totalShares
  {
    var bank := Free(s.balances, cfg.guildBank);
    var bank' := Free(Step(cfg, s, who, Ragequit(burn)).balances, cfg.guildBank);
    PayoutAtMostBank(bank, s.totalShares, burn);
    PayoutKeepsValuePerShare(bank, s.totalShares, burn);
    TimesMonotone(bank - Payout(bank, s.totalShares, burn), bank', s.totalShares);
  }
}
