/**
 * Reward selection of the Stellar reward bot: from the holders of the
 * configured asset, pick those that are paid a reward and compute the amount.
 *
 * Amounts are integers in stroops (10^-7 of a lumen, the ledger's smallest
 * unit); the reward rate is a fixed-point fraction with seven decimals.
 */
module Rewards {

  datatype Option<T> = None | Some(value: T)

  /** A reward rate `r` stands for the fraction r / RATE_SCALE (0.01 is 100_000). */
  const RATE_SCALE: nat := 10_000_000

  /** MIN_PAYMENT is 0.0000001, which is one stroop. */
  const MIN_PAYMENT: nat := 1

  /** The `asset_type` of a balance line as Horizon reports it. */
  datatype AssetType = Native | CreditAlphanum4 | CreditAlphanum12 | LiquidityPoolShares

  /**
   * One balance line of an account. `balance` is in stroops; lines that
   * have no code or issuer (native, pool shares) carry empty strings.
   */
  datatype BalanceEntry = BalanceEntry(assetType: AssetType, assetCode: string, assetIssuer: string, balance: nat)

  /** An account record of the holder listing: its id and its balance lines. */
  datatype Holder = Holder(id: string, balances: seq<BalanceEntry>)

  /** The bot's configuration: the distributor's public key, the asset, the rate. */
  datatype Config = Config(distributor: string, assetCode: string, assetIssuer: string, rate: nat)

  /** `{address, amount}`, the amount in stroops. */
  datatype Payment = Payment(address: string, amount: nat)

  /** The predicate handed to `find`: a credit line of the configured asset. */
  predicate IsTargetAsset(b: BalanceEntry, cfg: Config)
  {
    && (b.assetType == CreditAlphanum12 || b.assetType == CreditAlphanum4)
    && b.assetCode == cfg.assetCode
    && b.assetIssuer == cfg.assetIssuer
  }

  /** `i` is the position of the first balance line of the configured asset. */
  ghost predicate IsFirstTarget(bs: seq<BalanceEntry>, cfg: Config, i: int)
  {
    && 0 <= i < |bs|
    && IsTargetAsset(bs[i], cfg)
    && forall j :: 0 <= j < i ==> !IsTargetAsset(bs[j], cfg)
  }

  /** `balances.find(...)`, giving the position of the entry it finds. */
  function FindTarget(bs: seq<BalanceEntry>, cfg: Config): (r: Option<nat>)
    ensures r.Some? ==> IsFirstTarget(bs, cfg, r.value)
    ensures r.None? <==> forall j :: 0 <= j < |bs| ==> !IsTargetAsset(bs[j], cfg)
  {
    if |bs| == 0 then None
    else if IsTargetAsset(bs[0], cfg) then Some(0)
    else match FindTarget(bs[1..], cfg)
      case None => None
      case Some(k) => Some(k + 1)
  }

  /** The exact reward balance × rate, in units of 10^-7 stroop. */
  function ScaledReward(balance: nat, rate: nat): nat
  {
    balance * rate
  }

  /** `reward < MIN_PAYMENT`, compared before any rounding. */
  predicate BelowMinimum(scaled: nat)
  {
    scaled < MIN_PAYMENT * RATE_SCALE
  }

  /** `reward.toFixed(7)`: the exact reward rounded to the nearest stroop, halves up. */
  function ToStroops(scaled: nat): (r: nat)
    ensures r * RATE_SCALE - RATE_SCALE / 2 <= scaled < r * RATE_SCALE + RATE_SCALE / 2
    ensures !BelowMinimum(scaled) ==> r >= MIN_PAYMENT
  {
    (scaled + RATE_SCALE / 2) / RATE_SCALE
  }

  /** The callback of `holders.map(...)`: None where the source returns null. */
  function HolderReward(h: Holder, cfg: Config): (r: Option<Payment>)
    ensures r.Some? ==> r.value.address == h.id && h.id != cfg.distributor
    ensures r.Some? ==> r.value.amount >= MIN_PAYMENT
  {
    if h.id == cfg.distributor then None
    else match FindTarget(h.balances, cfg)
      case None => None
      case Some(i) =>
        var scaled := ScaledReward(h.balances[i].balance, cfg.rate);
        if BelowMinimum(scaled) then None
        else Some(Payment(h.id, ToStroops(scaled)))
  }

  /** `holders.map(...)`: one optional payment per holder, in order. */
  function Outcomes(holders: seq<Holder>, cfg: Config): seq<Option<Payment>>
  {
    seq(|holders|, k requires 0 <= k < |holders| => HolderReward(holders[k], cfg))
  }

  /** `.filter(Boolean)`: the present values, in order. */
  function Present<T(!new)>(s: seq<Option<T>>): (r: seq<T>)
    ensures |r| <= |s|
    ensures forall x :: x in r <==> Some(x) in s
  {
    if |s| == 0 then []
    else
      var last := s[|s| - 1];
      assert s == s[..|s| - 1] + [last];
      Present(s[..|s| - 1]) + (if last.Some? then [last.value] else [])
  }

  /** The positions of the present values, in order. */
  ghost function Kept<T>(s: seq<Option<T>>): (ks: seq<nat>)
    ensures forall k :: k in ks <==> 0 <= k < |s| && s[k].Some?
    ensures forall j1, j2 :: 0 <= j1 < j2 < |ks| ==> ks[j1] < ks[j2]
    ensures forall j :: 0 <= j < |ks| ==> ks[j] < |s|
  {
    if |s| == 0 then []
    else Kept(s[..|s| - 1]) + (if s[|s| - 1].Some? then [|s| - 1] else [])
  }

  /** calculateRewards */
  function CalculateRewards(holders: seq<Holder>, cfg: Config): (payments: seq<Payment>)
    ensures |payments| <= |holders|
    ensures forall p :: p in payments ==> p.address != cfg.distributor && p.amount >= MIN_PAYMENT
  {
    var outcomes := Outcomes(holders, cfg);
    assert forall p :: Some(p) in outcomes ==> p.address != cfg.distributor && p.amount >= MIN_PAYMENT;
    Present(outcomes)
  }

  /**
   * `.filter(Boolean)` keeps exactly the present values, in their order:
   * the j-th output is the value at the j-th kept position.
   */
  lemma {:induction false} PresentIsOrderedSelection<T(!new)>(s: seq<Option<T>>)
    ensures |Present(s)| == |Kept(s)|
    ensures forall j :: 0 <= j < |Kept(s)| ==> s[Kept(s)[j]] == Some(Present(s)[j])
  {
    if |s| > 0 {
      var init, last := s[..|s| - 1], s[|s| - 1];
      PresentIsOrderedSelection(init);
      assert Present(s) == Present(init) + (if last.Some? then [last.value] else []);
      assert Kept(s) == Kept(init) + (if last.Some? then [|s| - 1] else []);
      forall j | 0 <= j < |Kept(s)|
        ensures s[Kept(s)[j]] == Some(Present(s)[j])
      {
        if j < |Kept(init)| {
          assert Kept(s)[j] == Kept(init)[j];
          assert Present(s)[j] == Present(init)[j];
          assert s[Kept(init)[j]] == init[Kept(init)[j]];
        }
      }
    }
  }

  /**
   * The output of calculateRewards is the subsequence of the holders for
   * which the map callback yields a payment, in input order, each mapped to
   * its payment; every holder that yields a payment is among them.
   */
  lemma CalculateRewardsIsOrderedSelection(holders: seq<Holder>, cfg: Config)
    ensures var sel := Kept(Outcomes(holders, cfg));
            var payments := CalculateRewards(holders, cfg);
            && |sel| == |payments|
            && (forall j :: 0 <= j < |sel| ==>
                  sel[j] < |holders| && HolderReward(holders[sel[j]], cfg) == Some(payments[j])
                  && payments[j].address == holders[sel[j]].id)
            && (forall j1, j2 :: 0 <= j1 < j2 < |sel| ==> sel[j1] < sel[j2])
            && (forall k :: 0 <= k < |holders| ==> (k in sel <==> HolderReward(holders[k], cfg).Some?))
  {
    PresentIsOrderedSelection(Outcomes(holders, cfg));
  }

  /**
   * A holder that is paid is not the distributor, has a first balance line of
   * the configured asset, and its reward from that line reaches MIN_PAYMENT
   * and is the amount paid.
   */
  lemma PaymentHasEligibleSource(holders: seq<Holder>, cfg: Config, p: Payment)
    requires p in CalculateRewards(holders, cfg)
    ensures exists k, i ::
              && 0 <= k < |holders|
              && holders[k].id == p.address
              && p.address != cfg.distributor
              && IsFirstTarget(holders[k].balances, cfg, i)
              && !BelowMinimum(ScaledReward(holders[k].balances[i].balance, cfg.rate))
              && p.amount == ToStroops(ScaledReward(holders[k].balances[i].balance, cfg.rate))
  {
    var outcomes := Outcomes(holders, cfg);
    assert Some(p) in outcomes;
    var k :| 0 <= k < |outcomes| && outcomes[k] == Some(p);
    var i := FindTarget(holders[k].balances, cfg).value;
    assert IsFirstTarget(holders[k].balances, cfg, i);
  }

  /**
   * Every holder other than the distributor whose first balance line of the
   * configured asset earns at least MIN_PAYMENT is paid that reward, and its
   * own position is among the selected ones.
   */
  lemma EligibleHolderIsPaid(holders: seq<Holder>, cfg: Config, k: nat, i: nat)
    requires k < |holders|
    requires holders[k].id != cfg.distributor
    requires IsFirstTarget(holders[k].balances, cfg, i)
    requires !BelowMinimum(ScaledReward(holders[k].balances[i].balance, cfg.rate))
    ensures Payment(holders[k].id, ToStroops(ScaledReward(holders[k].balances[i].balance, cfg.rate)))
              in CalculateRewards(holders, cfg)
    ensures k in Kept(Outcomes(holders, cfg))
  {
    FirstTargetIsUnique(holders[k].balances, cfg, i);
    assert Outcomes(holders, cfg)[k] == HolderReward(holders[k], cfg);
    CalculateRewardsIsOrderedSelection(holders, cfg);
  }

  /** There is only one first position, and `find` returns it. */
  lemma FirstTargetIsUnique(bs: seq<BalanceEntry>, cfg: Config, i: nat)
    requires IsFirstTarget(bs, cfg, i)
    ensures FindTarget(bs, cfg) == Some(i)
  {
    assert IsTargetAsset(bs[i], cfg);
  }

  /**
   * A holder is skipped when it is the distributor, when none of its balance
   * lines is a credit line of the configured asset, or when the reward from
   * its first such line is below MIN_PAYMENT.
   */
  lemma IneligibleHolderIsSkipped(holders: seq<Holder>, cfg: Config, k: nat)
    requires k < |holders|
    requires || holders[k].id == cfg.distributor
             || (forall j :: 0 <= j < |holders[k].balances| ==> !IsTargetAsset(holders[k].balances[j], cfg))
             || (exists i :: IsFirstTarget(holders[k].balances, cfg, i)
                             && BelowMinimum(ScaledReward(holders[k].balances[i].balance, cfg.rate)))
    ensures k !in Kept(Outcomes(holders, cfg))
  {
    if holders[k].id != cfg.distributor && FindTarget(holders[k].balances, cfg).Some? {
      var i :| IsFirstTarget(holders[k].balances, cfg, i)
               && BelowMinimum(ScaledReward(holders[k].balances[i].balance, cfg.rate));
      FirstTargetIsUnique(holders[k].balances, cfg, i);
    }
  }

  /** A balance of 1,000,000 units at rate 0.01 earns 10000.0000000 and is paid. */
  lemma LargeBalanceIsPaid()
    ensures var cfg := Config("GDIST", "RWD", "GISSUER", 100_000);
            var h := Holder("GHOLDER", [BalanceEntry(Native, "", "", 50_000_000),
                                        BalanceEntry(CreditAlphanum4, "RWD", "GISSUER", 10_000_000_000_000)]);
            HolderReward(h, cfg) == Some(Payment("GHOLDER", 100_000_000_000))
  {
  }

  /** A balance of 0.000001 units at rate 0.01 earns less than one stroop and is skipped. */
  lemma DustBalanceIsSkipped()
    ensures var cfg := Config("GDIST", "RWD", "GISSUER", 100_000);
            var h := Holder("GHOLDER", [BalanceEntry(CreditAlphanum12, "RWD", "GISSUER", 10)]);
            HolderReward(h, cfg) == None
  {
  }
}
