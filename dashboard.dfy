/** The dashboard's contributor badge, earned by adding shared HR contacts,
    its progress line, and the campaign-status pie's fallback for an empty
    account. */
module Dashboard {
  import opened Wrappers
  import opened Text

  /** The badge tiers, in rising order; `Unranked` is the tier the page calls
      "None". */
  datatype Tier = Unranked | Bronze | Silver | Gold

  function TierName(t: Tier): string {
    match t
    case Unranked => "None"
    case Bronze => "Bronze"
    case Silver => "Silver"
    case Gold => "Gold"
  }

  function Rank(t: Tier): nat {
    match t
    case Unranked => 0
    case Bronze => 1
    case Silver => 2
    case Gold => 3
  }

  /** `{ tier, nextAt }`: the tier a contribution count has earned and the
      count at which the next tier starts. */
  datatype Badge = Badge(tier: Tier, nextAt: Option<nat>)

  /** The count at which a tier starts. */
  function Threshold(t: Tier): nat {
    match t
    case Unranked => 0
    case Bronze => 50
    case Silver => 100
    case Gold => 200
  }

  /** `getBadgeTier(count)` */
  function BadgeTier(count: nat): (r: Badge)
    ensures Threshold(r.tier) <= count
    ensures r.nextAt.None? <==> r.tier == Gold
    ensures r.nextAt.Some? ==> count < r.nextAt.value
  {
    if count >= 200 then Badge(Gold, None)
    else if count >= 100 then Badge(Silver, Some(200))
    else if count >= 50 then Badge(Bronze, Some(100))
    else Badge(Unranked, Some(50))
  }

  /** The tier above a tier below Gold. */
  function NextTier(t: Tier): (r: Tier)
    requires t != Gold
    ensures Rank(r) == Rank(t) + 1
  {
    match t
    case Unranked => Bronze
    case Bronze => Silver
    case Silver => Gold
  }

  /** The badge is the highest tier whose start the count has reached, and
      `nextAt` is where the tier above starts. */
  lemma BadgeTierSpec(count: nat)
    ensures forall t :: Threshold(t) <= count ==> Rank(t) <= Rank(BadgeTier(count).tier)
    ensures var b := BadgeTier(count);
      b.tier != Gold ==> b.nextAt == Some(Threshold(NextTier(b.tier)))
  {
  }

  /** Contributing more never lowers the badge. */
  lemma BadgeMonotone(a: nat, b: nat)
    requires a <= b
    ensures Rank(BadgeTier(a).tier) <= Rank(BadgeTier(b).tier)
  {
    BadgeTierSpec(b);
  }

  /** `nextMsg`, whose thresholds are written out again beside the ones of
      `getBadgeTier`. */
  function NextMessage(count: nat): string {
    var b := BadgeTier(count);
    match b.tier
    case Unranked => ContributeMessage(Max0(50 - count), "Bronze")
    case Bronze => ContributeMessage(Max0(100 - count), "Silver")
    case Silver => ContributeMessage(Max0(200 - count), "Gold")
    case Gold => "You reached Gold. Respect."
  }

  /** `Contribute ${missing} more to earn ${tier}` */
  function ContributeMessage(missing: nat, tier: string): string {
    "Contribute " + Decimal(missing) + " more to earn " + tier
  }

  /** `Math.max(0, n)` */
  function Max0(n: int): (r: nat)
    ensures n >= 0 ==> r == n
    ensures n < 0 ==> r == 0
  {
    if n < 0 then 0 else n
  }

  /** Below Gold, the message names the next tier and the contributions still
      missing to reach its `nextAt`, which is never zero, so the `Math.max`
      clamp never applies. */
  lemma NextMessageAgrees(count: nat)
    ensures var b := BadgeTier(count);
      && (b.tier == Gold ==> NextMessage(count) == "You reached Gold. Respect.")
      && (b.tier != Gold ==>
            && b.nextAt.value - count >= 1
            && NextMessage(count)
               == ContributeMessage(b.nextAt.value - count, TierName(NextTier(b.tier))))
  {
    var b := BadgeTier(count);
    if b.tier != Gold {
      assert Max0(b.nextAt.value - count) == b.nextAt.value - count;
    }
  }

  /** The "Progress to next tier" label. */
  function ProgressLabel(count: nat, nextAt: Option<nat>): string {
    match nextAt
    case Some(n) => Decimal(count) + "/" + Decimal(n)
    case None => "Max level"
  }

  /** The label reads "Max level" exactly at Gold; below it, the label's
      numbers are the count and the next threshold. */
  lemma ProgressLabelSpec(count: nat)
    ensures var b := BadgeTier(count);
      && (ProgressLabel(count, b.nextAt) == "Max level" <==> b.tier == Gold)
      && (b.tier != Gold ==> ProgressLabel(count, b.nextAt) == Decimal(count) + "/" + Decimal(b.nextAt.value))
  {
    var b := BadgeTier(count);
    if b.tier != Gold {
      var shown := ProgressLabel(count, b.nextAt);
      assert shown[0] == Decimal(count)[0];
      assert IsDigit(shown[0]);
    }
  }

  // The campaign-status pie

  datatype Slice = Slice(name: string, value: nat)

  /** `pieData`: created, sent and failed, in that order. */
  function PieData(total: nat, successful: nat, failed: nat): seq<Slice> {
    [Slice("Created", total), Slice("Sent", successful), Slice("Failed", failed)]
  }

  predicate AllZero(slices: seq<Slice>) {
    forall i :: 0 <= i < |slices| ==> slices[i].value == 0
  }

  /** The data the pie is drawn from: one placeholder slice when every count
      is zero, otherwise the three counts. */
  function PieShown(total: nat, successful: nat, failed: nat): (r: seq<Slice>)
    ensures r == [Slice("empty", 1)] <==> total == 0 && successful == 0 && failed == 0
    ensures r != [Slice("empty", 1)] ==> r == PieData(total, successful, failed)
    ensures !AllZero(r)
  {
    var data := PieData(total, successful, failed);
    if AllZero(data) then
      assert data[0].value == 0 && data[1].value == 0 && data[2].value == 0;
      assert [Slice("empty", 1)][0].value == 1;
      [Slice("empty", 1)]
    else
      data
  }
}
