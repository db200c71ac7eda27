/**
 * The campaign dashboard: a read-only projection of the mock campaign list
 * into counters, three status views and status styles. The list has no
 * setter, so every value here is a function of that fixed list.
 */
module CampaignDashboard {
  import opened Lists

  /** One campaign record of the dashboard. */
  datatype Campaign = Campaign(
    id: int,
    name: string,
    status: string,
    vipSegment: string,
    targetCount: int,
    sentCount: int,
    deliveredCount: int,
    openRate: int,
    responseRate: int,
    createdAt: string,
    scheduledFor: string,
    campaignType: string)

  /** The campaigns the dashboard shows for the whole session. */
  function MockCampaigns(): seq<Campaign>
  {
    [ Campaign(1, "Holiday VIP Sale 2024", "active", "Platinum Members",
               1250, 890, 845, 68, 12, "2024-01-15", "2024-01-20", "promotional"),
      Campaign(2, "New Arrivals Spring Collection", "scheduled", "Gold Members",
               2100, 0, 0, 0, 0, "2024-01-18", "2024-01-25", "new-arrivals"),
      Campaign(3, "Exclusive Member Event", "completed", "All VIP Members",
               3500, 3500, 3420, 72, 18, "2024-01-10", "2024-01-12", "exclusive-event") ]
  }

  // ---------------------------------------------------------------------
  // Status styles
  // ---------------------------------------------------------------------

  /** The status dot colour; an unknown status is drawn like a completed one. */
  function StatusColor(status: string): (r: string)
    ensures r == "bg-green-500" <==> status == "active"
    ensures r == "bg-blue-500" <==> status == "scheduled"
    ensures r == "bg-yellow-500" <==> status == "paused"
    ensures r == "bg-gray-500" <==> status !in {"active", "scheduled", "paused"}
  {
    match status
    case "active" => "bg-green-500"
    case "scheduled" => "bg-blue-500"
    case "completed" => "bg-gray-500"
    case "paused" => "bg-yellow-500"
    case _ => "bg-gray-500"
  }

  /** The status badge variant; an unknown status is drawn like a completed one. */
  function StatusVariant(status: string): (r: string)
    ensures r == "default" <==> status == "active"
    ensures r == "secondary" <==> status == "scheduled"
    ensures r == "destructive" <==> status == "paused"
    ensures r == "outline" <==> status !in {"active", "scheduled", "paused"}
  {
    match status
    case "active" => "default"
    case "scheduled" => "secondary"
    case "completed" => "outline"
    case "paused" => "destructive"
    case _ => "outline"
  }

  // ---------------------------------------------------------------------
  // Views and counters
  // ---------------------------------------------------------------------

  /** How many campaigns carry the status. */
  function CountStatus(campaigns: seq<Campaign>, status: string): (n: nat)
    ensures n <= |campaigns|
  {
    if campaigns == [] then 0
    else (if campaigns[0].status == status then 1 else 0) + CountStatus(campaigns[1..], status)
  }

  /**
   * `campaigns.filter((c) => c.status === status)`: a subsequence of the list
   * that keeps every campaign with the status, as often as it occurs there,
   * and nothing else.
   */
  function WithStatus(campaigns: seq<Campaign>, status: string): (r: seq<Campaign>)
    ensures forall c :: c in r <==> c in campaigns && c.status == status
    ensures |r| == CountStatus(campaigns, status)
    ensures IsSubsequence(r, campaigns)
  {
    if campaigns == [] then []
    else if campaigns[0].status == status then [campaigns[0]] + WithStatus(campaigns[1..], status)
    else WithStatus(campaigns[1..], status)
  }

  /** The tab views of the dashboard. */
  function ActiveView(campaigns: seq<Campaign>): seq<Campaign> { WithStatus(campaigns, "active") }
  function ScheduledView(campaigns: seq<Campaign>): seq<Campaign> { WithStatus(campaigns, "scheduled") }
  function CompletedView(campaigns: seq<Campaign>): seq<Campaign> { WithStatus(campaigns, "completed") }

  /** The "Total Campaigns" counter. */
  function TotalCampaigns(campaigns: seq<Campaign>): nat
  {
    |campaigns|
  }

  /** The "active campaigns" counter: never more than the total. */
  function ActiveCampaigns(campaigns: seq<Campaign>): (n: nat)
    ensures n <= TotalCampaigns(campaigns)
    ensures n == 0 <==> forall c :: c in campaigns ==> c.status != "active"
  {
    var view := ActiveView(campaigns);
    assert view != [] ==> view[0] in view;
    |view|
  }

  /** The "Messages Sent" counter: the sum of the sent counts. */
  function TotalSent(campaigns: seq<Campaign>): (total: int)
    ensures (forall c :: c in campaigns ==> c.sentCount >= 0) ==> total >= 0
    ensures (forall c :: c in campaigns ==> c.sentCount <= c.targetCount) ==>
              total <= TotalTarget(campaigns)
  {
    if campaigns == [] then 0 else campaigns[0].sentCount + TotalSent(campaigns[1..])
  }

  /** The sum of the target counts. */
  function TotalTarget(campaigns: seq<Campaign>): int
  {
    if campaigns == [] then 0 else campaigns[0].targetCount + TotalTarget(campaigns[1..])
  }

  /** The "Remaining" figure of an active campaign. */
  function Remaining(c: Campaign): int
  {
    c.targetCount - c.sentCount
  }

  /** A campaign whose counts are consistent. */
  predicate CountsConsistent(c: Campaign)
  {
    0 <= c.deliveredCount <= c.sentCount <= c.targetCount
  }

  // ---------------------------------------------------------------------
  // Properties of the projection
  // ---------------------------------------------------------------------

  /**
   * The three views never share a campaign, and a paused campaign or one
   * with any other status appears in none of them.
   */
  lemma ViewsDisjoint(campaigns: seq<Campaign>, c: Campaign)
    ensures !(c in ActiveView(campaigns) && c in ScheduledView(campaigns))
    ensures !(c in ActiveView(campaigns) && c in CompletedView(campaigns))
    ensures !(c in ScheduledView(campaigns) && c in CompletedView(campaigns))
    ensures c.status !in {"active", "scheduled", "completed"} ==>
              c !in ActiveView(campaigns) && c !in ScheduledView(campaigns) && c !in CompletedView(campaigns)
  {
  }

  /** A campaign whose status is none of the three tabs. */
  predicate Hidden(c: Campaign)
  {
    c.status != "active" && c.status != "scheduled" && c.status != "completed"
  }

  /**
   * `campaigns.filter(Hidden)`: the campaigns no tab shows, each as often as
   * it occurs in the list and in list order.
   */
  function HiddenCampaigns(campaigns: seq<Campaign>): (r: seq<Campaign>)
    ensures forall c :: c in r <==> c in campaigns && Hidden(c)
    ensures |r| == |campaigns| - CountStatus(campaigns, "active")
                   - CountStatus(campaigns, "scheduled") - CountStatus(campaigns, "completed")
    ensures IsSubsequence(r, campaigns)
  {
    if campaigns == [] then []
    else if Hidden(campaigns[0]) then [campaigns[0]] + HiddenCampaigns(campaigns[1..])
    else HiddenCampaigns(campaigns[1..])
  }

  /** The three views and the campaigns no tab shows add up to the total count. */
  lemma {:induction false} ViewSizesPartition(campaigns: seq<Campaign>)
    ensures |ActiveView(campaigns)| + |ScheduledView(campaigns)| + |CompletedView(campaigns)|
              + |HiddenCampaigns(campaigns)| == TotalCampaigns(campaigns)
  {
    if campaigns != [] {
      ViewSizesPartition(campaigns[1..]);
    }
  }

  /** Filtering by status and then summing the sent counts goes one campaign at a time. */
  lemma TotalSentWithStatusStep(campaigns: seq<Campaign>, status: string)
    requires campaigns != []
    ensures TotalSent(WithStatus(campaigns, status)) ==
              (if campaigns[0].status == status then campaigns[0].sentCount else 0)
              + TotalSent(WithStatus(campaigns[1..], status))
  {
    if campaigns[0].status == status {
      var v := WithStatus(campaigns, status);
      assert v[0] == campaigns[0] && v[1..] == WithStatus(campaigns[1..], status);
    }
  }

  /** The same step for the campaigns no tab shows. */
  lemma TotalSentHiddenStep(campaigns: seq<Campaign>)
    requires campaigns != []
    ensures TotalSent(HiddenCampaigns(campaigns)) ==
              (if Hidden(campaigns[0]) then campaigns[0].sentCount else 0)
              + TotalSent(HiddenCampaigns(campaigns[1..]))
  {
    if Hidden(campaigns[0]) {
      var h := HiddenCampaigns(campaigns);
      assert h[0] == campaigns[0] && h[1..] == HiddenCampaigns(campaigns[1..]);
    }
  }

  /** The sent counts of the three views and of the hidden campaigns add up to the total sent. */
  lemma {:induction false} ViewTotalsPartition(campaigns: seq<Campaign>)
    ensures TotalSent(ActiveView(campaigns)) + TotalSent(ScheduledView(campaigns))
              + TotalSent(CompletedView(campaigns)) + TotalSent(HiddenCampaigns(campaigns))
              == TotalSent(campaigns)
  {
    if campaigns != [] {
      ViewTotalsPartition(campaigns[1..]);
      TotalSentWithStatusStep(campaigns, "active");
      TotalSentWithStatusStep(campaigns, "scheduled");
      TotalSentWithStatusStep(campaigns, "completed");
      TotalSentHiddenStep(campaigns);
    }
  }

  /**
   * When every campaign is active, scheduled or completed, the total sent
   * is the sum over the three views and their sizes add up to the total.
   */
  lemma TotalSentByView(campaigns: seq<Campaign>)
    requires forall c :: c in campaigns ==> !Hidden(c)
    ensures TotalSent(campaigns) ==
              TotalSent(ActiveView(campaigns)) + TotalSent(ScheduledView(campaigns))
              + TotalSent(CompletedView(campaigns))
    ensures |ActiveView(campaigns)| + |ScheduledView(campaigns)| + |CompletedView(campaigns)|
              == TotalCampaigns(campaigns)
  {
    ViewSizesPartition(campaigns);
    ViewTotalsPartition(campaigns);
    assert HiddenCampaigns(campaigns) == [];
  }

  /** With consistent counts every displayed remaining figure is non-negative. */
  lemma RemainingNonNegative(campaigns: seq<Campaign>, c: Campaign)
    requires forall d :: d in campaigns ==> CountsConsistent(d)
    requires c in ActiveView(campaigns)
    ensures 0 <= Remaining(c) <= c.targetCount
  {
  }

  /**
   * The fixed list is consistent (delivered <= sent <= target), so the
   * counters shown for the whole session are 3 campaigns, 1 active and
   * 4390 messages sent.
   */
  lemma MockCampaignsFacts()
    ensures forall c :: c in MockCampaigns() ==> CountsConsistent(c)
    ensures TotalCampaigns(MockCampaigns()) == 3
    ensures ActiveCampaigns(MockCampaigns()) == 1
    ensures TotalSent(MockCampaigns()) == 4390
  {
  }
}
