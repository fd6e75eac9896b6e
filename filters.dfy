/** The table's filter chain: group, then Fair Pay sub-campaign, then status,
    then free-text search, each an order-preserving filter of the previous
    stage's rows. */
module LeadFilters {
  import opened Wrappers
  import opened Strings
  import opened Leads
  import Seqs

  /** The status buttons: "all", "sold" or "nurture". */
  datatype StatusFilter = AllStatuses | SoldOnly | NurtureOnly {
    function Text(): string {
      match this
      case AllStatuses => "all"
      case SoldOnly => "sold"
      case NurtureOnly => "nurture"
    }
  }

  const FAIR_PAY_CAMPAIGNS: seq<string> := ["morrisons", "asda", "sainsburys", "coop", "justeat", "bolt", "next"]

  /** `group && CAMPAIGN_GROUPS[group]`: the campaigns of a known group, nothing otherwise. */
  function CampaignGroup(group: string): (r: Option<seq<string>>)
    ensures r.Some? <==> group in {"fairpay", "pcp", "diesel", "dpf"}
    ensures group == "fairpay" ==> r == Some(FAIR_PAY_CAMPAIGNS)
    ensures group in {"pcp", "diesel", "dpf"} ==> r == Some([group])
  {
    if group == "fairpay" then Some(FAIR_PAY_CAMPAIGNS)
    else if group == "pcp" then Some(["pcp"])
    else if group == "diesel" then Some(["diesel"])
    else if group == "dpf" then Some(["dpf"])
    else None
  }

  predicate InGroup(l: Lead, group: string)
  {
    CampaignGroup(group).None? || l.campaign in CampaignGroup(group).value
  }

  predicate SubCampaignApplies(group: string, sub: string) { group == "fairpay" && sub != "all" }

  predicate InSubCampaign(l: Lead, group: string, sub: string)
  {
    !SubCampaignApplies(group, sub) || l.campaign == sub
  }

  predicate HasStatus(l: Lead, status: StatusFilter)
  {
    status == AllStatuses || l.status == Some(status.Text())
  }

  /** Case-insensitive match on name, email and lead id; plain match on phone. */
  predicate MatchesTerm(l: Lead, term: string)
  {
    Contains(Lower(l.name), term) || Contains(Lower(l.email), term)
    || Contains(l.phone, term) || Contains(Lower(l.leadId), term)
  }

  predicate MatchesSearch(l: Lead, search: string)
  {
    search == "" || MatchesTerm(l, Lower(search))
  }

  /** The stage predicates as values, so that lemmas can name the filters the stages apply. */
  function GroupPred(group: string): Lead -> bool { l => InGroup(l, group) }
  function SubCampaignPred(group: string, sub: string): Lead -> bool { l => InSubCampaign(l, group, sub) }
  function StatusPred(status: StatusFilter): Lead -> bool { l => HasStatus(l, status) }
  function SearchPred(search: string): Lead -> bool { l => MatchesSearch(l, search) }
  function AllPred(group: string, sub: string, status: StatusFilter, search: string): Lead -> bool
  {
    l => PassesAll(l, group, sub, status, search)
  }

  function ByGroup(leads: seq<Lead>, group: string): (r: seq<Lead>)
    ensures CampaignGroup(group).None? ==> r == leads
    ensures CampaignGroup(group).Some? ==>
      forall l :: l in r <==> l in leads && l.campaign in CampaignGroup(group).value
  {
    Seqs.FilterAll(leads, GroupPred(group));
    Seqs.Filter(leads, GroupPred(group))
  }

  function BySubCampaign(leads: seq<Lead>, group: string, sub: string): (r: seq<Lead>)
    ensures !SubCampaignApplies(group, sub) ==> r == leads
    ensures SubCampaignApplies(group, sub) ==> forall l :: l in r <==> l in leads && l.campaign == sub
  {
    Seqs.FilterAll(leads, SubCampaignPred(group, sub));
    Seqs.Filter(leads, SubCampaignPred(group, sub))
  }

  function ByStatus(leads: seq<Lead>, status: StatusFilter): (r: seq<Lead>)
    ensures status == AllStatuses ==> r == leads
    ensures status != AllStatuses ==> forall l :: l in r <==> l in leads && l.status == Some(status.Text())
  {
    Seqs.FilterAll(leads, StatusPred(status));
    Seqs.Filter(leads, StatusPred(status))
  }

  function BySearch(leads: seq<Lead>, search: string): (r: seq<Lead>)
    ensures search == "" ==> r == leads
    ensures search != "" ==> forall l :: l in r <==> l in leads && MatchesTerm(l, Lower(search))
  {
    Seqs.FilterAll(leads, SearchPred(search));
    Seqs.Filter(leads, SearchPred(search))
  }

  /** The whole chain, in the page's order. */
  function Chain(leads: seq<Lead>, group: string, sub: string, status: StatusFilter, search: string): seq<Lead>
  {
    BySearch(ByStatus(BySubCampaign(ByGroup(leads, group), group, sub), status), search)
  }

  predicate PassesAll(l: Lead, group: string, sub: string, status: StatusFilter, search: string)
  {
    InGroup(l, group) && InSubCampaign(l, group, sub) && HasStatus(l, status) && MatchesSearch(l, search)
  }

  /** The chain is a single filter by the conjunction of the four stages. */
  lemma ChainIsOneFilter(leads: seq<Lead>, group: string, sub: string, status: StatusFilter, search: string)
    ensures Chain(leads, group, sub, status, search) == Seqs.Filter(leads, AllPred(group, sub, status, search))
  {
    var p1, p2, p3, p4 := GroupPred(group), SubCampaignPred(group, sub), StatusPred(status), SearchPred(search);
    var p12 := Seqs.And(p1, p2);
    var p123 := Seqs.And(p12, p3);
    Seqs.FilterFilter(leads, p1, p2);
    Seqs.FilterFilter(leads, p12, p3);
    Seqs.FilterFilter(leads, p123, p4);
    assert Chain(leads, group, sub, status, search) == Seqs.Filter(Seqs.Filter(Seqs.Filter(Seqs.Filter(leads, p1), p2), p3), p4);
    Seqs.FilterExt(leads, Seqs.And(p123, p4), AllPred(group, sub, status, search));
  }

  /** The chain keeps an order-preserving selection of the rows: exactly the rows
      that pass every stage, each as often as it occurs in `leads`. */
  lemma ChainSelectsPassingRows(leads: seq<Lead>, group: string, sub: string, status: StatusFilter, search: string)
    ensures Seqs.IsSubsequence(Chain(leads, group, sub, status, search), leads)
    ensures forall l :: l in Chain(leads, group, sub, status, search) <==> l in leads && PassesAll(l, group, sub, status, search)
    ensures forall l :: multiset(Chain(leads, group, sub, status, search))[l] ==
                        (if PassesAll(l, group, sub, status, search) then multiset(leads)[l] else 0)
  {
    ChainIsOneFilter(leads, group, sub, status, search);
    Seqs.FilterIsSubsequence(leads, AllPred(group, sub, status, search));
    Seqs.FilterMultiset(leads, AllPred(group, sub, status, search));
  }

  /** A known group keeps exactly its campaigns' rows when nothing else filters. */
  lemma GroupOnlyChain(leads: seq<Lead>, group: string)
    requires CampaignGroup(group).Some? && group != "fairpay"
    ensures forall l :: l in Chain(leads, group, "all", AllStatuses, "") <==> l in leads && l.campaign == group
  {
  }

  /** The status and search stages may be applied in either order. */
  lemma StatusSearchCommute(leads: seq<Lead>, status: StatusFilter, search: string)
    ensures BySearch(ByStatus(leads, status), search) == ByStatus(BySearch(leads, search), status)
  {
    Seqs.FilterCommute(leads, StatusPred(status), SearchPred(search));
  }
}
