/** The lead row kept in the admin page's `leads` state, the raw backend
    record it is normalised from, and the remove-then-append merge that each
    completed list fetch applies to the shared list. */
module Leads {
  import opened Wrappers
  import opened Strings
  import Seqs

  const PCP_TAG := "pcp"
  const DPF_TAG := "dpf"
  const FAIR_PAY_TAG := "Fair Pay"
  /** The tag the Fair Pay merge removes by; no mapped row carries it. */
  const FAIR_PAY_MERGE_KEY := "fairpay"

  /** One extra property of a row beyond the display fields; `None` is `null`/`undefined`. */
  datatype Field = Field(key: string, value: Option<string>)

  /** A display row. `extra` holds the remaining properties in insertion order. */
  datatype Lead = Lead(
    id: string,
    leadId: string,
    campaign: string,
    status: Option<string>,
    name: string,
    email: string,
    phone: string,
    createdAt: string,
    soldAt: Option<string>,
    step: Option<string>,
    extra: seq<Field>)

  datatype CampaignUser = CampaignUser(name: Option<string>, email: Option<string>, phoneNumber: Option<string>)

  /** The fields of a backend record that the mapping reads. */
  datatype RawLead = RawLead(
    id: string,
    leadStatus: Option<string>,
    campaignUser: Option<CampaignUser>,
    createdAt: Option<string>,
    soldTimestamp: Option<string>,
    completedSteps: Option<int>,
    tokenId: Option<string>)

  /** The local `formatDate`: nothing for a missing or empty date, otherwise the
      (opaque) display rendering `fmt`. */
  function FormatDate(d: Option<string>, fmt: string -> string): (r: Option<string>)
    ensures r.Some? <==> d.Some? && d.value != ""
    ensures r.Some? ==> d.Some? && r.value == fmt(d.value)
  {
    if d.Some? && d.value != "" then Some(fmt(d.value)) else None
  }

  /** `lead.campaignUser?.<field> ?? default`. */
  function UserField(u: Option<CampaignUser>, pick: CampaignUser -> Option<string>, default: string): (r: string)
    ensures u.None? ==> r == default
    ensures u.Some? && pick(u.value).Some? ==> r == pick(u.value).value
    ensures u.Some? && pick(u.value).None? ==> r == default
  {
    if u.Some? then pick(u.value).GetOr(default) else default
  }

  /** `completed_steps ? \`Step ${completed_steps}\` : undefined`; 0 is falsy. */
  function StepLabel(steps: Option<int>): (r: Option<string>)
    ensures r.Some? <==> steps.Some? && steps.value != 0
    ensures r.Some? ==> |r.value| > 5 && r.value[..5] == "Step " && ParseInt(r.value[5..]) == steps
    ensures r.Some? ==> if steps.value > 0 then r.value[5] != '0'
      else |r.value| > 6 && r.value[5] == '-' && r.value[6] != '0'
  {
    if steps.Some? && steps.value != 0 then
      var text := "Step " + IntToString(steps.value);
      assert text[5..] == IntToString(steps.value);
      IntToStringRoundTrip(steps.value);
      Some(text)
    else None
  }

  /** The property names the mapping adds after the display fields, in order. */
  const EXTRA_KEYS: seq<string> := [
    "intellio_id", "token_id", "lead_address", "lead_campaign", "lead_status",
    "lead_sold_timestamp", "lead_sold_timestamp_txt", "lead_source",
    "lead_created_at", "lead_updated_at"]

  /** Normalises one backend record into a row of campaign `tag`. */
  function MapRow(raw: RawLead, tag: string, fmt: string -> string): (r: Lead)
    ensures r.id == raw.id && r.campaign == tag && r.status == raw.leadStatus
    ensures |r.leadId| == (if |raw.id| < 8 then |raw.id| else 8)
    ensures forall i :: 0 <= i < |r.leadId| ==> r.leadId[i] == UpperChar(raw.id[i])
    ensures r.name == UserField(raw.campaignUser, (u: CampaignUser) => u.name, "Unknown")
    ensures r.email == UserField(raw.campaignUser, (u: CampaignUser) => u.email, "")
    ensures r.phone == UserField(raw.campaignUser, (u: CampaignUser) => u.phoneNumber, "")
    ensures r.createdAt == FormatDate(raw.createdAt, fmt).GetOr("")
    ensures r.soldAt == FormatDate(raw.soldTimestamp, fmt)
    ensures r.step == StepLabel(raw.completedSteps)
    ensures |r.extra| == |EXTRA_KEYS| && forall i :: 0 <= i < |r.extra| ==> r.extra[i].key == EXTRA_KEYS[i]
    ensures r.extra[0].value == None && r.extra[1].value == raw.tokenId && r.extra[2].value == None
    ensures r.extra[3].value == Some(tag) && r.extra[4].value == raw.leadStatus
    ensures r.extra[5].value == raw.soldTimestamp && r.extra[6].value == FormatDate(raw.soldTimestamp, fmt)
    ensures r.extra[7].value == None && r.extra[8].value == raw.createdAt && r.extra[9].value == raw.createdAt
  {
    Lead(
      id := raw.id,
      leadId := Upper(Take(raw.id, 8)),
      campaign := tag,
      status := raw.leadStatus,
      name := UserField(raw.campaignUser, (u: CampaignUser) => u.name, "Unknown"),
      email := UserField(raw.campaignUser, (u: CampaignUser) => u.email, ""),
      phone := UserField(raw.campaignUser, (u: CampaignUser) => u.phoneNumber, ""),
      createdAt := FormatDate(raw.createdAt, fmt).GetOr(""),
      soldAt := FormatDate(raw.soldTimestamp, fmt),
      step := StepLabel(raw.completedSteps),
      extra := [
        Field("intellio_id", None),
        Field("token_id", raw.tokenId),
        Field("lead_address", None),
        Field("lead_campaign", Some(tag)),
        Field("lead_status", raw.leadStatus),
        Field("lead_sold_timestamp", raw.soldTimestamp),
        Field("lead_sold_timestamp_txt", FormatDate(raw.soldTimestamp, fmt)),
        Field("lead_source", None),
        Field("lead_created_at", raw.createdAt),
        Field("lead_updated_at", raw.createdAt)])
  }

  /** The display id, lower-cased, is a prefix of the lower-cased record id:
      a search term found in `lead_id` is found in the record id, whatever its case. */
  lemma LeadIdIsCaseInsensitivePrefix(raw: RawLead, tag: string, fmt: string -> string)
    ensures Lower(MapRow(raw, tag, fmt).leadId) <= Lower(raw.id)
  {
    var r := MapRow(raw, tag, fmt);
    LowerOfUpper(Take(raw.id, 8));
  }

  /** `rawLeads.map(...)`: one row per record, in order, all of campaign `tag`. */
  function MapRows(raws: seq<RawLead>, tag: string, fmt: string -> string): (r: seq<Lead>)
    ensures |r| == |raws|
    ensures forall i :: 0 <= i < |r| ==> r[i] == MapRow(raws[i], tag, fmt)
    ensures forall l :: l in r ==> l.campaign == tag
  {
    seq(|raws|, i requires 0 <= i < |raws| => MapRow(raws[i], tag, fmt))
  }

  function MapPcpLeads(raws: seq<RawLead>, fmt: string -> string): (r: seq<Lead>)
    ensures |r| == |raws| && forall l :: l in r ==> l.campaign == PCP_TAG
    ensures forall i :: 0 <= i < |raws| ==> r[i] == MapRow(raws[i], PCP_TAG, fmt)
  {
    MapRows(raws, PCP_TAG, fmt)
  }

  function MapDpfLeads(raws: seq<RawLead>, fmt: string -> string): (r: seq<Lead>)
    ensures |r| == |raws| && forall l :: l in r ==> l.campaign == DPF_TAG
    ensures forall i :: 0 <= i < |raws| ==> r[i] == MapRow(raws[i], DPF_TAG, fmt)
  {
    MapRows(raws, DPF_TAG, fmt)
  }

  function MapFairPayLeads(raws: seq<RawLead>, fmt: string -> string): (r: seq<Lead>)
    ensures |r| == |raws| && forall l :: l in r ==> l.campaign == FAIR_PAY_TAG
    ensures forall i :: 0 <= i < |raws| ==> r[i] == MapRow(raws[i], FAIR_PAY_TAG, fmt)
  {
    MapRows(raws, FAIR_PAY_TAG, fmt)
  }

  predicate NotOf(l: Lead, tag: string) { l.campaign != tag }

  /** `[...prev.filter(l => l.campaign !== tag), ...fetched]`. */
  function Merge(prev: seq<Lead>, tag: string, fetched: seq<Lead>): (r: seq<Lead>)
    ensures |r| >= |fetched| && r[|r| - |fetched|..] == fetched
    ensures Seqs.IsSubsequence(r[..|r| - |fetched|], prev)
    ensures forall l :: l in r[..|r| - |fetched|] <==> l in prev && l.campaign != tag
    ensures forall x :: multiset(r[..|r| - |fetched|])[x] == if x.campaign != tag then multiset(prev)[x] else 0
  {
    var kept := Seqs.Filter(prev, l => NotOf(l, tag));
    Seqs.FilterIsSubsequence(prev, l => NotOf(l, tag));
    Seqs.FilterMultiset(prev, l => NotOf(l, tag));
    assert (kept + fetched)[..|kept|] == kept;
    kept + fetched
  }

  function MergePcp(prev: seq<Lead>, fetched: seq<Lead>): (r: seq<Lead>)
    ensures |r| >= |fetched| && r[|r| - |fetched|..] == fetched
    ensures Seqs.IsSubsequence(r[..|r| - |fetched|], prev)
    ensures forall l :: l in r[..|r| - |fetched|] <==> l in prev && l.campaign != PCP_TAG
    ensures forall x :: multiset(r[..|r| - |fetched|])[x] == if x.campaign != PCP_TAG then multiset(prev)[x] else 0
  {
    Merge(prev, PCP_TAG, fetched)
  }

  function MergeDpf(prev: seq<Lead>, fetched: seq<Lead>): (r: seq<Lead>)
    ensures |r| >= |fetched| && r[|r| - |fetched|..] == fetched
    ensures Seqs.IsSubsequence(r[..|r| - |fetched|], prev)
    ensures forall l :: l in r[..|r| - |fetched|] <==> l in prev && l.campaign != DPF_TAG
    ensures forall x :: multiset(r[..|r| - |fetched|])[x] == if x.campaign != DPF_TAG then multiset(prev)[x] else 0
  {
    Merge(prev, DPF_TAG, fetched)
  }

  /** As written: removes by "fairpay" although the mapped rows carry "Fair Pay". */
  function MergeFairPay(prev: seq<Lead>, fetched: seq<Lead>): (r: seq<Lead>)
    ensures |r| >= |fetched| && r[|r| - |fetched|..] == fetched
    ensures Seqs.IsSubsequence(r[..|r| - |fetched|], prev)
    ensures forall l :: l in r[..|r| - |fetched|] <==> l in prev && l.campaign != FAIR_PAY_MERGE_KEY
    ensures forall x :: multiset(r[..|r| - |fetched|])[x] == if x.campaign != FAIR_PAY_MERGE_KEY then multiset(prev)[x] else 0
  {
    Merge(prev, FAIR_PAY_MERGE_KEY, fetched)
  }

  /** After a merge, the rows of that campaign are exactly the fetched ones, in order. */
  lemma MergeReplacesCampaign(prev: seq<Lead>, tag: string, fetched: seq<Lead>)
    requires forall l :: l in fetched ==> l.campaign == tag
    ensures Seqs.Filter(Merge(prev, tag, fetched), (l: Lead) => l.campaign == tag) == fetched
    ensures Seqs.Filter(Merge(prev, tag, fetched), l => NotOf(l, tag)) == Seqs.Filter(prev, l => NotOf(l, tag))
  {
    var kept := Seqs.Filter(prev, l => NotOf(l, tag));
    Seqs.FilterConcat(kept, fetched, (l: Lead) => l.campaign == tag);
    Seqs.FilterNone(kept, (l: Lead) => l.campaign == tag);
    Seqs.FilterAll(fetched, (l: Lead) => l.campaign == tag);
    Seqs.FilterConcat(kept, fetched, l => NotOf(l, tag));
    Seqs.FilterAll(kept, l => NotOf(l, tag));
    Seqs.FilterNone(fetched, l => NotOf(l, tag));
  }

  /** Merging the same fetched rows a second time changes nothing. */
  lemma MergeIdempotent(prev: seq<Lead>, tag: string, fetched: seq<Lead>)
    requires forall l :: l in fetched ==> l.campaign == tag
    ensures Merge(Merge(prev, tag, fetched), tag, fetched) == Merge(prev, tag, fetched)
  {
    MergeReplacesCampaign(prev, tag, fetched);
  }

  lemma PcpMergeIdempotent(prev: seq<Lead>, raws: seq<RawLead>, fmt: string -> string)
    ensures var rows := MapPcpLeads(raws, fmt);
      MergePcp(MergePcp(prev, rows), rows) == MergePcp(prev, rows)
  {
    MergeIdempotent(prev, PCP_TAG, MapPcpLeads(raws, fmt));
  }

  lemma DpfMergeIdempotent(prev: seq<Lead>, raws: seq<RawLead>, fmt: string -> string)
    ensures var rows := MapDpfLeads(raws, fmt);
      MergeDpf(MergeDpf(prev, rows), rows) == MergeDpf(prev, rows)
  {
    MergeIdempotent(prev, DPF_TAG, MapDpfLeads(raws, fmt));
  }

  /** The Fair Pay merge never removes an earlier Fair Pay row: merging the same
      fetch twice appends its rows a second time. */
  lemma FairPayMergeAppendsAgain(prev: seq<Lead>, raws: seq<RawLead>, fmt: string -> string)
    ensures var rows := MapFairPayLeads(raws, fmt);
      MergeFairPay(MergeFairPay(prev, rows), rows) == MergeFairPay(prev, rows) + rows
    ensures forall l :: l in prev && l.campaign == FAIR_PAY_TAG ==> l in MergeFairPay(prev, MapFairPayLeads(raws, fmt))
  {
    var rows := MapFairPayLeads(raws, fmt);
    var once := MergeFairPay(prev, rows);
    var kept := Seqs.Filter(prev, l => NotOf(l, FAIR_PAY_MERGE_KEY));
    Seqs.FilterConcat(kept, rows, l => NotOf(l, FAIR_PAY_MERGE_KEY));
    Seqs.FilterAll(kept, l => NotOf(l, FAIR_PAY_MERGE_KEY));
    Seqs.FilterAll(rows, l => NotOf(l, FAIR_PAY_MERGE_KEY));
    forall l | l in prev && l.campaign == FAIR_PAY_TAG
      ensures l in once
    {
      assert l in kept;
      assert once == kept + rows;
    }
  }

  /** A second merge keeps the first merge's fetched rows when none of them
      carries the second merge's key. */
  lemma MergeThenMerge(prev: seq<Lead>, t1: string, a: seq<Lead>, t2: string, b: seq<Lead>)
    requires forall l :: l in a ==> l.campaign != t2
    ensures Merge(Merge(prev, t1, a), t2, b)
      == Seqs.Filter(Seqs.Filter(prev, l => NotOf(l, t1)), l => NotOf(l, t2)) + a + b
  {
    var p2 := l => NotOf(l, t2);
    Seqs.FilterConcat(Seqs.Filter(prev, l => NotOf(l, t1)), a, p2);
    Seqs.FilterAll(a, p2);
  }

  /** Two merges, neither of whose fetched rows carries the other's key, leave
      the same rows, each as often, in either order. */
  lemma MergesCommuteUpToOrder(prev: seq<Lead>, t1: string, a: seq<Lead>, t2: string, b: seq<Lead>)
    requires forall l :: l in a ==> l.campaign != t2
    requires forall l :: l in b ==> l.campaign != t1
    ensures multiset(Merge(Merge(prev, t1, a), t2, b)) == multiset(Merge(Merge(prev, t2, b), t1, a))
  {
    MergeThenMerge(prev, t1, a, t2, b);
    MergeThenMerge(prev, t2, b, t1, a);
    Seqs.FilterCommute(prev, l => NotOf(l, t1), l => NotOf(l, t2));
  }

  /** The three fetches of the page resolve in any order: every pair of their
      merges, Fair Pay included, leaves the same multiset of rows either way. */
  lemma FetchMergesCommute(prev: seq<Lead>, pcp: seq<RawLead>, dpf: seq<RawLead>, fairPay: seq<RawLead>, fmt: string -> string)
    ensures var p := MapPcpLeads(pcp, fmt); var d := MapDpfLeads(dpf, fmt);
      multiset(MergeDpf(MergePcp(prev, p), d)) == multiset(MergePcp(MergeDpf(prev, d), p))
    ensures var p := MapPcpLeads(pcp, fmt); var f := MapFairPayLeads(fairPay, fmt);
      multiset(MergeFairPay(MergePcp(prev, p), f)) == multiset(MergePcp(MergeFairPay(prev, f), p))
    ensures var d := MapDpfLeads(dpf, fmt); var f := MapFairPayLeads(fairPay, fmt);
      multiset(MergeFairPay(MergeDpf(prev, d), f)) == multiset(MergeDpf(MergeFairPay(prev, f), d))
  {
    var p := MapPcpLeads(pcp, fmt);
    var d := MapDpfLeads(dpf, fmt);
    var f := MapFairPayLeads(fairPay, fmt);
    MergesCommuteUpToOrder(prev, PCP_TAG, p, DPF_TAG, d);
    MergesCommuteUpToOrder(prev, PCP_TAG, p, FAIR_PAY_MERGE_KEY, f);
    MergesCommuteUpToOrder(prev, DPF_TAG, d, FAIR_PAY_MERGE_KEY, f);
  }
}
