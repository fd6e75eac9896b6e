/** The detail modal: which tabs a lead gets, and which of its properties the
    generic "Campaign Data" tab lists. */
module Modal {
  import opened Wrappers
  import opened Leads
  import Seqs

  datatype Tab = CoreTab | MarketingTab | TrackingTab | CampaignTab | SignatureTab | WorkflowTab

  datatype TabInfo = TabInfo(id: Tab, caption: string)

  const BASE_TABS: seq<TabInfo> := [
    TabInfo(CoreTab, "Core Information"),
    TabInfo(MarketingTab, "Marketing"),
    TabInfo(CampaignTab, "Campaign Data")]

  const PCP_TABS: seq<TabInfo> := [
    TabInfo(CoreTab, "Core Information"),
    TabInfo(MarketingTab, "Marketing"),
    TabInfo(TrackingTab, "UTM Tracking"),
    TabInfo(CampaignTab, "Claim Data"),
    TabInfo(SignatureTab, "Signature"),
    TabInfo(WorkflowTab, "Workflow")]

  function TabIds(tabs: seq<TabInfo>): (r: seq<Tab>)
    ensures |r| == |tabs| && forall i :: 0 <= i < |tabs| ==> r[i] == tabs[i].id
  {
    seq(|tabs|, i requires 0 <= i < |tabs| => tabs[i].id)
  }

  /** `getModalTabs`: the six PCP tabs for a PCP lead, the three base tabs otherwise. */
  function GetModalTabs(lead: Lead): (r: seq<TabInfo>)
    ensures r == PCP_TABS <==> lead.campaign == PCP_TAG
    ensures r == BASE_TABS <==> lead.campaign != PCP_TAG
    ensures |r| == (if lead.campaign == PCP_TAG then 6 else 3)
    ensures r[0] == TabInfo(CoreTab, "Core Information")
  {
    if lead.campaign == PCP_TAG then PCP_TABS else BASE_TABS
  }

  /** Every lead's tabs contain the core tab, which opening the modal selects;
      a non-PCP lead has no tracking or workflow tab. */
  lemma TabsShape(lead: Lead)
    ensures CoreTab in TabIds(GetModalTabs(lead))
    ensures lead.campaign != PCP_TAG ==> TrackingTab !in TabIds(GetModalTabs(lead)) && WorkflowTab !in TabIds(GetModalTabs(lead))
  {
    assert TabIds(GetModalTabs(lead))[0] == CoreTab;
    assert TabIds(BASE_TABS) == [CoreTab, MarketingTab, CampaignTab];
  }

  /** The properties the "Campaign Specific Data" group leaves out. */
  const HIDDEN_KEYS: set<string> := {
    "id", "lead_id", "name", "campaign", "status", "createdAt", "soldAt",
    "email", "phone", "dob", "address", "marketing", "privacyPolicy", "step"}

  /** The display properties of a row, in declaration order. */
  function DisplayEntries(lead: Lead): (r: seq<Field>)
    ensures |r| == 10
  {
    [Field("id", Some(lead.id)), Field("lead_id", Some(lead.leadId)),
     Field("campaign", Some(lead.campaign)), Field("status", lead.status),
     Field("name", Some(lead.name)), Field("email", Some(lead.email)),
     Field("phone", Some(lead.phone)), Field("createdAt", Some(lead.createdAt)),
     Field("soldAt", lead.soldAt), Field("step", lead.step)]
  }

  /** `Object.entries(lead)`: the display properties, then the extra ones. */
  function Entries(lead: Lead): (r: seq<Field>)
    ensures |r| == 10 + |lead.extra| && r[10..] == lead.extra
  {
    DisplayEntries(lead) + lead.extra
  }

  lemma DisplayEntriesHidden(lead: Lead)
    ensures forall f :: f in DisplayEntries(lead) ==> !Shown(f)
  {
    var d := DisplayEntries(lead);
    assert d[0].key in HIDDEN_KEYS && d[1].key in HIDDEN_KEYS && d[2].key in HIDDEN_KEYS;
    assert d[3].key in HIDDEN_KEYS && d[4].key in HIDDEN_KEYS && d[5].key in HIDDEN_KEYS;
    assert d[6].key in HIDDEN_KEYS && d[7].key in HIDDEN_KEYS && d[8].key in HIDDEN_KEYS;
    assert d[9].key in HIDDEN_KEYS;
  }

  lemma ExtraKeysShown()
    ensures forall i :: 0 <= i < |EXTRA_KEYS| ==> EXTRA_KEYS[i] !in HIDDEN_KEYS
  {
  }

  predicate Shown(f: Field) { f.key !in HIDDEN_KEYS }

  /** The entries the "Campaign Data" tab shows for a non-PCP lead. */
  function CampaignData(lead: Lead): (r: seq<Field>)
    ensures forall f :: f in r <==> f in Entries(lead) && f.key !in HIDDEN_KEYS
  {
    Seqs.Filter(Entries(lead), Shown)
  }

  /** None of the display properties reaches the tab: it lists the lead's extra
      properties, in order, minus the hidden names. */
  lemma CampaignDataIsExtras(lead: Lead)
    ensures CampaignData(lead) == Seqs.Filter(lead.extra, Shown)
  {
    DisplayEntriesHidden(lead);
    Seqs.FilterConcat(DisplayEntries(lead), lead.extra, Shown);
    Seqs.FilterNone(DisplayEntries(lead), Shown);
  }

  /** For a row built from a backend record, the tab lists exactly the ten
      internal fields the mapping adds. */
  lemma MappedCampaignData(raw: RawLead, tag: string, fmt: string -> string)
    ensures var r := MapRow(raw, tag, fmt);
      CampaignData(r) == r.extra && |CampaignData(r)| == |EXTRA_KEYS|
  {
    var r := MapRow(raw, tag, fmt);
    CampaignDataIsExtras(r);
    ExtraKeysShown();
    assert forall f :: f in r.extra ==> Shown(f);
    Seqs.FilterAll(r.extra, Shown);
  }
}
