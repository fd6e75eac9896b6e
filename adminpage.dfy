/** The admin page's state: the shared lead list, the filter and pagination
    controls and the detail modal, with the handlers that update them. */
module AdminState {
  import opened Wrappers
  import opened Leads
  import opened LeadFilters
  import opened Pagination
  import opened Modal
  import Seqs
  import Csv

  class AdminPage {
    var leads: seq<Lead>
    /** The `group` search parameter ("" when absent), re-read on every render. */
    var group: string
    var search: string
    var statusFilter: StatusFilter
    var subCampaignFilter: string
    var currentPage: int
    var itemsPerPage: int
    var activeTab: Tab
    var selectedLead: Option<Lead>
    var selectedDetail: Option<Lead>
    var detailLoading: bool
    var detailError: Option<string>

    /** The page number is at least 1, the page size is one of the offered choices
        and an open modal shows one of the selected lead's tabs. */
    ghost predicate Valid()
      reads this
    {
      currentPage >= 1 && itemsPerPage in PAGE_SIZES
      && (selectedLead.Some? ==> activeTab in TabIds(GetModalTabs(selectedLead.value)))
    }

    /** The rows the table shows, as the filter chain computes them. */
    function Filtered(): seq<Lead>
      reads this
    {
      Chain(leads, group, subCampaignFilter, statusFilter, search)
    }

    constructor (group: string)
      ensures Valid()
      ensures this.group == group && leads == [] && search == ""
      ensures statusFilter == AllStatuses && subCampaignFilter == "all"
      ensures currentPage == 1 && itemsPerPage == 10 && activeTab == CoreTab
      ensures selectedLead == None && selectedDetail == None && !detailLoading && detailError == None
    {
      this.group := group;
      leads := [];
      search := "";
      statusFilter := AllStatuses;
      subCampaignFilter := "all";
      currentPage := 1;
      itemsPerPage := 10;
      activeTab := CoreTab;
      selectedLead := None;
      selectedDetail := None;
      detailLoading := false;
      detailError := None;
    }

    /** The PCP fetch resolved: its rows replace every PCP row. */
    method PcpFetched(raws: seq<RawLead>, fmt: string -> string)
      requires Valid()
      modifies this`leads
      ensures Valid()
      ensures leads == MergePcp(old(leads), MapPcpLeads(raws, fmt))
    {
      leads := MergePcp(leads, MapPcpLeads(raws, fmt));
    }

    /** The DPF fetch resolved: its rows replace every DPF row. */
    method DpfFetched(raws: seq<RawLead>, fmt: string -> string)
      requires Valid()
      modifies this`leads
      ensures Valid()
      ensures leads == MergeDpf(old(leads), MapDpfLeads(raws, fmt))
    {
      leads := MergeDpf(leads, MapDpfLeads(raws, fmt));
    }

    /** The Fair Pay fetch resolved: its rows are appended after the rows not
        tagged "fairpay", which are all of the earlier Fair Pay rows. */
    method FairPayFetched(raws: seq<RawLead>, fmt: string -> string)
      requires Valid()
      modifies this`leads
      ensures Valid()
      ensures leads == MergeFairPay(old(leads), MapFairPayLeads(raws, fmt))
    {
      leads := MergeFairPay(leads, MapFairPayLeads(raws, fmt));
    }

    /** A sidebar link to another group (`/admin?group=...`): only the search
        parameter changes; every other piece of state, the current page
        included, persists. */
    method GroupChanged(g: string)
      requires Valid()
      modifies this`group
      ensures Valid()
      ensures group == g
    {
      group := g;
    }

    /** `let filteredLeads = leads` followed by the four guarded reassignments. */
    method FilteredLeads() returns (filtered: seq<Lead>)
      ensures filtered == Filtered()
      ensures Seqs.IsSubsequence(filtered, leads)
      ensures forall l :: l in filtered <==> l in leads && PassesAll(l, group, subCampaignFilter, statusFilter, search)
    {
      filtered := leads;
      if CampaignGroup(group).Some? {
        filtered := Seqs.Filter(filtered, GroupPred(group));
      }
      assert filtered == ByGroup(leads, group);
      if SubCampaignApplies(group, subCampaignFilter) {
        filtered := Seqs.Filter(filtered, SubCampaignPred(group, subCampaignFilter));
      }
      assert filtered == BySubCampaign(ByGroup(leads, group), group, subCampaignFilter);
      if statusFilter != AllStatuses {
        filtered := Seqs.Filter(filtered, StatusPred(statusFilter));
      }
      if search != "" {
        filtered := Seqs.Filter(filtered, SearchPred(search));
      }
      ChainSelectsPassingRows(leads, group, subCampaignFilter, statusFilter, search);
    }

    /** The rows of the current page. */
    method PaginatedLeads() returns (rows: seq<Lead>)
      requires Valid()
      ensures var f := Filtered(); var start := StartIndex(currentPage, itemsPerPage);
        |rows| == Min(itemsPerPage, Max(0, |f| - start))
        && forall k :: 0 <= k < |rows| ==> rows[k] == f[start + k]
    {
      var filtered := FilteredLeads();
      rows := PageRows(filtered, currentPage, itemsPerPage);
    }

    /** The text `handleExportCSV` downloads; reading it back yields the header
        row and the nine values of every shown row. */
    method ExportCsv() returns (csv: string)
      ensures csv == Csv.Export(Filtered())
      ensures Csv.ReadRecords(csv) == Some(Csv.ExportValues(Filtered()))
    {
      var filtered := FilteredLeads();
      csv := Csv.Export(filtered);
      Csv.ExportRoundTrip(filtered);
    }

    method SearchChanged(value: string)
      requires Valid()
      modifies this`search, this`currentPage
      ensures Valid()
      ensures search == value && currentPage == 1
    {
      search := value;
      currentPage := 1;
    }

    method StatusFilterChanged(status: StatusFilter)
      requires Valid()
      modifies this`statusFilter, this`currentPage
      ensures Valid()
      ensures statusFilter == status && currentPage == 1
    {
      statusFilter := status;
      currentPage := 1;
    }

    method SubCampaignFilterChanged(campaign: string)
      requires Valid()
      modifies this`subCampaignFilter, this`currentPage
      ensures Valid()
      ensures subCampaignFilter == campaign && currentPage == 1
    {
      subCampaignFilter := campaign;
      currentPage := 1;
    }

    /** The "Rows per page" select offers only the page sizes. */
    method ItemsPerPageChanged(n: int)
      requires Valid() && n in PAGE_SIZES
      modifies this`itemsPerPage, this`currentPage
      ensures Valid()
      ensures itemsPerPage == n && currentPage == 1
    {
      itemsPerPage := n;
      currentPage := 1;
    }

    /** A click on one of the four navigation buttons. */
    method NavigateClicked(b: NavButton)
      requires Valid()
      modifies this`currentPage
      ensures Valid()
      ensures currentPage == Navigate(b, old(currentPage), TotalPages(|Filtered()|, itemsPerPage))
    {
      var filtered := FilteredLeads();
      var totalPages := TotalPages(|filtered|, itemsPerPage);
      if !NavDisabled(b, currentPage, totalPages) {
        currentPage := ClampPage(NavTarget(b, currentPage, totalPages), totalPages);
      }
    }

    /** `handleViewDetails`: opens the modal on the core tab; a PCP lead starts
        loading its full record. */
    method ViewDetails(lead: Lead)
      requires Valid()
      modifies this`selectedLead, this`selectedDetail, this`detailError, this`activeTab, this`detailLoading
      ensures Valid()
      ensures selectedLead == Some(lead) && selectedDetail == None && detailError == None
      ensures activeTab == CoreTab
      ensures detailLoading == (lead.campaign == PCP_TAG || old(detailLoading))
    {
      selectedLead := Some(lead);
      selectedDetail := None;
      detailError := None;
      activeTab := CoreTab;
      if lead.campaign == PCP_TAG {
        detailLoading := true;
      }
      TabsShape(lead);
    }

    /** The detail fetch resolved (`then` and `finally`). */
    method DetailFetchSucceeded(detail: Lead)
      requires Valid()
      modifies this`selectedDetail, this`detailLoading
      ensures Valid()
      ensures selectedDetail == Some(detail) && !detailLoading
    {
      selectedDetail := Some(detail);
      detailLoading := false;
    }

    /** The detail fetch failed (`catch` and `finally`). */
    method DetailFetchFailed(message: string)
      requires Valid()
      modifies this`detailError, this`detailLoading
      ensures Valid()
      ensures detailError == Some(message) && !detailLoading
    {
      detailError := Some(message);
      detailLoading := false;
    }

    /** `handleCloseModal`. */
    method CloseModal()
      requires Valid()
      modifies this`selectedLead, this`selectedDetail, this`detailLoading, this`detailError
      ensures Valid()
      ensures selectedLead == None && selectedDetail == None && !detailLoading && detailError == None
    {
      selectedLead := None;
      selectedDetail := None;
      detailLoading := false;
      detailError := None;
    }

    /** A click on one of the open modal's tab buttons. */
    method SelectTab(t: Tab)
      requires Valid() && selectedLead.Some? && t in TabIds(GetModalTabs(selectedLead.value))
      modifies this`activeTab
      ensures Valid()
      ensures activeTab == t
    {
      activeTab := t;
    }
  }
}
