# Admin dashboard lead table and campaign statistics, in Dafny

This project models the in-memory core of a lead-management admin dashboard.
The dashboard lists sales "leads" from several campaigns: PCP car-finance claims,
DPF claims and the Fair Pay retail campaigns.

The model covers the main admin page:
- raw backend records are normalised into display rows;
- each completed list fetch is merged into the shared lead list by remove-then-append;
- the group, sub-campaign, status and search filters narrow the list, in that order;
- the filtered list is paginated and can be exported as CSV;
- the page's handlers update its state (filter controls, page number, detail modal);
- each lead gets its set of modal tabs, and the "Campaign Data" tab lists the lead's non-display properties.

It also covers the statistics page:
- the period filter over timestamps;
- the loop that builds the per-campaign `{total, sold, nurture}` table;
- the summary cards (total, sold, nurture, conversion rate);
- the pie-chart and bar-chart rows derived from the table.

Modules, one file each:

| file | module | models |
|---|---|---|
| `wrappers.dfy` | `Wrappers` | `Option`: `undefined`/`null` versus a value |
| `strings.dfy` | `Strings` | ASCII case mapping, `includes`, `join`, `substring`, number-to-text |
| `seqs.dfy` | `Seqs` | `Array.prototype.filter` and its laws (subsequence, concatenation, fusion, counting) |
| `leads.dfy` | `Leads` | the row type, the three fetch mappings and the three merges |
| `filters.dfy` | `LeadFilters` | `CAMPAIGN_GROUPS` and the four-stage filter chain |
| `csv.dfy` | `Csv` | `handleExportCSV`'s text, plus a reader for the format that proves the export loses nothing |
| `pagination.dfy` | `Pagination` | page count, page slice, navigation buttons |
| `modal.dfy` | `Modal` | `getModalTabs` and the "Campaign Specific Data" key exclusion |
| `adminpage.dfy` | `AdminState` | class `AdminPage`: the page's state and its handlers |
| `stats.dfy` | `CampaignStats` | the statistics page |

Three consequences of the code are easy to miss:
- **Fair Pay merge.** The PCP and DPF merges remove the previous rows of their own campaign (`app/admin/page.tsx:509-512`, `523-526`), so repeating one changes nothing. The Fair Pay merge removes rows tagged `"fairpay"` (`app/admin/page.tsx:538`). But the mapping gives Fair Pay rows the campaign `"Fair Pay"` (`app/admin/page.tsx:369`), so a repeated Fair Pay fetch appends its rows again (`Leads.FairPayMergeAppendsAgain`).
- **Fair Pay grouping.** The Fair Pay fixture (`app/api/fair-pay-leads/route.ts:48-69`) lists retailer campaigns such as `"asda"`. The mapping replaces every one of them with `"Fair Pay"`, which is not in `CAMPAIGN_GROUPS.fairpay` (`app/admin/page.tsx:623-631`). So group `fairpay` shows none of these rows. The fixture's records also carry no `campaignUser` and no `lead_status`, so their names become `"Unknown"` and their status is absent.
- **Group switch.** The sidebar links (`app/admin/layout.tsx:31-35`) change only the `group` search parameter, which the page re-reads on every render (`app/admin/page.tsx:493`). The other state persists: search, status, sub-campaign and current page. Only the filter and page-size handlers reset the page (`app/admin/page.tsx:721-734`, `1298-1303`). So after a switch the current page can lie past the last page and show no rows (`AdminState.AdminPage.GroupChanged`, `Pagination.PageBeyondLastIsEmpty`).

## Model

| member | source | states |
|---|---|---|
| Leads.MapRow | app/admin/page.tsx:259-283 | The row keeps the record id and gets the fixed campaign tag and the record's status. `lead_id` is the first 8 characters of the id, upper-cased. `name` defaults to "Unknown", email and phone to "". `createdAt` is the formatted date or "". A formatted value exists iff the date is present and non-empty. `step` is present iff `completed_steps` is non-zero, and is "Step " followed by the number. The ten internal properties follow in declaration order. `token_id`, `lead_status` and `lead_sold_timestamp` are copied from the record. `lead_campaign` is the tag. `lead_sold_timestamp_txt` is the formatted sold date. `lead_created_at` and `lead_updated_at` are the record's creation date. `intellio_id`, `lead_address` and `lead_source` are absent. |
| Leads.StepLabel | app/admin/page.tsx:270 | The label exists iff the step count is present and non-zero. It is "Step " followed by the count's decimal text, with no leading zero (after the sign, for a negative count), which parses back to the count. |
| Leads.FormatDate | app/admin/page.tsx:244-257 | Missing or empty dates give no value; any other date gives `fmt` applied to the date text, `fmt` standing for the opaque `toLocaleString` rendering. |
| Leads.LeadIdIsCaseInsensitivePrefix | app/admin/page.tsx:262 | The lower-cased display id is a prefix of the lower-cased record id. |
| Leads.MapRows | app/admin/page.tsx:242-284 | One row per record, in order, each the record's mapping, all with the same campaign tag. |
| Leads.MapPcpLeads | app/admin/page.tsx:242-284 | One row per PCP record, in order: row i is record i mapped with tag "pcp". |
| Leads.MapDpfLeads | app/admin/page.tsx:295-337 | One row per DPF record, in order: row i is record i mapped with tag "dpf". |
| Leads.MapFairPayLeads | app/admin/page.tsx:348-390 | One row per Fair Pay record, in order: row i is record i mapped with tag "Fair Pay". |
| Leads.Merge | app/admin/page.tsx:509-512 | The fetched rows come last, unchanged. Before them is an order-preserving selection of the previous list: exactly its rows of other campaigns, each as often as it occurred. |
| Leads.MergePcp | app/admin/page.tsx:509-512 | The PCP rows are replaced by the fetched ones; every other previous row is kept. |
| Leads.MergeDpf | app/admin/page.tsx:523-526 | The same for DPF. |
| Leads.MergeFairPay | app/admin/page.tsx:537-540 | The same, removing rows tagged "fairpay": every other previous row, "Fair Pay" rows included, is kept as often as it occurred. |
| Leads.MergeReplacesCampaign | app/admin/page.tsx:509-512 | When all fetched rows carry the tag, the merged list's rows of that campaign are exactly the fetched rows. Its other rows are exactly the previous list's other rows, in order. |
| Leads.MergeIdempotent | app/admin/page.tsx:509-512 | Merging the same fetch of a campaign twice gives the same list as merging it once. |
| Leads.PcpMergeIdempotent | app/admin/page.tsx:509-512 | Repeating a PCP fetch's merge changes nothing. |
| Leads.DpfMergeIdempotent | app/admin/page.tsx:523-526 | Repeating a DPF fetch's merge changes nothing. |
| Leads.FairPayMergeAppendsAgain | app/admin/page.tsx:537-540 | Repeating a Fair Pay fetch's merge appends its rows a second time. No earlier "Fair Pay" row is ever removed. |
| Leads.MergesCommuteUpToOrder | app/admin/page.tsx:504-540 | Two merges, neither of whose fetched rows carries the other's key, leave the same multiset of rows in either order. |
| Leads.FetchMergesCommute | app/admin/page.tsx:504-544 | For each pair of the three fetches, Fair Pay included, the two completion orders leave the same multiset of rows. |
| LeadFilters.CampaignGroup | app/admin/page.tsx:622-641 | A group has campaigns iff it is fairpay, pcp, diesel or dpf. Fair Pay has its seven retailers; each other group has itself. |
| LeadFilters.ByGroup | app/admin/page.tsx:637-641 | With no known group, the stage is the identity. Otherwise it keeps exactly the rows whose campaign is in the group. |
| LeadFilters.BySubCampaign | app/admin/page.tsx:643-647 | The stage applies only for group fairpay with a sub-campaign other than "all". It then keeps exactly the rows of that campaign; otherwise it is the identity. |
| LeadFilters.ByStatus | app/admin/page.tsx:649-653 | "all" is the identity. Otherwise the stage keeps exactly the rows with that status. |
| LeadFilters.BySearch | app/admin/page.tsx:655-665 | An empty search is the identity. Otherwise the stage keeps exactly the rows where the lower-cased term occurs in the lower-cased name, email or lead id, or in the phone as written. |
| LeadFilters.ChainIsOneFilter | app/admin/page.tsx:637-665 | The four stages in a row are one filter by the conjunction of their conditions. |
| LeadFilters.ChainSelectsPassingRows | app/admin/page.tsx:637-665 | For `LeadFilters.Chain`, the four guarded stages that compute `filteredLeads`: the filtered rows are a subsequence of the leads. The chain keeps a row iff it passes every stage, as many times as the row occurs. |
| LeadFilters.GroupOnlyChain | app/admin/page.tsx:637-641 | With only a single-campaign group set, the chain keeps exactly that campaign's rows. |
| LeadFilters.StatusSearchCommute | app/admin/page.tsx:649-665 | The status and search stages can be applied in either order. |
| Csv.QuoteField | app/admin/page.tsx:694 | A field is wrapped in double quotes. |
| Csv.FieldText | app/admin/page.tsx:694 | A missing value becomes the empty text; a present one is kept. |
| Csv.RowValues | app/admin/page.tsx:682-692 | Nine values: lead id, campaign, status, name, email, phone, created, sold, step. |
| Csv.FieldRoundTrip | app/admin/page.tsx:694 | Reading a quoted field back, undoubling inner quotes, gives the original value and the rest of the text. |
| Csv.ReadRecordsRoundTrip | app/admin/page.tsx:679-697 | Records encoded as fields joined by "," and lines joined by "\n" read back as the same values. |
| Csv.HeadersAreBare | app/admin/page.tsx:668-678 | No header name contains a quote, a comma or a line break, so the header line reads back unquoted. |
| Csv.ExportValues | app/admin/page.tsx:679-697 | The export holds 1 + n records: the nine headers, then each filtered row's nine values, in order. |
| Csv.ExportRoundTrip | app/admin/page.tsx:668-697 | `Csv.Export` is the `csvContent` text. Reading it back yields exactly the header record followed by every row's nine values. So the text holds 1 + n records, and every field survives quoting. |
| Pagination.TotalPages | app/admin/page.tsx:716 | The ceiling of rows over page size: enough pages for every row, no empty last page, and 0 iff there are no rows. |
| Pagination.StartIndex | app/admin/page.tsx:717-718 | The first row index of a page is non-negative, and one page size short of the page number times the page size. |
| Pagination.PageRows | app/admin/page.tsx:717-719 | A page holds min(size, max(0, len − start)) rows, and its k-th row is row start + k. |
| Pagination.AllPagesCoverRows | app/admin/page.tsx:716-719 | Pages 1 to the page count, concatenated, are exactly the filtered rows. |
| Pagination.PagesPrefix | app/admin/page.tsx:716-719 | Pages 1 to n, concatenated, are the first min(n·size, len) rows. |
| Pagination.PageBeyondLastIsEmpty | app/admin/page.tsx:716-719 | A page number past the page count shows no rows. |
| Pagination.FullPagesBeforeLast | app/admin/page.tsx:716-719 | Every page before the last holds a full page of rows. |
| Pagination.ClampPage | app/admin/page.tsx:1356-1358 | The clamped target lies in [1, totalPages], and is 1 when there are no pages. A target already in range is kept. |
| Pagination.Navigate | app/admin/page.tsx:1334-1358 | A disabled button leaves the page unchanged. Enabled, "first" gives page 1 and "last" gives max(1, page count); "next" and "previous" give the neighbouring page, clamped to [1, page count]. |
| Pagination.NavigateStaysInRange | app/admin/page.tsx:1334-1358 | From a page in range, every button keeps the page in range. Next and previous move by one page, except at the ends. |
| Modal.GetModalTabs | app/admin/page.tsx:796-813 | The six PCP tabs for a lead iff its campaign is "pcp", the three base tabs iff not. Both lists start with the core tab. |
| Modal.TabsShape | app/admin/page.tsx:796-813 | The core tab is always offered; a non-PCP lead has no tracking or workflow tab. |
| Modal.CampaignData | app/admin/page.tsx:1827-1846 | An entry is listed iff it is a property of the lead whose key is not one of the 14 excluded names. |
| Modal.CampaignDataIsExtras | app/admin/page.tsx:1827-1846 | None of the display properties is listed; the tab shows the lead's other properties, in order, minus the excluded names. |
| Modal.MappedCampaignData | app/admin/page.tsx:1827-1846 | For a mapped row, the tab lists exactly the ten internal properties the mapping adds. |
| AdminState.AdminPage.constructor | app/admin/page.tsx:491-586 | The initial state: no leads, empty search, "all" filters, page 1, 10 rows per page, core tab, no modal. |
| AdminState.AdminPage.PcpFetched | app/admin/page.tsx:504-516 | The list becomes the PCP merge of the mapped rows into the old list; nothing else changes. |
| AdminState.AdminPage.DpfFetched | app/admin/page.tsx:518-530 | The same for DPF. |
| AdminState.AdminPage.FairPayFetched | app/admin/page.tsx:532-544 | The same for Fair Pay. |
| AdminState.AdminPage.FilteredLeads | app/admin/page.tsx:637-665 | The step-by-step reassignments compute the filter chain. The result is a subsequence of the leads, holding exactly the rows that pass every stage. |
| AdminState.AdminPage.PaginatedLeads | app/admin/page.tsx:716-719 | The current page's rows: their count and each row's position in the filtered list. |
| AdminState.AdminPage.ExportCsv | app/admin/page.tsx:667-697 | The export of the filtered rows; reading it back yields the headers and every filtered row's values. |
| AdminState.AdminPage.GroupChanged | app/admin/layout.tsx:31-35 | A group link sets only the group. The current page and all the filters are kept. |
| AdminState.AdminPage.SearchChanged | app/admin/page.tsx:721-724 | The search is set and the page is reset to 1. The frame leaves every other field unchanged. |
| AdminState.AdminPage.StatusFilterChanged | app/admin/page.tsx:726-729 | The status filter is set and the page is reset to 1; nothing else changes. |
| AdminState.AdminPage.SubCampaignFilterChanged | app/admin/page.tsx:731-734 | The sub-campaign filter is set and the page is reset to 1; nothing else changes. |
| AdminState.AdminPage.ItemsPerPageChanged | app/admin/page.tsx:1298-1303 | The page size is set to the chosen option and the page is reset to 1; nothing else changes. |
| AdminState.AdminPage.NavigateClicked | app/admin/page.tsx:1334-1358 | The page becomes the navigation result for the filtered list's page count; nothing else changes. |
| AdminState.AdminPage.ViewDetails | app/admin/page.tsx:593-613 | The lead is selected, the detail and error are cleared and the core tab is active. Loading starts iff the lead is a PCP lead; otherwise the flag is unchanged. The open modal's tab is one of the lead's tabs. |
| AdminState.AdminPage.DetailFetchSucceeded | app/admin/page.tsx:602-611 | The detail is stored and loading ends. |
| AdminState.AdminPage.DetailFetchFailed | app/admin/page.tsx:602-611 | The error message is stored and loading ends. |
| AdminState.AdminPage.CloseModal | app/admin/page.tsx:615-620 | No lead or detail is selected, loading is off and the error is cleared. |
| AdminState.AdminPage.SelectTab | app/admin/page.tsx:1511-1514 | The clicked tab, one of the selected lead's, becomes active. |
| CampaignStats.Cutoff | app/admin/stats/page.tsx:284-290 | "today" is the fixed date, "7days" and "30days" are 7 and 30 days before it, and "all" is the epoch, the only cutoff at 0. |
| CampaignStats.FilterByPeriod | app/admin/stats/page.tsx:283-294 | Exactly the leads created at or after the period's cutoff, in order, each as often as it occurs. |
| CampaignStats.LaterCutoffKeepsSubsequence | app/admin/stats/page.tsx:293 | A later cutoff keeps a subsequence of what an earlier cutoff keeps, and filtering by both is filtering by the later one. |
| CampaignStats.PeriodsNest | app/admin/stats/page.tsx:283-294 | today ⊆ 7 days ⊆ 30 days ⊆ all, each as a subsequence. |
| CampaignStats.AllKeepsEveryLead | app/admin/stats/page.tsx:289-293 | "all" keeps every lead with a non-negative timestamp. |
| CampaignStats.FirstSeen | app/admin/stats/page.tsx:307-310 | The table keys are exactly the campaigns occurring in the leads, without repetition. |
| CampaignStats.FirstSeenInFirstOccurrenceOrder | app/admin/stats/page.tsx:307-310 | Every table key occurs among the leads, and the keys are ordered by the position of each campaign's first lead. |
| CampaignStats.AddLead | app/admin/stats/page.tsx:307-317 | A lead of a new campaign appends it to the keys and starts it at zero counters. The table then gains exactly that key; its total grows by one, with sold or nurture growing by one according to the status. Other keys are unchanged. |
| CampaignStats.BuildCampaignStats | app/admin/stats/page.tsx:301-320 | The loop's keys are the campaigns in first-inserted order, and the table has exactly those keys. Each key holds its leads, its "sold" leads and its leads of any other status. |
| CampaignStats.TotalIsSoldPlusNurture | app/admin/stats/page.tsx:311-316 | Every campaign's total is its sold count plus its nurture count. |
| CampaignStats.KeySumIsCount | app/admin/stats/page.tsx:305-317 | Summed over the keys, each campaign's count of leads with a status test adds up to the count over the whole list. |
| CampaignStats.TableAddsUp | app/admin/stats/page.tsx:305-342 | The totals add up to the number of leads, the sold counts to the sold card. The nurture counts add up to every non-sold lead, which is at least the nurture card. |
| CampaignStats.CardsBounded | app/admin/stats/page.tsx:338-342 | The sold and nurture cards add up to at most the total card. |
| CampaignStats.ConversionRate | app/admin/stats/page.tsx:343-344 | The rate lies in [0, 100]. It is 0 without leads, and otherwise rate × total = sold × 100. |
| CampaignStats.Capitalize | app/admin/stats/page.tsx:324 | The label has the key's length, its first character upper-cased and the rest unchanged. |
| CampaignStats.ColorOf | app/admin/stats/page.tsx:273-281 | The campaign's colour when it has one, else the grey default. |
| CampaignStats.ChartData | app/admin/stats/page.tsx:322-336 | One chart row per key, in key order, with the capitalised key, the key's total and its colour. |
| CampaignStats.ChartCoversLeads | app/admin/stats/page.tsx:322-336 | For the table the loop builds, the chart has one row per campaign and its values add up to the number of leads in the period. |
| Strings.IntToStringRoundTrip | app/admin/page.tsx:270 | The decimal text of an integer parses back to that integer. |
| Strings.IntToString | app/admin/page.tsx:270 | The text starts with "-" iff the integer is negative. Zero is "0"; otherwise the first digit is not 0, so the text is the canonical rendering. |
| Strings.LowerOfUpper | app/admin/page.tsx:262 | Lower-casing an upper-cased text equals lower-casing the text. |
| Seqs.FilterIsSubsequence | app/admin/page.tsx:637-665 | Filtering keeps an order-preserving subsequence. |
| Seqs.FilterFilter | app/admin/page.tsx:637-665 | Two filters in a row are one filter by the conjunction. |
| Seqs.FilterMultiset | app/admin/page.tsx:637-665 | Filtering keeps every copy of a passing element and no copy of a failing one. |

## Left out

- Network and storage: the `fetch` calls, response-shape checks, `fetchPCPLeadDetail` and every API route are not modelled. Each fetch is an opaque input: a list of `RawLead` records, or the detail row or error message handed to the detail handlers. The session code (`apiFetch`, `AuthContext`, `ProtectedRoute`) is not part of this model either.
- Async ordering: each fetch completion is one atomic handler call. The model does not cover interleavings, stale responses overwriting newer ones, or a late detail response arriving after another lead was opened.
- Loading and error flags of the three list fetches are not modelled. These are `pcpLoading`, `dpfLoading`, `fairPayLoading` and the three error strings. (The Fair Pay effect sets `dpfLoading` at its start.)
- `formatDate`: its `Date` parsing and locale rendering are foreign library behaviour. It is a parameter `fmt`, applied only to present, non-empty dates.
- `completed_steps` is a whole number or absent. Non-integer, `NaN` and string values are not modelled.
- `Leads.StepLabel` writes every digit of the count exactly. JavaScript writes a count of 10^21 or more in exponent form ("Step 1e+21"), and a JavaScript number cannot hold every integer above 2^53. Neither is modelled.
- `lead.id` is a string. A record without an id, which makes `substring` throw, is not modelled.
- `CAMPAIGN_GROUPS[group]` for a name inherited from `Object.prototype` (e.g. "constructor") is not modelled. The model treats such names as unknown groups, as it does for `campaignColors` lookups.
- `CampaignStats.BuildCampaignStats` gives a campaign named after an `Object.prototype` member (e.g. "toString") its own counters. In the source, `!stats[lead.campaign]` is false for such a name, so its entry is never initialised, and `Object.entries` leaves it out of the cards and chart.
- `Object.entries` lists integer-like keys first, in ascending order. This ordering is not modelled: `CampaignStats.BuildCampaignStats` returns keys in insertion order.
- Statistics timestamps are abstract integers (milliseconds). Unparseable dates (`Invalid Date` comparisons) are not modelled. "today" is taken as midnight UTC of the fixed date, so the host time zone is ignored.
- `CampaignStats.ConversionRate` is an exact rational. The `toFixed(1)` text and the chart percentage strings are not modelled.
- Rendering is not modelled: JSX, styles, badges, chart geometry, the theme toggle and the CSV Blob download with its file name.
- The detail record's contents (claims, credit check, meta) are not modelled. `selectedDetail` is an opaque row.
- `AdminState.AdminPage.SelectTab` requires the tab to be one of the open modal's tabs. It is only called from those tabs' buttons.
- `AdminState.AdminPage.ItemsPerPageChanged` requires one of the four offered page sizes. The select offers only those.
