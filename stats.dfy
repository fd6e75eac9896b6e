/** The statistics page: the period filter over the lead list, the
    per-campaign {total, sold, nurture} table, the summary cards and the
    chart rows derived from the table. Timestamps are milliseconds since
    the epoch. */
module CampaignStats {
  import opened Strings
  import Seqs

  datatype StatsLead = StatsLead(id: string, campaign: string, status: string, createdAt: int)

  /** The period buttons: "today", "7days", "30days" and "all". */
  datatype Period = Today | Days7 | Days30 | All

  const DAY_MS: int := 24 * 60 * 60 * 1000
  /** `new Date("2024-02-03")`, midnight UTC. */
  const NOW: int := 1706918400000

  /** The earliest timestamp a period keeps; "today" is midnight of `NOW`'s day. */
  function Cutoff(p: Period): (r: int)
    ensures 0 <= r <= NOW
    ensures r == 0 <==> p == All
    ensures p == Today ==> r == NOW
    ensures p == Days7 ==> r == NOW - 7 * DAY_MS
    ensures p == Days30 ==> r == NOW - 30 * DAY_MS
  {
    match p
    case Today => NOW
    case Days7 => NOW - 7 * DAY_MS
    case Days30 => NOW - 30 * DAY_MS
    case All => 0
  }

  function AtOrAfter(cutoff: int): StatsLead -> bool { (l: StatsLead) => l.createdAt >= cutoff }

  /** `filterLeadsByPeriod`: the leads created at or after the period's cutoff, in order. */
  function FilterByPeriod(leads: seq<StatsLead>, p: Period): (r: seq<StatsLead>)
    ensures forall l :: l in r <==> l in leads && l.createdAt >= Cutoff(p)
    ensures Seqs.IsSubsequence(r, leads)
    ensures forall l :: multiset(r)[l] == if l.createdAt >= Cutoff(p) then multiset(leads)[l] else 0
  {
    Seqs.FilterIsSubsequence(leads, AtOrAfter(Cutoff(p)));
    Seqs.FilterMultiset(leads, AtOrAfter(Cutoff(p)));
    Seqs.Filter(leads, AtOrAfter(Cutoff(p)))
  }

  /** Filtering by a later cutoff after an earlier one is the same as filtering
      by the later one alone, and keeps a subsequence of the earlier result. */
  lemma LaterCutoffKeepsSubsequence(leads: seq<StatsLead>, c1: int, c2: int)
    requires c1 <= c2
    ensures Seqs.Filter(Seqs.Filter(leads, AtOrAfter(c1)), AtOrAfter(c2)) == Seqs.Filter(leads, AtOrAfter(c2))
    ensures Seqs.IsSubsequence(Seqs.Filter(leads, AtOrAfter(c2)), Seqs.Filter(leads, AtOrAfter(c1)))
  {
    Seqs.FilterFilter(leads, AtOrAfter(c1), AtOrAfter(c2));
    Seqs.FilterExt(leads, Seqs.And(AtOrAfter(c1), AtOrAfter(c2)), AtOrAfter(c2));
    Seqs.FilterIsSubsequence(Seqs.Filter(leads, AtOrAfter(c1)), AtOrAfter(c2));
  }

  /** Today's leads are among the last 7 days', those among the last 30 days',
      and those among all. */
  lemma PeriodsNest(leads: seq<StatsLead>)
    ensures Seqs.IsSubsequence(FilterByPeriod(leads, Today), FilterByPeriod(leads, Days7))
    ensures Seqs.IsSubsequence(FilterByPeriod(leads, Days7), FilterByPeriod(leads, Days30))
    ensures Seqs.IsSubsequence(FilterByPeriod(leads, Days30), FilterByPeriod(leads, All))
  {
    LaterCutoffKeepsSubsequence(leads, Cutoff(Days7), Cutoff(Today));
    LaterCutoffKeepsSubsequence(leads, Cutoff(Days30), Cutoff(Days7));
    LaterCutoffKeepsSubsequence(leads, Cutoff(All), Cutoff(Days30));
  }

  /** "all" keeps every lead whose timestamp is not before the epoch. */
  lemma AllKeepsEveryLead(leads: seq<StatsLead>)
    ensures (forall l :: l in leads ==> l.createdAt >= 0) ==> FilterByPeriod(leads, All) == leads
  {
    Seqs.FilterAll(leads, AtOrAfter(0));
  }

  /** A campaign's counters. */
  datatype Counts = Counts(total: nat, sold: nat, nurture: nat)

  const SOLD := "sold"
  const NURTURE := "nurture"

  /** Status tests: any status, exactly "sold", anything but "sold", exactly "nurture". */
  const ANY_STATUS: string -> bool := st => true
  const IS_SOLD: string -> bool := st => st == SOLD
  const NOT_SOLD: string -> bool := st => st != SOLD
  const IS_NURTURE: string -> bool := st => st == NURTURE

  function StatusIs(q: string -> bool): StatsLead -> bool { (l: StatsLead) => q(l.status) }
  function CampaignAndStatus(c: string, q: string -> bool): StatsLead -> bool
  {
    (l: StatsLead) => l.campaign == c && q(l.status)
  }

  /** The number of leads of campaign `c` whose status passes `q`. */
  function CountOf(s: seq<StatsLead>, c: string, q: string -> bool): nat
  {
    |Seqs.Filter(s, CampaignAndStatus(c, q))|
  }

  /** The counters the table should hold for campaign `c`: its leads, its sold
      leads and its leads of any other status. */
  function CountsOf(s: seq<StatsLead>, c: string): Counts
  {
    Counts(CountOf(s, c, ANY_STATUS), CountOf(s, c, IS_SOLD), CountOf(s, c, NOT_SOLD))
  }

  /** The distinct campaigns of `s`, in the order each first occurs. */
  function FirstSeen(s: seq<StatsLead>): (r: seq<string>)
    ensures forall c :: c in r <==> exists l :: l in s && l.campaign == c
    ensures forall i, j :: 0 <= i < j < |r| ==> r[i] != r[j]
  {
    if s == [] then []
    else
      var init := s[..|s| - 1];
      assert forall l :: l in s <==> l in init || l == s[|s| - 1] by {
        assert s == init + [s[|s| - 1]];
      }
      var keys := FirstSeen(init);
      if s[|s| - 1].campaign in keys then keys else keys + [s[|s| - 1].campaign]
  }

  /** The position of the first lead of campaign `c`. */
  function FirstIndex(s: seq<StatsLead>, c: string): (r: nat)
    requires exists l :: l in s && l.campaign == c
    ensures r < |s| && s[r].campaign == c
    ensures forall j :: 0 <= j < r ==> s[j].campaign != c
  {
    if s[0].campaign == c then 0
    else
      assert exists l :: l in s[1..] && l.campaign == c by {
        var l :| l in s && l.campaign == c;
        assert s == [s[0]] + s[1..];
      }
      1 + FirstIndex(s[1..], c)
  }

  lemma FirstIndexSnoc(s: seq<StatsLead>, x: StatsLead, c: string)
    requires exists l :: l in s && l.campaign == c
    ensures exists l :: l in s + [x] && l.campaign == c
    ensures FirstIndex(s + [x], c) == FirstIndex(s, c)
  {
    var k := FirstIndex(s, c);
    assert (s + [x])[k] == s[k];
    assert forall j :: 0 <= j < k ==> (s + [x])[j] == s[j];
  }

  lemma FirstIndexNew(s: seq<StatsLead>, x: StatsLead)
    requires forall l :: l in s ==> l.campaign != x.campaign
    ensures exists l :: l in s + [x] && l.campaign == x.campaign
    ensures FirstIndex(s + [x], x.campaign) == |s|
  {
    assert (s + [x])[|s|] == x;
  }

  /** Every key names the campaign of some lead. */
  ghost predicate AllOccur(s: seq<StatsLead>, keys: seq<string>)
  {
    forall i :: 0 <= i < |keys| ==> exists l :: l in s && l.campaign == keys[i]
  }

  /** The keys are ordered by the position of each campaign's first lead. */
  ghost predicate InFirstOccurrenceOrder(s: seq<StatsLead>, keys: seq<string>)
    requires AllOccur(s, keys)
  {
    forall a, b :: 0 <= a < b < |keys| ==> FirstIndex(s, keys[a]) < FirstIndex(s, keys[b])
  }

  lemma OrderSnocKnown(s: seq<StatsLead>, x: StatsLead, keys: seq<string>)
    requires AllOccur(s, keys) && InFirstOccurrenceOrder(s, keys)
    ensures AllOccur(s + [x], keys) && InFirstOccurrenceOrder(s + [x], keys)
  {
    forall i | 0 <= i < |keys|
      ensures exists l :: l in s + [x] && l.campaign == keys[i]
      ensures FirstIndex(s + [x], keys[i]) == FirstIndex(s, keys[i])
    {
      FirstIndexSnoc(s, x, keys[i]);
    }
  }

  lemma OrderSnocNew(s: seq<StatsLead>, x: StatsLead, keys: seq<string>)
    requires AllOccur(s, keys) && InFirstOccurrenceOrder(s, keys)
    requires forall l :: l in s ==> l.campaign != x.campaign
    ensures AllOccur(s + [x], keys + [x.campaign]) && InFirstOccurrenceOrder(s + [x], keys + [x.campaign])
  {
    OrderSnocKnown(s, x, keys);
    FirstIndexNew(s, x);
    var keys' := keys + [x.campaign];
    forall i | 0 <= i < |keys'|
      ensures exists l :: l in s + [x] && l.campaign == keys'[i]
    {
      if i < |keys| {
        assert keys'[i] == keys[i];
      }
    }
    forall a, b | 0 <= a < b < |keys'|
      ensures FirstIndex(s + [x], keys'[a]) < FirstIndex(s + [x], keys'[b])
    {
      assert keys'[a] == keys[a];
      if b < |keys| {
        assert keys'[b] == keys[b];
      }
    }
  }

  /** The keys are in the order of each campaign's first lead: the order in
      which the loop first inserts them. */
  lemma {:induction false} FirstSeenInFirstOccurrenceOrder(s: seq<StatsLead>)
    ensures AllOccur(s, FirstSeen(s)) && InFirstOccurrenceOrder(s, FirstSeen(s))
    decreases |s|
  {
    if s != [] {
      var init, x := s[..|s| - 1], s[|s| - 1];
      assert s == init + [x];
      FirstSeenInFirstOccurrenceOrder(init);
      FirstSeenSnoc(init, x);
      if x.campaign in FirstSeen(init) {
        OrderSnocKnown(init, x, FirstSeen(init));
      } else {
        OrderSnocNew(init, x, FirstSeen(init));
      }
    }
  }

  /** A campaign not yet seen has no leads to count. */
  lemma CountOfUnseen(s: seq<StatsLead>, c: string, q: string -> bool)
    requires c !in FirstSeen(s)
    ensures CountOf(s, c, q) == 0
  {
    var r := Seqs.Filter(s, CampaignAndStatus(c, q));
    if r != [] {
      assert r[0] in r;
    }
  }

  /** One more lead bumps its own campaign's counters and no other's. */
  lemma CountsSnoc(s: seq<StatsLead>, x: StatsLead, c: string)
    ensures CountsOf(s + [x], c) == if c == x.campaign then Bump(CountsOf(s, c), x.status) else CountsOf(s, c)
  {
    Seqs.FilterSnocCount(s, x, CampaignAndStatus(c, ANY_STATUS));
    Seqs.FilterSnocCount(s, x, CampaignAndStatus(c, IS_SOLD));
    Seqs.FilterSnocCount(s, x, CampaignAndStatus(c, NOT_SOLD));
  }

  /** One more lead adds its campaign at the end of the keys unless already there. */
  lemma FirstSeenSnoc(s: seq<StatsLead>, x: StatsLead)
    ensures FirstSeen(s + [x]) == if x.campaign in FirstSeen(s) then FirstSeen(s) else FirstSeen(s) + [x.campaign]
  {
    assert (s + [x])[..|s|] == s;
  }

  /** The loop body's update: `total++`, then `sold++` or else `nurture++`. */
  function Bump(k: Counts, status: string): Counts
  {
    if status == SOLD then Counts(k.total + 1, k.sold + 1, k.nurture)
    else Counts(k.total + 1, k.sold, k.nurture + 1)
  }

  /** `keys` and `stats` are the table for the leads `s`: the keys are the
      campaigns in first-seen order, and each holds that campaign's counters. */
  ghost predicate IsTable(s: seq<StatsLead>, keys: seq<string>, stats: map<string, Counts>)
  {
    keys == FirstSeen(s)
    && (forall c :: c in stats <==> c in keys)
    && (forall c :: c in stats ==> stats[c] == CountsOf(s, c))
  }

  /** One loop iteration keeps the table invariant. */
  lemma StepKeepsTable(s: seq<StatsLead>, x: StatsLead, keys: seq<string>, stats: map<string, Counts>,
                       keys': seq<string>, stats': map<string, Counts>)
    requires IsTable(s, keys, stats)
    requires keys' == if x.campaign in stats then keys else keys + [x.campaign]
    requires stats' == stats[x.campaign := Bump(Current(stats, x.campaign), x.status)]
    ensures IsTable(s + [x], keys', stats')
  {
    FirstSeenSnoc(s, x);
    forall c | c in stats'
      ensures stats'[c] == CountsOf(s + [x], c)
    {
      CountsSnoc(s, x, c);
      if c == x.campaign && x.campaign !in stats {
        CountOfUnseen(s, c, ANY_STATUS);
        CountOfUnseen(s, c, IS_SOLD);
        CountOfUnseen(s, c, NOT_SOLD);
      }
    }
  }

  /** A key's counters, or zero counters for a key not yet inserted. */
  function Current(stats: map<string, Counts>, c: string): Counts
  {
    if c in stats then stats[c] else Counts(0, 0, 0)
  }

  /** The `forEach` callback: insert the lead's campaign with zero counters when
      it is new, then bump its counters. */
  method AddLead(keys: seq<string>, stats: map<string, Counts>, lead: StatsLead)
    returns (keys': seq<string>, stats': map<string, Counts>)
    ensures keys' == if lead.campaign in stats then keys else keys + [lead.campaign]
    ensures stats'.Keys == stats.Keys + {lead.campaign}
    ensures stats'[lead.campaign].total == Current(stats, lead.campaign).total + 1
    ensures stats' == stats[lead.campaign := Bump(Current(stats, lead.campaign), lead.status)]
  {
    keys', stats' := keys, stats;
    if lead.campaign !in stats' {
      stats' := stats'[lead.campaign := Counts(0, 0, 0)];
      keys' := keys' + [lead.campaign];
    }
    var current := stats'[lead.campaign];
    if lead.status == SOLD {
      stats' := stats'[lead.campaign := Counts(current.total + 1, current.sold + 1, current.nurture)];
    } else {
      stats' := stats'[lead.campaign := Counts(current.total + 1, current.sold, current.nurture + 1)];
    }
  }

  lemma PrefixSnoc<T>(s: seq<T>, i: int)
    requires 0 <= i < |s|
    ensures s[..i] + [s[i]] == s[..i + 1]
  {
  }

  /** The `campaignStats` loop. `keys` is the table's key order (`Object.entries`),
      the order in which campaigns were first inserted. */
  method BuildCampaignStats(leads: seq<StatsLead>) returns (keys: seq<string>, stats: map<string, Counts>)
    ensures keys == FirstSeen(leads)
    ensures forall c :: c in stats <==> c in keys
    ensures forall c :: c in stats ==> stats[c] == CountsOf(leads, c)
  {
    keys := [];
    stats := map[];
    ghost var seen: seq<StatsLead> := [];
    var i := 0;
    while i < |leads|
      invariant 0 <= i <= |leads| && seen == leads[..i]
      invariant IsTable(seen, keys, stats)
    {
      ghost var keys0, stats0 := keys, stats;
      keys, stats := AddLead(keys, stats, leads[i]);
      StepKeepsTable(seen, leads[i], keys0, stats0, keys, stats);
      PrefixSnoc(leads, i);
      seen := seen + [leads[i]];
      i := i + 1;
    }
    assert seen == leads;
  }

  /** Every campaign's total is its sold count plus its nurture count. */
  lemma {:induction false} TotalIsSoldPlusNurture(s: seq<StatsLead>, c: string)
    ensures CountsOf(s, c).total == CountsOf(s, c).sold + CountsOf(s, c).nurture
  {
    if s != [] {
      TotalIsSoldPlusNurture(s[1..], c);
    }
  }

  /** The sum over `keys` of each key's count. */
  function SumCounts(keys: seq<string>, s: seq<StatsLead>, q: string -> bool): nat
  {
    if keys == [] then 0 else CountOf(s, keys[0], q) + SumCounts(keys[1..], s, q)
  }

  lemma {:induction false} SumCountsAppend(keys: seq<string>, c: string, s: seq<StatsLead>, q: string -> bool)
    ensures SumCounts(keys + [c], s, q) == SumCounts(keys, s, q) + CountOf(s, c, q)
  {
    if keys != [] {
      assert (keys + [c])[1..] == keys[1..] + [c];
      SumCountsAppend(keys[1..], c, s, q);
    }
  }

  lemma {:induction false} SumCountsSnoc(keys: seq<string>, s: seq<StatsLead>, x: StatsLead, q: string -> bool)
    requires forall i, j :: 0 <= i < j < |keys| ==> keys[i] != keys[j]
    ensures SumCounts(keys, s + [x], q) == SumCounts(keys, s, q) + (if x.campaign in keys && q(x.status) then 1 else 0)
  {
    if keys != [] {
      assert forall i, j :: 0 <= i < j < |keys[1..]| ==> keys[1..][i] != keys[1..][j] by {
        forall i, j | 0 <= i < j < |keys[1..]| ensures keys[1..][i] != keys[1..][j] {
          assert keys[1..][i] == keys[i + 1] && keys[1..][j] == keys[j + 1];
        }
      }
      SumCountsSnoc(keys[1..], s, x, q);
      Seqs.FilterSnocCount(s, x, CampaignAndStatus(keys[0], q));
      assert x.campaign in keys <==> x.campaign == keys[0] || x.campaign in keys[1..] by {
        assert keys == [keys[0]] + keys[1..];
      }
      if x.campaign == keys[0] {
        assert x.campaign !in keys[1..] by {
          forall i | 0 <= i < |keys[1..]| ensures keys[1..][i] != keys[0] {
            assert keys[1..][i] == keys[i + 1];
          }
        }
      }
    }
  }

  /** Summed over the table's keys, the counts of leads whose status passes `q`
      add up to the number of such leads in the whole list. */
  lemma {:induction false} KeySumIsCount(s: seq<StatsLead>, q: string -> bool)
    ensures SumCounts(FirstSeen(s), s, q) == |Seqs.Filter(s, StatusIs(q))|
    decreases |s|
  {
    if s != [] {
      var init, x := s[..|s| - 1], s[|s| - 1];
      assert s == init + [x];
      KeySumIsCount(init, q);
      var keys := FirstSeen(init);
      Seqs.FilterSnocCount(init, x, StatusIs(q));
      SumCountsSnoc(keys, init, x, q);
      if x.campaign !in keys {
        SumCountsAppend(keys, x.campaign, s, q);
        CountOfUnseen(init, x.campaign, q);
        Seqs.FilterSnocCount(init, x, CampaignAndStatus(x.campaign, q));
      }
    }
  }

  /** `soldLeads` and `nurtureLeads`: exact "sold" and exact "nurture" matches. */
  function SoldLeads(s: seq<StatsLead>): nat { |Seqs.Filter(s, StatusIs(IS_SOLD))| }
  function NurtureLeads(s: seq<StatsLead>): nat { |Seqs.Filter(s, StatusIs(IS_NURTURE))| }

  /** The table's totals add up to the number of leads, its sold counts to the
      sold card, and its nurture counts to every lead that is not sold, which
      is at least the nurture card. */
  lemma TableAddsUp(s: seq<StatsLead>)
    ensures SumCounts(FirstSeen(s), s, ANY_STATUS) == |s|
    ensures SumCounts(FirstSeen(s), s, IS_SOLD) == SoldLeads(s)
    ensures SumCounts(FirstSeen(s), s, NOT_SOLD) == |s| - SoldLeads(s)
    ensures NurtureLeads(s) <= SumCounts(FirstSeen(s), s, NOT_SOLD)
  {
    KeySumIsCount(s, ANY_STATUS);
    Seqs.FilterAll(s, StatusIs(ANY_STATUS));
    KeySumIsCount(s, IS_SOLD);
    KeySumIsCount(s, NOT_SOLD);
    SoldAndNotSold(s);
    Seqs.FilterDisjointCount(s, StatusIs(IS_SOLD), StatusIs(IS_NURTURE));
  }

  lemma {:induction false} SoldAndNotSold(s: seq<StatsLead>)
    ensures |Seqs.Filter(s, StatusIs(IS_SOLD))| + |Seqs.Filter(s, StatusIs(NOT_SOLD))| == |s|
  {
    if s != [] {
      SoldAndNotSold(s[1..]);
    }
  }

  /** The sold and nurture cards never add up to more than the total card. */
  lemma CardsBounded(s: seq<StatsLead>)
    ensures SoldLeads(s) + NurtureLeads(s) <= |s|
  {
    Seqs.FilterDisjointCount(s, StatusIs(IS_SOLD), StatusIs(IS_NURTURE));
  }

  /** `soldLeads / totalLeads * 100`, or 0 without leads, as an exact rational. */
  function ConversionRate(s: seq<StatsLead>): (r: real)
    ensures 0.0 <= r <= 100.0
    ensures |s| == 0 ==> r == 0.0
    ensures |s| > 0 ==> r * (|s| as real) == (SoldLeads(s) as real) * 100.0
  {
    if |s| > 0 then
      var sold, total := SoldLeads(s) as real, |s| as real;
      RatioBounds(sold, total);
      sold / total * 100.0
    else 0.0
  }

  lemma RatioBounds(a: real, b: real)
    requires 0.0 <= a <= b && b > 0.0
    ensures 0.0 <= a / b <= 1.0
    ensures a / b * 100.0 * b == a * 100.0
  {
    assert a / b * b == a;
  }

  /** One slice of the pie chart or bar of the bar chart. */
  datatype ChartRow = ChartRow(text: string, value: nat, color: string)

  const CAMPAIGN_COLORS: map<string, string> := map[
    "morrisons" := "#f59e0b", "asda" := "#22c55e", "pcp" := "#6366f1", "dpf" := "#a855f7",
    "diesel" := "#a855f7", "sainsburys" := "#ef4444", "next" := "#374151"]

  const DEFAULT_COLOR := "#9ca3af"

  /** `campaign.charAt(0).toUpperCase() + campaign.slice(1)`. */
  function Capitalize(c: string): (r: string)
    ensures |r| == |c|
    ensures c != [] ==> r[0] == UpperChar(c[0]) && r[1..] == c[1..]
  {
    if c == [] then [] else [UpperChar(c[0])] + c[1..]
  }

  function ColorOf(c: string): (r: string)
    ensures c in CAMPAIGN_COLORS ==> r == CAMPAIGN_COLORS[c]
    ensures c !in CAMPAIGN_COLORS ==> r == DEFAULT_COLOR
  {
    if c in CAMPAIGN_COLORS then CAMPAIGN_COLORS[c] else DEFAULT_COLOR
  }

  /** `pieChartData` and `barChartData` (the two are built alike): one row per
      table key, in key order. */
  function ChartData(keys: seq<string>, stats: map<string, Counts>): (r: seq<ChartRow>)
    requires forall k :: k in keys ==> k in stats
    ensures |r| == |keys|
    ensures forall i :: 0 <= i < |keys| ==>
      r[i] == ChartRow(Capitalize(keys[i]), stats[keys[i]].total, ColorOf(keys[i]))
  {
    seq(|keys|, i requires 0 <= i < |keys| => ChartRow(Capitalize(keys[i]), stats[keys[i]].total, ColorOf(keys[i])))
  }

  function SumValues(rows: seq<ChartRow>): nat
  {
    if rows == [] then 0 else rows[0].value + SumValues(rows[1..])
  }

  lemma {:induction false} SumValuesIsSumCounts(keys: seq<string>, stats: map<string, Counts>, s: seq<StatsLead>)
    requires forall k :: k in keys ==> k in stats && stats[k] == CountsOf(s, k)
    ensures SumValues(ChartData(keys, stats)) == SumCounts(keys, s, ANY_STATUS)
  {
    if keys != [] {
      SumValuesIsSumCounts(keys[1..], stats, s);
      assert ChartData(keys, stats)[1..] == ChartData(keys[1..], stats);
    }
  }

  /** For the table the loop builds, the chart has one row per campaign and its
      values add up to the number of leads in the period. */
  lemma ChartCoversLeads(leads: seq<StatsLead>, keys: seq<string>, stats: map<string, Counts>)
    requires keys == FirstSeen(leads)
    requires forall c :: c in stats <==> c in keys
    requires forall c :: c in stats ==> stats[c] == CountsOf(leads, c)
    ensures |ChartData(keys, stats)| == |keys|
    ensures SumValues(ChartData(keys, stats)) == |leads|
  {
    SumValuesIsSumCounts(keys, stats, leads);
    TableAddsUp(leads);
  }
}
