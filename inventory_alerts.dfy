/**
 * Saved-search alerts (src/components/InventoryAlerts.tsx): a list of alerts
 * kept in component state, each handler replacing it with an updated copy.
 */
module InventoryAlerts {
  import opened Optional
  import opened Text
  import opened Seqs

  /** A saved search. `maxPrice` keeps the text typed into the price box. */
  datatype Alert = Alert(
    id: string,
    searchQuery: string,
    category: Option<string>,
    maxPrice: Option<string>,
    location: Option<string>,
    isActive: bool,
    createdAt: string,
    matchCount: nat,
    lastNotified: Option<string>)

  /** The "create alert" form. */
  datatype Draft = Draft(searchQuery: string, category: string, maxPrice: string, location: string)

  const EmptyDraft := Draft("", "", "", "")

  /** An empty form field becomes an absent alert field. */
  function OrAbsent(field: string): (r: Option<string>)
    ensures r == None <==> field == ""
    ensures r.Some? ==> r.value == field
  {
    if field == "" then None else Some(field)
  }

  /** The alert built from a submitted form: active, no matches yet, query kept untrimmed. */
  function NewAlert(d: Draft, id: string, today: string): Alert {
    Alert(id, d.searchQuery, OrAbsent(d.category), OrAbsent(d.maxPrice), OrAbsent(d.location),
          true, today, 0, None)
  }

  /** A created alert starts active with no matches, so it adds one to the active count and nothing to the total. */
  lemma CreatedAlertCounts(alerts: seq<Alert>, d: Draft, id: string, today: string)
    ensures ActiveCount([NewAlert(d, id, today)] + alerts) == ActiveCount(alerts) + 1
    ensures TotalMatches([NewAlert(d, id, today)] + alerts) == TotalMatches(alerts)
    ensures NewAlert(d, id, today).searchQuery == d.searchQuery && NewAlert(d, id, today).lastNotified == None
  {
    assert ([NewAlert(d, id, today)] + alerts)[1..] == alerts;
  }

  /**
   * A new alert leaves out exactly the optional fields left empty on the form
   * and keeps the others as typed; the query is kept even when it has
   * surrounding spaces.
   */
  lemma NewAlertOmitsEmptyFields(d: Draft, id: string, today: string)
    ensures var a := NewAlert(d, id, today);
      && (a.category == None <==> d.category == "") && (a.category.Some? ==> a.category.value == d.category)
      && (a.maxPrice == None <==> d.maxPrice == "") && (a.maxPrice.Some? ==> a.maxPrice.value == d.maxPrice)
      && (a.location == None <==> d.location == "") && (a.location.Some? ==> a.location.value == d.location)
      && a.searchQuery == d.searchQuery && a.id == id && a.createdAt == today
  {
  }

  /** The alert with id `id` switched on or off, every other alert as it was. */
  function Toggled(alerts: seq<Alert>, id: string): (r: seq<Alert>)
    ensures |r| == |alerts|
  {
    seq(|alerts|, i requires 0 <= i < |alerts| =>
      if alerts[i].id == id then alerts[i].(isActive := !alerts[i].isActive) else alerts[i])
  }

  /** The alerts whose id is not `id`, in their order. */
  function Deleted(alerts: seq<Alert>, id: string): seq<Alert> {
    Filter(alerts, (a: Alert) => a.id != id)
  }

  /** The alert with id `id` with one more match, notified `today`. */
  function Matched(alerts: seq<Alert>, id: string, today: string): (r: seq<Alert>)
    ensures |r| == |alerts|
  {
    seq(|alerts|, i requires 0 <= i < |alerts| =>
      if alerts[i].id == id
      then alerts[i].(matchCount := alerts[i].matchCount + 1, lastNotified := Some(today))
      else alerts[i])
  }

  /** The first alert with id `id` (`alerts.find`). */
  function Find(alerts: seq<Alert>, id: string): (r: Option<Alert>)
    ensures r.Some? ==> r.value in alerts && r.value.id == id
    ensures r.None? ==> forall a :: a in alerts ==> a.id != id
  {
    if alerts == [] then None else if alerts[0].id == id then Some(alerts[0]) else Find(alerts[1..], id)
  }

  /** The "Active Alerts" figure. */
  function ActiveCount(alerts: seq<Alert>): nat {
    Count(alerts, (a: Alert) => a.isActive)
  }

  /** The "Total Matches" figure. */
  function TotalMatches(alerts: seq<Alert>): nat {
    if alerts == [] then 0 else alerts[0].matchCount + TotalMatches(alerts[1..])
  }

  /** How many alerts carry id `id`. */
  function CountId(alerts: seq<Alert>, id: string): nat {
    Count(alerts, (a: Alert) => a.id == id)
  }

  /** There are never more active alerts than alerts. */
  lemma ActiveAtMostAll(alerts: seq<Alert>)
    ensures ActiveCount(alerts) <= |alerts|
  {
  }

  /** Switching an alert twice leaves the list as it was. */
  lemma ToggleTwiceRestores(alerts: seq<Alert>, id: string)
    ensures Toggled(Toggled(alerts, id), id) == alerts
  {
  }

  /** Switching the one alert with a given id moves the active count by exactly one. */
  lemma {:induction false} ToggleChangesActiveCountByOne(alerts: seq<Alert>, id: string, k: nat)
    requires k < |alerts| && alerts[k].id == id
    requires forall j :: 0 <= j < |alerts| && alerts[j].id == id ==> j == k
    ensures ActiveCount(Toggled(alerts, id)) ==
      if alerts[k].isActive then ActiveCount(alerts) - 1 else ActiveCount(alerts) + 1
    decreases k
  {
    var t := Toggled(alerts, id);
    assert t[1..] == Toggled(alerts[1..], id);
    if k == 0 {
      ToggleAbsentIsIdentity(alerts[1..], id);
    } else {
      ToggleChangesActiveCountByOne(alerts[1..], id, k - 1);
    }
  }

  lemma ToggleAbsentIsIdentity(alerts: seq<Alert>, id: string)
    requires forall j :: 0 <= j < |alerts| ==> alerts[j].id != id
    ensures Toggled(alerts, id) == alerts
  {
  }

  /** Deleting keeps, in order, exactly the alerts with another id. */
  lemma DeleteRemovesExactlyId(alerts: seq<Alert>, id: string, a: Alert)
    ensures a in Deleted(alerts, id) <==> a in alerts && a.id != id
    ensures IsSubsequence(Deleted(alerts, id), alerts)
    ensures |Deleted(alerts, id)| == |alerts| - CountId(alerts, id)
  {
    FilterMembership(alerts, (a: Alert) => a.id != id, a);
    FilterIsSubsequence(alerts, (a: Alert) => a.id != id);
    FilterSplitsCount(alerts, id);
  }

  lemma {:induction false} FilterSplitsCount(alerts: seq<Alert>, id: string)
    ensures |Deleted(alerts, id)| + CountId(alerts, id) == |alerts|
    decreases |alerts|
  {
    if alerts != [] {
      FilterSplitsCount(alerts[1..], id);
    }
  }

  /** A recorded match adds one to the total for every alert carrying the id. */
  lemma {:induction false} MatchRaisesTotal(alerts: seq<Alert>, id: string, today: string)
    ensures TotalMatches(Matched(alerts, id, today)) == TotalMatches(alerts) + CountId(alerts, id)
    decreases |alerts|
  {
    if alerts != [] {
      assert Matched(alerts, id, today)[1..] == Matched(alerts[1..], id, today);
      MatchRaisesTotal(alerts[1..], id, today);
    }
  }

  /** With a unique id, a recorded match raises the total by exactly one. */
  lemma MatchWithUniqueIdRaisesTotalByOne(alerts: seq<Alert>, id: string, today: string)
    requires CountId(alerts, id) == 1
    ensures TotalMatches(Matched(alerts, id, today)) == TotalMatches(alerts) + 1
  {
    MatchRaisesTotal(alerts, id, today);
  }

  /** The list the component starts with. */
  const SeedAlerts: seq<Alert> := [
    Alert("1", "Calculus Stewart", Some("Natural Sciences"), Some("100"), Some("New York"),
          true, "2024-01-15", 3, Some("2024-01-20")),
    Alert("2", "Organic Chemistry", Some("Natural Sciences"), Some("150"), None,
          true, "2024-01-10", 1, Some("2024-01-18")),
    Alert("3", "Programming Concepts", Some("Engineering & Technology"), None, None,
          false, "2024-01-05", 0, None)
  ]

  /** The toast title shown after switching: it reads the list as it was before the switch. */
  function ToggleNotice(before: seq<Alert>, id: string): string {
    var found := Find(before, id);
    if found.Some? && found.value.isActive then "Alert paused" else "Alert activated"
  }

  /**
   * The notice describes the first alert with that id as it was before the
   * switch: "Alert paused" when it was active, "Alert activated" when it was
   * paused or when no alert has that id.
   */
  lemma ToggleNoticeReadsOldState(before: seq<Alert>, id: string, k: nat)
    requires k < |before| && before[k].id == id
    requires forall j :: 0 <= j < k ==> before[j].id != id
    ensures ToggleNotice(before, id) == (if before[k].isActive then "Alert paused" else "Alert activated")
  {
    FindFirst(before, id, k);
  }

  /** Toggling an id no alert has shows "Alert activated" and changes nothing. */
  lemma ToggleUnknownId(before: seq<Alert>, id: string)
    requires forall j :: 0 <= j < |before| ==> before[j].id != id
    ensures ToggleNotice(before, id) == "Alert activated"
    ensures Toggled(before, id) == before
  {
  }

  lemma {:induction false} FindFirst(alerts: seq<Alert>, id: string, k: nat)
    requires k < |alerts| && alerts[k].id == id
    requires forall j :: 0 <= j < k ==> alerts[j].id != id
    ensures Find(alerts, id) == Some(alerts[k])
    decreases k
  {
    if k > 0 {
      FindFirst(alerts[1..], id, k - 1);
    }
  }

  /** The alerts panel. */
  class AlertManager {
    var alerts: seq<Alert>
    var draft: Draft
    var showAddForm: bool

    constructor ()
      ensures alerts == SeedAlerts && draft == EmptyDraft && !showAddForm
    {
      alerts, draft, showAddForm := SeedAlerts, EmptyDraft, false;
    }

    /** Typing into the form. */
    method EditDraft(d: Draft)
      modifies this`draft
      ensures draft == d
    {
      draft := d;
    }

    /** "Create New Alert" and "Cancel". */
    method SetShowAddForm(show: bool)
      modifies this`showAddForm
      ensures showAddForm == show
    {
      showAddForm := show;
    }

    /**
     * `handleCreateAlert`, with the clock's id and date passed in. A query that
     * is empty after trimming changes nothing; otherwise the new alert goes in
     * front, the form is cleared and hidden.
     */
    method CreateAlert(id: string, today: string) returns (created: bool)
      modifies this
      ensures created <==> !IsBlank(old(draft.searchQuery))
      ensures created ==> (alerts == [NewAlert(old(draft), id, today)] + old(alerts)
                           && draft == EmptyDraft && !showAddForm)
      ensures created ==> (alerts[0].category == None <==> old(draft.category) == "")
                          && (alerts[0].maxPrice == None <==> old(draft.maxPrice) == "")
                          && (alerts[0].location == None <==> old(draft.location) == "")
                          && alerts[0].isActive && alerts[0].matchCount == 0
      ensures !created ==> alerts == old(alerts) && draft == old(draft) && showAddForm == old(showAddForm)
    {
      TrimEmptyIffBlank(draft.searchQuery);
      if Trim(draft.searchQuery) == "" {
        return false;
      }
      alerts := [NewAlert(draft, id, today)] + alerts;
      draft := EmptyDraft;
      showAddForm := false;
      created := true;
    }

    /** `toggleAlert`: switches the alert and returns the notice, worded from the old list. */
    method ToggleAlert(id: string) returns (notice: string)
      modifies this`alerts
      ensures alerts == Toggled(old(alerts), id)
      ensures notice == ToggleNotice(old(alerts), id)
    {
      var before := alerts;
      alerts := Toggled(alerts, id);
      var found := Find(before, id);
      notice := if found.Some? && found.value.isActive then "Alert paused" else "Alert activated";
    }

    /** `deleteAlert`. */
    method DeleteAlert(id: string)
      modifies this`alerts
      ensures alerts == Deleted(old(alerts), id)
    {
      alerts := Deleted(alerts, id);
    }

    /**
     * `simulateNewMatch`, with the clock's date passed in. Its Test button is
     * rendered once per listed alert and disabled while that alert is paused.
     */
    method SimulateNewMatch(id: string, today: string)
      requires exists i :: 0 <= i < |alerts| && alerts[i].id == id && alerts[i].isActive
      modifies this`alerts
      ensures alerts == Matched(old(alerts), id, today)
    {
      alerts := Matched(alerts, id, today);
    }
  }
}
