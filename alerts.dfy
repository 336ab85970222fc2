/**
 * The alerts page (alerts/page.tsx): weather alerts fetched for the farmer's
 * village, decorated with ids and today's date, merged with the fixed pest
 * and scheme alerts and listed newest first; and the badge each severity
 * gets.
 *
 * Dates are ISO `YYYY-MM-DD` texts. For such texts comparing the texts
 * orders them as comparing the days they name, so the model sorts on the
 * text where the page compares `getTime()`. The alert service is a parameter:
 * its answer, or `None` when the request fails.
 */
module Alerts {
  import opened Text
  import opened Farm
  import opened StableSort

  /** An alert as the weather service returns it. */
  datatype FlowAlert = FlowAlert(title: string, description: string, severity: string)

  /** An alert as the page lists it. */
  datatype Alert = Alert(id: string, title: string, description: string, date: string, severity: string)

  /** The severities the weather service declares. */
  const FlowSeverities := ["Low", "Medium", "High", "Info"]

  function PestAlerts(): seq<Alert> {
    [Alert("p1", "Pest Alert: Rice Gall Midge",
       "Conditions are favorable for Rice Gall Midge infestation in your area. Monitor your paddy fields closely.",
       "2024-07-26", "High"),
     Alert("p2", "Fungal Alert: Blast Disease",
       "High humidity increases the risk of Blast Disease in paddy. Look for symptoms on leaves.",
       "2024-07-24", "Medium")]
  }

  function SchemeAlerts(): seq<Alert> {
    [Alert("s1", "Rice Development Scheme (2025–26)",
       "The Kerala government has allocated ₹13,420 lakh to enhance paddy cultivation through various initiatives.",
       "2024-07-28", "Info"),
     Alert("s2", "Soil Health Management (SHM) Scheme",
       "Provides assistance up to ₹500 per hectare (or 50% of cost) for micro and secondary nutrients for non-paddy crops, based on soil test results.",
       "2024-07-27", "Info"),
     Alert("s3", "Pokkali Rice and Coastal Wetland Initiatives",
       "MGNREGA funds and labor are being allocated for the revival of fallow Pokkali farmlands to preserve this traditional organic farming heritage.",
       "2024-07-26", "Info"),
     Alert("s4", "Kole Development Project",
       "A ₹425 crore project for the comprehensive development of Thrissur Kole fields, including infrastructure, bunds, canals, roads, and farm mechanization.",
       "2024-07-25", "Info"),
     Alert("s5", "National Horticulture Mission (NHM)",
       "A centrally sponsored scheme to promote holistic growth of the horticulture sector, including fruits, vegetables, flowers, and spices.",
       "2024-07-24", "Info"),
     Alert("s6", "Wetland Conservation Awareness",
       "State Wetland Authority Kerala (SWAK) has released funds for proposals on wetland conservation awareness to involve local communities.",
       "2024-07-23", "Info")]
  }

  // ---------------------------------------------------------------------------
  // Severity badges
  // ---------------------------------------------------------------------------

  /** The badge a severity gets; any other severity shows its own text. */
  datatype Badge = HighBadge | MediumBadge | InfoBadge | PlainBadge(text: string)

  /** `getSeverityBadge`: the severity is compared in lower case. */
  function SeverityBadge(severity: string): Badge {
    var s := ToLower(severity);
    if s == "high" then HighBadge
    else if s == "medium" then MediumBadge
    else if s == "info" then InfoBadge
    else PlainBadge(severity)
  }

  /** Severities that differ only in case get the same named badge; a plain badge shows the text as given. */
  lemma SeverityCaseInsensitive(a: string, b: string)
    requires ToLower(a) == ToLower(b)
    ensures SeverityBadge(a).PlainBadge? <==> SeverityBadge(b).PlainBadge?
    ensures !SeverityBadge(a).PlainBadge? ==> SeverityBadge(a) == SeverityBadge(b)
    ensures SeverityBadge(a).PlainBadge? ==> SeverityBadge(a).text == a
  {
  }

  /** Of the service's severities, `Low` has no badge of its own and shows as plain text. */
  lemma FlowSeverityBadges()
    ensures SeverityBadge("Low") == PlainBadge("Low")
    ensures SeverityBadge("Medium") == MediumBadge
    ensures SeverityBadge("High") == HighBadge
    ensures SeverityBadge("Info") == InfoBadge
    ensures SeverityBadge("HIGH") == HighBadge
  {
    assert ToLower("Low") == "low";
    assert ToLower("Medium") == "medium";
    assert ToLower("High") == "high";
    assert ToLower("Info") == "info";
    assert ToLower("HIGH") == "high";
  }

  // ---------------------------------------------------------------------------
  // Weather alerts and the merged list
  // ---------------------------------------------------------------------------

  /** `w-1`, `w-2`, ...: the id of the `k`-th weather alert, counting from zero. */
  function WeatherId(k: nat): string {
    "w-" + Decimal(k + 1)
  }

  /** The answer's alerts, each with its id and today's date, in the answer's order. */
  function Decorate(alerts: seq<FlowAlert>, today: string): seq<Alert> {
    seq(|alerts|, k requires 0 <= k < |alerts| =>
      Alert(WeatherId(k), alerts[k].title, alerts[k].description, today, alerts[k].severity))
  }

  /**
   * Decorating keeps each alert's title, description and severity, dates
   * every alert today, and gives the alerts pairwise distinct ids.
   */
  lemma DecorateSpec(alerts: seq<FlowAlert>, today: string, j: nat, k: nat)
    requires j < k < |alerts|
    ensures |Decorate(alerts, today)| == |alerts|
    ensures Decorate(alerts, today)[j].id != Decorate(alerts, today)[k].id
    ensures Decorate(alerts, today)[k].date == today
    ensures var a := Decorate(alerts, today)[k];
      FlowAlert(a.title, a.description, a.severity) == alerts[k]
  {
    if WeatherId(j) == WeatherId(k) {
      assert Decimal(j + 1) == WeatherId(j)[2..] == WeatherId(k)[2..] == Decimal(k + 1);
      DecimalInjective(j + 1, k + 1);
    }
  }

  /** The comparator's key: the alert's date. */
  function ByDate(): Alert -> Key {
    (a: Alert) => Text(a.date)
  }

  /** The three lists concatenated and sorted newest first. */
  function MergeAlerts(weather: seq<Alert>, pest: seq<Alert>, schemes: seq<Alert>): seq<Alert> {
    SortBy(ByDate(), Descending, weather + pest + schemes)
  }

  /** `allAlerts`: the weather alerts merged with the fixed pest and scheme alerts. */
  function AllAlerts(weather: seq<Alert>): seq<Alert> {
    MergeAlerts(weather, PestAlerts(), SchemeAlerts())
  }

  /**
   * The merged list holds every alert exactly as often as the three lists
   * do, no alert dated earlier than a later one, and alerts of the same date
   * in the order weather, pest, schemes.
   */
  lemma MergeAlertsSpec(weather: seq<Alert>, pest: seq<Alert>, schemes: seq<Alert>, date: string)
    ensures multiset(MergeAlerts(weather, pest, schemes)) == multiset(weather + pest + schemes)
    ensures forall i, j :: 0 <= i < j < |MergeAlerts(weather, pest, schemes)| ==>
      !StrLess(MergeAlerts(weather, pest, schemes)[i].date, MergeAlerts(weather, pest, schemes)[j].date)
    ensures WithKey(ByDate(), Text(date), MergeAlerts(weather, pest, schemes))
      == WithKey(ByDate(), Text(date), weather) + WithKey(ByDate(), Text(date), pest)
         + WithKey(ByDate(), Text(date), schemes)
  {
    var all := weather + pest + schemes;
    SortPermutes(ByDate(), Descending, all);
    SortSorted(ByDate(), Descending, all);
    SortStable(ByDate(), Descending, all, Text(date));
    WithKeyAppend(ByDate(), Text(date), weather + pest, schemes);
    WithKeyAppend(ByDate(), Text(date), weather, pest);
    var r := MergeAlerts(weather, pest, schemes);
    forall i, j | 0 <= i < j < |r|
      ensures !StrLess(r[i].date, r[j].date)
    {
      assert !Before(ByDate(), Descending, r[j], r[i]);
    }
  }

  /** The `location` the request names: the farmer's village in Kerala. */
  function Location(village: string): string {
    village + ", Kerala"
  }

  // ---------------------------------------------------------------------------
  // The page's state
  // ---------------------------------------------------------------------------

  class AlertsPage {
    var weatherAlerts: seq<Alert>
    var isLoading: bool
    /** The locations weather alerts were requested for. */
    var requests: seq<string>

    constructor()
      ensures weatherAlerts == [] && isLoading && requests == []
    {
      weatherAlerts := [];
      isLoading := true;
      requests := [];
    }

    /** The weather tab's "No new weather alerts." message. */
    predicate WeatherEmptyShown()
      reads this
    {
      !isLoading && |weatherAlerts| == 0
    }

    /**
     * The fetch effect: without a profile nothing happens, and the page
     * keeps loading. Otherwise alerts are requested for the village; an
     * answer replaces the weather alerts, a failure keeps them; loading ends
     * either way.
     */
    method FetchWeatherAlerts(profile: Option<FarmerProfile>, response: Option<seq<FlowAlert>>, today: string)
      modifies this
      ensures profile.None? ==>
        weatherAlerts == old(weatherAlerts) && isLoading == old(isLoading) && requests == old(requests)
      ensures profile.Some? ==>
        !isLoading && requests == old(requests) + [Location(profile.value.village)]
        && weatherAlerts == (if response.Some? then Decorate(response.value, today) else old(weatherAlerts))
      ensures profile.Some? ==>
        (WeatherEmptyShown() <==> (if response.Some? then |response.value| == 0 else |old(weatherAlerts)| == 0))
    {
      if profile.None? {
        return;
      }
      isLoading := true;
      requests := requests + [profile.value.village + ", Kerala"];
      if response.Some? {
        weatherAlerts := Decorate(response.value, today);
      }
      isLoading := false;
    }
  }
}
