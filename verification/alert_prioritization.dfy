/**
 * The smart alert engine (ml/alert_prioritization.py): priority from a risk
 * verdict, adjustment for fatigue, repetition and ward, suppression by time
 * window and by an hourly cap on LOW alerts, and the engine state that every
 * alert updates — a bounded history, a per-key last-alert time and a per-key
 * repetition count — plus acknowledgement, feedback and the metrics read off
 * the history.
 *
 * Time is an explicit `now` in seconds (one instant per call); alert ids
 * come from a counter instead of a hash of the clock.
 */
module Alerts {
  import opened Common
  import opened CdssConfig
  import Ranking

  // ---------------------------------------------------------------------
  // Priorities
  // ---------------------------------------------------------------------

  datatype Priority = LowPriority | MediumPriority | HighPriority | CriticalPriority

  /** `AlertPriority.value`: LOW 1 .. CRITICAL 4. */
  function PriorityValue(p: Priority): nat
  {
    match p
    case LowPriority => 1
    case MediumPriority => 2
    case HighPriority => 3
    case CriticalPriority => 4
  }

  /** `AlertPriority(v)` for a valid value. */
  function PriorityOfValue(v: int): (p: Priority)
    requires 1 <= v <= 4
    ensures PriorityValue(p) == v
  {
    if v == 1 then LowPriority
    else if v == 2 then MediumPriority
    else if v == 3 then HighPriority
    else CriticalPriority
  }

  /**
   * `_get_base_priority`: a High verdict is CRITICAL from score 0.85, a Medium
   * verdict HIGH from 0.55; any other level name is LOW.
   */
  function BasePriority(riskLevel: string, score: real): (p: Priority)
    ensures p == CriticalPriority <==> riskLevel == "High" && score >= 0.85
    ensures p == HighPriority <==>
      (riskLevel == "High" && score < 0.85) || (riskLevel == "Medium" && score >= 0.55)
    ensures p == MediumPriority <==> riskLevel == "Medium" && score < 0.55
    ensures p == LowPriority <==> riskLevel != "High" && riskLevel != "Medium"
  {
    if riskLevel == "High" then (if score >= 0.85 then CriticalPriority else HighPriority)
    else if riskLevel == "Medium" then (if score >= 0.55 then HighPriority else MediumPriority)
    else LowPriority
  }

  /** A higher score never lowers the base priority, nor does a more severe level. */
  lemma BasePriorityMonotone(level: string, s1: real, s2: real)
    requires s1 <= s2
    ensures PriorityValue(BasePriority(level, s1)) <= PriorityValue(BasePriority(level, s2))
    ensures PriorityValue(BasePriority("Low", s1)) <= PriorityValue(BasePriority("Medium", s1))
    ensures PriorityValue(BasePriority("Medium", s1)) <= PriorityValue(BasePriority("High", s1))
  {
  }

  // ---------------------------------------------------------------------
  // Fatigue
  // ---------------------------------------------------------------------

  datatype FatigueLevel = NormalFatigue | ElevatedFatigue | HighFatigue

  /** High at the threshold, elevated from 70% of it, normal below. */
  function FatigueLevelOf(perHour: nat, threshold: nat): (l: FatigueLevel)
    ensures l == HighFatigue <==> perHour >= threshold
    ensures l == ElevatedFatigue <==> perHour < threshold && perHour as real >= threshold as real * 0.7
    ensures l == NormalFatigue <==> perHour as real < threshold as real * 0.7
  {
    if perHour >= threshold then HighFatigue
    else if perHour as real >= threshold as real * 0.7 then ElevatedFatigue
    else NormalFatigue
  }

  /** More recent alerts never lower the fatigue level. */
  lemma FatigueLevelMonotone(a: nat, b: nat, threshold: nat)
    requires a <= b
    ensures FatigueLevelOf(a, threshold) == HighFatigue ==> FatigueLevelOf(b, threshold) == HighFatigue
    ensures FatigueLevelOf(b, threshold) == NormalFatigue ==> FatigueLevelOf(a, threshold) == NormalFatigue
  {
  }

  function FatigueAdvice(l: FatigueLevel): string
  {
    match l
    case HighFatigue => "Consider reviewing alert thresholds or taking a break"
    case ElevatedFatigue => "Alert volume approaching fatigue threshold"
    case NormalFatigue => "Alert volume is manageable"
  }

  // ---------------------------------------------------------------------
  // Priority adjustment
  // ---------------------------------------------------------------------

  /** The context keys the engine reads: `ward_type` and `shift`. */
  datatype Context = Context(wardType: Option<string>, shift: Option<string>)

  predicate InIcu(context: Option<Context>)
  {
    context.Some? && context.value.wardType == Some("ICU")
  }

  predicate AtNight(context: Option<Context>)
  {
    context.Some? && context.value.shift == Some("night")
  }

  datatype AdjustReason =
    | BaseReason
    | FatigueReduced
    | RepetitionReduced(count: nat)
    | IcuElevated
    | NightShiftLow

  /**
   * `_adjust_priority`: high fatigue drops MEDIUM and below to LOW; a key
   * alerted at least `threshold` times drops one step (never below LOW, never
   * from CRITICAL); an ICU ward lifts anything below HIGH to HIGH.
   */
  function AdjustPriority(base: Priority, fatigue: FatigueLevel, count: nat, threshold: nat,
                          context: Option<Context>): (r: (Priority, AdjustReason))
    ensures r.0 == CriticalPriority <==> base == CriticalPriority
    ensures base == CriticalPriority ==> r == (CriticalPriority, BaseReason)
    ensures InIcu(context) ==> PriorityValue(r.0) >= 3
    ensures !InIcu(context) ==> PriorityValue(r.0) <= PriorityValue(base)
    ensures !InIcu(context) && fatigue == HighFatigue && PriorityValue(base) <= 2 ==> r.0 == LowPriority
    ensures !InIcu(context) && fatigue != HighFatigue && count >= threshold && base != CriticalPriority ==>
      PriorityValue(r.0) == if PriorityValue(base) > 1 then PriorityValue(base) - 1 else 1
    ensures !InIcu(context) && (fatigue != HighFatigue || PriorityValue(base) > 2) && count < threshold ==>
      r.0 == base
    ensures !InIcu(context) && fatigue == HighFatigue && base == HighPriority && count >= threshold ==>
      r.0 == MediumPriority
    ensures InIcu(context) ==> r.0 == if base == CriticalPriority then CriticalPriority else HighPriority
  {
    var (p1, why1) :=
      if fatigue == HighFatigue && PriorityValue(base) <= 2 then (LowPriority, FatigueReduced)
      else (base, BaseReason);
    var (p2, why2) :=
      if count >= threshold && p1 != CriticalPriority && PriorityValue(p1) > 1 then
        (PriorityOfValue(PriorityValue(p1) - 1), RepetitionReduced(count))
      else (p1, why1);
    var (p3, why3) :=
      if InIcu(context) && PriorityValue(p2) < 3 then (HighPriority, IcuElevated) else (p2, why2);
    if AtNight(context) && p3 == LowPriority then (p3, NightShiftLow) else (p3, why3)
  }

  // ---------------------------------------------------------------------
  // Alerts and the history
  // ---------------------------------------------------------------------

  datatype SuppressionReason = WithinInterval(minutes: nat) | LowRateExceeded(perHour: nat)

  datatype Feedback = Useful | NotUseful

  /** A recorded alert; the last three fields are the tracking flags updated after creation. */
  datatype Alert = Alert(
    id: nat,
    patientId: Option<string>,
    riskLevel: string,
    riskScore: real,
    priority: Priority,
    message: string,
    recommendations: seq<string>,
    timestamp: int,
    source: string,
    suppression: Option<SuppressionReason>,
    feedback: Option<Feedback>,
    acknowledged: bool)

  datatype FeedbackEntry = FeedbackEntry(alertId: nat, wasUseful: bool, text: Option<string>, timestamp: int)

  /** `_get_suppression_key`: `"<patient or unknown>:<level>"`; a missing or empty id reads as unknown. */
  function SuppressionKey(patientId: Option<string>, riskLevel: string): (k: string)
    ensures |k| > |riskLevel|
    ensures k[|k| - |riskLevel|..] == riskLevel && k[|k| - |riskLevel| - 1] == ':'
  {
    var who := if patientId.None? || patientId.value == "" then "unknown" else patientId.value;
    who + ":" + riskLevel
  }

  /** The same patient under two different levels never shares a key. */
  lemma SuppressionKeySeparatesLevels(p: Option<string>, l1: string, l2: string)
    requires SuppressionKey(p, l1) == SuppressionKey(p, l2)
    ensures l1 == l2
  {
    var who := if p.None? || p.value == "" then "unknown" else p.value;
    var k1, k2 := SuppressionKey(p, l1), SuppressionKey(p, l2);
    assert k1 == who + ":" + l1 && k2 == who + ":" + l2;
    assert l1 == k1[|who| + 1..] && l2 == k2[|who| + 1..];
  }

  /** A missing patient id and an empty one are tracked together. */
  lemma SuppressionKeyUnknown(l: string)
    ensures SuppressionKey(None, l) == SuppressionKey(Some(""), l) == "unknown:" + l
  {
  }

  /** Within the hour before `now`. */
  predicate Recent(a: Alert, now: int)
  {
    now - a.timestamp < 3600
  }

  function CountRecent(h: seq<Alert>, now: int): (n: nat)
    ensures n <= |h|
  {
    if |h| == 0 then 0
    else CountRecent(h[..|h| - 1], now) + (if Recent(h[|h| - 1], now) then 1 else 0)
  }

  function CountRecentWith(h: seq<Alert>, now: int, p: Priority): (n: nat)
    ensures n <= CountRecent(h, now)
  {
    if |h| == 0 then 0
    else CountRecentWith(h[..|h| - 1], now, p) + (if Recent(h[|h| - 1], now) && h[|h| - 1].priority == p then 1 else 0)
  }

  /** The recent alerts split exactly into the four priorities. */
  lemma {:induction false} RecentByPriority(h: seq<Alert>, now: int)
    ensures CountRecentWith(h, now, CriticalPriority) + CountRecentWith(h, now, HighPriority)
          + CountRecentWith(h, now, MediumPriority) + CountRecentWith(h, now, LowPriority)
          == CountRecent(h, now)
  {
    if |h| > 0 {
      RecentByPriority(h[..|h| - 1], now);
    }
  }

  function CountSuppressed(h: seq<Alert>): (n: nat)
    ensures n <= |h|
  {
    if |h| == 0 then 0
    else CountSuppressed(h[..|h| - 1]) + (if h[|h| - 1].suppression.Some? then 1 else 0)
  }

  function CountAcknowledged(h: seq<Alert>): (n: nat)
    ensures n <= |h|
  {
    if |h| == 0 then 0
    else CountAcknowledged(h[..|h| - 1]) + (if h[|h| - 1].acknowledged then 1 else 0)
  }

  /** `deque(maxlen=cap).append(a)`: append, then drop from the front beyond capacity. */
  function Push(h: seq<Alert>, a: Alert, cap: nat): (r: seq<Alert>)
    ensures |r| == if |h| + 1 <= cap then |h| + 1 else cap
    ensures |h| < cap ==> r == h + [a]
    ensures cap > 0 ==> r[|r| - 1] == a
    ensures forall i | 0 <= i < |r| - 1 :: r[i] == h[|h| + 1 - |r| + i]
  {
    var full := h + [a];
    if |full| <= cap then full else full[|full| - cap..]
  }

  /** Alerts newer than `cutoff`, in history order. */
  function NewerThan(h: seq<Alert>, cutoff: int): (r: seq<Alert>)
    ensures |r| <= |h|
    ensures forall a :: a in r <==> a in h && a.timestamp > cutoff
  {
    if |h| == 0 then []
    else
      var init := NewerThan(h[..|h| - 1], cutoff);
      var last := h[|h| - 1];
      assert forall a :: a in h <==> a in h[..|h| - 1] || a == last;
      if last.timestamp > cutoff then init + [last] else init
  }

  /** History order agrees with id order. */
  predicate IdsIncreasing(h: seq<Alert>)
  {
    forall i, j | 0 <= i < j < |h| :: h[i].id < h[j].id
  }

  predicate IdsBelow(h: seq<Alert>, bound: nat)
  {
    forall i | 0 <= i < |h| :: h[i].id < bound
  }

  lemma {:induction false} NewerThanKeepsIds(h: seq<Alert>, cutoff: int, bound: nat)
    requires IdsIncreasing(h) && IdsBelow(h, bound)
    ensures IdsIncreasing(NewerThan(h, cutoff)) && IdsBelow(NewerThan(h, cutoff), bound)
  {
    if |h| > 0 {
      var init := h[..|h| - 1];
      var last := h[|h| - 1];
      NewerThanKeepsIds(init, cutoff, last.id);
      var r := NewerThan(h, cutoff);
      forall i | 0 <= i < |r| ensures r[i].id < bound {
        assert r[i] in h;
      }
    }
  }

  // ---------------------------------------------------------------------
  // Suppression
  // ---------------------------------------------------------------------

  /**
   * `_should_suppress`: CRITICAL never; otherwise when the key alerted less
   * than the minimum interval ago, or, for LOW, when the last hour already
   * holds the maximum number of LOW alerts (suppressed ones included).
   */
  function Suppression(cfg: AlertPriorityConfig, h: seq<Alert>, lastSeen: map<string, int>,
                       p: Priority, key: string, now: int): (r: Option<SuppressionReason>)
    ensures p == CriticalPriority ==> r.None?
    ensures r == Some(WithinInterval(cfg.minIntervalMinutes)) <==>
      p != CriticalPriority && key in lastSeen && now - lastSeen[key] < 60 * cfg.minIntervalMinutes
    ensures r == Some(LowRateExceeded(cfg.maxLowAlertsPerHour)) <==>
      p == LowPriority && !(key in lastSeen && now - lastSeen[key] < 60 * cfg.minIntervalMinutes)
      && CountRecentWith(h, now, LowPriority) >= cfg.maxLowAlertsPerHour
    ensures r.None? || r == Some(WithinInterval(cfg.minIntervalMinutes))
                    || r == Some(LowRateExceeded(cfg.maxLowAlertsPerHour))
  {
    if p == CriticalPriority then None
    else if key in lastSeen && now - lastSeen[key] < 60 * cfg.minIntervalMinutes then
      Some(WithinInterval(cfg.minIntervalMinutes))
    else if p == LowPriority && CountRecentWith(h, now, LowPriority) >= cfg.maxLowAlertsPerHour then
      Some(LowRateExceeded(cfg.maxLowAlertsPerHour))
    else None
  }

  /** A key's first alert is never suppressed for time, and HIGH or MEDIUM alerts only for time. */
  lemma SuppressionCases(cfg: AlertPriorityConfig, h: seq<Alert>, lastSeen: map<string, int>,
                         p: Priority, key: string, now: int)
    ensures key !in lastSeen ==> Suppression(cfg, h, lastSeen, p, key, now) != Some(WithinInterval(cfg.minIntervalMinutes))
    ensures p != LowPriority && key !in lastSeen ==> Suppression(cfg, h, lastSeen, p, key, now).None?
  {
  }

  // ---------------------------------------------------------------------
  // Metrics
  // ---------------------------------------------------------------------

  datatype FatigueMetrics = FatigueMetrics(
    totalAlerts: nat,
    alertsPerHour: nat,
    suppressedCount: nat,
    acknowledgedCount: nat,
    criticalCount: nat,
    highCount: nat,
    mediumCount: nat,
    lowCount: nat,
    level: FatigueLevel,
    recommendation: string)

  /** `get_fatigue_metrics` at instant `now`. */
  function Metrics(h: seq<Alert>, threshold: nat, now: int): (m: FatigueMetrics)
    ensures m.criticalCount + m.highCount + m.mediumCount + m.lowCount == m.alertsPerHour
    ensures m.alertsPerHour <= m.totalAlerts == |h|
    ensures m.suppressedCount <= m.totalAlerts && m.acknowledgedCount <= m.totalAlerts
    ensures m.level == HighFatigue <==> m.alertsPerHour >= threshold
    ensures m.level == ElevatedFatigue <==>
      m.alertsPerHour < threshold && m.alertsPerHour as real >= threshold as real * 0.7
    ensures m.totalAlerts == |h| && m.alertsPerHour == CountRecent(h, now)
    ensures m.criticalCount == CountRecentWith(h, now, CriticalPriority)
    ensures m.highCount == CountRecentWith(h, now, HighPriority)
    ensures m.mediumCount == CountRecentWith(h, now, MediumPriority)
    ensures m.lowCount == CountRecentWith(h, now, LowPriority)
    ensures m.suppressedCount == CountSuppressed(h) && m.acknowledgedCount == CountAcknowledged(h)
  {
    RecentByPriority(h, now);
    var perHour := CountRecent(h, now);
    var level := FatigueLevelOf(perHour, threshold);
    FatigueMetrics(|h|, perHour, CountSuppressed(h), CountAcknowledged(h),
      CountRecentWith(h, now, CriticalPriority), CountRecentWith(h, now, HighPriority),
      CountRecentWith(h, now, MediumPriority), CountRecentWith(h, now, LowPriority),
      level, FatigueAdvice(level))
  }

  datatype SuppressionStats = SuppressionStats(total: nat, suppressed: nat, rate: real, effective: nat)

  /** `get_suppression_statistics`. */
  function SuppressionStatistics(h: seq<Alert>): (s: SuppressionStats)
    ensures s.total == |h| && s.suppressed + s.effective == s.total
    ensures 0.0 <= s.rate <= 1.0
    ensures s.total == 0 ==> s.rate == 0.0
    ensures s.suppressed == CountSuppressed(h)
    ensures s.total > 0 ==> s.rate == s.suppressed as real / s.total as real
  {
    var n := CountSuppressed(h);
    SuppressionStats(|h|, n, if |h| > 0 then n as real / |h| as real else 0.0, |h| - n)
  }

  // ---------------------------------------------------------------------
  // Acknowledgement and feedback target the first alert with the id
  // ---------------------------------------------------------------------

  /** Position of the first alert with `id`, or `|h|` when there is none. */
  function FirstWithId(h: seq<Alert>, id: nat): (k: nat)
    ensures k <= |h|
    ensures forall j | 0 <= j < k :: h[j].id != id
    ensures k < |h| ==> h[k].id == id
  {
    if |h| == 0 then 0
    else if h[0].id == id then 0
    else 1 + FirstWithId(h[1..], id)
  }

  /** The contract above pins the position down. */
  lemma FirstWithIdUnique(h: seq<Alert>, id: nat, k: nat)
    requires k <= |h| && (forall j | 0 <= j < k :: h[j].id != id) && (k < |h| ==> h[k].id == id)
    ensures FirstWithId(h, id) == k
  {
  }

  /** The history after `acknowledge_alert(id)`. */
  function Acknowledged(h: seq<Alert>, id: nat): (r: seq<Alert>)
    ensures |r| == |h|
    ensures forall i | 0 <= i < |h| ::
      r[i] == if i == FirstWithId(h, id) then h[i].(acknowledged := true) else h[i]
  {
    var k := FirstWithId(h, id);
    if k < |h| then h[k := h[k].(acknowledged := true)] else h
  }

  /** An unknown id changes nothing; with distinct ids, exactly the alert carrying it is marked. */
  lemma AcknowledgedTargets(h: seq<Alert>, id: nat)
    requires IdsIncreasing(h)
    ensures (forall i | 0 <= i < |h| :: h[i].id != id) ==> Acknowledged(h, id) == h
    ensures forall i | 0 <= i < |h| :: h[i].id == id ==> Acknowledged(h, id)[i].acknowledged
    ensures forall i | 0 <= i < |h| :: h[i].id != id ==> Acknowledged(h, id)[i] == h[i]
  {
    var k := FirstWithId(h, id);
    forall i | 0 <= i < |h| && h[i].id == id ensures i == k {
      assert h[k].id == id;
    }
  }

  /** The engine's state after feedback on the first alert with `id`, as a pure step. */
  datatype FeedbackState = FeedbackState(history: seq<Alert>, counts: map<string, nat>)

  function Count(counts: map<string, nat>, key: string): nat
  {
    if key in counts then counts[key] else 0
  }

  function WithFeedback(h: seq<Alert>, counts: map<string, nat>, id: nat, useful: bool): (s: FeedbackState)
    ensures |s.history| == |h|
    ensures FirstWithId(h, id) == |h| ==> s == FeedbackState(h, counts)
    ensures forall i | 0 <= i < |h| && i != FirstWithId(h, id) :: s.history[i] == h[i]
    ensures FirstWithId(h, id) < |h| ==>
      var a := h[FirstWithId(h, id)];
      var key := SuppressionKey(a.patientId, a.riskLevel);
      s.history[FirstWithId(h, id)] == a.(feedback := Some(if useful then Useful else NotUseful))
      && s.counts == (if useful then counts else counts[key := Count(counts, key) + 2])
  {
    var k := FirstWithId(h, id);
    if k == |h| then FeedbackState(h, counts)
    else
      var a := h[k];
      var key := SuppressionKey(a.patientId, a.riskLevel);
      var h' := h[k := a.(feedback := Some(if useful then Useful else NotUseful))];
      FeedbackState(h', if useful then counts else counts[key := Count(counts, key) + 2])
  }

  // ---------------------------------------------------------------------
  // Active alerts
  // ---------------------------------------------------------------------

  /** The sort key of `get_active_alerts`: priority value, then timestamp. */
  function SortKey(a: Alert): Ranking.Key
  {
    (PriorityValue(a.priority) as real, a.timestamp as real)
  }

  function Unsuppressed(h: seq<Alert>): (r: seq<Alert>)
    ensures |r| <= |h|
    ensures forall a :: a in r <==> a in h && a.suppression.None?
  {
    if |h| == 0 then []
    else
      var init := Unsuppressed(h[..|h| - 1]);
      var last := h[|h| - 1];
      assert forall a :: a in h <==> a in h[..|h| - 1] || a == last;
      if last.suppression.None? then init + [last] else init
  }

  /**
   * `get_active_alerts`: optionally without the suppressed ones, highest
   * priority first, newer first within a priority, and history order for
   * equal keys (Python's sort is stable under `reverse=True`).
   */
  function ActiveAlerts(h: seq<Alert>, includeSuppressed: bool): (r: seq<Alert>)
    ensures var xs := if includeSuppressed then h else Unsuppressed(h);
      |r| == |xs| && exists order: seq<nat> ::
        |order| == |xs| && Ranking.Ranked(seq(|xs|, i requires 0 <= i < |xs| => SortKey(xs[i])), order)
        && (forall x: int :: x in order <==> 0 <= x < |xs|)
        && forall p | 0 <= p < |r| :: order[p] < |xs| && r[p] == xs[order[p]]
  {
    var xs := if includeSuppressed then h else Unsuppressed(h);
    var keys := seq(|xs|, i requires 0 <= i < |xs| => SortKey(xs[i]));
    var order := Ranking.Rank(keys, |xs|);
    assert forall p | 0 <= p < |order| :: order[p] in order;
    seq(|order|, p requires 0 <= p < |order| => xs[order[p]])
  }

  /** Active alerts come out by non-increasing priority, newer first within a priority. */
  lemma ActiveAlertsOrdered(h: seq<Alert>, includeSuppressed: bool, p: nat, q: nat)
    requires p < q < |ActiveAlerts(h, includeSuppressed)|
    ensures var r := ActiveAlerts(h, includeSuppressed);
      PriorityValue(r[p].priority) >= PriorityValue(r[q].priority)
      && (r[p].priority == r[q].priority ==> r[p].timestamp >= r[q].timestamp)
  {
    var xs := if includeSuppressed then h else Unsuppressed(h);
    var keys := seq(|xs|, i requires 0 <= i < |xs| => SortKey(xs[i]));
    var order := Ranking.Rank(keys, |xs|);
    Ranking.RankedDescending(keys, order, p, q);
  }

  /** Picking every position of `xs` once, in any order, keeps exactly the alerts of `xs`. */
  lemma Reordered(xs: seq<Alert>, order: seq<nat>, r: seq<Alert>, a: Alert)
    requires |r| == |order| && forall x: int :: x in order <==> 0 <= x < |xs|
    requires forall p | 0 <= p < |r| :: order[p] < |xs| && r[p] == xs[order[p]]
    ensures a in r <==> a in xs
  {
    if a in xs {
      var i :| 0 <= i < |xs| && xs[i] == a;
      assert i in order;
      var p :| 0 <= p < |order| && order[p] == i;
      assert r[p] == a;
    }
  }

  /** Without `includeSuppressed`, no suppressed alert is active; every unsuppressed one is. */
  lemma ActiveAlertsMembers(h: seq<Alert>, a: Alert)
    ensures a in ActiveAlerts(h, false) <==> a in h && a.suppression.None?
  {
    var xs := Unsuppressed(h);
    var keys := seq(|xs|, i requires 0 <= i < |xs| => SortKey(xs[i]));
    var order := Ranking.Rank(keys, |xs|);
    var r := ActiveAlerts(h, false);
    assert forall p | 0 <= p < |order| :: order[p] in order;
    assert r == seq(|order|, p requires 0 <= p < |order| => xs[order[p]]);
    Reordered(xs, order, r, a);
  }

  /** The last-seen times after `cutoff`. */
  function SeenAfter(lastSeen: map<string, int>, cutoff: int): (m: map<string, int>)
    ensures forall k :: k in m <==> k in lastSeen && lastSeen[k] > cutoff
    ensures forall k | k in m :: m[k] == lastSeen[k]
  {
    map k | k in lastSeen && lastSeen[k] > cutoff :: lastSeen[k]
  }

  // ---------------------------------------------------------------------
  // The engine
  // ---------------------------------------------------------------------

  class SmartAlertEngine {
    const config: AlertPriorityConfig
    var history: seq<Alert>
    var lastSeen: map<string, int>
    var feedbackLog: seq<FeedbackEntry>
    var counts: map<string, nat>
    var nextId: nat

    /** The history fits its capacity and its ids are distinct, increasing and already issued. */
    ghost predicate Valid()
      reads this
    {
      |history| <= config.historySize && IdsIncreasing(history) && IdsBelow(history, nextId)
    }

    constructor(config: AlertPriorityConfig)
      ensures this.config == config && Valid()
      ensures history == [] && lastSeen == map[] && feedbackLog == [] && counts == map[] && nextId == 0
    {
      this.config := config;
      history, lastSeen, feedbackLog, counts, nextId := [], map[], [], map[], 0;
    }

    function GetFatigueMetrics(now: int): (m: FatigueMetrics)
      reads this
      ensures m.totalAlerts == |history| && m.alertsPerHour == CountRecent(history, now)
      ensures m.level == FatigueLevelOf(m.alertsPerHour, config.fatigueThreshold)
    {
      Metrics(history, config.fatigueThreshold, now)
    }

    function GetSuppressionStatistics(): (s: SuppressionStats)
      reads this
      ensures s.total == |history| && s.suppressed == CountSuppressed(history)
      ensures s.suppressed + s.effective == s.total && 0.0 <= s.rate <= 1.0
    {
      SuppressionStatistics(history)
    }

    function GetActiveAlerts(includeSuppressed: bool): seq<Alert>
      reads this
    {
      ActiveAlerts(history, includeSuppressed)
    }

    /**
     * `prioritize_alert`: the adjusted priority and the suppression verdict
     * come from the state before the call; the alert is then recorded,
     * suppressed or not, and its key's last time and count are updated.
     */
    method PrioritizeAlert(riskLevel: string, score: real, message: string, recommendations: seq<string>,
                           patientId: Option<string>, source: string, context: Option<Context>, now: int)
      returns (a: Alert)
      requires Valid()
      modifies this
      ensures Valid()
      ensures var key := SuppressionKey(patientId, riskLevel);
        var fatigue := FatigueLevelOf(CountRecent(old(history), now), config.fatigueThreshold);
        var p := AdjustPriority(BasePriority(riskLevel, score), fatigue, Count(old(counts), key),
                                config.consecutiveThreshold, context).0;
        a == Alert(old(nextId), patientId, riskLevel, score, p, message, recommendations, now, source,
                   Suppression(config, old(history), old(lastSeen), p, key, now), None, false)
      ensures history == Push(old(history), a, config.historySize)
      ensures var key := SuppressionKey(patientId, riskLevel);
        lastSeen == old(lastSeen)[key := now] && counts == old(counts)[key := Count(old(counts), key) + 1]
      ensures feedbackLog == old(feedbackLog) && nextId == old(nextId) + 1
    {
      a := NewAlert(riskLevel, score, message, recommendations, patientId, source, context, now);
      assert IdsBelow(history, a.id + 1) && forall i | 0 <= i < |history| :: history[i].id < a.id;
      nextId := nextId + 1;
      RecordAlert(a);
    }

    /** The alert `prioritize_alert` builds, from the state before the call. */
    method NewAlert(riskLevel: string, score: real, message: string, recommendations: seq<string>,
                    patientId: Option<string>, source: string, context: Option<Context>, now: int)
      returns (a: Alert)
      ensures var key := SuppressionKey(patientId, riskLevel);
        var fatigue := FatigueLevelOf(CountRecent(history, now), config.fatigueThreshold);
        var p := AdjustPriority(BasePriority(riskLevel, score), fatigue, Count(counts, key),
                                config.consecutiveThreshold, context).0;
        a == Alert(nextId, patientId, riskLevel, score, p, message, recommendations, now, source,
                   Suppression(config, history, lastSeen, p, key, now), None, false)
    {
      var key := SuppressionKey(patientId, riskLevel);
      var base := BasePriority(riskLevel, score);
      var metrics := Metrics(history, config.fatigueThreshold, now);
      var adjusted := AdjustPriority(base, metrics.level, Count(counts, key), config.consecutiveThreshold, context);
      var p := adjusted.0;
      var suppression := Suppression(config, history, lastSeen, p, key, now);
      a := Alert(nextId, patientId, riskLevel, score, p, message, recommendations, now, source,
                 suppression, None, false);
    }

    /** `_record_alert`. */
    method RecordAlert(a: Alert)
      requires |history| <= config.historySize && IdsIncreasing(history) && IdsBelow(history, a.id + 1)
      requires a.id < nextId && (forall i | 0 <= i < |history| :: history[i].id < a.id)
      modifies this
      ensures Valid()
      ensures history == Push(old(history), a, config.historySize)
      ensures var key := SuppressionKey(a.patientId, a.riskLevel);
        lastSeen == old(lastSeen)[key := a.timestamp] && counts == old(counts)[key := Count(old(counts), key) + 1]
      ensures feedbackLog == old(feedbackLog) && nextId == old(nextId)
    {
      var h := history;
      history := Push(history, a, config.historySize);
      forall i, j | 0 <= i < j < |history| ensures history[i].id < history[j].id {
        if j == |history| - 1 {
          assert history[i] == h[|h| + 1 - |history| + i];
        } else {
          assert history[i] == h[|h| + 1 - |history| + i] && history[j] == h[|h| + 1 - |history| + j];
        }
      }
      forall i | 0 <= i < |history| ensures history[i].id < nextId {
        if i < |history| - 1 {
          assert history[i] == h[|h| + 1 - |history| + i];
        }
      }
      var key := SuppressionKey(a.patientId, a.riskLevel);
      lastSeen := lastSeen[key := a.timestamp];
      counts := counts[key := Count(counts, key) + 1];
    }

    /** `acknowledge_alert`: mark the first alert carrying `id`, if any. */
    method AcknowledgeAlert(id: nat)
      requires Valid()
      modifies this
      ensures Valid()
      ensures history == Acknowledged(old(history), id)
      ensures lastSeen == old(lastSeen) && counts == old(counts) && feedbackLog == old(feedbackLog)
      ensures nextId == old(nextId)
    {
      var i := 0;
      while i < |history| && history[i].id != id
        invariant 0 <= i <= |history|
        invariant forall j | 0 <= j < i :: history[j].id != id
      {
        i := i + 1;
      }
      FirstWithIdUnique(history, id, i);
      if i < |history| {
        history := history[i := history[i].(acknowledged := true)];
      }
    }

    /**
     * `register_feedback`: always logged; the first alert carrying `id` gets
     * the verdict, and a "not useful" verdict adds 2 to its key's count.
     */
    method RegisterFeedback(id: nat, useful: bool, text: Option<string>, now: int)
      requires Valid()
      modifies this
      ensures Valid()
      ensures feedbackLog == old(feedbackLog) + [FeedbackEntry(id, useful, text, now)]
      ensures FeedbackState(history, counts) == WithFeedback(old(history), old(counts), id, useful)
      ensures lastSeen == old(lastSeen) && nextId == old(nextId)
    {
      feedbackLog := feedbackLog + [FeedbackEntry(id, useful, text, now)];
      var i := 0;
      while i < |history| && history[i].id != id
        invariant 0 <= i <= |history|
        invariant forall j | 0 <= j < i :: history[j].id != id
      {
        i := i + 1;
      }
      FirstWithIdUnique(history, id, i);
      if i < |history| {
        var a := history[i];
        history := history[i := a.(feedback := Some(if useful then Useful else NotUseful))];
        if !useful {
          var key := SuppressionKey(a.patientId, a.riskLevel);
          counts := counts[key := Count(counts, key) + 2];
        }
      }
    }

    /** `clear_old_alerts`: drop history entries and last-seen times at or before `hours` ago; counts stay. */
    method ClearOldAlerts(hours: int, now: int)
      requires Valid()
      modifies this
      ensures Valid()
      ensures history == NewerThan(old(history), now - 3600 * hours)
      ensures lastSeen == SeenAfter(old(lastSeen), now - 3600 * hours)
      ensures counts == old(counts) && feedbackLog == old(feedbackLog) && nextId == old(nextId)
    {
      var cutoff := now - 3600 * hours;
      var newer := NewerThan(history, cutoff);
      NewerThanKeepsIds(history, cutoff, nextId);
      assert |newer| <= |history|;
      history := newer;
      lastSeen := SeenAfter(lastSeen, cutoff);
    }
  }
}
