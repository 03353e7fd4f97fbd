/** The rule-based real-time alert engine: a table of alert rules keyed by
    id, a sweep that evaluates the active rules outside their cooldown
    against the latest closing prices and records each alert it raises, and
    the history query.

    Time is a number of seconds passed in as `now`. Indicator values and the
    rolling volatility come from pandas and are given with the market data.
    Rules are values held in the engine's table, so stamping a rule's last
    trigger time updates the table entry. */
module AlertEngine {
  import opened Common

  /** An alert rule. `ruleType` is one of "price", "change_pct", "indicator",
      "volatility" (other names never fire); `condition` one of "above",
      "below", "cross_up", "cross_down". */
  datatype AlertRule = AlertRule(
    id: string, name: string, ruleType: string, condition: string, threshold: real,
    symbol: string, active: bool, notificationChannels: seq<string>,
    cooldownMinutes: int, lastTriggered: Option<int>)

  /** The rule record with the source's defaults: symbol "CU", active, a
      one-hour cooldown, never triggered, and the console as the only
      channel when none is given. */
  function NewAlertRule(id: string, name: string, ruleType: string, condition: string, threshold: real,
                        symbol: string := "CU", channels: Option<seq<string>> := None,
                        cooldownMinutes: int := 60): (r: AlertRule)
    ensures r.id == id && r.name == name && r.ruleType == ruleType && r.condition == condition
    ensures r.threshold == threshold && r.cooldownMinutes == cooldownMinutes
    ensures r.symbol == symbol && r.active && r.lastTriggered.None?
    ensures r.notificationChannels == if channels.Some? then channels.value else ["console"]
  {
    AlertRule(id, name, ruleType, condition, threshold, symbol, true,
              if channels.Some? then channels.value else ["console"], cooldownMinutes, None)
  }

  /** What a check sees: the closing prices (oldest first, at least one),
      the indicator values by rule name, and the rolling volatility in
      percent (None while it is NaN). */
  datatype MarketData = MarketData(closes: seq<real>, indicators: map<string, real>, volatility: Option<real>)

  function Current(data: MarketData): real
    requires |data.closes| > 0
  {
    data.closes[|data.closes| - 1]
  }

  /** The close before the last one, or the last one for a single row. */
  function Previous(data: MarketData): real
    requires |data.closes| > 0
  {
    if |data.closes| > 1 then data.closes[|data.closes| - 2] else Current(data)
  }

  /** Whether a rule's condition holds on the data. A change of a price
      from 0 is infinite (or undefined for 0 to 0), so then "above" holds for
      a rise and "below" for a fall. Unknown type/condition pairs do not hold. */
  function ConditionHolds(rule: AlertRule, data: MarketData): (b: bool)
    requires |data.closes| > 0
    ensures b && rule.ruleType == "price" ==>
      rule.condition in {"above", "below", "cross_up", "cross_down"}
    ensures b && (rule.ruleType == "change_pct" || rule.ruleType == "indicator") ==>
      rule.condition in {"above", "below"}
    ensures b && rule.ruleType == "indicator" ==> rule.name in data.indicators
    ensures b && rule.ruleType == "volatility" ==>
      rule.condition == "above" && data.volatility.Some? && data.volatility.value > rule.threshold
    ensures b ==> rule.ruleType in {"price", "change_pct", "indicator", "volatility"}
  {
    var current, previous := Current(data), Previous(data);
    if rule.ruleType == "price" then
      if rule.condition == "above" then current > rule.threshold
      else if rule.condition == "below" then current < rule.threshold
      else if rule.condition == "cross_up" then previous <= rule.threshold && current > rule.threshold
      else if rule.condition == "cross_down" then previous >= rule.threshold && current < rule.threshold
      else false
    else if rule.ruleType == "change_pct" then
      if previous == 0.0 then
        if rule.condition == "above" then current > 0.0
        else if rule.condition == "below" then current < 0.0
        else false
      else
        var changePct := (current / previous - 1.0) * 100.0;
        if rule.condition == "above" then changePct > rule.threshold
        else if rule.condition == "below" then changePct < -rule.threshold
        else false
    else if rule.ruleType == "indicator" then
      if rule.name !in data.indicators then false
      else if rule.condition == "above" then data.indicators[rule.name] > rule.threshold
      else if rule.condition == "below" then data.indicators[rule.name] < rule.threshold
      else false
    else if rule.ruleType == "volatility" then
      rule.condition == "above" && data.volatility.Some? && data.volatility.value > rule.threshold
    else false
  }

  /** A crossing needs two rows: with one row the previous close is the
      current one and neither crossing holds; the two crossings exclude each
      other, and an upward crossing ends above the threshold. */
  lemma CrossingConditions(rule: AlertRule, data: MarketData)
    requires |data.closes| > 0 && rule.ruleType == "price"
    ensures |data.closes| == 1 && (rule.condition == "cross_up" || rule.condition == "cross_down") ==>
      !ConditionHolds(rule, data)
    ensures rule.condition == "cross_up" ==>
      (ConditionHolds(rule, data) <==> Previous(data) <= rule.threshold < Current(data))
    ensures rule.condition == "cross_down" ==>
      (ConditionHolds(rule, data) <==> Previous(data) >= rule.threshold > Current(data))
    ensures ConditionHolds(rule, data) && rule.condition == "cross_up" ==>
      !ConditionHolds(rule.(condition := "cross_down"), data) &&
      ConditionHolds(rule.(condition := "above"), data)
  {
  }

  /** The percentage change rules: "above" fires past +threshold, "below"
      past -threshold, on a non-zero previous close. */
  lemma ChangePctConditions(rule: AlertRule, data: MarketData)
    requires |data.closes| > 0 && rule.ruleType == "change_pct" && Previous(data) != 0.0
    ensures var change := (Current(data) / Previous(data) - 1.0) * 100.0;
      (rule.condition == "above" ==> (ConditionHolds(rule, data) <==> change > rule.threshold)) &&
      (rule.condition == "below" ==> (ConditionHolds(rule, data) <==> change < -rule.threshold)) &&
      (rule.condition != "above" && rule.condition != "below" ==> !ConditionHolds(rule, data))
  {
  }

  /** A rule is cooling down before `cooldownMinutes` have passed since its
      last trigger. */
  predicate InCooldown(rule: AlertRule, now: int)
  {
    rule.lastTriggered.Some? && now < rule.lastTriggered.value + 60 * rule.cooldownMinutes
  }

  /** A rule fires when it is active, not cooling down and its condition
      holds. */
  predicate Fires(rule: AlertRule, data: MarketData, now: int)
    requires |data.closes| > 0
    ensures Fires(rule, data, now) ==> rule.active && ConditionHolds(rule, data)
    ensures Fires(rule, data, now) && rule.lastTriggered.Some? ==>
      now >= rule.lastTriggered.value + 60 * rule.cooldownMinutes
    ensures rule.lastTriggered.None? ==>
      (Fires(rule, data, now) <==> rule.active && ConditionHolds(rule, data))
  {
    rule.active && !InCooldown(rule, now) && ConditionHolds(rule, data)
  }

  /** After firing at `now`, a rule with a positive cooldown stays silent at
      every time before now + cooldown and is evaluated again from then on. */
  lemma CooldownAfterFiring(rule: AlertRule, data: MarketData, now: int, later: int)
    requires |data.closes| > 0
    ensures var stamped := rule.(lastTriggered := Some(now));
      (now <= later < now + 60 * rule.cooldownMinutes ==> !Fires(stamped, data, later)) &&
      (later >= now + 60 * rule.cooldownMinutes ==>
         (Fires(stamped, data, later) <==> rule.active && ConditionHolds(rule, data)))
  {
  }

  /** One alert record; the timestamp-based id and the price snapshot are
      left out. */
  datatype AlertRecord = AlertRecord(
    ruleId: string, ruleName: string, timestamp: int, symbol: string,
    currentPrice: real, threshold: real, condition: string)

  function RecordFor(rule: AlertRule, data: MarketData, now: int): AlertRecord
    requires |data.closes| > 0
  {
    AlertRecord(rule.id, rule.name, now, rule.symbol, Current(data), rule.threshold, rule.condition)
  }

  /** The records raised by a sweep over the rules `ids`, in order. */
  function FiredRecords(rules: map<string, AlertRule>, ids: seq<string>, data: MarketData, now: int)
    : (rs: seq<AlertRecord>)
    requires |data.closes| > 0 && forall id :: id in ids ==> id in rules
    ensures |rs| <= |ids|
  {
    if |ids| == 0 then []
    else
      var id := ids[|ids| - 1];
      FiredRecords(rules, ids[..|ids| - 1], data, now) +
        (if Fires(rules[id], data, now) then [RecordFor(rules[id], data, now)] else [])
  }

  /** The rule table after a sweep over `ids`: each firing rule stamped with
      `now`. */
  function Stamped(rules: map<string, AlertRule>, ids: seq<string>, data: MarketData, now: int)
    : (r: map<string, AlertRule>)
    requires |data.closes| > 0 && forall id :: id in ids ==> id in rules
    ensures r.Keys == rules.Keys
  {
    if |ids| == 0 then rules
    else
      var id := ids[|ids| - 1];
      var prior := Stamped(rules, ids[..|ids| - 1], data, now);
      if Fires(rules[id], data, now) then prior[id := rules[id].(lastTriggered := Some(now))] else prior
  }

  /** A sweep changes exactly the rules that fire: each of them is stamped
      with the sweep time, every other rule is left as it was. */
  lemma {:induction false} StampedEffect(rules: map<string, AlertRule>, ids: seq<string>, data: MarketData,
                                         now: int, id: string)
    requires |data.closes| > 0 && (forall k :: k in ids ==> k in rules) && id in rules
    ensures Stamped(rules, ids, data, now)[id] ==
      if id in ids && Fires(rules[id], data, now) then rules[id].(lastTriggered := Some(now)) else rules[id]
  {
    if |ids| > 0 {
      assert forall k :: k in ids[..|ids| - 1] ==> k in ids;
      StampedEffect(rules, ids[..|ids| - 1], data, now, id);
      assert id in ids <==> id in ids[..|ids| - 1] || id == ids[|ids| - 1] by {
        assert ids == ids[..|ids| - 1] + [ids[|ids| - 1]];
      }
    }
  }

  /** One more rule in a sweep. */
  lemma SweepStep(rules: map<string, AlertRule>, ids: seq<string>, i: nat, data: MarketData, now: int)
    requires |data.closes| > 0 && i < |ids| && forall id :: id in ids ==> id in rules
    ensures forall k :: k in ids[..i] ==> k in rules
    ensures var id := ids[i];
      var fires := Fires(rules[id], data, now);
      Stamped(rules, ids[..i + 1], data, now) ==
        (if fires then Stamped(rules, ids[..i], data, now)[id := rules[id].(lastTriggered := Some(now))]
         else Stamped(rules, ids[..i], data, now)) &&
      FiredRecords(rules, ids[..i + 1], data, now) ==
        FiredRecords(rules, ids[..i], data, now) + (if fires then [RecordFor(rules[id], data, now)] else [])
  {
    assert ids[..i + 1][..i] == ids[..i];
    assert forall k :: k in ids[..i] ==> k in ids;
  }

  /** A sweep keeps every rule filed under its own id. */
  lemma StampedKeepsIds(rules: map<string, AlertRule>, ids: seq<string>, data: MarketData, now: int)
    requires |data.closes| > 0 && (forall k :: k in ids ==> k in rules)
    requires forall id :: id in rules ==> rules[id].id == id
    ensures var r := Stamped(rules, ids, data, now);
      forall id :: id in r ==> r[id].id == id
  {
    forall id | id in Stamped(rules, ids, data, now)
      ensures Stamped(rules, ids, data, now)[id].id == id
    {
      StampedEffect(rules, ids, data, now, id);
    }
  }

  /** Each raised record belongs to a rule of the sweep that fires; a rule
      that is inactive (or cooling down) raises no record. */
  lemma {:induction false} RecordsComeFromFiringRules(rules: map<string, AlertRule>, ids: seq<string>,
                                                      data: MarketData, now: int)
    requires |data.closes| > 0 && forall id :: id in ids ==> id in rules
    ensures forall r :: r in FiredRecords(rules, ids, data, now) ==>
      r.timestamp == now && exists id :: id in ids && r == RecordFor(rules[id], data, now) &&
                                         Fires(rules[id], data, now)
  {
    if |ids| > 0 {
      assert forall k :: k in ids[..|ids| - 1] ==> k in ids;
      RecordsComeFromFiringRules(rules, ids[..|ids| - 1], data, now);
    }
  }

  /** The number of records of a sweep is the number of rules that fire. */
  lemma {:induction false} OneRecordPerFiringRule(rules: map<string, AlertRule>, ids: seq<string>,
                                                  data: MarketData, now: int)
    requires |data.closes| > 0 && forall id :: id in ids ==> id in rules
    ensures |FiredRecords(rules, ids, data, now)| == |FiringIds(rules, ids, data, now)|
  {
    if |ids| > 0 {
      assert forall k :: k in ids[..|ids| - 1] ==> k in ids;
      OneRecordPerFiringRule(rules, ids[..|ids| - 1], data, now);
    }
  }

  /** The ids among `ids` whose rule fires, in order. */
  function FiringIds(rules: map<string, AlertRule>, ids: seq<string>, data: MarketData, now: int)
    : (fs: seq<string>)
    requires |data.closes| > 0 && forall id :: id in ids ==> id in rules
    ensures forall id :: id in fs <==> id in ids && Fires(rules[id], data, now)
  {
    if |ids| == 0 then []
    else
      var id := ids[|ids| - 1];
      assert forall k :: k in ids <==> k in ids[..|ids| - 1] || k == id by {
        assert ids == ids[..|ids| - 1] + [id];
      }
      FiringIds(rules, ids[..|ids| - 1], data, now) + (if Fires(rules[id], data, now) then [id] else [])
  }

  /** The position of the first `x` in `s`. */
  function IndexOf(s: seq<string>, x: string): (k: nat)
    requires x in s
    ensures k < |s| && s[k] == x && x !in s[..k]
  {
    if s[0] == x then 0
    else
      assert x in s[1..];
      var j := IndexOf(s[1..], x);
      assert s[..j + 1] == [s[0]] + s[1..][..j];
      j + 1
  }

  /** `s` without `x`. In a list without repeats that holds `x`, this takes
      out the one occurrence and keeps the others in their order. */
  function Without(s: seq<string>, x: string): (r: seq<string>)
    ensures forall y :: y in r <==> y in s && y != x
    ensures Distinct(s) ==> Distinct(r)
    ensures x !in s ==> r == s
    ensures Distinct(s) && x in s ==> r == s[..IndexOf(s, x)] + s[IndexOf(s, x) + 1..]
  {
    if |s| == 0 then []
    else
      var rest := Without(s[1..], x);
      DistinctTail(s);
      if s[0] == x then rest
      else
        if Distinct(s) && x in s then
          assert x in s[1..];
          ConsSplit(s, IndexOf(s[1..], x));
          [s[0]] + rest
        else
          [s[0]] + rest
  }

  lemma DistinctTail(s: seq<string>)
    requires |s| > 0
    ensures s == [s[0]] + s[1..]
    ensures Distinct(s) ==> Distinct(s[1..]) && s[0] !in s[1..]
  {
  }

  /** Putting the head back in front of the tail without its element j. */
  lemma ConsSplit(s: seq<string>, j: nat)
    requires j + 1 < |s|
    ensures [s[0]] + (s[1..][..j] + s[1..][j + 1..]) == s[..j + 1] + s[j + 2..]
  {
    assert s[..j + 1] == [s[0]] + s[1..][..j];
    assert s[j + 2..] == s[1..][j + 1..];
  }

  /** Records strictly after `cutoff`, in their original order. */
  function After(history: seq<AlertRecord>, cutoff: int): (r: seq<AlertRecord>)
    ensures |r| <= |history|
    ensures forall a :: a in r <==> a in history && a.timestamp > cutoff
  {
    if |history| == 0 then []
    else (if history[0].timestamp > cutoff then [history[0]] else []) + After(history[1..], cutoff)
  }

  /** Filtering distributes over appending, so the filtered history of a
      grown history extends the filtered history of the old one. */
  lemma {:induction false} AfterAppend(a: seq<AlertRecord>, b: seq<AlertRecord>, cutoff: int)
    ensures After(a + b, cutoff) == After(a, cutoff) + After(b, cutoff)
  {
    if |a| > 0 {
      assert (a + b)[1..] == a[1..] + b;
      AfterAppend(a[1..], b, cutoff);
    } else {
      assert a + b == b;
    }
  }

  class AlertEngine {
    var rules: map<string, AlertRule>
    /** The ids of `rules` in insertion order (the dictionary's order). */
    var order: seq<string>
    var alertHistory: seq<AlertRecord>
    var dataCache: Option<MarketData>

    /** Every rule is filed under its own id, once, in `order`. */
    ghost predicate Valid()
      reads this
    {
      Distinct(order) &&
      (forall id :: id in rules <==> id in order) &&
      (forall id :: id in rules ==> rules[id].id == id)
    }

    constructor()
      ensures Valid() && rules == map[] && order == [] && alertHistory == [] && dataCache.None?
    {
      rules := map[];
      order := [];
      alertHistory := [];
      dataCache := None;
    }

    /** Files the rule under its id, replacing a rule with the same id in
        place; a new id goes last. */
    method AddRule(rule: AlertRule)
      requires Valid()
      modifies this
      ensures Valid()
      ensures rules == old(rules)[rule.id := rule]
      ensures order == if rule.id in old(rules) then old(order) else old(order) + [rule.id]
      ensures alertHistory == old(alertHistory) && dataCache == old(dataCache)
    {
      if rule.id !in rules {
        order := order + [rule.id];
      }
      rules := rules[rule.id := rule];
    }

    /** Deletes the rule with this id; nothing happens when there is none. */
    method RemoveRule(ruleId: string)
      requires Valid()
      modifies this
      ensures Valid()
      ensures rules == old(rules) - {ruleId}
      ensures ruleId !in old(rules) ==> order == old(order)
      ensures ruleId in old(rules) ==>
        order == old(order)[..IndexOf(old(order), ruleId)] + old(order)[IndexOf(old(order), ruleId) + 1..]
      ensures alertHistory == old(alertHistory) && dataCache == old(dataCache)
    {
      if ruleId in rules {
        rules := rules - {ruleId};
        order := Without(order, ruleId);
      }
    }

    /** The check of one rule during a sweep: skipped when inactive or
        cooling down; otherwise, when its condition holds, one record is
        appended and the rule is stamped with `now`. */
    method CheckRule(id: string, data: MarketData, now: int)
      requires id in rules && |data.closes| > 0
      modifies this
      ensures order == old(order) && dataCache == old(dataCache)
      ensures var rule := old(rules)[id];
        if Fires(rule, data, now) then
          rules == old(rules)[id := rule.(lastTriggered := Some(now))] &&
          alertHistory == old(alertHistory) + [RecordFor(rule, data, now)]
        else
          rules == old(rules) && alertHistory == old(alertHistory)
    {
      var rule := rules[id];
      if !rule.active {
        return;
      }
      if rule.lastTriggered.Some? {
        var cooldownEnd := rule.lastTriggered.value + 60 * rule.cooldownMinutes;
        if now < cooldownEnd {
          return;
        }
      }
      var triggered := ConditionHolds(rule, data);
      if triggered {
        var currentPrice := data.closes[|data.closes| - 1];
        var alert := AlertRecord(rule.id, rule.name, now, rule.symbol, currentPrice, rule.threshold,
                                 rule.condition);
        alertHistory := alertHistory + [alert];
        rules := rules[id := rule.(lastTriggered := Some(now))];
      }
    }

    /** Step i of the sweep: checking rule ids[i] extends the stamped table
        and the appended records from the first i ids to the first i + 1. */
    method SweepRule(ghost rules0: map<string, AlertRule>, ghost history0: seq<AlertRecord>, ids: seq<string>, i: nat,
                     data: MarketData, now: int)
      requires |data.closes| > 0 && i < |ids| && Distinct(ids) && forall id :: id in ids ==> id in rules0
      requires rules == Stamped(rules0, ids[..i], data, now)
      requires alertHistory == history0 + FiredRecords(rules0, ids[..i], data, now)
      modifies this
      ensures order == old(order) && dataCache == old(dataCache)
      ensures rules == Stamped(rules0, ids[..i + 1], data, now)
      ensures alertHistory == history0 + FiredRecords(rules0, ids[..i + 1], data, now)
    {
      SweepStep(rules0, ids, i, data, now);
      var id := ids[i];
      DistinctPrefix(ids, i);
      StampedEffect(rules0, ids[..i], data, now, id);
      CheckRule(id, data, now);
    }

    /** One sweep at time `now`: every rule that fires, in table order, gets
        one record appended to the history and its last trigger time set to
        `now`; nothing else changes. */
    method CheckAlerts(data: MarketData, now: int)
      requires Valid() && |data.closes| > 0
      modifies this
      ensures Valid()
      ensures order == old(order) && dataCache == Some(data)
      ensures rules == Stamped(old(rules), old(order), data, now)
      ensures alertHistory == old(alertHistory) + FiredRecords(old(rules), old(order), data, now)
    {
      dataCache := Some(data);
      ghost var rules0 := rules;
      ghost var history0 := alertHistory;
      var ids := order;
      for i := 0 to |ids|
        invariant order == ids && dataCache == Some(data)
        invariant forall id :: id in ids ==> id in rules0
        invariant rules == Stamped(rules0, ids[..i], data, now)
        invariant alertHistory == history0 + FiredRecords(rules0, ids[..i], data, now)
      {
        SweepRule(rules0, history0, ids, i, data, now);
      }
      assert ids[..|ids|] == ids;
      StampedKeepsIds(rules0, ids, data, now);
    }

    /** The records of the last `hours` hours: strictly after now - hours. */
    function AlertHistory(hours: int, now: int): seq<AlertRecord>
      reads this
    {
      After(alertHistory, now - 3600 * hours)
    }
  }

  // ---------------------------------------------------------------------
  // Rule templates and the default system

  /** A close above the threshold. */
  function PriceBreakout(symbol: string := "CU", threshold: real := 70000.0): (r: AlertRule)
    ensures r.id == "price_breakout" && r.symbol == symbol && r.threshold == threshold
    ensures r.cooldownMinutes == 30 && r.notificationChannels == ["console"]
  {
    NewAlertRule("price_breakout", "价格突破预警", "price", "above", threshold, symbol, Some(["console"]), 30)
  }

  /** A close below the support level. */
  function PriceSupport(symbol: string := "CU", threshold: real := 65000.0): (r: AlertRule)
    ensures r.id == "price_support" && r.symbol == symbol && r.threshold == threshold
    ensures r.cooldownMinutes == 30 && r.notificationChannels == ["console"]
  {
    NewAlertRule("price_support", "价格跌破支撑", "price", "below", threshold, symbol, Some(["console"]), 30)
  }

  /** A day-over-day rise of more than threshold percent. */
  function BigMovement(symbol: string := "CU", threshold: real := 3.0): (r: AlertRule)
    ensures r.id == "big_movement" && r.symbol == symbol && r.threshold == threshold
    ensures r.cooldownMinutes == 15 && r.notificationChannels == ["console"]
  {
    NewAlertRule("big_movement", "大幅波动预警", "change_pct", "above", threshold, symbol, Some(["console"]), 15)
  }

  /** An RSI above the threshold. */
  function RsiOverbought(symbol: string := "CU", threshold: real := 80.0): (r: AlertRule)
    ensures r.id == "rsi_overbought" && r.symbol == symbol && r.threshold == threshold
    ensures r.cooldownMinutes == 60 && r.notificationChannels == ["console"]
  {
    NewAlertRule("rsi_overbought", "RSI超买预警", "indicator", "above", threshold, symbol, Some(["console"]), 60)
  }

  /** An RSI below the threshold. */
  function RsiOversold(symbol: string := "CU", threshold: real := 20.0): (r: AlertRule)
    ensures r.id == "rsi_oversold" && r.symbol == symbol && r.threshold == threshold
    ensures r.cooldownMinutes == 60 && r.notificationChannels == ["console"]
  {
    NewAlertRule("rsi_oversold", "RSI超卖预警", "indicator", "below", threshold, symbol, Some(["console"]), 60)
  }

  /** A rolling volatility above threshold percent. */
  function HighVolatility(symbol: string := "CU", threshold: real := 5.0): (r: AlertRule)
    ensures r.id == "high_volatility" && r.symbol == symbol && r.threshold == threshold
    ensures r.cooldownMinutes == 120 && r.notificationChannels == ["console"]
  {
    NewAlertRule("high_volatility", "高波动率预警", "volatility", "above", threshold, symbol, Some(["console"]), 120)
  }

  /** What each template watches: the last close against the threshold for
      the two price rules, the day-over-day change for the movement rule, the
      indicator value filed under the rule's name for the two RSI rules, and
      the rolling volatility for the volatility rule. */
  lemma TemplateConditions(symbol: string, t: real, data: MarketData)
    requires |data.closes| > 0
    ensures ConditionHolds(PriceBreakout(symbol, t), data) <==> Current(data) > t
    ensures ConditionHolds(PriceSupport(symbol, t), data) <==> Current(data) < t
    ensures Previous(data) != 0.0 ==>
      (ConditionHolds(BigMovement(symbol, t), data) <==> (Current(data) / Previous(data) - 1.0) * 100.0 > t)
    ensures var name := RsiOverbought(symbol, t).name;
      ConditionHolds(RsiOverbought(symbol, t), data) <==> name in data.indicators && data.indicators[name] > t
    ensures var name := RsiOversold(symbol, t).name;
      ConditionHolds(RsiOversold(symbol, t), data) <==> name in data.indicators && data.indicators[name] < t
    ensures ConditionHolds(HighVolatility(symbol, t), data) <==> data.volatility.Some? && data.volatility.value > t
  {
  }

  /** The six default rules, in registration order. */
  function DefaultRules(): seq<AlertRule>
  {
    [PriceBreakout(threshold := 75000.0), PriceSupport(threshold := 65000.0), BigMovement(threshold := 2.5),
     RsiOverbought(threshold := 75.0), RsiOversold(threshold := 25.0), HighVolatility(threshold := 4.0)]
  }

  /** The default rules have distinct ids, are active, have never fired and
      notify the console only. */
  lemma DefaultRulesShape()
    ensures var rs := DefaultRules();
      |rs| == 6 &&
      (forall i, j :: 0 <= i < j < 6 ==> rs[i].id != rs[j].id) &&
      (forall i :: 0 <= i < 6 ==> rs[i].active && rs[i].lastTriggered.None? &&
                                  rs[i].notificationChannels == ["console"])
  {
  }

  /** An engine with the six default rules registered in order. */
  method CreateDefaultAlertSystem() returns (engine: AlertEngine)
    ensures fresh(engine) && engine.Valid()
    ensures engine.order == seq(6, i requires 0 <= i < 6 => DefaultRules()[i].id)
    ensures forall i :: 0 <= i < 6 ==>
      DefaultRules()[i].id in engine.rules && engine.rules[DefaultRules()[i].id] == DefaultRules()[i]
    ensures engine.alertHistory == []
  {
    engine := new AlertEngine();
    var rs := DefaultRules();
    DefaultRulesShape();
    for i := 0 to 6
      invariant engine.Valid() && engine.alertHistory == []
      invariant engine.order == seq(i, k requires 0 <= k < i => rs[k].id)
      invariant forall k :: 0 <= k < i ==> rs[k].id in engine.rules && engine.rules[rs[k].id] == rs[k]
    {
      assert rs[i].id !in engine.order;
      IdsStep(rs, i);
      engine.AddRule(rs[i]);
    }
  }

  lemma IdsStep(rs: seq<AlertRule>, i: nat)
    requires i < |rs|
    ensures seq(i + 1, k requires 0 <= k < i + 1 => rs[k].id) == seq(i, k requires 0 <= k < i => rs[k].id) + [rs[i].id]
  {
  }
}
