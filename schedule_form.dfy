/** The schedule form of the dashboard: the toggles of the impact and
    currency pickers, the validation schema, and the initial values. The
    values of each enum are parameters. */
module ScheduleForm {
  import opened Common

  /** `values.filter(x => x !== v)`. */
  function RemoveAll(xs: seq<string>, v: string): (r: seq<string>)
    ensures forall x :: x in r <==> x in xs && x != v
    ensures |r| <= |xs|
    decreases |xs|
  {
    if xs == [] then []
    else if xs[0] == v then RemoveAll(xs[1..], v)
    else [xs[0]] + RemoveAll(xs[1..], v)
  }

  /** `toggleImpact` and `toggleCurrency`: a value already selected is
      removed (every occurrence of it), any other value is appended. */
  function Toggle(v: string, xs: seq<string>): (r: seq<string>)
    ensures v in xs ==> v !in r && forall x :: x != v ==> (x in r <==> x in xs)
    ensures v !in xs ==> r == xs + [v]
  {
    if v in xs then RemoveAll(xs, v) else xs + [v]
  }

  /** Removing a value that is not there changes nothing. */
  lemma {:induction false} RemoveAbsent(xs: seq<string>, v: string)
    requires v !in xs
    ensures RemoveAll(xs, v) == xs
    decreases |xs|
  {
    if xs != [] {
      RemoveAbsent(xs[1..], v);
      assert [xs[0]] + xs[1..] == xs;
    }
  }

  /** Removing a value from a list with that value appended gives the
      list back when the value was absent. */
  lemma {:induction false} RemoveAppended(xs: seq<string>, v: string)
    requires v !in xs
    ensures RemoveAll(xs + [v], v) == xs
    decreases |xs|
  {
    if xs == [] {
      assert [v][1..] == [];
    } else {
      assert (xs + [v])[1..] == xs[1..] + [v];
      RemoveAppended(xs[1..], v);
      assert [xs[0]] + xs[1..] == xs;
    }
  }

  /** Selecting an unselected value and unselecting it again restores the
      selection exactly. */
  lemma ToggleTwiceAbsent(v: string, xs: seq<string>)
    requires v !in xs
    ensures Toggle(v, Toggle(v, xs)) == xs
  {
    RemoveAppended(xs, v);
  }

  /** Toggling twice always restores the set of selected values. */
  lemma ToggleTwiceSameMembers(v: string, xs: seq<string>)
    ensures forall x :: x in Toggle(v, Toggle(v, xs)) <==> x in xs
  {
    if v !in xs {
      ToggleTwiceAbsent(v, xs);
    }
  }

  predicate Distinct(xs: seq<string>) {
    forall i, j :: 0 <= i < j < |xs| ==> xs[i] != xs[j]
  }

  lemma {:induction false} RemoveKeepsDistinct(xs: seq<string>, v: string)
    requires Distinct(xs)
    ensures Distinct(RemoveAll(xs, v))
    decreases |xs|
  {
    if xs != [] {
      var tail := xs[1..];
      assert Distinct(tail) by {
        forall i, j | 0 <= i < j < |tail| ensures tail[i] != tail[j] {
          assert tail[i] == xs[i + 1] && tail[j] == xs[j + 1];
        }
      }
      RemoveKeepsDistinct(tail, v);
      if xs[0] != v {
        var rest := RemoveAll(tail, v);
        assert xs[0] !in tail by {
          forall k | 0 <= k < |tail| ensures tail[k] != xs[0] {
            assert tail[k] == xs[k + 1];
          }
        }
        var r := [xs[0]] + rest;
        forall i, j | 0 <= i < j < |r| ensures r[i] != r[j] {
          assert r[j] == rest[j - 1] && r[j] in rest;
          if i > 0 {
            assert r[i] == rest[i - 1];
          }
        }
      }
    }
  }

  /** A selection without repeats stays without repeats. */
  lemma ToggleKeepsDistinct(v: string, xs: seq<string>)
    requires Distinct(xs)
    ensures Distinct(Toggle(v, xs))
  {
    if v in xs {
      RemoveKeepsDistinct(xs, v);
    }
  }

  /** The values of each enum the schema checks against. */
  datatype Enums = Enums(
    timezones: seq<string>,
    newsScopes: seq<string>,
    frequencies: seq<string>,
    markets: seq<string>,
    impacts: seq<string>,
    currencies: seq<string>,
    timeDisplays: seq<string>)

  /** The form's values. */
  datatype FormData = FormData(
    channelId: string,
    hour: int,
    minute: int,
    timeZone: string,
    newsScope: string,
    frequency: string,
    market: string,
    impact: seq<string>,
    currency: seq<string>,
    timeDisplay: string)

  predicate AllIn(xs: seq<string>, valid: seq<string>) {
    forall k :: 0 <= k < |xs| ==> xs[k] in valid
  }

  /** A schema issue: the field it is on and the custom message, if any. */
  datatype Issue = Issue(field: string, message: Option<string>)

  /** One rule of the schema: whether it holds, and its issue otherwise. */
  datatype Rule = Rule(holds: bool, issue: Issue)

  const ChannelRequired := Issue("channelId", Some("Channel ID is required"))
  const ImpactRequired := Issue("impact", Some("Select at least one impact level"))

  /** The rules of `scheduleSchema`, in its field order. */
  function Rules(d: FormData, e: Enums): seq<Rule> {
    [Rule(|d.channelId| >= 1, ChannelRequired),
     Rule(0 <= d.hour <= 23, Issue("hour", None)),
     Rule(0 <= d.minute <= 59, Issue("minute", None)),
     Rule(d.timeZone in e.timezones, Issue("timeZone", None)),
     Rule(d.newsScope in e.newsScopes, Issue("newsScope", None)),
     Rule(d.frequency in e.frequencies, Issue("frequency", None)),
     Rule(d.market in e.markets, Issue("market", None)),
     Rule(AllIn(d.impact, e.impacts), Issue("impact", None)),
     Rule(|d.impact| >= 1, ImpactRequired),
     Rule(AllIn(d.currency, e.currencies), Issue("currency", None)),
     Rule(d.timeDisplay in e.timeDisplays, Issue("timeDisplay", None))]
  }

  predicate FailsWith(rules: seq<Rule>, k: int, x: Issue) {
    0 <= k < |rules| && !rules[k].holds && rules[k].issue == x
  }

  /** The issues of the rules that fail, in order. */
  function Failing(rules: seq<Rule>): (r: seq<Issue>)
    ensures r == [] <==> forall k :: 0 <= k < |rules| ==> rules[k].holds
    ensures forall x :: x in r <==> exists k :: FailsWith(rules, k, x)
    decreases |rules|
  {
    if rules == [] then []
    else
      var rest := Failing(rules[1..]);
      assert forall x :: x in rest ==> exists k :: FailsWith(rules, k, x) by {
        forall x | x in rest ensures exists k :: FailsWith(rules, k, x) {
          var k :| FailsWith(rules[1..], k, x);
          assert FailsWith(rules, k + 1, x);
        }
      }
      var r := (if rules[0].holds then [] else [rules[0].issue]) + rest;
      assert forall x :: (exists k :: FailsWith(rules, k, x)) ==> x in r by {
        forall x | exists k :: FailsWith(rules, k, x) ensures x in r {
          var k :| FailsWith(rules, k, x);
          if k > 0 {
            assert FailsWith(rules[1..], k - 1, x);
          }
        }
      }
      assert !rules[0].holds ==> FailsWith(rules, 0, rules[0].issue);
      r
  }

  /** `scheduleSchema`: the issues of the form values, one per failing
      rule, in the schema's field order. The values pass iff the channel is
      non-empty, hour and minute are in range, every enum field holds one of
      its values, and at least one impact is selected (currencies may be
      none). */
  function Issues(d: FormData, e: Enums): (r: seq<Issue>)
    ensures r == [] <==>
      |d.channelId| >= 1 && 0 <= d.hour <= 23 && 0 <= d.minute <= 59
      && d.timeZone in e.timezones && d.newsScope in e.newsScopes && d.frequency in e.frequencies
      && d.market in e.markets && |d.impact| >= 1 && AllIn(d.impact, e.impacts)
      && AllIn(d.currency, e.currencies) && d.timeDisplay in e.timeDisplays
    ensures ChannelRequired in r <==> d.channelId == ""
    ensures ImpactRequired in r <==> d.impact == []
  {
    RulesAllHold(d, e);
    ChannelIssueAt(d, e);
    ImpactIssueAt(d, e);
    Failing(Rules(d, e))
  }

  /** Every rule holds exactly when every field satisfies its rule. */
  lemma RulesAllHold(d: FormData, e: Enums)
    ensures (forall k :: 0 <= k < |Rules(d, e)| ==> Rules(d, e)[k].holds) <==>
      |d.channelId| >= 1 && 0 <= d.hour <= 23 && 0 <= d.minute <= 59
      && d.timeZone in e.timezones && d.newsScope in e.newsScopes && d.frequency in e.frequencies
      && d.market in e.markets && |d.impact| >= 1 && AllIn(d.impact, e.impacts)
      && AllIn(d.currency, e.currencies) && d.timeDisplay in e.timeDisplays
  {
    var rules := Rules(d, e);
    assert (forall k :: 0 <= k < |rules| ==> rules[k].holds) <==>
      rules[0].holds && rules[1].holds && rules[2].holds && rules[3].holds && rules[4].holds && rules[5].holds
      && rules[6].holds && rules[7].holds && rules[8].holds && rules[9].holds && rules[10].holds;
  }

  lemma ChannelIssueAt(d: FormData, e: Enums)
    ensures ChannelRequired in Failing(Rules(d, e)) <==> d.channelId == ""
  {
    IssueOnlyAt(Rules(d, e), 0, ChannelRequired);
  }

  lemma ImpactIssueAt(d: FormData, e: Enums)
    ensures ImpactRequired in Failing(Rules(d, e)) <==> d.impact == []
  {
    IssueOnlyAt(Rules(d, e), 8, ImpactRequired);
  }

  /** An issue that only rule `k` reports is among the failing issues
      exactly when rule `k` fails. */
  lemma IssueOnlyAt(rules: seq<Rule>, k: nat, x: Issue)
    requires k < |rules| && rules[k].issue == x
    requires forall j :: 0 <= j < |rules| && j != k ==> rules[j].issue != x
    ensures x in Failing(rules) <==> !rules[k].holds
  {
    if x in Failing(rules) {
      var j :| FailsWith(rules, j, x);
    } else {
      assert !FailsWith(rules, k, x);
    }
  }

  /** The initial values when no schedule is given. */
  const Blank := FormData("", 9, 0, "DEFAULT", "DAILY", "DAILY", "FOREX", ["HIGH"], [], "FIXED")

  /** The fields of an existing schedule the form is opened with; a
      missing or null field is `None`. */
  datatype PartialSchedule = PartialSchedule(
    channelId: Option<string>,
    hour: Option<int>,
    minute: Option<int>,
    timeZone: Option<string>,
    newsScope: Option<string>,
    frequency: Option<string>,
    market: Option<string>,
    impact: Option<seq<string>>,
    currency: Option<seq<string>>,
    timeDisplay: Option<string>)

  /** `x ?? fallback`. */
  function OrElse<T>(x: Option<T>, fallback: T): T {
    if x.Some? then x.value else fallback
  }

  /** The form's `defaultValues`: each given field of the schedule, and the
      blank form's value for every other field. */
  function InitialValues(given: Option<PartialSchedule>): (d: FormData)
    ensures given.None? ==> d == Blank
  {
    if given.None? then Blank
    else
      var p := given.value;
      FormData(OrElse(p.channelId, ""), OrElse(p.hour, 9), OrElse(p.minute, 0),
               OrElse(p.timeZone, "DEFAULT"), OrElse(p.newsScope, "DAILY"), OrElse(p.frequency, "DAILY"),
               OrElse(p.market, "FOREX"), OrElse(p.impact, ["HIGH"]), OrElse(p.currency, []),
               OrElse(p.timeDisplay, "FIXED"))
  }

  /** The two branches of `defaultValues` agree: a schedule giving no field
      opens the blank form, and a given field replaces only its own
      default. */
  lemma GivenFieldsOverride(p: PartialSchedule)
    ensures p == PartialSchedule(None, None, None, None, None, None, None, None, None, None) ==>
      InitialValues(Some(p)) == InitialValues(None)
    ensures var d := InitialValues(Some(p));
      (d.channelId == if p.channelId.Some? then p.channelId.value else Blank.channelId)
      && (d.hour == if p.hour.Some? then p.hour.value else Blank.hour)
      && (d.minute == if p.minute.Some? then p.minute.value else Blank.minute)
      && (d.timeZone == if p.timeZone.Some? then p.timeZone.value else Blank.timeZone)
      && (d.newsScope == if p.newsScope.Some? then p.newsScope.value else Blank.newsScope)
      && (d.frequency == if p.frequency.Some? then p.frequency.value else Blank.frequency)
      && (d.market == if p.market.Some? then p.market.value else Blank.market)
      && (d.impact == if p.impact.Some? then p.impact.value else Blank.impact)
      && (d.currency == if p.currency.Some? then p.currency.value else Blank.currency)
      && (d.timeDisplay == if p.timeDisplay.Some? then p.timeDisplay.value else Blank.timeDisplay)
  {
  }

  /** The blank form is rejected only for its channel: every other default
      passes the schema when the enums hold the default values. */
  lemma BlankNeedsOnlyChannel(e: Enums)
    requires "DEFAULT" in e.timezones && "DAILY" in e.newsScopes && "DAILY" in e.frequencies
    requires "FOREX" in e.markets && "HIGH" in e.impacts && "FIXED" in e.timeDisplays
    ensures Issues(Blank, e) == [Issue("channelId", Some("Channel ID is required"))]
    ensures Issues(Blank.(channelId := "1"), e) == []
  {
  }
}
