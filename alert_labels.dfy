/** How the admin commands show an alert subscription: the three embed
    fields (impact levels, currencies, alert types) that the create, edit and
    list commands share. */
module AlertLabels {
  import opened Text
  import opened Domain

  const All := "All"

  /** The label of an alert-type name; names other than the two cadences
      are shown as they are. */
  function AlertTypeLabel(name: string): string {
    if name == FiveMinutesBefore.Name() then "5 minutes before"
    else if name == OnNewsDrop.Name() then "On news drop"
    else name
  }

  /** The two cadences get distinct labels, and neither label is itself
      an alert-type name, so a label tells which cadence it shows. */
  lemma CadenceLabelsDistinct(t: AlertType, u: AlertType)
    ensures AlertTypeLabel(t.Name()) == AlertTypeLabel(u.Name()) <==> t == u
    ensures AlertTypeLabel(t.Name()) != FiveMinutesBefore.Name() && AlertTypeLabel(t.Name()) != OnNewsDrop.Name()
  {
    AlertTypeNameInjective(t, u);
    assert "5 minutes before"[0] != "On news drop"[0];
  }

  function Labels(names: seq<string>): (r: seq<string>)
    ensures |r| == |names|
    ensures forall k :: 0 <= k < |r| ==> r[k] == AlertTypeLabel(names[k])
  {
    seq(|names|, k requires 0 <= k < |names| => AlertTypeLabel(names[k]))
  }

  /** A filter list: its values joined by ", ", or "All" when empty. */
  function ListOrAll(values: seq<string>): (r: string)
    ensures values == [] ==> r == All
    ensures |values| == 1 ==> r == values[0]
    ensures |values| > 1 ==> r == values[0] + ", " + Join(values[1..], ", ")
  {
    if |values| > 0 then Join(values, ", ") else All
  }

  /** An embed field (`name`, `value`, `inline`). */
  datatype Field = Field(name: string, value: string, inline: bool)

  /** A Discord embed as the admin commands fill it in. */
  datatype Embed = Embed(color: int, title: string, description: string, fields: seq<Field>, footer: string)

  /** The fields describing an alert. */
  function AlertFields(a: NewsAlert): (r: seq<Field>)
    ensures |r| == 3
    ensures r[0].name == "Impact Levels" && (r[0].value == All <== a.impact == [])
    ensures r[1].name == "Currencies" && (r[1].value == All <== a.currency == [])
    ensures r[2] == Field("Alert Types", Join(Labels(a.alertType), ", "), false)
  {
    [Field("Impact Levels", ListOrAll(a.impact), true),
     Field("Currencies", ListOrAll(a.currency), true),
     Field("Alert Types", Join(Labels(a.alertType), ", "), false)]
  }
}
