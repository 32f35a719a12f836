/** The `/list-schedules` command: the delete buttons over the server's
    schedules and the collector that deletes, lists again and redraws. The
    schedule service and the listing embed builder are not part of this
    model: each listing is a parameter (or the error it throws), the delete
    is reported as the id handed to the service, and an embed is represented
    by the schedules it lists. */
module ListSchedules {
  import opened Common
  import opened Domain
  import opened DeleteButtons

  const Prefix := "delete_schedule_"

  const NotInServer := "This command can only be used in a server."
  const NoSchedules := "No schedules found for this server."
  const ListFailedNotice := "Failed to list schedules. Please try again later."
  const NotYours := "You cannot delete schedules from someone else's list."
  const AllDeleted := "\U{2705} Schedule deleted! No schedules remaining for this server."
  const Deleted := "\U{2705} Schedule deleted successfully!"
  const DeleteFailedNotice := "\U{274C} Failed to delete schedule. Please try again."

  function Ids(schedules: seq<Schedule>): (r: seq<string>)
    ensures |r| == |schedules|
    ensures forall k :: 0 <= k < |r| ==> r[k] == schedules[k].id
  {
    seq(|schedules|, k requires 0 <= k < |schedules| => schedules[k].id)
  }

  /** Button `k` of a listing deletes schedule `k`. */
  lemma ButtonDeletesItsSchedule(schedules: seq<Schedule>, i: nat, j: nat)
    requires i < |Rows(Prefix, Ids(schedules))| && j < |Rows(Prefix, Ids(schedules))[i]|
    ensures var k := RowSize * i + j;
      k < |schedules| && Rows(Prefix, Ids(schedules))[i][j].text == Label(k + 1)
      && IdFromCustomId(Prefix, Rows(Prefix, Ids(schedules))[i][j].customId) == schedules[k].id
  {
    ButtonLeadsToItem(Prefix, Ids(schedules), i, j);
  }

  /** What the message shows; `listed` stands for the listing embed. */
  datatype View = View(content: Option<string>, listed: Option<seq<Schedule>>, components: seq<seq<Button>>)

  /** The message after a failed delete, as written: the first listing. */
  function FailureView(first: seq<Schedule>, firstRows: seq<seq<Button>>): View {
    View(Some(DeleteFailedNotice), Some(first), firstRows)
  }

  /** The message after the last schedule is deleted, as written: the
      collector's `end` puts the first listing's rows back, disabled. */
  function AfterLastDelete(firstRows: seq<seq<Button>>): View {
    View(Some(AllDeleted), None, Disabled(firstRows))
  }

  /** The discrepancy: deleting the only schedule leaves its disabled
      "Delete #1" button on the message. */
  lemma LastDeleteLeavesStaleButton(s: Schedule)
    ensures var v := AfterLastDelete(Rows(Prefix, [s.id]));
      |v.components| == 1 && v.components[0] == [Button(Prefix + s.id, Label(1), true)]
  {
    var rows := Rows(Prefix, [s.id]);
    assert RowCount(1) == 1;
    assert |rows[0]| == 1;
  }

  /** `end` as evidently intended: disable the buttons shown now. */
  function EndView(v: View): View {
    v.(components := Disabled(v.components))
  }

  lemma EndViewShowsOnlyCurrent(v: View)
    ensures v.components == [] ==> EndView(v).components == []
    ensures forall i, j :: 0 <= i < |EndView(v).components| && 0 <= j < |EndView(v).components[i]| ==>
      EndView(v).components[i][j].customId == v.components[i][j].customId
      && EndView(v).components[i][j].disabled
  {
  }

  datatype Reply = Ephemeral(content: string) | Shown(view: View)

  class ListSchedulesSession {
    const invoker: string
    const first: seq<Schedule>
    const firstRows: seq<seq<Button>>
    var schedules: seq<Schedule>
    var view: View
    var collecting: bool

    constructor (invoker: string, schedules: seq<Schedule>)
      ensures this.invoker == invoker && first == schedules && this.schedules == schedules && collecting
      ensures firstRows == Rows(Prefix, Ids(schedules)) && view == View(None, Some(schedules), firstRows)
    {
      var rows := BuildRows(Prefix, Ids(schedules));
      this.invoker := invoker;
      first := schedules;
      this.schedules := schedules;
      firstRows := rows;
      view := View(None, Some(schedules), rows);
      collecting := true;
    }

    /** A click on a delete button. Another user's click is refused and
        nothing is deleted; the invoker's click hands the button's id to
        the service, then shows `relisted`, or the failure notice over the
        first listing when the delete or the new listing throws. */
    method Collect(userId: string, customId: string, deleteThrows: bool, relisted: Result<seq<Schedule>>)
      returns (ephemeral: Option<string>, deleteCall: Option<string>)
      modifies this
      ensures !old(collecting) || userId != invoker ==>
        ephemeral == (if old(collecting) then Some(NotYours) else None) && deleteCall.None?
        && schedules == old(schedules) && view == old(view) && collecting == old(collecting)
      ensures old(collecting) && userId == invoker ==>
        ephemeral.None? && deleteCall == Some(IdFromCustomId(Prefix, customId))
        && (deleteThrows || relisted.Err? ==>
              view == FailureView(first, firstRows) && schedules == old(schedules) && collecting)
        && (!deleteThrows && relisted.Ok? ==>
              schedules == relisted.value
              && (schedules == [] ==> view == AfterLastDelete(firstRows) && !collecting)
              && (schedules != [] ==>
                    view == View(Some(Deleted), Some(schedules), Rows(Prefix, Ids(schedules))) && collecting))
    {
      deleteCall := None;
      if !collecting {
        return None, deleteCall;
      }
      if userId != invoker {
        return Some(NotYours), deleteCall;
      }
      ephemeral := None;
      deleteCall := Some(IdFromCustomId(Prefix, customId));
      if deleteThrows || relisted.Err? {
        view := FailureView(first, firstRows);
        return;
      }
      schedules := relisted.value;
      if |schedules| == 0 {
        view := View(Some(AllDeleted), None, []);
        collecting := false;
        End();
        return;
      }
      var rows := BuildRows(Prefix, Ids(schedules));
      view := View(Some(Deleted), Some(schedules), rows);
    }

    /** The collector's `end` handler, as written. */
    method End()
      modifies this
      ensures view == old(view).(components := Disabled(firstRows))
      ensures schedules == old(schedules) && collecting == old(collecting)
    {
      view := view.(components := Disabled(firstRows));
    }
  }

  /** `execute`: only the server guard (the command relies on Discord's
      default member permissions), the first listing, and the session when
      there is something to list. */
  method Execute(inGuild: bool, userId: string, listed: Result<seq<Schedule>>)
    returns (reply: Reply, session: ListSchedulesSession?)
    ensures !inGuild ==> reply == Ephemeral(NotInServer) && session == null
    ensures inGuild && listed.Err? ==> reply == Shown(View(Some(ListFailedNotice), None, [])) && session == null
    ensures inGuild && listed == Ok([]) ==> reply == Shown(View(Some(NoSchedules), None, [])) && session == null
    ensures session != null <==> inGuild && listed.Ok? && listed.value != []
    ensures session != null ==>
      fresh(session) && session.invoker == userId && session.schedules == listed.value && session.collecting
      && reply == Shown(View(None, Some(listed.value), Rows(Prefix, Ids(listed.value))))
  {
    session := null;
    if !inGuild {
      return Ephemeral(NotInServer), session;
    }
    if listed.Err? {
      return Shown(View(Some(ListFailedNotice), None, [])), session;
    }
    if |listed.value| == 0 {
      return Shown(View(Some(NoSchedules), None, [])), session;
    }
    session := new ListSchedulesSession(userId, listed.value);
    reply := Shown(session.view);
  }
}
