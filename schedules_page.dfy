/**
 * The schedules page: the schedule list state, the add-dialog flag, and
 * the handlers that replace them.
 */
module Schedules {
  import opened AudioUtils
  import opened ScheduleList

  class Page {
    var schedules: seq<AudioSchedule>
    var isDialogOpen: bool

    /** The page starts from the sample schedules with the dialog closed. */
    constructor ()
      ensures schedules == SampleSchedules && !isDialogOpen
    {
      schedules := SampleSchedules;
      isDialogOpen := false;
    }

    /** Sets the flag of every schedule with `id`; the dialog is untouched. */
    method ToggleSchedule(id: string, isActive: bool)
      modifies this
      ensures schedules == Toggled(old(schedules), id, isActive)
      ensures isDialogOpen == old(isDialogOpen)
    {
      schedules := Toggled(schedules, id, isActive);
    }

    /** The edit handler only shows a notice. */
    method EditSchedule(schedule: AudioSchedule)
      ensures schedules == old(schedules) && isDialogOpen == old(isDialogOpen)
    {
    }

    /** Removes every schedule with `id`; an absent id changes nothing. */
    method DeleteSchedule(id: string)
      modifies this
      ensures schedules == Deleted(old(schedules), id)
      ensures !HasId(old(schedules), id) ==> schedules == old(schedules)
      ensures isDialogOpen == old(isDialogOpen)
    {
      DeleteAbsentIsNoOp(schedules, id);
      schedules := Deleted(schedules, id);
    }

    /** Appends the submitted schedule, without an id check, and closes the
        dialog. */
    method AddSchedule(newSchedule: AudioSchedule)
      modifies this
      ensures schedules == old(schedules) + [newSchedule]
      ensures CountId(schedules, newSchedule.id) == CountId(old(schedules), newSchedule.id) + 1
      ensures !isDialogOpen
    {
      AppendKeepsDuplicates(schedules, newSchedule);
      schedules := schedules + [newSchedule];
      isDialogOpen := false;
    }

    /** The dialog's open/close events. */
    method SetDialogOpen(open: bool)
      modifies this
      ensures isDialogOpen == open && schedules == old(schedules)
    {
      isDialogOpen := open;
    }
  }

  /** Adding a schedule and deleting its id again removes it together with
      any older schedule that had the same id. */
  method AddThenDelete(x: AudioSchedule) returns (before: seq<AudioSchedule>, after: seq<AudioSchedule>)
    ensures before == SampleSchedules
    ensures after == Deleted(SampleSchedules, x.id)
    ensures !HasId(after, x.id)
  {
    var page := new Page();
    before := page.schedules;
    page.AddSchedule(x);
    page.DeleteSchedule(x.id);
    after := page.schedules;
    DeleteDistributes(SampleSchedules, [x], x.id);
    DeleteRemovesExactlyId(SampleSchedules + [x], x.id);
  }
}
