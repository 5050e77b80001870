/** The reminder screen (screens/Reminder/Reminder.js): the modal's visibility,
    the reminder being edited, the four form fields, the effect that fills or
    clears them when the edited reminder changes, and the save handler's
    guard and create/update dispatch. */
module ReminderForm {
  import opened Common

  /** A reminder as the server lists it. It is a class because the screen
      tells reminders apart by reference: the effect on `[editingReminder]`
      reruns only when a different object is stored. `isoDate` and `clock`
      stand for `new Date(time).toISOString().split("T")[0]` and
      `toTimeString().slice(0, 5)`; the formatting itself is not modelled. */
  class ReminderItem {
    const id: int
    const titleName: string
    const isoDate: string
    const clock: string
    const describe: Option<string>

    constructor (id: int, titleName: string, isoDate: string, clock: string, describe: Option<string>)
      ensures this.id == id && this.titleName == titleName && this.isoDate == isoDate
      ensures this.clock == clock && this.describe == describe
    {
      this.id, this.titleName, this.isoDate, this.clock, this.describe := id, titleName, isoDate, clock, describe;
    }
  }

  /** The four text inputs of the modal. */
  datatype Fields = Fields(title: string, date: string, time: string, describe: string)

  const Blank: Fields := Fields("", "", "", "")

  /** What the effect writes into the form: the reminder's own values (a
      missing or empty description as ""), or four empty strings when no
      reminder is being edited. */
  function Prefill(item: ReminderItem?): (f: Fields)
    ensures item == null ==> f == Blank
    ensures item != null ==> f.title == item.titleName && f.date == item.isoDate && f.time == item.clock
    ensures item != null ==> (f.describe == "" <==> item.describe == None || item.describe == Some(""))
    ensures item != null && f.describe != "" ==> item.describe == Some(f.describe)
  {
    if item == null then Blank
    else Fields(item.titleName, item.isoDate, item.clock, item.describe.GetOr(""))
  }

  /** The body sent by `saveReminder`; `time` is the ISO text of the instant. */
  datatype Body = Body(titleName: string, time: string, describe: string)

  datatype Request =
    | Create(body: Body)
    | Update(id: int, body: Body)

  /** `!date || !time || !title`: only the empty string is falsy. */
  predicate Savable(f: Fields) {
    f.title != "" && f.date != "" && f.time != ""
  }

  /** The request `saveReminder` sends for the form `f`. `iso` is the result
      of `new Date(date + " " + time).toISOString()`, `None` when that throws
      on an invalid date. Nothing is sent when a required field is empty or
      the date is invalid; otherwise the edited reminder is updated by id,
      or a new one is created. */
  function SaveRequest(f: Fields, editing: ReminderItem?, iso: Option<string>): (r: Option<Request>)
    ensures r == None <==> !Savable(f) || iso == None
    ensures r.Some? ==> r.value.body == Body(f.title, iso.value, f.describe)
    ensures r.Some? ==> (r.value.Update? <==> editing != null)
    ensures r.Some? && r.value.Update? ==> r.value.id == editing.id
  {
    if !Savable(f) || iso == None then None
    else if editing != null then Some(Update(editing.id, Body(f.title, iso.value, f.describe)))
    else Some(Create(Body(f.title, iso.value, f.describe)))
  }

  /** A cleared form can never be saved, so a freshly opened create modal sends
      nothing until the title, date and time are typed. */
  lemma BlankNeverSaved(editing: ReminderItem?, iso: Option<string>)
    ensures SaveRequest(Blank, editing, iso) == None
  {
  }

  /** An edit form prefilled from a reminder with a title, date and time is
      saved as an update of that very reminder, carrying its description. */
  lemma PrefilledSavesAsUpdate(item: ReminderItem, iso: string)
    requires item.titleName != "" && item.isoDate != "" && item.clock != ""
    ensures var r := SaveRequest(Prefill(item), item, Some(iso));
            r == Some(Update(item.id, Body(item.titleName, iso, item.describe.GetOr(""))))
  {
  }

  class ReminderScreen {
    var reminders: seq<ReminderItem>
    var visible: bool
    var editing: ReminderItem?
    var form: Fields

    /** The first render: no reminders, the modal closed, nothing edited,
        and the mount-time effect has left the form blank. */
    constructor ()
      ensures reminders == [] && !visible && editing == null && form == Blank
    {
      reminders, visible, editing, form := [], false, null, Blank;
    }

    /** The effect on `[editingReminder]`, after a handler ran: it reruns only
        when the stored reminder is a different reference from `before`. */
    method Effect(before: ReminderItem?)
      modifies this`form
      ensures form == if editing != before then Prefill(editing) else old(form)
    {
      if editing != before {
        form := Prefill(editing);
      }
    }

    /** `loadReminders` once the list has arrived. */
    method Loaded(fetched: seq<ReminderItem>)
      modifies this`reminders
      ensures reminders == fetched
    {
      reminders := fetched;
    }

    /** Typing in the four inputs. */
    method Type(typed: Fields)
      modifies this`form
      ensures form == typed
    {
      form := typed;
    }

    /** Pressing a listed reminder: edit it in the open modal. The form is
        refilled from it unless it was already the one being edited. */
    method PressItem(item: ReminderItem)
      modifies this`editing, this`visible, this`form
      ensures editing == item && visible
      ensures form == if old(editing) != item then Prefill(item) else old(form)
    {
      var before := editing;
      editing := item;
      visible := true;
      Effect(before);
    }

    /** The "+" button: the modal opens in create mode. The form is cleared
        only when a reminder was being edited; otherwise what was typed stays. */
    method Fab()
      modifies this`editing, this`visible, this`form
      ensures editing == null && visible
      ensures form == if old(editing) != null then Blank else old(form)
    {
      var before := editing;
      editing := null;
      visible := true;
      Effect(before);
    }

    /** "Huỷ": the modal closes and nothing is edited any more. */
    method Cancel()
      modifies this`editing, this`visible, this`form
      ensures editing == null && !visible
      ensures form == if old(editing) != null then Blank else old(form)
    {
      var before := editing;
      visible := false;
      editing := null;
      Effect(before);
    }

    /** `saveReminder`. `iso` is the converted date and time (`None` when the
        conversion throws) and `succeeded` whether the request went through.
        Without a request, or when it fails, nothing changes. After a
        successful save the modal is closed, nothing is edited any more, the
        form is cleared when it was an update (a create leaves it as typed),
        and the list is reloaded. */
    method Save(iso: Option<string>, succeeded: bool) returns (req: Option<Request>, reload: bool)
      modifies this`editing, this`visible, this`form
      ensures req == SaveRequest(old(form), old(editing), iso)
      ensures reload <==> req.Some? && succeeded
      ensures reload ==> editing == null && !visible
                         && form == if old(editing) != null then Blank else old(form)
      ensures !reload ==> editing == old(editing) && visible == old(visible) && form == old(form)
    {
      req := SaveRequest(form, editing, iso);
      reload := req.Some? && succeeded;
      if reload {
        var before := editing;
        visible := false;
        editing := null;
        Effect(before);
      }
    }
  }
}
