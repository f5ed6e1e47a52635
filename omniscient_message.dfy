/** The message mailbox: a single shared store of a dialog's title,
    message and update link; a message plugin that, when the importer
    signals event 1063030, reads the store, shows the dialog and clears
    the store; and the dialog's layout and button handling. */
module OmniscientMessage {
  import opened Wrappers
  import opened Text

  const OMNISCIENT_DIALOG_EVENT_ID: int := 1063030
  const ID_BUTTON_OK: int := 1001
  const ID_BUTTON_UPDATE: int := 1002

  /** `DialogDataStorage`: what the next dialog shows. */
  class DialogDataStorage {
    var title: string
    var message: string
    var updateUrl: string

    /** The class attributes start empty. */
    constructor ()
      ensures title == "" && message == "" && updateUrl == ""
    {
      title, message, updateUrl := "", "", "";
    }

    /** `set_data(title, message, update_url="")`. */
    method SetData(title: string, message: string, updateUrl: string := "")
      modifies this
      ensures this.title == title && this.message == message && this.updateUrl == updateUrl
    {
      this.title, this.message, this.updateUrl := title, message, updateUrl;
    }

    /** `clear_data`. */
    method ClearData()
      modifies this
      ensures title == "" && message == "" && updateUrl == ""
    {
      title, message, updateUrl := "", "", "";
    }
  }

  /** The class attribute `DialogDataStorage._instance`. */
  class StorageSlot {
    var instance: DialogDataStorage?

    constructor ()
      ensures instance == null
    {
      instance := null;
    }

    /** `getInstance`: the stored instance, created (empty) on the first call. */
    method GetInstance() returns (s: DialogDataStorage)
      modifies this
      ensures instance == s
      ensures old(instance) != null ==> s == old(instance)
      ensures old(instance) == null ==> fresh(s) && s.title == "" && s.message == "" && s.updateUrl == ""
    {
      if instance == null {
        instance := new DialogDataStorage();
      }
      s := instance;
    }
  }

  /** Once created, the instance is the same on every later call. */
  method GetInstanceStable(slot: StorageSlot) returns (a: DialogDataStorage, b: DialogDataStorage)
    modifies slot
    ensures a == b && slot.instance == a
    ensures old(slot.instance) != null ==> a == old(slot.instance)
  {
    a := slot.GetInstance();
    b := slot.GetInstance();
  }

  /** What a `CustomDialog` is built from. */
  datatype Dialog = Dialog(title: string, message: string, updateUrl: string)

  datatype Widget = StaticText(text: string) | Separator | Button(id: int, name: string)

  /** The button the dialog offers: "Get the latest version" when there
      is an update link, "OK" otherwise. */
  function DialogButton(d: Dialog): (w: Widget)
    ensures w.Button?
    ensures w.id == ID_BUTTON_UPDATE <==> d.updateUrl != ""
    ensures w.id == ID_BUTTON_OK <==> d.updateUrl == ""
  {
    if d.updateUrl != "" then Button(ID_BUTTON_UPDATE, "Get the latest version") else Button(ID_BUTTON_OK, "OK")
  }

  /** `CreateLayout`'s widgets in order: one static text per
      `|`-separated segment of the message, a separator, the button.
      The segments, joined again at `|`, give back the message. */
  function CreateLayout(d: Dialog): (w: seq<Widget>)
    ensures |w| == |Split(d.message, '|')| + 2
    ensures forall i :: 0 <= i < |w| - 2 ==> w[i] == StaticText(Split(d.message, '|')[i])
    ensures forall i :: 0 <= i < |w| - 2 ==> '|' !in w[i].text
    ensures w[|w| - 2] == Separator && w[|w| - 1] == DialogButton(d)
  {
    var texts := seq(|Split(d.message, '|')|, i requires 0 <= i < |Split(d.message, '|')| => StaticText(Split(d.message, '|')[i]));
    texts + [Separator, DialogButton(d)]
  }

  /** The lines the layout shows. */
  function Lines(w: seq<Widget>): seq<string>
    requires |w| >= 2
  {
    seq(|w| - 2, i requires 0 <= i < |w| - 2 => if w[i].StaticText? then w[i].text else "")
  }

  /** The lines on screen are the message's segments: joined at `|`
      they give the message back, and there is always at least one. */
  lemma LayoutShowsMessage(d: Dialog)
    ensures |CreateLayout(d)| >= 3
    ensures Lines(CreateLayout(d)) == Split(d.message, '|')
    ensures JoinWith(Lines(CreateLayout(d)), '|') == d.message
  {
    assert Lines(CreateLayout(d)) == Split(d.message, '|');
    JoinSplit(d.message, '|');
  }

  /** What `Command` does: whether it handled the id, and the link it
      opens; a handled command closes the dialog. */
  datatype CommandResult = CommandResult(handled: bool, openedUrl: Option<string>)

  /** `Command(id)`: OK closes; UPDATE with a link opens it and closes;
      anything else is not handled. */
  function Command(d: Dialog, id: int): (r: CommandResult)
    ensures r.handled <==> id == ID_BUTTON_OK || (id == ID_BUTTON_UPDATE && d.updateUrl != "")
    ensures r.openedUrl.Some? <==> id == ID_BUTTON_UPDATE && d.updateUrl != ""
    ensures r.openedUrl.Some? ==> r.openedUrl.value == d.updateUrl
  {
    if id == ID_BUTTON_OK then CommandResult(true, None)
    else if id == ID_BUTTON_UPDATE && d.updateUrl != "" then CommandResult(true, Some(d.updateUrl))
    else CommandResult(false, None)
  }

  /** The one button the layout offers is always handled, and opens the
      update link exactly when there is one. */
  lemma {:induction false} OfferedButtonHandled(d: Dialog)
    ensures var b := CreateLayout(d)[|CreateLayout(d)| - 1];
      b.Button? && Command(d, b.id).handled &&
      (Command(d, b.id).openedUrl.Some? <==> d.updateUrl != "")
  {
    var b := CreateLayout(d)[|CreateLayout(d)| - 1];
    assert b == DialogButton(d);
  }

  /** `OmniscientMessage.CoreMessage(id)`: for the dialog event the stored
      title, message and link are read, the dialog shown (`shown`) and
      the store cleared; any other id does nothing. The result is always true. */
  method CoreMessage(slot: StorageSlot, id: int) returns (r: bool, shown: Option<Dialog>)
    modifies slot, slot.instance
    ensures r
    ensures id != OMNISCIENT_DIALOG_EVENT_ID ==> shown.None? && slot.instance == old(slot.instance)
    ensures id != OMNISCIENT_DIALOG_EVENT_ID && slot.instance != null ==> unchanged(slot.instance)
    ensures id == OMNISCIENT_DIALOG_EVENT_ID ==>
      && slot.instance != null
      && (old(slot.instance) != null ==> slot.instance == old(slot.instance))
      && shown == Some(if old(slot.instance) != null
                       then Dialog(old(slot.instance.title), old(slot.instance.message), old(slot.instance.updateUrl))
                       else Dialog("", "", ""))
      && slot.instance.title == "" && slot.instance.message == "" && slot.instance.updateUrl == ""
  {
    r, shown := true, None;
    if id == OMNISCIENT_DIALOG_EVENT_ID {
      var storage := slot.GetInstance();
      var dialog := Dialog(storage.title, storage.message, storage.updateUrl);
      shown := Some(dialog);
      storage.ClearData();
    }
  }

  /** The mailbox round trip: data set, the event signalled, the dialog
      shows that data and the store is empty again. */
  method MailboxRoundTrip(slot: StorageSlot, title: string, message: string, url: string)
    returns (shown: Option<Dialog>)
    modifies slot, slot.instance
    ensures shown == Some(Dialog(title, message, url))
    ensures slot.instance != null && slot.instance.title == "" && slot.instance.message == "" && slot.instance.updateUrl == ""
  {
    var storage := slot.GetInstance();
    storage.SetData(title, message, url);
    var handled;
    handled, shown := CoreMessage(slot, OMNISCIENT_DIALOG_EVENT_ID);
  }
}
