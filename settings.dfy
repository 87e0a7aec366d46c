/** The log-reminder settings panel (components/SettingsView.tsx): editing one
    reminder field at a time and saving with the Telegram handle check. */
module Settings {
  import opened Wrappers
  import opened Types

  const HandleError := "Telegram username must start with @."

  /** One edit of a reminder field, with the value the control produced. */
  datatype ReminderChange =
    | SetEmail(email: bool)
    | SetTelegram(telegram: bool)
    | SetTelegramUsername(username: string)
    | SetTime(time: string)

  /** The nested copy of `handleSettingChange`: the named field takes the new value,
      every other setting keeps its value. */
  function ApplyChange(s: UserSettings, c: ReminderChange): (r: UserSettings)
    ensures var a, b := s.notifications.logReminder, r.notifications.logReminder;
            b.email == (if c.SetEmail? then c.email else a.email) &&
            b.telegram == (if c.SetTelegram? then c.telegram else a.telegram) &&
            b.telegramUsername == (if c.SetTelegramUsername? then Some(c.username) else a.telegramUsername) &&
            b.time == (if c.SetTime? then c.time else a.time)
  {
    var a := s.notifications.logReminder;
    var b := match c
      case SetEmail(v) => a.(email := v)
      case SetTelegram(v) => a.(telegram := v)
      case SetTelegramUsername(v) => a.(telegramUsername := Some(v))
      case SetTime(v) => a.(time := v);
    s.(notifications := s.notifications.(logReminder := b))
  }

  /** `value.startsWith('@')`. */
  predicate StartsWithAt(v: string)
  {
    |v| > 0 && v[0] == '@'
  }

  /** The save guard: Telegram on with a non-empty handle that lacks the '@'. */
  predicate HandleRejected(r: LogReminder)
  {
    r.telegram && r.telegramUsername.Some? && r.telegramUsername.value != "" && !StartsWithAt(r.telegramUsername.value)
  }

  /** The panel's state. */
  class SettingsPanel {
    var settings: UserSettings
    var isSaved: bool
    var error: string

    constructor (current: UserSettings)
      ensures settings == current && !isSaved && error == ""
    {
      settings, isSaved, error := current, false, "";
    }

    /** `handleSettingChange`. */
    method HandleSettingChange(c: ReminderChange)
      modifies this
      ensures settings == ApplyChange(old(settings), c)
      ensures isSaved == old(isSaved) && error == old(error)
    {
      settings := ApplyChange(settings, c);
    }

    /** `handleSave`: a rejected save shows the error, clears `isSaved` and sends
        nothing; an accepted one sends the current settings and sets `isSaved`. */
    method HandleSave() returns (sent: Option<UserSettings>)
      modifies this
      ensures settings == old(settings)
      ensures sent.None? <==> HandleRejected(settings.notifications.logReminder)
      ensures sent.None? ==> error == HandleError && !isSaved
      ensures sent.Some? ==> sent.value == settings && isSaved && error == ""
    {
      error := "";
      var r := settings.notifications.logReminder;
      if r.telegram && r.telegramUsername.Some? && r.telegramUsername.value != "" && !StartsWithAt(r.telegramUsername.value) {
        error := HandleError;
        isSaved := false;
        sent := None;
      } else {
        sent := Some(settings);
        isSaved := true;
      }
    }
  }

  /** An empty or missing handle, Telegram off, or a handle with the '@' all save. */
  lemma SaveAccepted(r: LogReminder)
    ensures !r.telegram ==> !HandleRejected(r)
    ensures r.telegramUsername.None? || r.telegramUsername == Some("") ==> !HandleRejected(r)
    ensures r.telegramUsername.Some? && StartsWithAt(r.telegramUsername.value) ==> !HandleRejected(r)
  {
  }

  /** After setting a handle without '@' and switching Telegram on, saving fails. */
  method HandleWithoutAtFails(current: UserSettings, handle: string) returns (sent: Option<UserSettings>)
    requires handle != [] && handle[0] != '@'
    ensures sent.None?
  {
    var panel := new SettingsPanel(current);
    panel.HandleSettingChange(SetTelegramUsername(handle));
    panel.HandleSettingChange(SetTelegram(true));
    sent := panel.HandleSave();
  }
}
