/**
 * The settings dialog's finite-state machine (domain/states.py) and the
 * per-conversation storage the dialog keeps beside it: the current state and
 * the `last_message_id` entry of the state data.
 */
module States {
  import opened Wrappers

  datatype SettingsState =
    | MainMenu
    | TimeSettings
    | TimeRangeSetStart
    | TimeRangeSetEnd
    | WhitelistMenu
    | WhitelistAdd
    | WhitelistRemove
    | AutoDeleteSettings
    | AutoDeleteTimeSet

  /** The four states in which free text is read as input to a setting. */
  predicate IsInputState(s: SettingsState) {
    s == WhitelistAdd || s == AutoDeleteTimeSet || s == TimeRangeSetStart || s == TimeRangeSetEnd
  }

  /** The conversation context: no state and no data until the dialog is first entered. */
  class Conversation {
    var state: Option<SettingsState>
    var lastMessageId: Option<int>

    constructor ()
      ensures state == None && lastMessageId == None
    {
      state := None;
      lastMessageId := None;
    }
  }
}
