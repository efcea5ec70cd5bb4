/**
 * The in-progress assistant message of each chat mode
 * (static/script.js:663-751): `currentAssistantMessage` holds the text
 * received so far and `assistantMessageDiv` says whether a message bubble is
 * open. The bubble itself and its rendering are left to the page.
 */
module Messages {

  /** The two chat modes; each keeps its own assistant message. */
  datatype Mode = Voice | Text

  class AssistantMessages {
    /** `currentAssistantMessage`: the text of each mode's open message. */
    var current: map<Mode, string>
    /** The modes whose `assistantMessageDiv` is set, i.e. with an open message. */
    var open: set<Mode>

    /** Both modes have a buffer, and a mode with no open message has an empty one. */
    ghost predicate Valid()
      reads this
    {
      && Voice in current && Text in current
      && (Voice !in open ==> current[Voice] == "")
      && (Text !in open ==> current[Text] == "")
    }

    constructor ()
      ensures Valid()
      ensures current == map[Voice := "", Text := ""] && open == {}
    {
      current := map[Voice := "", Text := ""];
      open := {};
    }

    /**
     * `updateAssistantMessage(delta, mode)`: opens a message for `mode` if none
     * is open (starting from the empty string) and appends `delta` to it. The
     * other mode's message is untouched.
     */
    method Update(delta: string, mode: Mode)
      requires Valid()
      modifies this
      ensures Valid()
      ensures open == old(open) + {mode}
      ensures current == old(current)[mode := old(current)[mode] + delta]
      ensures mode !in old(open) ==> current[mode] == delta
    {
      if mode !in open {
        open := open + {mode};
        current := current[mode := ""];
      }
      current := current[mode := current[mode] + delta];
    }

    /**
     * `finishAssistantMessage(mode)`: closes the open message of `mode` and
     * empties its buffer; `statusUpdated` tells whether there was one, which
     * is when the source sets the status back to "in conversation".
     */
    method Finish(mode: Mode) returns (statusUpdated: bool)
      requires Valid()
      modifies this
      ensures Valid()
      ensures statusUpdated == (mode in old(open))
      ensures open == old(open) - {mode}
      ensures current == old(current)[mode := ""]
      ensures !statusUpdated ==> current == old(current)
    {
      statusUpdated := mode in open;
      if statusUpdated {
        open := open - {mode};
        current := current[mode := ""];
      }
    }
  }
}
