/** The broadcast dialog (components/SendNotificationModal.tsx): recipient check
    boxes, "select all", and the submit guards. */
module SendNotification {
  import opened Wrappers
  import opened Seqs
  import opened Text
  import opened Types

  const BothMissingError := "Please write a message and select at least one recipient."
  const MessageMissingError := "Please write a message."
  const RecipientsMissingError := "Please select at least one recipient."

  function Ids(users: seq<User>): (r: seq<Id>)
    ensures |r| == |users| && forall i :: 0 <= i < |r| ==> r[i] == users[i].id
  {
    if users == [] then [] else [users[0].id] + Ids(users[1..])
  }

  /** The first failing guard of `handleSubmit`, or `None` when all pass. */
  function Validate(message: string, selected: seq<Id>): (r: Option<string>)
    ensures r.None? <==> !AllSpace(message) && selected != []
  {
    BlankIffAllSpace(message);
    if Trim(message) == [] && |selected| == 0 then Some(BothMissingError)
    else if Trim(message) == [] then Some(MessageMissingError)
    else if |selected| == 0 then Some(RecipientsMissingError)
    else None
  }

  /** Both missing gives the combined error; otherwise the message is checked before
      the recipients. */
  lemma ValidatePrecedence(message: string, selected: seq<Id>)
    ensures AllSpace(message) && selected == [] ==> Validate(message, selected) == Some(BothMissingError)
    ensures AllSpace(message) && selected != [] ==> Validate(message, selected) == Some(MessageMissingError)
    ensures !AllSpace(message) && selected == [] ==> Validate(message, selected) == Some(RecipientsMissingError)
  {
    BlankIffAllSpace(message);
  }

  /** The dialog's state. */
  class NotificationForm {
    var message: string
    var selectedMembers: seq<Id>
    var error: string

    constructor ()
      ensures message == "" && selectedMembers == [] && error == ""
    {
      message, selectedMembers, error := "", [], "";
    }

    /** The "Select All Members" box is ticked. */
    predicate AllChecked(team: seq<User>)
      reads this
    {
      |selectedMembers| == |team| && |team| > 0
    }

    /** `handleMemberSelection`. */
    method HandleMemberSelection(memberId: Id)
      modifies this
      ensures selectedMembers == Toggle(old(selectedMembers), memberId)
      ensures memberId in old(selectedMembers) ==> memberId !in selectedMembers
      ensures memberId !in old(selectedMembers) ==> selectedMembers == old(selectedMembers) + [memberId]
      ensures message == old(message) && error == old(error)
    {
      selectedMembers := Toggle(selectedMembers, memberId);
    }

    /** `handleSelectAll`: clears a selection as long as the team, and otherwise selects
        the whole team in team order, after which the box is ticked iff there is a team. */
    method HandleSelectAll(team: seq<User>)
      modifies this
      ensures |old(selectedMembers)| == |team| ==> selectedMembers == []
      ensures |old(selectedMembers)| != |team| ==> selectedMembers == Ids(team) && (AllChecked(team) <==> team != [])
      ensures message == old(message) && error == old(error)
    {
      if |selectedMembers| == |team| {
        selectedMembers := [];
      } else {
        selectedMembers := Ids(team);
      }
    }

    /** `handleSubmit`: sends the trimmed message to the selection and resets the form,
        or shows the first failing guard's error and keeps the form. */
    method HandleSubmit() returns (sent: Option<(string, seq<Id>)>)
      modifies this
      ensures var v := Validate(old(message), old(selectedMembers));
              (v.None? ==> sent == Some((Trim(old(message)), old(selectedMembers))) &&
                           message == "" && selectedMembers == [] && error == "") &&
              (v.Some? ==> sent == None && error == v.value &&
                           message == old(message) && selectedMembers == old(selectedMembers))
    {
      error := "";
      var v := Validate(message, selectedMembers);
      if v.Some? {
        error := v.value;
        sent := None;
      } else {
        sent := Some((Trim(message), selectedMembers));
        message, selectedMembers, error := "", [], "";
      }
    }
  }

  /** Select-all reaches a full selection from an empty one and clears it when pressed
      again, for a non-empty team. */
  method SelectAllTwice(team: seq<User>) returns (first: seq<Id>, second: seq<Id>)
    requires team != []
    ensures first == Ids(team) && second == []
  {
    var form := new NotificationForm();
    form.HandleSelectAll(team);
    first := form.selectedMembers;
    form.HandleSelectAll(team);
    second := form.selectedMembers;
  }
}
