/**
 * The administrator's announcement screen: the colour and tag each announcement
 * type is shown with, the display name of a user in the recipient picker, the
 * recipient selection, and sending an announcement to the selected users.
 */
module Notifications {
  import opened Common
  import opened Http

  /** The announcement types the create form offers. */
  const AnnouncementTypes: seq<string> := ["INFORMATION", "WARNING", "URGENT", "MAINTENANCE", "EVENT"]

  const DefaultColor := "text-gray-500"

  /** `getTypeColor(type)`: the text class of an announcement's heading. */
  function TypeColor(t: string): (c: string)
    ensures c == DefaultColor <==> t !in AnnouncementTypes
    ensures t == "INFORMATION" ==> c == "text-blue-500"
    ensures t == "URGENT" ==> c == "text-red-500"
  {
    match t
    case "INFORMATION" => "text-blue-500"
    case "WARNING" => "text-yellow-500"
    case "URGENT" => "text-red-500"
    case "MAINTENANCE" => "text-orange-500"
    case "EVENT" => "text-green-500"
    case _ => DefaultColor
  }

  /** An antd `Tag`: its colour and the text inside it. */
  datatype Tag = Tag(color: string, text: string)

  /** `getTypeTag(type)`: the tag shows the type itself, coloured by the same five-way choice. */
  function TypeTag(t: string): (tag: Tag)
    ensures tag.text == t
    ensures tag.color == "default" <==> t !in AnnouncementTypes
  {
    var color := match t
      case "INFORMATION" => "blue"
      case "WARNING" => "yellow"
      case "URGENT" => "red"
      case "MAINTENANCE" => "orange"
      case "EVENT" => "green"
      case _ => "default";
    Tag(color, t)
  }

  /** The five types get five different heading colours. */
  lemma TypeColoursDistinct(t: string, u: string)
    ensures t in AnnouncementTypes && u in AnnouncementTypes && t != u ==> TypeColor(t) != TypeColor(u)
  {
  }

  /** For each of the five types the heading colour is the tag's colour. */
  lemma TypeColourMatchesTag(t: string)
    ensures t in AnnouncementTypes ==> TypeColor(t) == "text-" + TypeTag(t).color + "-500"
  {
  }

  /** `` `${first || ''} ${last || ''}`.trim() || 'N/A' ``, for names that are already
      strings (a missing name is the empty string). */
  function DisplayName(first: string, last: string): (name: string)
    ensures name != ""
    ensures !IsSpace(name[0]) && !IsSpace(name[|name| - 1])
  {
    TrimHasNoOuterSpace(first + " " + last);
    Or(Trim(first + " " + last), "N/A")
  }

  /** A name neither starts nor ends with white space. */
  predicate Tidy(s: string) {
    s == "" || (!IsSpace(s[0]) && !IsSpace(s[|s| - 1]))
  }

  /** The display name is "N/A" when both names are blank. */
  lemma DisplayNameOfBlanks(first: string, last: string)
    requires AllSpace(first) && AllSpace(last)
    ensures DisplayName(first, last) == "N/A"
  {
    var s := first + " " + last;
    forall i | 0 <= i < |s| ensures IsSpace(s[i]) {
      if i < |first| {
        assert s[i] == first[i];
      } else if i > |first| {
        assert s[i] == last[i - |first| - 1];
      }
    }
    TrimEmptyIffAllSpace(s);
  }

  /** Otherwise it is the joined names trimmed, which is never blank and has no outer white
      space. */
  lemma DisplayNameOfNames(first: string, last: string)
    requires !(AllSpace(first) && AllSpace(last))
    ensures DisplayName(first, last) == Trim(first + " " + last)
    ensures DisplayName(first, last) != "" && Tidy(DisplayName(first, last))
  {
    var s := first + " " + last;
    if !AllSpace(first) {
      var i :| 0 <= i < |first| && !IsSpace(first[i]);
      assert s[i] == first[i];
    } else {
      var i :| 0 <= i < |last| && !IsSpace(last[i]);
      assert s[|first| + 1 + i] == last[i];
    }
    TrimEmptyIffAllSpace(s);
    TrimHasNoOuterSpace(s);
  }

  /** Two tidy, present names are joined with one space. */
  lemma DisplayNameOfTwoNames(first: string, last: string)
    requires Tidy(first) && Tidy(last) && first != "" && last != ""
    ensures DisplayName(first, last) == first + " " + last
  {
    TrimKeepsInnerText(first + " " + last);
  }

  /** A tidy first name without a last name is shown alone. */
  lemma DisplayNameOfFirstOnly(first: string)
    requires Tidy(first) && first != ""
    ensures DisplayName(first, "") == first
  {
    var s := first + " ";
    assert first + " " + "" == s;
    assert s[0] == first[0];
    assert s[..|s| - 1] == first;
    assert TrimEnd(s) == TrimEnd(first);
    TrimKeepsInnerText(first);
  }

  /** For tidy names the display name is both names with one space, the one name that is
      present, or "N/A" when neither is. */
  lemma DisplayNameOfTidyNames(first: string, last: string)
    requires Tidy(first) && Tidy(last)
    ensures first != "" && last != "" ==> DisplayName(first, last) == first + " " + last
    ensures first != "" && last == "" ==> DisplayName(first, last) == first
    ensures first == "" && last != "" ==> DisplayName(first, last) == last
    ensures first == "" && last == "" ==> DisplayName(first, last) == "N/A"
  {
    var s := first + " " + last;
    if first != "" && last != "" {
      DisplayNameOfTwoNames(first, last);
    } else if first != "" {
      assert s == first + " ";
      DisplayNameOfFirstOnly(first);
    } else if last != "" {
      assert s == " " + last;
      assert TrimStart(s) == TrimStart(s[1..]);
      assert s[1..] == last;
    } else {
      assert TrimStart(s) == TrimStart(s[1..]);
    }
  }

  /** The placeholder "N/A" has no outer white space. */
  lemma PlaceholderIsTidy()
    ensures Tidy("N/A") && "N/A" != ""
  {
    var p := "N/A";
    assert |p| == 3 && p[0] == 'N' && p[2] == 'A';
    assert !IsSpace('N') && !IsSpace('A');
  }

  /** A user as the picker's data source holds it after `fetchUsers` has formatted it. */
  datatype PickerUser = PickerUser(id: int, firstName: string, lastName: string, name: string)

  /** `fetchUsers`' formatting of one user: blank-free name fields default to "N/A" and `name`
      is the display name of the names as received. */
  function FormatUser(id: int, first: string, last: string): (u: PickerUser)
    ensures u.id == id
    ensures u.firstName == (if first == "" then "N/A" else first)
    ensures u.lastName == (if last == "" then "N/A" else last)
  {
    PickerUser(id, Or(first, "N/A"), Or(last, "N/A"), DisplayName(first, last))
  }

  /** The "Name" column's renderer as written: it composes the name again from the record,
      whose name fields `FormatUser` has already defaulted to "N/A". */
  function NameColumnAsWritten(record: PickerUser): (shown: string)
    ensures shown != ""
    ensures forall id: int, first: string, last: string {:trigger FormatUser(id, first, last)} ::
      record == FormatUser(id, first, last) ==> shown == DisplayName(Or(first, "N/A"), Or(last, "N/A"))
  {
    DisplayName(record.firstName, record.lastName)
  }

  /** A user with a first name (say "An") and no last name is listed as "An N/A", where the
      formatted `name` says "An". */
  lemma NameColumnShowsLastPlaceholder(id: int, first: string)
    requires Tidy(first) && first != ""
    ensures NameColumnAsWritten(FormatUser(id, first, "")) == first + " " + "N/A"
    ensures FormatUser(id, first, "").name == first
  {
    assert NameColumnAsWritten(FormatUser(id, first, "")) == DisplayName(first, "N/A");
    assert DisplayName(first, "N/A") == first + " " + "N/A" by {
      PlaceholderIsTidy();
      DisplayNameOfTwoNames(first, "N/A");
    }
    assert FormatUser(id, first, "").name == first by {
      DisplayNameOfFirstOnly(first);
    }
  }

  /** A user with no names is listed as "N/A N/A", where the formatted `name` says "N/A". */
  lemma NameColumnShowsBothPlaceholders(id: int)
    ensures NameColumnAsWritten(FormatUser(id, "", "")) == "N/A" + " " + "N/A"
    ensures FormatUser(id, "", "").name == "N/A"
  {
    assert NameColumnAsWritten(FormatUser(id, "", "")) == DisplayName("N/A", "N/A");
    assert DisplayName("N/A", "N/A") == "N/A" + " " + "N/A" by {
      PlaceholderIsTidy();
      DisplayNameOfTwoNames("N/A", "N/A");
    }
    assert FormatUser(id, "", "").name == "N/A" by {
      DisplayNameOfBlanks("", "");
    }
  }

  /** The "Name" column as evidently intended: the display name of the names as received. */
  function NameColumn(record: PickerUser): (shown: string)
    ensures forall id: int, first: string, last: string {:trigger FormatUser(id, first, last)} ::
      record == FormatUser(id, first, last) ==> shown == DisplayName(first, last)
  {
    record.name
  }

  /** With the intended column, a user with tidy names is listed by the names that are present,
      with one space between two, and as "N/A" only when neither is. */
  lemma NameColumnCorrect(id: int, first: string, last: string)
    requires Tidy(first) && Tidy(last)
    ensures first != "" && last != "" ==> NameColumn(FormatUser(id, first, last)) == first + " " + last
    ensures first != "" && last == "" ==> NameColumn(FormatUser(id, first, last)) == first
    ensures first == "" && last != "" ==> NameColumn(FormatUser(id, first, last)) == last
    ensures first == "" && last == "" ==> NameColumn(FormatUser(id, first, last)) == "N/A"
  {
    DisplayNameOfTidyNames(first, last);
  }

  /** `selectedRows.map(user => Number(user.id))`: the selected ids, in selection order. */
  function IdsOf(rows: seq<PickerUser>): (ids: seq<int>)
    ensures |ids| == |rows|
    ensures forall i :: 0 <= i < |rows| ==> ids[i] == rows[i].id
  {
    if rows == [] then [] else [rows[0].id] + IdsOf(rows[1..])
  }

  /** The values of the send-to-specific form. */
  datatype AnnouncementForm = AnnouncementForm(description: string, kind: string)

  const BlankForm := AnnouncementForm("", "")

  const NoSelectionMessage := "Please select at least one user"
  const SentToSelectedMessage := "Announcement sent to selected users successfully"
  const SendSpecificFallback := "Failed to send specific announcement"

  datatype ErrorBody = ErrorBody(message: string)

  datatype Request =
    | SendToSpecific(description: string, kind: string, users: seq<int>)  // POST …/announcements/sendToSpecific

  /** The message shown for a reply that is not ok: the error body's message, otherwise
      "Request failed with status N" (a body that is not JSON reads as `{}`); a rejected request
      shows its own message, or the handler's fallback. */
  function SendFailure(reply: Reply<ErrorBody>): (m: string)
    requires !Ok(reply)
    ensures m != ""
    ensures reply.Response? && reply.body.Json? && reply.body.value.message != "" ==> m == reply.body.value.message
    ensures reply.Response? && (reply.body.Unparsable? || reply.body.value.message == "") ==>
      m == "Request failed with status " + StatusText(reply)
    ensures reply.NetworkError? ==> m == Or(reply.reason, SendSpecificFallback)
  {
    match reply
    case NetworkError(reason) => Or(reason, SendSpecificFallback)
    case Response(_, _, body) =>
      var message := if body.Json? then body.value.message else "";
      Or(message, "Request failed with status " + StatusText(reply))
  }

  class AnnouncementBoard {
    var selectedUserIds: seq<int>
    var sendSpecificVisible: bool
    var sendSpecificForm: AnnouncementForm
    var toasts: seq<Toast>
    var requests: seq<Request>

    constructor ()
      ensures selectedUserIds == [] && !sendSpecificVisible && sendSpecificForm == BlankForm
      ensures toasts == [] && requests == []
    {
      selectedUserIds := [];
      sendSpecificVisible := false;
      sendSpecificForm := BlankForm;
      toasts := [];
      requests := [];
    }

    /** `rowSelection.onChange`: the selection becomes the picked users' ids, in order. */
    method SelectRows(rows: seq<PickerUser>)
      modifies this`selectedUserIds
      ensures selectedUserIds == IdsOf(rows)
    {
      selectedUserIds := IdsOf(rows);
    }

    /** `handleSendToSpecific(values)`: an empty selection only raises an error; otherwise the
        selected ids are sent, and success closes the dialog, resets the form and clears the
        selection. The reply's body is read only when the reply is not ok. */
    method HandleSendToSpecific(values: AnnouncementForm, reply: Reply<ErrorBody>)
      modifies this`selectedUserIds, this`sendSpecificVisible, this`sendSpecificForm, this`toasts, this`requests
      ensures old(selectedUserIds) == [] ==>
        requests == old(requests) && toasts == old(toasts) + [ErrorToast(NoSelectionMessage)] &&
        selectedUserIds == [] && sendSpecificVisible == old(sendSpecificVisible) &&
        sendSpecificForm == old(sendSpecificForm)
      ensures old(selectedUserIds) != [] ==>
        requests == old(requests) + [SendToSpecific(values.description, values.kind, old(selectedUserIds))]
      ensures old(selectedUserIds) != [] && Ok(reply) ==>
        toasts == old(toasts) + [SuccessToast(SentToSelectedMessage)] &&
        !sendSpecificVisible && sendSpecificForm == BlankForm && selectedUserIds == []
      ensures old(selectedUserIds) != [] && !Ok(reply) ==>
        toasts == old(toasts) + [ErrorToast(SendFailure(reply))] &&
        sendSpecificVisible == old(sendSpecificVisible) && sendSpecificForm == old(sendSpecificForm) &&
        selectedUserIds == old(selectedUserIds)
    {
      if selectedUserIds == [] {
        toasts := toasts + [ErrorToast(NoSelectionMessage)];
        return;
      }
      requests := requests + [SendToSpecific(values.description, values.kind, selectedUserIds)];
      if Ok(reply) {
        toasts := toasts + [SuccessToast(SentToSelectedMessage)];
        sendSpecificVisible := false;
        sendSpecificForm := BlankForm;
        selectedUserIds := [];
      } else {
        toasts := toasts + [ErrorToast(SendFailure(reply))];
      }
    }
  }
}
