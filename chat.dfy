/** The chat view-model of one project view: the ordered message list, its flags, the
    compose input and the pending-delete selection. Each backend call is an input of the
    handler that awaits it; each realtime insert event is one method call. */
module ProjectChat {
  import opened Base
  import opened Text
  import Lists

  datatype SenderProfile = SenderProfile(id: string, fullName: Option<string>, company: Option<string>)

  /** One row of `project_messages`; `profile` is the joined sender profile, which a realtime
      insert event does not carry. */
  datatype ChatMessage = ChatMessage(
    id: string, projectId: string, userId: string, content: string, createdAt: string,
    profile: Option<SenderProfile>)

  /** The row a send inserts. */
  datatype NewMessage = NewMessage(projectId: string, userId: string, content: string)

  function MessageId(m: ChatMessage): string { m.id }

  const LoadError := "Kunde inte hämta chattmeddelanden."
  const NotSignedInError := "Du måste vara inloggad för att skriva i chatten."
  const SendError := "Kunde inte skicka meddelande."
  const SendTechError := "Tekniskt fel vid skickande."
  const DeleteError := "Kunde inte ta bort meddelandet."
  const DeleteTechError := "Tekniskt fel vid borttagning."
  const OwnLabel := "Du"
  const UnknownLabel := "Okänd användare"

  /** `msg.user_id === currentUserId`. */
  predicate IsMine(m: ChatMessage, currentUserId: Option<string>) {
    currentUserId == Some(m.userId)
  }

  predicate HasName(m: ChatMessage) {
    m.profile.Some? && Truthy(m.profile.value.fullName)
  }

  /** `msg.profiles?.full_name || (isMine ? "Du" : "Okänd användare")`. */
  function SenderLabel(m: ChatMessage, currentUserId: Option<string>): (r: string)
    ensures r != ""
  {
    if HasName(m) then m.profile.value.fullName.value
    else if IsMine(m, currentUserId) then OwnLabel
    else UnknownLabel
  }

  /** The label is the sender's non-empty full name when the row carries one; otherwise "Du"
      exactly on the viewer's own messages and "Okänd användare" on everyone else's. */
  lemma SenderLabelCases(m: ChatMessage, currentUserId: Option<string>)
    ensures HasName(m) ==> SenderLabel(m, currentUserId) == m.profile.value.fullName.value != ""
    ensures !HasName(m) ==> (SenderLabel(m, currentUserId) == OwnLabel <==> IsMine(m, currentUserId))
    ensures !HasName(m) ==> (SenderLabel(m, currentUserId) == UnknownLabel <==> !IsMine(m, currentUserId))
  {
  }

  /** A row delivered by the realtime channel has no joined profile, so another user's
      message shows as "Okänd användare" until a reload. */
  lemma RealtimeRowFromOtherIsUnknown(m: ChatMessage, currentUserId: Option<string>)
    requires m.profile.None? && !IsMine(m, currentUserId)
    ensures SenderLabel(m, currentUserId) == UnknownLabel
  {
  }

  /** Appends never check ids: a message delivered both by the send path and by the realtime
      path is in the list twice. */
  lemma {:induction false} EchoAppearsTwice(s: seq<ChatMessage>, m: ChatMessage)
    ensures Lists.CountKey(s + [m] + [m], MessageId, m.id) == Lists.CountKey(s, MessageId, m.id) + 2
  {
    Lists.CountKeyConcat(s + [m], [m], MessageId, m.id);
    Lists.CountKeyConcat(s, [m], MessageId, m.id);
    assert Lists.CountKey([m], MessageId, m.id) == 1 by {
      assert [m][1..] == [];
    }
  }

  /** A successful delete leaves no message with that id and keeps the others, in order. */
  lemma {:induction false} DeleteRemovesAllWithId(s: seq<ChatMessage>, a: seq<ChatMessage>, m: ChatMessage, b: seq<ChatMessage>)
    requires s == a + [m] + b
    ensures Lists.DropKey(s, MessageId, m.id) == Lists.DropKey(a, MessageId, m.id) + Lists.DropKey(b, MessageId, m.id)
    ensures forall i :: 0 <= i < |Lists.DropKey(s, MessageId, m.id)| ==> Lists.DropKey(s, MessageId, m.id)[i].id != m.id
  {
    Lists.DropKeyMembers(s, MessageId, m.id);
    Lists.DropKeyConcat(a + [m], b, MessageId, m.id);
    Lists.DropKeyConcat(a, [m], MessageId, m.id);
    assert Lists.DropKey([m], MessageId, m.id) == [] by {
      assert [m][1..] == [];
    }
  }

  class ChatView {
    /** Props of the component. */
    var projectId: string
    const currentUserId: Option<string>

    /** Component state. */
    var messages: seq<ChatMessage>
    var loading: bool
    var errorMsg: Option<string>
    var input: string
    var sending: bool
    var deleteMessageId: Option<string>
    var deletingMessage: bool

    /** `isMounted` of the current activation of the load-and-subscribe effect, and that
        activation's number: a load result or an event of an earlier activation carries an
        older number and is dropped. */
    var mounted: bool
    var epoch: nat

    /** The dialog stays open, on a truthy id, while its delete is in flight. */
    ghost predicate Valid()
      reads this
    {
      deletingMessage ==> Truthy(deleteMessageId)
    }

    /** The initial state, before the effect has run. */
    constructor (projectId: string, currentUserId: Option<string>)
      ensures Valid()
      ensures this.projectId == projectId && this.currentUserId == currentUserId
      ensures messages == [] && loading && errorMsg == None && input == "" && !sending
      ensures deleteMessageId == None && !deletingMessage && !mounted && epoch == 0
    {
      this.projectId := projectId;
      this.currentUserId := currentUserId;
      messages := [];
      loading := true;
      errorMsg := None;
      input := "";
      sending := false;
      deleteMessageId := None;
      deletingMessage := false;
      mounted := false;
      epoch := 0;
    }

    /** The effect runs for `pid`: a new activation starts its load and opens its channel.
        The message list is not reset. */
    method Activate(pid: string) returns (token: nat)
      requires Valid()
      modifies this
      ensures Valid()
      ensures projectId == pid && mounted && epoch == old(epoch) + 1 && token == epoch
      ensures loading && errorMsg == None
      ensures messages == old(messages) && input == old(input) && sending == old(sending)
      ensures deleteMessageId == old(deleteMessageId) && deletingMessage == old(deletingMessage)
    {
      projectId := pid;
      mounted := true;
      epoch := epoch + 1;
      token := epoch;
      loading := true;
      errorMsg := None;
    }

    /** The effect's cleanup: `isMounted = false` and the channel is removed. */
    method Teardown()
      requires Valid()
      modifies this`mounted
      ensures Valid() && !mounted
    {
      mounted := false;
    }

    /** The load of activation `token` completes. */
    method FinishLoad(token: nat, reply: Reply<Option<seq<ChatMessage>>>)
      requires Valid()
      modifies this`messages, this`loading, this`errorMsg
      ensures Valid()
      ensures !old(mounted && token == epoch) ==> unchanged(this)
      ensures old(mounted && token == epoch) ==>
        match reply
        case Ok(rows) => messages == rows.GetOr([]) && !loading && errorMsg == old(errorMsg)
        case Failed(_) => messages == old(messages) && !loading && errorMsg == Some(LoadError)
        case Threw => unchanged(this)
    {
      if !(mounted && token == epoch) {
        return;
      }
      match reply {
        case Ok(rows) =>
          messages := rows.GetOr([]);
          loading := false;
        case Failed(_) =>
          errorMsg := Some(LoadError);
          loading := false;
        case Threw =>
      }
    }

    /** The channel of activation `token` delivers an inserted row: it is appended as is. */
    method RealtimeInsert(token: nat, m: ChatMessage)
      requires Valid()
      modifies this`messages
      ensures Valid()
      ensures messages == if old(mounted && token == epoch) then old(messages) + [m] else old(messages)
    {
      if mounted && token == epoch {
        messages := messages + [m];
      }
    }

    /** The compose field changes. */
    method EditInput(text: string)
      modifies this`input
      ensures input == text
    {
      input := text;
    }

    /** `handleSend`, with the reply of the insert; returns the row it asks to insert. */
    method Send(reply: Reply<ChatMessage>) returns (request: Option<NewMessage>)
      requires Valid()
      modifies this`messages, this`errorMsg, this`input, this`sending
      ensures Valid()
      ensures !Truthy(currentUserId) ==>
        request == None && errorMsg == Some(NotSignedInError)
        && messages == old(messages) && input == old(input) && sending == old(sending)
      ensures Truthy(currentUserId) && Trim(old(input)) == "" ==> request == None && unchanged(this)
      ensures Truthy(currentUserId) && Trim(old(input)) != "" ==>
        request == Some(NewMessage(projectId, currentUserId.value, Trim(old(input)))) && !sending
        && match reply
           case Ok(row) => messages == old(messages) + [row] && input == "" && errorMsg == None
           case Failed(_) => messages == old(messages) && input == old(input) && errorMsg == Some(SendError)
           case Threw => messages == old(messages) && input == old(input) && errorMsg == Some(SendTechError)
    {
      if !Truthy(currentUserId) {
        errorMsg := Some(NotSignedInError);
        return None;
      }
      var text := Trim(input);
      if text == "" {
        return None;
      }
      assert Trim(input) != "";
      sending := true;
      errorMsg := None;
      request := Some(NewMessage(projectId, currentUserId.value, text));
      match reply {
        case Ok(row) =>
          messages := messages + [row];
          input := "";
        case Failed(_) =>
          errorMsg := Some(SendError);
        case Threw =>
          errorMsg := Some(SendTechError);
      }
      sending := false;
    }

    /** The delete control of an own message opens the confirmation dialog for it; the list
        lies behind the dialog's overlay while a selection is open. */
    method SelectForDelete(m: ChatMessage)
      requires Valid() && m in messages && IsMine(m, currentUserId) && deleteMessageId == None
      modifies this`deleteMessageId
      ensures Valid() && deleteMessageId == Some(m.id)
    {
      deleteMessageId := Some(m.id);
    }

    /** The dialog's `onClose`: ignored while the delete is in flight. */
    method CloseDeleteDialog()
      requires Valid()
      modifies this`deleteMessageId
      ensures Valid()
      ensures deleteMessageId == if old(deletingMessage) then old(deleteMessageId) else None
    {
      if !deletingMessage {
        deleteMessageId := None;
      }
    }

    /** The dialog's `onConfirm` (its buttons are disabled while busy): `handleDeleteMessage`
        up to its request. */
    method StartDelete() returns (started: bool)
      requires Valid() && !deletingMessage
      modifies this`errorMsg, this`deletingMessage
      ensures Valid()
      ensures started == Truthy(old(deleteMessageId))
      ensures started ==> deletingMessage && errorMsg == None
      ensures !started ==> unchanged(this)
    {
      started := Truthy(deleteMessageId);
      if started {
        errorMsg := None;
        deletingMessage := true;
      }
    }

    /** `handleDeleteMessage` after its request, with the reply of the delete. */
    method FinishDelete(reply: Reply<()>)
      requires Valid() && deletingMessage
      modifies this`messages, this`errorMsg, this`deleteMessageId, this`deletingMessage
      ensures Valid() && !deletingMessage
      ensures reply.Ok? ==>
        messages == Lists.DropKey(old(messages), MessageId, old(deleteMessageId).value)
        && deleteMessageId == None && errorMsg == old(errorMsg)
      ensures !reply.Ok? ==> messages == old(messages) && deleteMessageId == old(deleteMessageId)
      ensures reply.Failed? ==> errorMsg == Some(DeleteError)
      ensures reply.Threw? ==> errorMsg == Some(DeleteTechError)
    {
      var id := deleteMessageId.value;
      match reply {
        case Ok(_) =>
          messages := Lists.DropKey(messages, MessageId, id);
          deleteMessageId := None;
        case Failed(_) =>
          errorMsg := Some(DeleteError);
        case Threw =>
          errorMsg := Some(DeleteTechError);
      }
      deletingMessage := false;
    }
  }

  /** The sender's own view: a successful send followed by the realtime echo of the same row
      leaves two copies of it at the tail. */
  method SendThenEcho(v: ChatView, token: nat, row: ChatMessage)
    requires v.Valid() && v.mounted && token == v.epoch
    requires Truthy(v.currentUserId) && Trim(v.input) != ""
    modifies v
    ensures v.messages == old(v.messages) + [row, row]
    ensures Lists.CountKey(v.messages, MessageId, row.id) == Lists.CountKey(old(v.messages), MessageId, row.id) + 2
  {
    var request := v.Send(Ok(row));
    v.RealtimeInsert(token, row);
    assert v.messages == old(v.messages) + [row] + [row];
    EchoAppearsTwice(old(v.messages), row);
  }
}
