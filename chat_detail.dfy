/** One conversation (pages/ChatDetail.tsx): the message list, the draft, the send guard and the optimistic
    append, the realtime append and the Enter key. The viewer is the fixed demo user "current-user"; the backend,
    the clock and the random temporary id are parameters. */
module ChatDetail {
  import opened Options
  import opened Text
  import opened Database

  const CurrentUserId := "current-user"

  /** `isMe`: the bubble is drawn on the right. */
  predicate IsMe(m: Message) {
    m.senderId == CurrentUserId
  }

  /** The row sent to the `message` table. */
  datatype Outgoing = Outgoing(conversationId: string, senderId: string, content: string)

  /** The update of the conversation's last message. */
  datatype LastMessageUpdate = LastMessageUpdate(conversationId: string, lastMessage: string, lastMessageAt: string)

  /** `!id` in JavaScript: a missing route parameter or an empty one. */
  predicate HasId(id: Option<string>) {
    id.Some? && id.value != []
  }

  /** What the `message` query returned: rows, a null body, or an error. */
  datatype FetchResult = Rows(rows: seq<Message>) | NoBody | FetchError

  /** The three demo messages shown when the query fails, in time order; the middle one is the viewer's. */
  function MockThread(id: string, t100: string, t80: string, t60: string): (r: seq<Message>)
    ensures |r| == 3
    ensures forall i :: 0 <= i < |r| ==> r[i].conversationId == id && r[i].isRead
    ensures !IsMe(r[0]) && IsMe(r[1]) && !IsMe(r[2])
  {
    [ Message("m1", id, "u2", "Hi! Is the item still available?", t100, true),
      Message("m2", id, "current-user", "Yes it is! When would you like to pick it up?", t80, true),
      Message("m3", id, "u2", "Does tomorrow at 5pm work for you?", t60, true) ]
  }

  /** The hard-coded profile of the other participant. */
  function DemoPartner(): AppUser {
    AppUser("u2", "Alice Baker", "Brooklyn", "11201", 5.0, 200, "https://i.pravatar.cc/150?u=Alice")
  }

  /** The optimistic message: the trimmed draft from the viewer, not yet read. */
  function Optimistic(id: string, tempId: string, draft: string, now: string): (r: Message)
    requires !IsBlank(draft)
    ensures r.content != [] && !IsSpace(r.content[0]) && !IsSpace(r.content[|r.content| - 1])
    ensures IsMe(r) && !r.isRead && r.conversationId == id && r.id == tempId
  {
    BlankIffTrimmedEmpty(draft);
    Message(tempId, id, CurrentUserId, Trim(draft), now, false)
  }

  /** The send button is disabled for a blank draft. */
  predicate SendEnabled(draft: string) {
    !IsBlank(draft)
  }

  class Chat {
    /** The route parameter. */
    const id: Option<string>
    var messages: seq<Message>
    var newMessage: string
    var otherUser: Option<AppUser>
    var loading: bool
    /** Rows sent to `message` and updates sent to `conversation`, in order. */
    var sent: seq<Outgoing>
    var updates: seq<LastMessageUpdate>

    constructor(id: Option<string>)
      ensures this.id == id && messages == [] && newMessage == "" && otherUser.None? && loading
      ensures sent == [] && updates == []
    {
      this.id := id;
      messages := [];
      newMessage := "";
      otherUser := None;
      loading := true;
      sent := [];
      updates := [];
    }

    /** The input's onChange. */
    method Type(text: string)
      modifies this`newMessage
      ensures newMessage == text
    {
      newMessage := text;
    }

    /** The initial fetch: nothing without an id; otherwise the demo partner, and the rows (none for a null
        body) or, after an error, the demo thread. */
    method Fetch(result: FetchResult, t100: string, t80: string, t60: string)
      modifies this`messages, this`otherUser, this`loading
      ensures !HasId(id) ==> messages == old(messages) && otherUser == old(otherUser) && loading == old(loading)
      ensures HasId(id) ==> !loading && otherUser == Some(DemoPartner())
      ensures HasId(id) ==> messages == match result
        case Rows(rows) => rows
        case NoBody => []
        case FetchError => MockThread(id.value, t100, t80, t60)
    {
      if !HasId(id) {
        return;
      }
      loading := true;
      otherUser := Some(DemoPartner());
      match result {
        case Rows(rows) => messages := rows;
        case NoBody => messages := [];
        case FetchError => messages := MockThread(id.value, t100, t80, t60);
      }
      loading := false;
    }

    /** A realtime INSERT on this conversation's channel (subscribed only when there is an id) is appended. */
    method ReceiveInsert(m: Message)
      modifies this`messages
      ensures messages == if HasId(id) then old(messages) + [m] else old(messages)
    {
      if HasId(id) {
        messages := messages + [m];
      }
    }

    /** `handleSendMessage`: a blank draft or a missing id changes nothing. Otherwise the optimistic message is
        appended, the draft is cleared and the row is sent; when the insert succeeds the conversation's last
        message follows. */
    method Send(tempId: string, now: string, insertOk: bool)
      modifies this`messages, this`newMessage, this`sent, this`updates
      ensures IsBlank(old(newMessage)) || !HasId(id) ==>
        messages == old(messages) && newMessage == old(newMessage) && sent == old(sent) && updates == old(updates)
      ensures !IsBlank(old(newMessage)) && HasId(id) ==>
        && messages == old(messages) + [Optimistic(id.value, tempId, old(newMessage), now)]
        && newMessage == ""
        && sent == old(sent) + [Outgoing(id.value, CurrentUserId, Trim(old(newMessage)))]
        && updates == old(updates)
             + (if insertOk then [LastMessageUpdate(id.value, Trim(old(newMessage)), now)] else [])
    {
      if IsBlank(newMessage) || !HasId(id) {
        return;
      }
      var content := Trim(newMessage);
      messages := messages + [Optimistic(id.value, tempId, newMessage, now)];
      newMessage := "";
      sent := sent + [Outgoing(id.value, CurrentUserId, content)];
      if insertOk {
        updates := updates + [LastMessageUpdate(id.value, content, now)];
      }
    }

    /** `handleKeyDown`: Enter without Shift sends (and the default is prevented); any other key does nothing. */
    method KeyDown(key: string, shift: bool, tempId: string, now: string, insertOk: bool)
      returns (preventDefault: bool)
      modifies this`messages, this`newMessage, this`sent, this`updates
      ensures preventDefault <==> key == "Enter" && !shift
      ensures !preventDefault ==>
        messages == old(messages) && newMessage == old(newMessage) && sent == old(sent) && updates == old(updates)
      ensures preventDefault && (IsBlank(old(newMessage)) || !HasId(id)) ==>
        messages == old(messages) && newMessage == old(newMessage) && sent == old(sent) && updates == old(updates)
      ensures preventDefault && !IsBlank(old(newMessage)) && HasId(id) ==>
        && messages == old(messages) + [Optimistic(id.value, tempId, old(newMessage), now)]
        && newMessage == ""
        && sent == old(sent) + [Outgoing(id.value, CurrentUserId, Trim(old(newMessage)))]
        && updates == old(updates)
             + (if insertOk then [LastMessageUpdate(id.value, Trim(old(newMessage)), now)] else [])
    {
      preventDefault := key == "Enter" && !shift;
      if preventDefault {
        Send(tempId, now, insertOk);
      }
    }
  }

  /** A sent message is drawn as the viewer's, after every earlier message, which stay as they were. */
  method SendShowsMine(chat: Chat, tempId: string, now: string, insertOk: bool)
    requires !IsBlank(chat.newMessage) && HasId(chat.id)
    modifies chat
    ensures |chat.messages| == |old(chat.messages)| + 1
    ensures chat.messages[..|old(chat.messages)|] == old(chat.messages)
    ensures IsMe(chat.messages[|chat.messages| - 1]) && chat.newMessage == ""
  {
    chat.Send(tempId, now, insertOk);
  }
}
