/** The database schema of the API: the users, contacts, chats,
    chat_participants and messages tables, the constraints the schema declares
    (unique email, unique pairs, foreign keys) and what the declared `on_delete`
    rules do when a user or a chat row is deleted. */
module Tables {
  import opened Common
  import Seqs

  type UserId = string
  type ChatId = string
  /** A timestamp as the clock gives it; only its order matters here. */
  type Time = int

  /** A row of `users`; its primary key is the map key it is stored under. */
  datatype User = User(email: string, hashedPassword: string, createdAt: Time, updatedAt: Time)

  /** A row of `contacts`: `user` has added `contact`. */
  datatype Contact = Contact(user: UserId, contact: UserId, createdAt: Time)

  /** A row of `chat_participants`. */
  datatype Participant = Participant(chat: ChatId, user: UserId)

  /** A row of `messages`; `sender` becomes None when the sender is deleted. */
  datatype Message = Message(id: string, chat: ChatId, sender: Option<UserId>, content: string, sentAt: Time)

  /** The whole database: users by primary key, the chat ids, and the other
      tables as sequences of rows. */
  datatype Db = Db(
    users: map<UserId, User>,
    contacts: seq<Contact>,
    chats: set<ChatId>,
    participants: seq<Participant>,
    messages: seq<Message>)

  /** `email = EmailField(unique=True, ...)`. */
  ghost predicate EmailsUnique(users: map<UserId, User>)
  {
    forall a, b :: a in users && b in users && a != b ==> users[a].email != users[b].email
  }

  /** Some user holds `email` (`User.objects.filter(email=email).exists()`). */
  predicate EmailTaken(users: map<UserId, User>, email: string)
  {
    exists id :: id in users && users[id].email == email
  }

  function ContactKey(c: Contact): (UserId, UserId) { (c.user, c.contact) }
  function ParticipantKey(p: Participant): (ChatId, UserId) { (p.chat, p.user) }
  function MessageKey(m: Message): string { m.id }

  /** Every constraint the schema declares. */
  ghost predicate Schema(t: Db)
  {
    && EmailsUnique(t.users)
    && (forall c :: c in t.contacts ==> c.user in t.users && c.contact in t.users)
    && Seqs.UniqueBy(t.contacts, ContactKey)
    && (forall p :: p in t.participants ==> p.chat in t.chats && p.user in t.users)
    && Seqs.UniqueBy(t.participants, ParticipantKey)
    && (forall m :: m in t.messages ==> m.chat in t.chats && (m.sender.Some? ==> m.sender.value in t.users))
    && Seqs.UniqueBy(t.messages, MessageKey)
  }

  /** No row of any table points at user `id`. */
  ghost predicate NoReferenceToUser(t: Db, id: UserId)
  {
    && id !in t.users
    && (forall c :: c in t.contacts ==> c.user != id && c.contact != id)
    && (forall p :: p in t.participants ==> p.user != id)
    && (forall m :: m in t.messages ==> m.sender != Some(id))
  }

  /** No row of any table points at chat `chat`. */
  ghost predicate NoReferenceToChat(t: Db, chat: ChatId)
  {
    && chat !in t.chats
    && (forall p :: p in t.participants ==> p.chat != chat)
    && (forall m :: m in t.messages ==> m.chat != chat)
  }

  /** `sender_id = ForeignKey(User, on_delete=SET_NULL, null=True)`: every
      message of the deleted user stays, with no sender. */
  function ClearSender(messages: seq<Message>, id: UserId): (r: seq<Message>)
    ensures |r| == |messages|
    ensures forall i :: 0 <= i < |r| ==>
      && r[i].id == messages[i].id && r[i].chat == messages[i].chat
      && r[i].content == messages[i].content && r[i].sentAt == messages[i].sentAt
      && r[i].sender == (if messages[i].sender == Some(id) then None else messages[i].sender)
  {
    seq(|messages|, i requires 0 <= i < |messages| =>
      if messages[i].sender == Some(id) then messages[i].(sender := None) else messages[i])
  }

  /** `user.delete()`: the user row goes, and with it (on_delete=CASCADE) every
      contact row naming the user on either side and every participation of the
      user; the user's messages stay with a null sender. */
  function DeleteUserCascade(t: Db, id: UserId): (r: Db)
    ensures id !in r.users
    ensures forall u :: u in t.users && u != id ==> u in r.users && r.users[u] == t.users[u]
    ensures forall u :: u in r.users ==> u in t.users
    ensures forall c :: c in r.contacts <==> c in t.contacts && c.user != id && c.contact != id
    ensures forall p :: p in r.participants <==> p in t.participants && p.user != id
    ensures r.messages == ClearSender(t.messages, id)
    ensures r.chats == t.chats
  {
    Db(
      t.users - {id},
      Seqs.Filter(t.contacts, (c: Contact) => c.user != id && c.contact != id),
      t.chats,
      Seqs.Filter(t.participants, (p: Participant) => p.user != id),
      ClearSender(t.messages, id))
  }

  /** Deleting a user keeps every schema constraint and leaves nothing that
      refers to the user. */
  lemma DeleteUserKeepsSchema(t: Db, id: UserId)
    requires Schema(t)
    ensures Schema(DeleteUserCascade(t, id))
    ensures NoReferenceToUser(DeleteUserCascade(t, id), id)
  {
    var r := DeleteUserCascade(t, id);
    Seqs.FilterKeepsUnique(t.contacts, (c: Contact) => c.user != id && c.contact != id, ContactKey);
    Seqs.FilterKeepsUnique(t.participants, (p: Participant) => p.user != id, ParticipantKey);
    forall m | m in r.messages ensures m.chat in r.chats && (m.sender.Some? ==> m.sender.value in r.users) && m.sender != Some(id) {
      var i :| 0 <= i < |r.messages| && r.messages[i] == m;
      assert t.messages[i] in t.messages;
    }
    assert Seqs.UniqueBy(r.messages, MessageKey) by {
      forall i, j | 0 <= i < j < |r.messages| ensures MessageKey(r.messages[i]) != MessageKey(r.messages[j]) {
        assert MessageKey(t.messages[i]) != MessageKey(t.messages[j]);
      }
    }
  }

  /** `chat.delete()`: the chat row goes, and with it (on_delete=CASCADE) its
      participations and its messages. */
  function DeleteChatCascade(t: Db, chat: ChatId): (r: Db)
    ensures r.chats == t.chats - {chat}
    ensures forall p :: p in r.participants <==> p in t.participants && p.chat != chat
    ensures forall m :: m in r.messages <==> m in t.messages && m.chat != chat
    ensures r.users == t.users && r.contacts == t.contacts
  {
    t.(chats := t.chats - {chat},
       participants := Seqs.Filter(t.participants, (p: Participant) => p.chat != chat),
       messages := Seqs.Filter(t.messages, (m: Message) => m.chat != chat))
  }

  /** Deleting a chat keeps every schema constraint and leaves nothing that
      refers to the chat. */
  lemma DeleteChatKeepsSchema(t: Db, chat: ChatId)
    requires Schema(t)
    ensures Schema(DeleteChatCascade(t, chat))
    ensures NoReferenceToChat(DeleteChatCascade(t, chat), chat)
  {
    Seqs.FilterKeepsUnique(t.participants, (p: Participant) => p.chat != chat, ParticipantKey);
    Seqs.FilterKeepsUnique(t.messages, (m: Message) => m.chat != chat, MessageKey);
  }

  /** `ordering = ['sent_at']`: the messages as a query returns them. */
  ghost predicate SortedBySentAt(s: seq<Message>)
  {
    forall i, j :: 0 <= i < j < |s| ==> s[i].sentAt <= s[j].sentAt
  }

  /** Places `m` before the first message sent no earlier than it. */
  function InsertBySentAt(m: Message, s: seq<Message>): (r: seq<Message>)
    requires SortedBySentAt(s)
    ensures SortedBySentAt(r)
    ensures multiset(r) == multiset(s) + multiset{m}
  {
    if s == [] || m.sentAt <= s[0].sentAt then [m] + s
    else
      var tail := InsertBySentAt(m, s[1..]);
      assert s == [s[0]] + s[1..];
      forall j | 0 <= j < |tail| ensures s[0].sentAt <= tail[j].sentAt {
        assert tail[j] in multiset(tail);
      }
      [s[0]] + tail
  }

  function SortBySentAt(s: seq<Message>): (r: seq<Message>)
    ensures SortedBySentAt(r)
    ensures multiset(r) == multiset(s)
  {
    if s == [] then []
    else
      assert s == [s[0]] + s[1..];
      InsertBySentAt(s[0], SortBySentAt(s[1..]))
  }

  /** The messages of one chat (`chat.messages.all()`), oldest first: exactly
      that chat's messages, each as often as it is stored, in `sent_at` order. */
  function ChatMessages(messages: seq<Message>, chat: ChatId): (r: seq<Message>)
    ensures SortedBySentAt(r)
    ensures forall m :: m in r <==> m in messages && m.chat == chat
    ensures multiset(r) == multiset(Seqs.Filter(messages, (m: Message) => m.chat == chat))
  {
    var own := Seqs.Filter(messages, (m: Message) => m.chat == chat);
    var r := SortBySentAt(own);
    assert forall m :: m in r <==> m in multiset(own);
    r
  }
}
