/** The account and contact views of the API, as methods of an in-memory
    database. Each method takes the request's fields (None when absent), returns
    the HTTP response and changes the tables the way the view does. SHA-256 and
    JWT encoding are opaque functions fixed when the database is built; the
    clock is the `now` parameter. */
module Views {
  import opened Common
  import opened Responses
  import opened Auth
  import opened Tables
  import Seqs

  const MSG_CREDENTIALS_REQUIRED := "Email and password are required."
  const MSG_INVALID_CREDENTIALS := "Invalid email or password."
  const MSG_ID_REQUIRED := "User ID is required."
  const MSG_USER_DELETED := "User deleted successfully."
  const MSG_USER_NOT_FOUND := "User not found."
  const MSG_EMAIL_FIELDS_REQUIRED := "User ID and new_email are required."
  const MSG_EMAIL_IN_USE := "Email already in use."
  const MSG_EMAIL_UPDATED := "Email updated successfully."
  const MSG_PASSWORD_FIELDS_REQUIRED := "User ID, old_password and new_password are required."
  const MSG_OLD_PASSWORD_INCORRECT := "Old password is incorrect."
  const MSG_PASSWORD_UPDATED := "Password updated successfully."
  const MSG_CONTACT_EMAIL_REQUIRED := "email is required."
  const MSG_SELF_CONTACT := "You cannot add yourself as a contact."
  const MSG_CALLER_NOT_FOUND := "Authenticated user not found."
  const MSG_CONTACT_NOT_FOUND := "User with this email does not exist."
  const MSG_CONTACT_EXISTS := "Contact already added."
  const MSG_CONTACT_ADDED := "Contact added successfully."

  /** `max_length=255` of the email column, checked by the user serializer. */
  const MAX_EMAIL_LENGTH := 255
  /** Tokens expire 24 hours after they are issued; times are in seconds. */
  const TOKEN_LIFETIME := 24 * 60 * 60

  /** Python's `str.isspace()` for one character. */
  predicate IsSpace(c: char)
  {
    || ('\t' <= c <= '\r') || ('\U{1C}' <= c <= ' ') || c == '\U{85}' || c == '\U{A0}'
    || c == '\U{1680}' || ('\U{2000}' <= c <= '\U{200A}') || c == '\U{2028}' || c == '\U{2029}'
    || c == '\U{202F}' || c == '\U{205F}' || c == '\U{3000}'
  }

  /** Drops leading whitespace. */
  function TrimStart(s: string): (r: string)
    ensures |r| <= |s|
    ensures forall k :: 0 <= k < |s| - |r| ==> IsSpace(s[k])
    ensures r != [] ==> !IsSpace(r[0])
  {
    if s != [] && IsSpace(s[0]) then TrimStart(s[1..]) else s
  }

  /** Drops trailing whitespace. */
  function TrimEnd(s: string): (r: string)
    ensures |r| <= |s|
    ensures forall k :: |r| <= k < |s| ==> IsSpace(s[k])
    ensures r != [] ==> !IsSpace(r[|r| - 1])
  {
    if s != [] && IsSpace(s[|s| - 1]) then TrimEnd(s[..|s| - 1]) else s
  }

  /** What TrimStart keeps is a suffix of its input. */
  lemma {:induction false} TrimStartIsSuffix(s: string)
    ensures TrimStart(s) == s[|s| - |TrimStart(s)|..]
  {
    if s != [] && IsSpace(s[0]) {
      TrimStartIsSuffix(s[1..]);
    }
  }

  /** What TrimEnd keeps is a prefix of its input. */
  lemma {:induction false} TrimEndIsPrefix(s: string)
    ensures TrimEnd(s) == s[..|TrimEnd(s)|]
  {
    if s != [] && IsSpace(s[|s| - 1]) {
      TrimEndIsPrefix(s[..|s| - 1]);
    }
  }

  /** `r` is the infix of `s` starting at `i`, and only whitespace lies around it. */
  ghost predicate StrippedAt(s: string, r: string, i: nat)
  {
    && i + |r| <= |s| && r == s[i..i + |r|]
    && (forall k :: 0 <= k < i ==> IsSpace(s[k]))
    && (forall k :: i + |r| <= k < |s| ==> IsSpace(s[k]))
  }

  /** Python's `s.strip()`, which DRF's `CharField` (and `EmailField`) applies
      to every input (`trim_whitespace=True`). */
  function Strip(s: string): (r: string)
    ensures |r| <= |s|
    ensures r != [] ==> !IsSpace(r[|r| - 1])
  {
    TrimEnd(TrimStart(s))
  }

  /** Strip keeps the longest infix with no whitespace at either end and cuts
      away nothing but whitespace; it is empty exactly for all-whitespace text. */
  lemma StripSpec(s: string)
    ensures exists i :: StrippedAt(s, Strip(s), i)
    ensures Strip(s) != [] ==> !IsSpace(Strip(s)[0]) && !IsSpace(Strip(s)[|Strip(s)| - 1])
    ensures Strip(s) == [] <==> forall k :: 0 <= k < |s| ==> IsSpace(s[k])
  {
    var front := TrimStart(s);
    var r := TrimEnd(front);
    var i := |s| - |front|;
    TrimStartIsSuffix(s);
    TrimEndIsPrefix(front);
    assert r == s[i..i + |r|];
    assert Strip(s) == r;
    forall k | i + |r| <= k < |s| ensures IsSpace(s[k]) {
      assert s[k] == front[k - i];
    }
    assert StrippedAt(s, r, i);
  }

  /** The claims authenticate_user signs into a token. */
  datatype Claims = Claims(userId: UserId, email: string, exp: Time, iat: Time)

  /** The element get_contacts_list builds for one contact row. */
  function EntryOf(users: map<UserId, User>, c: Contact): ContactEntry
    requires c.contact in users
  {
    ContactEntry(c.contact, users[c.contact].email, c.createdAt)
  }

  /** The list comprehension of get_contacts_list over
      `Contact.objects.filter(user_id=uid)`, in row order. */
  function ContactsOf(users: map<UserId, User>, rows: seq<Contact>, uid: UserId): (r: seq<ContactEntry>)
    requires forall c :: c in rows ==> c.contact in users
    ensures var own := Seqs.Filter(rows, (c: Contact) => c.user == uid);
      && |r| == |own|
      && forall i :: 0 <= i < |r| ==> r[i] == EntryOf(users, own[i])
  {
    if rows == [] then []
    else
      var rest := ContactsOf(users, rows[1..], uid);
      assert rows[0] in rows;
      if rows[0].user == uid then [EntryOf(users, rows[0])] + rest else rest
  }

  /** The list holds an entry for exactly the rows whose `user_id` is the caller. */
  lemma ContactsOfMembers(users: map<UserId, User>, rows: seq<Contact>, uid: UserId)
    requires forall c :: c in rows ==> c.contact in users
    ensures forall e :: e in ContactsOf(users, rows, uid) <==>
      exists c :: c in rows && c.user == uid && e == EntryOf(users, c)
  {
  }

  /** Because contact pairs are unique, no contact appears twice in the list. */
  lemma ContactsOfDistinct(t: Db, uid: UserId)
    requires Schema(t)
    ensures var r := ContactsOf(t.users, t.contacts, uid);
      forall i, j :: 0 <= i < j < |r| ==> r[i].id != r[j].id
  {
    var r := ContactsOf(t.users, t.contacts, uid);
    var own := Seqs.Filter(t.contacts, (c: Contact) => c.user == uid);
    Seqs.FilterKeepsUnique(t.contacts, (c: Contact) => c.user == uid, ContactKey);
    forall i, j | 0 <= i < j < |r| ensures r[i].id != r[j].id {
      assert own[i] in own && own[j] in own;
      assert ContactKey(own[i]) != ContactKey(own[j]);
    }
  }

  class Database {
    /** `hashlib.sha256(s.encode()).hexdigest()`. */
    const sha256: string -> string
    /** `jwt.encode(claims, SECRET_KEY, algorithm="HS256")`. */
    const jwtEncode: Claims -> string
    /** The `EmailValidator` of the serializer's `EmailField`: whether an
        address is well formed. */
    const validEmail: string -> bool

    var users: map<UserId, User>
    var contacts: seq<Contact>
    var chats: set<ChatId>
    var participants: seq<Participant>
    var messages: seq<Message>

    function Snapshot(): Db
      reads this
    {
      Db(users, contacts, chats, participants, messages)
    }

    ghost predicate Valid()
      reads this
    {
      Schema(Snapshot())
    }

    /** A freshly migrated, empty database. */
    constructor (sha256: string -> string, jwtEncode: Claims -> string, validEmail: string -> bool)
      ensures Valid()
      ensures this.sha256 == sha256 && this.jwtEncode == jwtEncode && this.validEmail == validEmail
      ensures Snapshot() == Db(map[], [], {}, [], [])
    {
      this.sha256 := sha256;
      this.jwtEncode := jwtEncode;
      this.validEmail := validEmail;
      users, contacts, chats, participants, messages := map[], [], {}, [], [];
    }

    /** create_user: the serializer trims both fields, then requires a
        non-blank, unused email of at most 255 characters and a non-blank
        password, neither holding a NUL character, and an address the email
        validator accepts; the row stores the trimmed
        email and the hash of the trimmed password, never the password. The id
        comes from the uuid4 generator, not from the request. */
    method CreateUser(email: Option<string>, password: Option<string>, newId: UserId, now: Time)
      returns (resp: Response)
      requires Valid()
      requires newId !in users
      modifies this
      ensures Valid()
      ensures resp.status == HTTP_201_CREATED <==>
        && email.Some? && Strip(email.value) != "" && |Strip(email.value)| <= MAX_EMAIL_LENGTH
        && '\0' !in Strip(email.value) && validEmail(Strip(email.value))
        && !old(EmailTaken(users, Strip(email.value)))
        && password.Some? && Strip(password.value) != "" && '\0' !in Strip(password.value)
      ensures resp.status != HTTP_201_CREATED ==>
        resp.status == HTTP_400_BAD_REQUEST && resp.body.ValidationError? && Snapshot() == old(Snapshot())
      ensures resp.status == HTTP_201_CREATED ==>
        && resp == Response(HTTP_201_CREATED, UserCreated(newId, Strip(email.value), now))
        && users == old(users)[newId := User(Strip(email.value), sha256(Strip(password.value)), now, now)]
        && contacts == old(contacts) && chats == old(chats)
        && participants == old(participants) && messages == old(messages)
    {
      if email.None? {
        return Response(HTTP_400_BAD_REQUEST, ValidationError("email", "required"));
      }
      var address := Strip(email.value);
      if address == "" {
        return Response(HTTP_400_BAD_REQUEST, ValidationError("email", "blank"));
      }
      if |address| > MAX_EMAIL_LENGTH {
        return Response(HTTP_400_BAD_REQUEST, ValidationError("email", "max_length"));
      }
      if '\0' in address {
        return Response(HTTP_400_BAD_REQUEST, ValidationError("email", "null_characters_not_allowed"));
      }
      if !validEmail(address) {
        return Response(HTTP_400_BAD_REQUEST, ValidationError("email", "invalid"));
      }
      if EmailTaken(users, address) {
        return Response(HTTP_400_BAD_REQUEST, ValidationError("email", "unique"));
      }
      if password.None? {
        return Response(HTTP_400_BAD_REQUEST, ValidationError("password", "required"));
      }
      var secret := Strip(password.value);
      if secret == "" {
        return Response(HTTP_400_BAD_REQUEST, ValidationError("password", "blank"));
      }
      if '\0' in secret {
        return Response(HTTP_400_BAD_REQUEST, ValidationError("password", "null_characters_not_allowed"));
      }
      users := users[newId := User(address, sha256(secret), now, now)];
      resp := Response(HTTP_201_CREATED, UserCreated(newId, address, now));
    }

    /** authenticate_user: a token is issued only for the user holding the
        email whose stored hash equals the hash of the password; an unknown
        email and a wrong password get the same 401 answer. Nothing changes. */
    method AuthenticateUser(email: Option<string>, password: Option<string>, now: Time)
      returns (resp: Response)
      requires Valid()
      ensures Blank(email) || Blank(password) ==>
        resp == Error(HTTP_400_BAD_REQUEST, MSG_CREDENTIALS_REQUIRED)
      ensures !Blank(email) && !Blank(password) ==>
        (resp.status == HTTP_200_OK <==>
          exists id :: id in users && users[id].email == email.value
                       && users[id].hashedPassword == sha256(password.value))
      ensures !Blank(email) && !Blank(password) && resp.status != HTTP_200_OK ==>
        resp == Error(HTTP_401_UNAUTHORIZED, MSG_INVALID_CREDENTIALS)
      ensures resp.status == HTTP_200_OK ==>
        forall id :: id in users && users[id].email == email.value ==>
          resp == Response(HTTP_200_OK, TokenIssued(
            jwtEncode(Claims(id, email.value, now + TOKEN_LIFETIME, now)), id, email.value))
    {
      if Blank(email) || Blank(password) {
        return Error(HTTP_400_BAD_REQUEST, MSG_CREDENTIALS_REQUIRED);
      }
      if !EmailTaken(users, email.value) {
        return Error(HTTP_401_UNAUTHORIZED, MSG_INVALID_CREDENTIALS);
      }
      var id :| id in users && users[id].email == email.value;
      var user := users[id];
      if sha256(password.value) != user.hashedPassword {
        return Error(HTTP_401_UNAUTHORIZED, MSG_INVALID_CREDENTIALS);
      }
      var token := jwtEncode(Claims(id, user.email, now + TOKEN_LIFETIME, now));
      resp := Response(HTTP_200_OK, TokenIssued(token, id, user.email));
    }

    /** delete_user: removes exactly the named user, with the cascades of the
        schema; a missing id (400) or an unknown id (404) changes nothing. */
    method DeleteUser(id: Option<string>) returns (resp: Response)
      requires Valid()
      modifies this
      ensures Valid()
      ensures Blank(id) ==>
        resp == Error(HTTP_400_BAD_REQUEST, MSG_ID_REQUIRED) && Snapshot() == old(Snapshot())
      ensures !Blank(id) && id.value !in old(users) ==>
        resp == Error(HTTP_404_NOT_FOUND, MSG_USER_NOT_FOUND) && Snapshot() == old(Snapshot())
      ensures !Blank(id) && id.value in old(users) ==>
        && resp == Response(HTTP_200_OK, MessageBody(MSG_USER_DELETED))
        && Snapshot() == DeleteUserCascade(old(Snapshot()), id.value)
        && NoReferenceToUser(Snapshot(), id.value)
    {
      if Blank(id) {
        return Error(HTTP_400_BAD_REQUEST, MSG_ID_REQUIRED);
      }
      if id.value !in users {
        return Error(HTTP_404_NOT_FOUND, MSG_USER_NOT_FOUND);
      }
      DeleteUserKeepsSchema(Snapshot(), id.value);
      var t := DeleteUserCascade(Snapshot(), id.value);
      users, contacts, chats, participants, messages := t.users, t.contacts, t.chats, t.participants, t.messages;
      resp := Response(HTTP_200_OK, MessageBody(MSG_USER_DELETED));
    }

    /** change_email: refuses (400) an email any user holds, the caller
        included, so emails stay unique; on success only that user's email
        and updated_at change. */
    method ChangeEmail(id: Option<string>, newEmail: Option<string>, now: Time) returns (resp: Response)
      requires Valid()
      modifies this
      ensures Valid()
      ensures Blank(id) || Blank(newEmail) ==>
        resp == Error(HTTP_400_BAD_REQUEST, MSG_EMAIL_FIELDS_REQUIRED) && Snapshot() == old(Snapshot())
      ensures !Blank(id) && !Blank(newEmail) && id.value !in old(users) ==>
        resp == Error(HTTP_404_NOT_FOUND, MSG_USER_NOT_FOUND) && Snapshot() == old(Snapshot())
      ensures !Blank(id) && !Blank(newEmail) && id.value in old(users) && old(EmailTaken(users, newEmail.value)) ==>
        resp == Error(HTTP_400_BAD_REQUEST, MSG_EMAIL_IN_USE) && Snapshot() == old(Snapshot())
      ensures resp.status == HTTP_200_OK <==>
        !Blank(id) && !Blank(newEmail) && id.value in old(users) && !old(EmailTaken(users, newEmail.value))
      ensures resp.status == HTTP_200_OK ==>
        && resp == Response(HTTP_200_OK, EmailChanged(MSG_EMAIL_UPDATED, id.value, newEmail.value))
        && users == old(users)[id.value := old(users)[id.value].(email := newEmail.value, updatedAt := now)]
        && contacts == old(contacts) && chats == old(chats)
        && participants == old(participants) && messages == old(messages)
    {
      if Blank(id) || Blank(newEmail) {
        return Error(HTTP_400_BAD_REQUEST, MSG_EMAIL_FIELDS_REQUIRED);
      }
      if id.value !in users {
        return Error(HTTP_404_NOT_FOUND, MSG_USER_NOT_FOUND);
      }
      if EmailTaken(users, newEmail.value) {
        return Error(HTTP_400_BAD_REQUEST, MSG_EMAIL_IN_USE);
      }
      users := users[id.value := users[id.value].(email := newEmail.value, updatedAt := now)];
      resp := Response(HTTP_200_OK, EmailChanged(MSG_EMAIL_UPDATED, id.value, newEmail.value));
    }

    /** change_password: the stored hash changes, to the hash of the new
        password, only when the hash of the old password matches it. */
    method ChangePassword(id: Option<string>, oldPassword: Option<string>, newPassword: Option<string>, now: Time)
      returns (resp: Response)
      requires Valid()
      modifies this
      ensures Valid()
      ensures Blank(id) || Blank(oldPassword) || Blank(newPassword) ==>
        resp == Error(HTTP_400_BAD_REQUEST, MSG_PASSWORD_FIELDS_REQUIRED) && Snapshot() == old(Snapshot())
      ensures !Blank(id) && !Blank(oldPassword) && !Blank(newPassword) && id.value !in old(users) ==>
        resp == Error(HTTP_404_NOT_FOUND, MSG_USER_NOT_FOUND) && Snapshot() == old(Snapshot())
      ensures !Blank(id) && !Blank(oldPassword) && !Blank(newPassword) && id.value in old(users)
              && sha256(oldPassword.value) != old(users)[id.value].hashedPassword ==>
        resp == Error(HTTP_401_UNAUTHORIZED, MSG_OLD_PASSWORD_INCORRECT) && Snapshot() == old(Snapshot())
      ensures resp.status == HTTP_200_OK <==>
        && !Blank(id) && !Blank(oldPassword) && !Blank(newPassword) && id.value in old(users)
        && sha256(oldPassword.value) == old(users)[id.value].hashedPassword
      ensures resp.status == HTTP_200_OK ==>
        && resp == Response(HTTP_200_OK, MessageBody(MSG_PASSWORD_UPDATED))
        && users == old(users)[id.value :=
             old(users)[id.value].(hashedPassword := sha256(newPassword.value), updatedAt := now)]
        && contacts == old(contacts) && chats == old(chats)
        && participants == old(participants) && messages == old(messages)
    {
      if Blank(id) || Blank(oldPassword) || Blank(newPassword) {
        return Error(HTTP_400_BAD_REQUEST, MSG_PASSWORD_FIELDS_REQUIRED);
      }
      if id.value !in users {
        return Error(HTTP_404_NOT_FOUND, MSG_USER_NOT_FOUND);
      }
      if sha256(oldPassword.value) != users[id.value].hashedPassword {
        return Error(HTTP_401_UNAUTHORIZED, MSG_OLD_PASSWORD_INCORRECT);
      }
      users := users[id.value := users[id.value].(hashedPassword := sha256(newPassword.value), updatedAt := now)];
      resp := Response(HTTP_200_OK, MessageBody(MSG_PASSWORD_UPDATED));
    }

    /** add_contact: inserts the pair (caller, holder of the email) once. It
        inserts nothing when authentication fails, the email is missing, the
        email is the caller's own, or no user holds it; an existing pair is
        answered 200 and left alone. */
    method AddContact(authorization: Option<string>, decode: string -> DecodeOutcome,
                      email: Option<string>, now: Time)
      returns (resp: Response)
      requires Valid()
      modifies this
      ensures Valid()
      ensures resp.status != HTTP_201_CREATED ==> Snapshot() == old(Snapshot())
      ensures RequireAuth(authorization, decode).Refused? ==>
        resp == RequireAuth(authorization, decode).response
      ensures RequireAuth(authorization, decode).Authorized? ==>
        var uid := RequireAuth(authorization, decode).payload.userId;
        && (Blank(email) ==> resp == Error(HTTP_400_BAD_REQUEST, MSG_CONTACT_EMAIL_REQUIRED))
        && (!Blank(email) && uid !in old(users) ==> resp == Error(HTTP_404_NOT_FOUND, MSG_CALLER_NOT_FOUND))
        && (!Blank(email) && uid in old(users) && old(users)[uid].email == email.value ==>
              resp == Error(HTTP_400_BAD_REQUEST, MSG_SELF_CONTACT))
        && (!Blank(email) && uid in old(users) && old(users)[uid].email != email.value
            && !old(EmailTaken(users, email.value)) ==>
              resp == Error(HTTP_404_NOT_FOUND, MSG_CONTACT_NOT_FOUND))
        && (forall cid ::
              (!Blank(email) && uid in old(users) && old(users)[uid].email != email.value
               && cid in old(users) && old(users)[cid].email == email.value) ==>
              && cid != uid
              && ((exists c :: c in old(contacts) && c.user == uid && c.contact == cid) ==>
                    resp == Response(HTTP_200_OK, MessageBody(MSG_CONTACT_EXISTS)))
              && (!(exists c :: c in old(contacts) && c.user == uid && c.contact == cid) ==>
                    && resp == Response(HTTP_201_CREATED, ContactAdded(MSG_CONTACT_ADDED, cid, email.value))
                    && contacts == old(contacts) + [Contact(uid, cid, now)]
                    && users == old(users) && chats == old(chats)
                    && participants == old(participants) && messages == old(messages)))
    {
      var auth := RequireAuth(authorization, decode);
      if auth.Refused? {
        return auth.response;
      }
      var uid := auth.payload.userId;
      if Blank(email) {
        return Error(HTTP_400_BAD_REQUEST, MSG_CONTACT_EMAIL_REQUIRED);
      }
      if uid !in users {
        return Error(HTTP_404_NOT_FOUND, MSG_CALLER_NOT_FOUND);
      }
      if users[uid].email == email.value {
        return Error(HTTP_400_BAD_REQUEST, MSG_SELF_CONTACT);
      }
      if !EmailTaken(users, email.value) {
        return Error(HTTP_404_NOT_FOUND, MSG_CONTACT_NOT_FOUND);
      }
      var cid :| cid in users && users[cid].email == email.value;
      if exists c :: c in contacts && c.user == uid && c.contact == cid {
        return Response(HTTP_200_OK, MessageBody(MSG_CONTACT_EXISTS));
      }
      var row := Contact(uid, cid, now);
      forall i | 0 <= i < |contacts| ensures ContactKey(contacts[i]) != ContactKey(row) {
        assert contacts[i] in contacts;
      }
      Seqs.AppendUnique(contacts, row, ContactKey);
      contacts := contacts + [row];
      resp := Response(HTTP_201_CREATED, ContactAdded(MSG_CONTACT_ADDED, cid, email.value));
    }

    /** get_contacts_list: exactly the caller's contact rows, as entries. */
    method GetContactsList(authorization: Option<string>, decode: string -> DecodeOutcome)
      returns (resp: Response)
      requires Valid()
      ensures RequireAuth(authorization, decode).Refused? ==>
        resp == RequireAuth(authorization, decode).response
      ensures RequireAuth(authorization, decode).Authorized? ==>
        var uid := RequireAuth(authorization, decode).payload.userId;
        && resp == Response(HTTP_200_OK, ContactList(ContactsOf(users, contacts, uid)))
        && (forall e :: e in resp.body.contacts <==>
              exists c :: c in contacts && c.user == uid && e == EntryOf(users, c))
        && (forall i, j :: 0 <= i < j < |resp.body.contacts| ==>
              resp.body.contacts[i].id != resp.body.contacts[j].id)
    {
      var auth := RequireAuth(authorization, decode);
      if auth.Refused? {
        return auth.response;
      }
      ContactsOfMembers(users, contacts, auth.payload.userId);
      ContactsOfDistinct(Snapshot(), auth.payload.userId);
      resp := Response(HTTP_200_OK, ContactList(ContactsOf(users, contacts, auth.payload.userId)));
    }

    /** `Chat.delete()`: the chat goes with its participations and messages. */
    method DeleteChat(chat: ChatId)
      requires Valid()
      requires chat in chats
      modifies this
      ensures Valid()
      ensures Snapshot() == DeleteChatCascade(old(Snapshot()), chat)
      ensures NoReferenceToChat(Snapshot(), chat)
    {
      DeleteChatKeepsSchema(Snapshot(), chat);
      var t := DeleteChatCascade(Snapshot(), chat);
      chats, participants, messages := t.chats, t.participants, t.messages;
    }
  }
}
