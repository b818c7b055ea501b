# Chat-and-game app: account tables and game screen, modelled in Dafny

This project models two small parts of a chat application with a tic-tac-toe
game.

**The account and contact API** (a Django REST backend). Its views read and
change a `users` table and a `contacts` table. The schema also declares
`chats`, `chat_participants` and `messages`, together with their uniqueness
constraints and `on_delete` rules. The model is a class `Views.Database` with
one field per table and one method per modelled view. Each view method
returns the HTTP response (status and body) and changes the tables as the
view does. One more method, `DeleteChat`, is not a view: it returns nothing
and models the schema's `Chat.delete()` cascade. Each method's contract
covers every error branch, the single change the view makes and the
fact that nothing else changes. `Valid()` is the schema as an invariant:
emails are unique, contact and participant pairs are unique, message ids are
unique, and every foreign key points at an existing row. Every method keeps
it. The cascades the schema declares on deleting a user or a chat are pure
functions in `Tables`, with lemmas proving that they keep the schema and
leave no dangling reference. `require_auth` is in `Auth`. It is a simplified
form of the Bearer scheme of section 2.1 of RFC 6750. The model splits the
header as Python's `str.split(" ")` does and proves that split against an
independent "text up to the first space" definition and against its inverse,
the join.

**The game screen** (React Native). `GameScreen` holds the pure parts: the
`Game` record, the cell label and disabled rules, the turn banner, and the
whole rendered screen. `GameScreen.GameController` holds the optional local
game, the local user id and a log of events: requests sent, alerts raised,
and un-awaited re-fetches started. Its methods `FetchGame`, `MakeMove` and
`RestartGame` take the server's replies as inputs. Their contracts state the
guards, the replace-on-success rule and the exact events logged.
`BearerHeader` is a property of the header format: `"Bearer " + token`, as
the client builds it, is a header that `require_auth` would parse back to
the token. No request of the modelled client reaches `require_auth`: its
game requests go to endpoints that no server file shown routes or
implements.

Opaque collaborators:
- SHA-256 and JWT encoding are function-valued constants of the database,
  fixed when it is built.
- JWT decoding, including its expiry check against the clock, is a function
  parameter of `RequireAuth`.
- The clock is a `now` parameter.
- The uuid4 generator is a `newId` parameter.
- The email validator of the serializer's `EmailField` is a predicate-valued
  constant `validEmail` of the database, fixed when it is built.

The game screen behaves as follows:
- When it is not the local user's turn, `makeMove` raises a "Not your turn!"
  alert.
- `restartGame` does not check that the game is finished. Only the restart
  button is hidden while the game runs.
- After a 404, the game is fetched again only if the create request
  succeeded.
- A move or restart response with a non-JSON body makes `response.json()`
  throw. Then nothing is re-fetched and no alert is shown, whatever the
  status.

## Model

| member | source | states |
|---|---|---|
| `Auth.SplitOnSpace` | backend/api/views.py:24 | `str.split(" ")` yields one piece more than there are spaces, and no piece contains a space |
| `Auth.JoinSplit` | backend/api/views.py:24 | joining the pieces with single spaces gives back the header: the split loses nothing |
| `Auth.SplitHead` | backend/api/views.py:24 | the first piece of the split is the text before the first space |
| `Auth.BearerToken` | backend/api/views.py:18-24 | no token exactly when the header does not start with "Bearer "; otherwise the token is the text after "Bearer " up to the next space, so "Bearer " alone gives the empty token |
| `Auth.RequireAuth` | backend/api/views.py:15-36 | a payload is returned exactly when the header starts with "Bearer " and the token decodes, and it is the decoded payload; a header without the prefix is refused with 401 "Authorization header missing or invalid.", an expired token with 401 "Token expired." and any other decode failure with 401 "Invalid token." |
| `Tables.ClearSender` | backend/api/models.py:85-91 | SET_NULL: every message is kept with the same id, chat, content and time; the deleted user's messages lose their sender and no others change |
| `Tables.DeleteUserCascade` | backend/api/models.py:20-91 | deleting a user removes exactly that user row, every contact row naming the user on either side and every participation of the user; every message stays, with the user's messages losing their sender (ClearSender); chats stay |
| `Tables.DeleteUserKeepsSchema` | backend/api/models.py:6-91 | after deleting a user every schema constraint still holds and no row refers to the user |
| `Tables.DeleteChatCascade` | backend/api/models.py:55-84 | deleting a chat removes exactly that chat, its participations and its messages; users and contacts are untouched |
| `Tables.DeleteChatKeepsSchema` | backend/api/models.py:55-91 | after deleting a chat every schema constraint still holds and no row refers to the chat |
| `Tables.InsertBySentAt` | backend/api/models.py:95-97 | inserting into a list ordered by `sent_at` keeps it ordered and adds exactly that message |
| `Tables.SortBySentAt` | backend/api/models.py:95-97 | the result is ordered by `sent_at` and is a permutation of the input |
| `Tables.ChatMessages` | backend/api/models.py:79-97 | a chat's messages as a query returns them: ordered by `sent_at`, holding exactly that chat's messages, each as often as stored |
| `Views.ContactsOf` | backend/api/views.py:219-229 | the contact list has one entry per contact row of the caller, in the order the rows are read, each carrying the contact's id, current email and the row's creation time |
| `Views.ContactsOfMembers` | backend/api/views.py:216-231 | an entry is in the list exactly when some contact row has the caller as `user_id` and produces it |
| `Views.ContactsOfDistinct` | backend/api/models.py:35-37 | because (user_id, contact_id) is unique, no contact appears twice in a caller's list |
| `Tables.Schema` | backend/api/models.py:6-91 | the schema's constraints as one invariant: unique emails (`unique=True`), unique (user, contact) and (chat, user) pairs (`unique_together`), unique message ids, and every foreign key naming an existing row |
| `Views.Strip` | backend/api/serializers.py:9 | `str.strip()` as `CharField` applies it: the result is no longer than the input and does not end in whitespace (`StripSpec` gives the rest) |
| `Views.Database.constructor` | backend/api/models.py:6-97 | a fresh database has empty tables and satisfies every schema constraint |
| `Views.StripSpec` | backend/api/serializers.py:9 | the serializer's whitespace trimming keeps the infix with no whitespace at either end and removes only whitespace; the result is empty exactly for all-whitespace input |
| `Views.Database.CreateUser` | backend/api/views.py:45-55 | both fields are trimmed first; 201 exactly for a present email whose trimmed form is non-blank, at most 255 characters, free of NUL, accepted by the email validator and unused, with a present password whose trimmed form is non-blank and free of NUL; the new row stores the trimmed email and the hash of the trimmed password under the generated id; any failure is a 400 validation error that changes nothing |
| `Views.Database.AuthenticateUser` | backend/api/views.py:58-94 | a missing email or password gives 400 before any lookup; a token is issued exactly when the holder of the email has hash(password) stored, and it signs that user's id and email with a 24-hour expiry; an unknown email and a wrong password give the identical 401 error |
| `Views.Database.DeleteUser` | backend/api/views.py:98-108 | a missing id gives 400 and an unknown id gives 404, both with the tables unchanged; otherwise exactly that user is removed, with the schema's cascades |
| `Views.Database.ChangeEmail` | backend/api/views.py:111-130 | 400 if a field is missing, 404 for an unknown id, 400 when any user holds the new email (the caller included), all with nothing changed; on success only that user's email and updated_at change, so emails stay unique |
| `Views.Database.ChangePassword` | backend/api/views.py:133-154 | the stored hash changes only when hash(old password) equals it (401 otherwise), and then becomes hash(new password); only that user's row changes |
| `Views.Database.AddContact` | backend/api/views.py:158-203 | nothing is inserted on an auth failure (its response passed through), a missing email (400), an unknown caller (404), the caller's own email (400) or an unknown email (404); an existing pair answers 200 unchanged; otherwise exactly the row (caller, holder, now) is appended, never a self-pair, and the answer is 201 |
| `Views.Database.GetContactsList` | backend/api/views.py:210-231 | an auth failure is passed through; otherwise 200 with the list ContactsOf gives: one entry per contact row whose `user_id` is the caller, nothing else, and no contact id twice |
| `Views.Database.DeleteChat` | backend/api/models.py:55-84 | deleting a chat applies its cascades, keeps the schema and leaves no row naming the chat |
| `GameScreen.CellLabel` | frontend/MyApp/src/screens/GameScreen.tsx:180-193 | a cell shows nothing for "EMPTY" or an absent key, and otherwise exactly the stored value |
| `GameScreen.CellDisabled` | frontend/MyApp/src/screens/GameScreen.tsx:189 | a cell takes taps exactly when it holds "EMPTY" and the game is not finished; a cell showing a mark and every cell of a finished game are disabled |
| `GameScreen.Banner` | frontend/MyApp/src/screens/GameScreen.tsx:201-210 | "Your turn" exactly when the game runs and `current_turn` is the local user; "Opponent's turn" exactly when it runs and it is not; "Draw!" exactly when finished without a (truthy) winner; "Winner: w" when finished with winner w |
| `GameScreen.Render` | frontend/MyApp/src/screens/GameScreen.tsx:172-238 | "Loading" exactly until a game is loaded; then the banner, nine cells in order 1..9, and the restart button only for a finished game |
| `GameScreen.FinishedBoardLocked` | frontend/MyApp/src/screens/GameScreen.tsx:189-234 | a finished game disables all nine cells, shows the restart button, and its banner is "Draw!" or names the winner |
| `GameScreen.MoveAllowedIffYourTurn` | frontend/MyApp/src/screens/GameScreen.tsx:94-101 | makeMove's guards pass exactly when the screen shows the board with "Your turn" |
| `GameScreen.MoveFollowUp` | frontend/MyApp/src/screens/GameScreen.tsx:119-136 | after a move request, only an ok answer with a JSON body starts a re-fetch; then WIN raises exactly one "Game Over" alert reading "Winner: w", DRAW exactly one "Draw!" / "Nobody wins." alert, and any other status none |
| `GameScreen.RestartFollowUp` | frontend/MyApp/src/screens/GameScreen.tsx:156-168 | after a restart request, an ok answer with a JSON body starts a re-fetch and nothing else; a non-ok answer with a JSON body raises exactly the "Error restarting game" alert and no re-fetch; a failed request or a non-JSON body does nothing |
| `GameScreen.GameController.constructor` | frontend/MyApp/src/screens/GameScreen.tsx:26-29 | the screen starts with the route's two player ids, no game, an empty local user id and no events |
| `GameScreen.GameController.LoadUserId` | frontend/MyApp/src/screens/GameScreen.tsx:32-37 | a stored, non-empty user id replaces the local one; otherwise it stays |
| `GameScreen.GameController.FetchGame` | frontend/MyApp/src/screens/GameScreen.tsx:40-84 | the local game is replaced wholesale by the body of an ok answer and is unchanged otherwise; a 404 sends one create request with the same pair, and a re-fetch starts only if creation succeeded |
| `GameScreen.GameController.MakeMove` | frontend/MyApp/src/screens/GameScreen.tsx:94-137 | no request without a game or with a finished game; a "Not your turn!" alert and no request when `current_turn` is not the local user; otherwise one request carrying (game id, local user id, field), then the follow-up; the local game never changes |
| `GameScreen.GameController.RestartGame` | frontend/MyApp/src/screens/GameScreen.tsx:139-169 | nothing without a game; otherwise one restart request for the loaded game's id, then the follow-up; the local game never changes |
| `BearerHeader.ClientHeaderRoundTrip` | frontend/MyApp/src/screens/GameScreen.tsx:48-50 | `require_auth`'s bearer parsing would recover a space-free token from the client's `"Bearer " + token` header; a missing token arrives as "null" |
| `BearerHeader.ClientRequestAuthorization` | backend/api/views.py:15-36 | were the client's header checked by `require_auth`, it would authorize exactly when the token decodes, and then with that token's payload |

## Left out

- Password hashing, JWT encoding and decoding, and the clock are opaque. SHA-256 and JWT (HS256) are library calls, and the clock is an input. Only equality of digests is used.
- `Views.Database.CreateUser`: the email format check is the opaque `validEmail`; the regular expressions of Django's `EmailValidator` are not modelled. The trimming and the required, blank, length, NUL-character and uniqueness checks are.
- Only the first failing check of the first failing field is reported. DRF gathers every error of every field.
- Ids are compared as exact strings. Django's `UUIDField` lookup matches every spelling `uuid.UUID` accepts (upper case, no hyphens, braces, a `urn:uuid:` prefix) to the same row. So `Views.Database.DeleteUser`, `Views.Database.ChangeEmail` and `Views.Database.ChangePassword` answer 404 for such a spelling of a stored id, where the view finds the user. `Views.Database.ChangeEmail` returns the request's id text, where the view returns the canonical `str(user.id)`. Django raises a validation error, not `DoesNotExist`, for a string that is not a UUID. That reaches neither branch of the views and is not modelled.
- `Views.Database.AddContact` and `Views.Database.GetContactsList` assume a decoded payload always has `user_id`. Every token `authenticate_user` issues does.
- `change_email` does not check the 255-character column limit. A longer email may fail in the database, depending on the backend; that error is not modelled.
- Request fields are modelled as optional strings. JSON values of other types are not modelled.
- `delete_contact`, `create_chat`, `delete_chat`, `add_chat_participant`, `remove_chat_participant` and `send_message` are empty stubs. Nothing can add chats, participants or messages. So `Views.Database.DeleteChat` models only the schema's `Chat.delete()` cascade. All methods are proved for every state that satisfies the schema, not only for reachable ones.
- The URL routing is not modelled. No server file shown routes or implements the game endpoints the client calls (`/game/`, `/game/create`, `/game/move`, `/game/restart`). The server's game rules (win and draw detection, turn alternation, restart) are not shown, so they are not modelled.
- The polling timer (`setInterval` every 1200 ms) is not modelled. Neither is the race in which a slow fetch overwrites a newer one. Each `FetchGame` call is one complete invocation.
- A re-fetch started without awaiting it is logged as `FetchStarted`. Its own requests and effects belong to the next `FetchGame` call.
- A failing `AsyncStorage` read and `console.log` output are not modelled. Reading the token is an input.
- An ok move answer whose JSON is `null` is not modelled. In the code, reading `data.status` then throws after the re-fetch has started. For a number, string or array answer `data.status` is undefined; the model covers that case as a status other than WIN or DRAW, so a re-fetch starts and there is no alert.
- An ok game fetch whose JSON is `null` is not modelled. In the code, `setGame(null)` runs and the screen goes back to "Loading". `GameScreen.GameController.FetchGame` takes a reply that always holds a game.
- `data.winner` is modelled as the text it converts to.
- React rendering, styles and navigation are not modelled. The other screens (login, register, chat, home, add-contact form, navigation bar) and the build script are UI glue.
- Messages with equal `sent_at` may come back in any order from the database. `Tables.ChatMessages` states only order and permutation, which holds for every such order.
- `Contact` declares no `ordering`, so the database may return a caller's contacts in any order. `Views.ContactsOf` reads the rows in table order; its one-entry-per-row and membership contracts hold for every order, but the order of the list is not promised by the source.
