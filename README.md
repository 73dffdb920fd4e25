# ChatBuddy front end: session and chat state, in Dafny

This project models the stateful core of the ChatBuddy web client:

- **Auth**: the authentication provider. It holds the raw JSON Web Token, the signed-in user, the `isAuthenticated` and `isLoading` flags, and the persisted `localStorage['token']` slot. Its operations are start-up validation, `login`, `logout`, `isTokenExpired` and `getAuthHeader`.
- **Chat**: the chat page. It holds the visible messages, the newest-first chat history, the active chat id, the loading flag, the text box and the sidebar flag. Its operations are submit, the delayed assistant reply, new chat, clear chat, load chat, sidebar toggle, the send-button predicate and message formatting.
- **Signup** and **Login**: the two form handlers. Each is an ordered chain of checks followed by a request. The request's outcome is an input.
- **Text** holds the JavaScript string operations these depend on: `trim`, `split('\n')` and integer-to-decimal. `JoinLines` is not used by the pages; it is the inverse of `split('\n')` that the round-trip lemmas use to state what splitting keeps. **Net** holds the fetch outcome and the error text it produces. **Options** holds the `Option` type.

Each stateful component is a class whose fields are the component's state. A `State()` function gives the fields as a datatype value. Every method is proved to produce `State() == F(old(State()))`, where `F` is a pure transition function. The source's promises are stated as lemmas about those functions.

The chat reply timer is the separate step `ReceiveReply(text)`. The field `pendingReplies` counts the timers that have been started and have not fired yet. Each form's request is split in two:
- `Submit` runs up to the `await`.
- `Settle(outcome)` runs when the outcome is known.
- `pending` counts the requests being awaited.

Token decoding (`jwt-decode`) is a total function `decode: string -> Option<Claims>` that the caller supplies. `None` stands for the error the library throws. The clock is `Date.now()` in milliseconds, so the source's `exp < Date.now() / 1000` becomes exactly `exp * 1000 < nowMs`. New chat ids and the displayed date are parameters.

The model follows the code's actual behaviour; in particular:
- A submit is not refused while a reply is pending. Only the button is disabled; the Enter key still submits.
- A reply goes to whatever messages are visible when it fires, not to the chat it answers.
- Messages are not stored per chat.
- `loadChat` accepts any id and shows two stand-in messages.
- `login` stores the token even when it does not decode, and then keeps the previous user and authentication flag.
- Logging out does not affect the chat page.

## Model

| member | source | states |
|---|---|---|
| Auth.AuthProvider.constructor | frontend/src/contexts/AuthContext.jsx:7-10 | at mount the token state is the stored token when truthy (else null), no user, not authenticated, loading |
| Auth.AuthProvider.InitializeAuth | frontend/src/contexts/AuthContext.jsx:14-43 | start-up validation, proved to produce `Initialized` of the old state |
| Auth.AuthProvider.Login | frontend/src/contexts/AuthContext.jsx:49-64 | `login(newToken)`, proved to produce `LoggedIn` of the old state |
| Auth.AuthProvider.Logout | frontend/src/contexts/AuthContext.jsx:67-72 | `logout`, proved to produce `LoggedOut` of the old state |
| Auth.InitializeEndsLoading | frontend/src/contexts/AuthContext.jsx:15-42 | start-up always ends with loading off; with no truthy stored token nothing else changes |
| Auth.InitializeRejectsUndecodable | frontend/src/contexts/AuthContext.jsx:35-39 | a stored token that fails to decode is handled as a logout: slot removed, token and user null, not authenticated |
| Auth.InitializeRejectsExpired | frontend/src/contexts/AuthContext.jsx:20-25 | a stored token whose non-zero `exp` is strictly before now gets the same logout outcome |
| Auth.InitializeAcceptsValid | frontend/src/contexts/AuthContext.jsx:23-33 | a decodable token with missing, zero or not-yet-passed `exp` (including `exp` equal to now) is accepted: token = stored value, user = `{email, username}` of the claims, authenticated |
| Auth.InitializeOutcome | frontend/src/contexts/AuthContext.jsx:17-40 | start-up authenticates exactly when the stored token decodes and is not expired, and it writes the slot at most by clearing it |
| Auth.LoginPersistsToken | frontend/src/contexts/AuthContext.jsx:49-64 | `login` always writes the token to the slot and to the state. If it decodes, user comes from the claims and authentication is on. If not, user and flag keep their previous values |
| Auth.LoginUndecodableKeepsPreviousUser | frontend/src/contexts/AuthContext.jsx:54-63 | an undecodable login while signed in stays signed in with the old user but the new token |
| Auth.LogoutIdempotent | frontend/src/contexts/AuthContext.jsx:67-72 | logout's result does not depend on the prior session; applying it twice equals applying it once |
| Auth.TokenExpiredCases | frontend/src/contexts/AuthContext.jsx:75-85 | expired when there is no truthy token or it does not decode, otherwise exactly `exp < now` (false for a missing `exp`) |
| Auth.AcceptedTokenIsLive | frontend/src/contexts/AuthContext.jsx:20-85 | a token accepted at start-up with non-zero `exp` is not expired at the same instant |
| Auth.ZeroExpiryAcceptedButExpired | frontend/src/contexts/AuthContext.jsx:23-81 | `exp == 0` is accepted at start-up, yet `isTokenExpired` reports it expired at any positive time |
| Auth.AuthHeaderCases | frontend/src/contexts/AuthContext.jsx:88-90 | the header is `{Authorization: token}` exactly when the token is truthy, else empty |
| Text.TrimStart | frontend/src/pages/ChatBotHomePage.jsx:38 | the result is a suffix of the input, every character dropped is whitespace, and a non-empty result starts with a non-whitespace character |
| Text.TrimEnd | frontend/src/pages/ChatBotHomePage.jsx:38 | the result is a prefix of the input, every character dropped is whitespace, and a non-empty result ends with a non-whitespace character |
| Text.TrimIsInnerSlice | frontend/src/pages/ChatBotHomePage.jsx:38 | `trim` leaves a contiguous part of the input |
| Text.TrimEndsAreNotWhitespace | frontend/src/pages/ChatBotHomePage.jsx:38 | what `trim` leaves, when non-empty, starts and ends with a non-whitespace character |
| Text.TrimEmptyIffBlank | frontend/src/pages/ChatBotHomePage.jsx:38 | `input.trim()` is empty exactly when every character is whitespace |
| Text.Lines | frontend/src/pages/ChatBotHomePage.jsx:102 | `split('\n')` gives at least one piece and no piece contains a newline |
| Text.JoinLinesOfLines | frontend/src/pages/ChatBotHomePage.jsx:101-103 | joining the pieces of a split with newlines gives back the content |
| Text.LinesOfJoinLines | frontend/src/pages/ChatBotHomePage.jsx:101-103 | splitting newline-free pieces joined with newlines gives back the pieces |
| Text.NatToDecimal | frontend/src/pages/ChatBotHomePage.jsx:93 | the decimal text of an id is non-empty, all digits, with no leading zero |
| Text.DecimalRoundTrip | frontend/src/pages/ChatBotHomePage.jsx:93 | reading the decimal text back gives the number |
| Text.IntToDecimalInjective | frontend/src/pages/ChatBotHomePage.jsx:93 | different ids have different decimal texts |
| Chat.Title | frontend/src/pages/ChatBotHomePage.jsx:45 | the title is the untrimmed input's first `min(30, length)` characters, followed by `...` exactly when the input is longer than 30; at most 33 characters |
| Chat.ChatGPTClone.constructor | frontend/src/pages/ChatBotHomePage.jsx:5-14 | the page starts with no messages, the three seeded chats, no active chat, not loading, empty input, sidebar open; the invariant holds |
| Chat.ChatGPTClone.HandleSubmit | frontend/src/pages/ChatBotHomePage.jsx:35-76 | `handleSubmit`, proved to produce `Submitted` of the old state and to keep the invariant |
| Chat.ChatGPTClone.ReceiveReply | frontend/src/pages/ChatBotHomePage.jsx:60-73 | the timer's reply, proved to produce `Replied` of the old state and to keep the invariant |
| Chat.ChatGPTClone.StartNewChat | frontend/src/pages/ChatBotHomePage.jsx:78-82 | proved to produce `NewChatStarted` of the old state |
| Chat.ChatGPTClone.ClearChat | frontend/src/pages/ChatBotHomePage.jsx:84-86 | proved to produce `Cleared` of the old state |
| Chat.ChatGPTClone.LoadChat | frontend/src/pages/ChatBotHomePage.jsx:88-96 | proved to produce `Loaded` of the old state for any id |
| Chat.ChatGPTClone.ToggleSidebar | frontend/src/pages/ChatBotHomePage.jsx:106-108 | proved to produce `SidebarToggled` of the old state |
| Chat.ChatGPTClone.SetInput | frontend/src/pages/ChatBotHomePage.jsx:253 | the text box's change handler replaces the input only |
| Chat.SubmitKeepsInv | frontend/src/pages/ChatBotHomePage.jsx:35-76 | submit keeps the page invariant: loading implies a scheduled reply, titles fit in 33 characters, the seeded chats stay at the end of the history |
| Chat.MountedSatisfiesInv | frontend/src/pages/ChatBotHomePage.jsx:5-14 | the initial page satisfies the invariant |
| Chat.SubmitBlankIsNoOp | frontend/src/pages/ChatBotHomePage.jsx:38 | submitting empty or whitespace-only input changes no state at all |
| Chat.SubmitCreatesChat | frontend/src/pages/ChatBotHomePage.jsx:41-51 | with no active chat, a non-blank submit prepends exactly one entry `{id, Title(input), date}`, keeps the old entries after it in order, and activates the new id |
| Chat.SubmitKeepsActiveChat | frontend/src/pages/ChatBotHomePage.jsx:41 | with a chat active, history and active id are unchanged |
| Chat.SubmitAppendsUserMessage | frontend/src/pages/ChatBotHomePage.jsx:54-75 | a non-blank submit appends exactly `{user, input}` after the earlier messages, sets loading, schedules one reply and clears the input, even while a reply is pending |
| Chat.ReplyAppendsAssistantMessage | frontend/src/pages/ChatBotHomePage.jsx:60-73 | the reply appends exactly one assistant message, stops loading, and leaves history, active id and input alone |
| Chat.ReplyAfterNewChatLandsInNewScreen | frontend/src/pages/ChatBotHomePage.jsx:71-82 | a reply that fires after "new chat" becomes the only message of the new screen |
| Chat.FirstReplyEndsLoadingEarly | frontend/src/pages/ChatBotHomePage.jsx:35-76 | two submits before a reply append both user messages in order; the first reply turns loading off while one reply is still scheduled |
| Chat.NewChatAndClear | frontend/src/pages/ChatBotHomePage.jsx:78-86 | new chat clears the active id, messages and input and keeps the history; clear chat empties only the messages |
| Chat.LoadChatShowsId | frontend/src/pages/ChatBotHomePage.jsx:88-96 | load sets the active id and shows exactly a user line naming the id, then the canned assistant reply; different ids give different user lines |
| Chat.SendEnabledIff | frontend/src/pages/ChatBotHomePage.jsx:266 | send is enabled exactly when the input has a non-whitespace character and nothing is loading |
| Chat.ToggleTwiceIsIdentity | frontend/src/pages/ChatBotHomePage.jsx:106-108 | toggling negates the sidebar flag; toggling twice is the identity |
| Chat.FormatMessageRoundTrip | frontend/src/pages/ChatBotHomePage.jsx:98-104 | one block per line, a line break exactly for empty lines, and joining the blocks' text with newlines gives back the content |
| Net.FailureTextCases | frontend/src/pages/SignupPage.jsx:75-93 | a failed response shows its non-empty message or the page's fallback; a rejected request shows its reason or the network fallback |
| Signup.ValidationError | frontend/src/pages/SignupPage.jsx:41-54 | validation passes exactly when username and email are non-empty, the password has at least 8 characters and the terms are agreed |
| Signup.ValidationOrder | frontend/src/pages/SignupPage.jsx:41-54 | missing fields beat a short password, which beats the terms; a password of exactly 8 characters passes |
| Signup.RejectedSubmitOnlySetsError | frontend/src/pages/SignupPage.jsx:41-54 | a failed check sets only the error: no request, loading and fields unchanged |
| Signup.AcceptedSubmitStartsLoading | frontend/src/pages/SignupPage.jsx:57-58 | a passing submit clears the error and sets loading before the request |
| Signup.SettleOutcome | frontend/src/pages/SignupPage.jsx:75-96 | loading off after every outcome. Success: success message, all fields emptied, terms unticked. Failure: the server message or "Error signing up", fields kept |
| Signup.TermsErrorOnlyWhileDisabled | frontend/src/pages/SignupPage.jsx:221 | the terms error arises only in states where the submit button is disabled |
| Signup.ButtonDisabledWhileAwaiting | frontend/src/pages/SignupPage.jsx:221 | the button is disabled while the request is awaited; after it, enabled again exactly on failure |
| Signup.SignupPage.constructor | frontend/src/pages/SignupPage.jsx:6-12 | the form starts empty, terms unticked, no error or success, not loading |
| Signup.SignupPage.SetUsername | frontend/src/pages/SignupPage.jsx:154 | replaces only the username |
| Signup.SignupPage.SetEmail | frontend/src/pages/SignupPage.jsx:171 | replaces only the email |
| Signup.SignupPage.SetPassword | frontend/src/pages/SignupPage.jsx:188 | replaces only the password |
| Signup.SignupPage.SetAgreeTerms | frontend/src/pages/SignupPage.jsx:204 | replaces only the terms box |
| Signup.SignupPage.Submit | frontend/src/pages/SignupPage.jsx:37-58 | the check chain up to the request, proved to produce `Submitted`; reports whether the request was sent |
| Signup.SignupPage.Settle | frontend/src/pages/SignupPage.jsx:60-96 | the handling of the outcome, proved to produce `Settled` |
| Login.ValidationError | frontend/src/pages/LoginPage.jsx:40-43 | validation passes exactly when email and password are non-empty; its only message is "Email and password are required" |
| Login.RejectedSubmitOnlySetsError | frontend/src/pages/LoginPage.jsx:40-43 | an empty email or password sets only the error |
| Login.AcceptedSubmitStartsLoading | frontend/src/pages/LoginPage.jsx:46-47 | a passing submit clears the error and sets loading |
| Login.SettleOutcome | frontend/src/pages/LoginPage.jsx:63-81 | success calls `login` with exactly the response token and empties both fields; failure leaves the provider untouched and shows the server message or "Invalid credentials"; loading off after every outcome |
| Login.SuccessfulLoginAuthenticates | frontend/src/pages/LoginPage.jsx:68 | a successful login with a decodable token signs the user in with the token's claims and makes it the request header |
| Login.OkWithoutTokenStoresUndefined | frontend/src/pages/LoginPage.jsx:61-68 | an ok response without a token stores the text "undefined" and clears the token, while keeping the previous sign-in state |
| Login.ButtonDisabledWhileAwaiting | frontend/src/pages/LoginPage.jsx:158 | the button is disabled exactly while the request is awaited |
| Login.LoginPage.constructor | frontend/src/pages/LoginPage.jsx:7-12 | the form starts empty, no error, not loading, bound to the provider |
| Login.LoginPage.SetEmail | frontend/src/pages/LoginPage.jsx:129 | replaces only the email |
| Login.LoginPage.SetPassword | frontend/src/pages/LoginPage.jsx:146 | replaces only the password |
| Login.LoginPage.Submit | frontend/src/pages/LoginPage.jsx:36-47 | the check up to the request, proved to produce `Submitted`; reports whether the request was sent |
| Login.LoginPage.Settle | frontend/src/pages/LoginPage.jsx:49-81 | the handling of the outcome, proved to produce `Settled` for the form and `SessionAfter` for the provider |

## Left out

- The network requests and `response.json()` are not modelled. Their result is the input `Net.Outcome`: either a response with `ok`, `message` and `token`, or a rejection with its message.
- `navigate` and the two-second redirect timer after sign-up are not modelled. They only change the route.
- JSON Web Token decoding (base64 and JSON parsing) is not modelled. It is an external library, so it is the supplied function `decode`.
- The random choice among the five canned replies and the one-second delay are not modelled. The reply text is a parameter of `ReceiveReply`, which the caller invokes later.
- `Date.now()` as a chat id and `toLocaleDateString` for the date are not computed. Both are parameters. Ids are not assumed unique, because the code does not make them unique.
- Fractional `exp` values are not modelled: `exp` is an integer number of seconds. The comparison with `Date.now() / 1000` is exact arithmetic rather than floating point.
- Lengths count Unicode characters, not UTF-16 code units. This applies to the 30-character title cut and the 8-character password rule, so an astral character is one unit here and two in the browser.
- The decimal text of an id assumes an integer below 10^21. JavaScript switches to exponent notation above that.
- Scrolling, textarea resizing, rendering, styling, animation and React element keys are not modelled. They are view effects.
- React's batching of state updates is not modelled: each handler's updates apply in order at once. Timers or requests that complete after a page unmounts are not modelled either.
- Response fields are treated as a string or missing. A JSON `null`, a number or another non-string `token` or `message` would be coerced differently: `localStorage.setItem('token', null)` stores "null", and a non-string `message` would be turned into text by `new Error`. The model cannot express those bodies.
- `console.error` logging and exceptions thrown by `localStorage` are not modelled.
- The landing page, the about page and the route table are not part of this model. They are markup.
- Login.SuccessfulLoginAuthenticates: assumes a non-empty token. The supplied `decode` is arbitrary and need not reject the empty string, whereas `jwt-decode` does.
