# Climate Helper Chatbot: reply formatting and session transcript

The Climate Helper Chatbot is a one-page Streamlit app: the operator enters a
Google AI API key, types climate and sustainability questions, and each
question is sent to a Gemini model; the answer comes back wrapped in two
fixed Indonesian sentences and is appended to the chat transcript kept in
the session. This project models the deterministic part of
`streamlit_chat_app.py` and proves its properties:

- `whitespace.dfy` (module `Whitespace`): Python's `str.strip()` as the two
  index scans CPython performs, with the full table of characters Python
  treats as whitespace (U+FEFF is not one of them). Proved: the result has no
  edge whitespace, only whitespace is removed, the result is unique given
  those two facts, padding with whitespace changes nothing, stripping is
  idempotent.
- `replies.dfy` (module `Replies`): the byte-exact texts of the app — the
  preamble and closing question of `friendly_wrap`, the apology used when
  the remote call raises, and the instruction prefix of the request — and
  the three template functions. `ParseReply` reads an assistant text back;
  it is the inverse against which the templates are proved.
- `session.dfy` (module `Session`): the transcript `st.session_state.messages`
  as a `Transcript` class whose field `messages: Option<seq<Turn>>` is
  `None` while the session has no "messages" key. Its methods follow the
  script: `Reset` (the `pop`), `InitIfAbsent` (the greeting), `Submit` (the
  two `append`s) and `RunOnce` (one whole run of the script). `Reset` states
  outright that the transcript is absent; the other methods are specified
  by pure functions (`Initialized`, `Exchange`, `Request`, `RunScript`),
  and the lemmas about whole sessions are stated over `RunAll`, which folds
  `RunScript` over a sequence of runs.

The remote model is not called: a run is given an `Outcome`,
`Success(answer)` or `Failure(description)`: the answer text the remote
call returned, or the description of any exception raised while the
request was made and its answer read (creating the model, calling
`generate_content`, or reading `response.text`).

Initialisation happens when the "messages" key is absent, not when the
list is empty: a present empty list is left alone. A reset leaves the
transcript absent; the greeting comes back in the rerun that follows
(`ResetThenRerun`). A run with an API key but no question still creates the
greeting if the transcript was absent.

## Model

| member | source | states |
|---|---|---|
| Whitespace.IsSpace | streamlit_chat_app.py:57 | the whitespace table behind `strip()`: tab through carriage return and the space are whitespace, and no whitespace character lies above U+3000, so U+FEFF is not whitespace |
| Whitespace.FirstNonSpace | streamlit_chat_app.py:57 | the left scan of `strip()`: every character it skips is whitespace, and it stops at the end or at a character that is not whitespace |
| Whitespace.EndOfNonSpace | streamlit_chat_app.py:57 | the right scan of `strip()`: it never passes the left scan, every character it cuts is whitespace, and it stops at the left scan or after a character that is not whitespace |
| Whitespace.Strip | streamlit_chat_app.py:57 | `raw_text.strip()` has neither leading nor trailing whitespace |
| Whitespace.StripMargins | streamlit_chat_app.py:57 | strip removes only whitespace: the input is whitespace, then the stripped text, then whitespace |
| Whitespace.StripOfPadded | streamlit_chat_app.py:57 | strip of whitespace + middle + whitespace is that middle when the middle has no edge whitespace, so strip is fully determined |
| Whitespace.StripIgnoresPadding | streamlit_chat_app.py:57 | adding whitespace on either side of a text does not change its strip |
| Whitespace.StripIdempotent | streamlit_chat_app.py:57 | stripping twice is the same as stripping once |
| Whitespace.StripKeeps | streamlit_chat_app.py:57 | a text with no edge whitespace is its own strip |
| Replies.FriendlyWrap | streamlit_chat_app.py:53-59 | the wrapped reply is exactly as long as the preamble, the stripped answer and the blank line plus closing question together |
| Replies.ParseFriendlyWrap | streamlit_chat_app.py:53-59 | a wrapped reply starts with the fixed preamble, ends with the blank line and the fixed closing question, and holds exactly the stripped answer in between |
| Replies.FriendlyWrapInjective | streamlit_chat_app.py:53-59 | two answers give the same reply if and only if they are equal once stripped |
| Replies.FriendlyWrapIgnoresEdgeWhitespace | streamlit_chat_app.py:53-59 | whitespace around the answer does not show in the reply, and `friendly_wrap(strip(raw)) == friendly_wrap(raw)` |
| Replies.ErrorReply | streamlit_chat_app.py:93 | the apology is as long as its two fixed parts plus the error description |
| Replies.ParseErrorReply | streamlit_chat_app.py:93 | the apology holds the error description verbatim between its two fixed parts, and it never reads as a wrapped answer |
| Replies.RequestPrompt | streamlit_chat_app.py:84-86 | the request is the instruction, one space and the question: its length is theirs together |
| Replies.RequestPromptInjective | streamlit_chat_app.py:84-86 | the request starts with the instruction and one space and ends with the question verbatim, and two requests are equal if and only if their questions are |
| Session.ReplyReadsBack | streamlit_chat_app.py:89-93 | the stored assistant text reads back as the stripped answer on success and as the error description on failure; the failure text replaces the wrapper |
| Session.Reply | streamlit_chat_app.py:89-93 | on success the stored text is the preamble, the stripped answer, then the blank line and the closing question; on failure it is the apology around the description verbatim |
| Session.Initialized | streamlit_chat_app.py:37-43 | a present transcript is kept as it is; an absent one becomes a well-formed transcript of one turn, which is the greeting |
| Session.Exchange | streamlit_chat_app.py:66-99 | an empty input adds no turn; a question adds exactly the user turn with the question verbatim, then one assistant turn |
| Session.Request | streamlit_chat_app.py:84-86 | a request is built exactly when a question was typed, and it ends with that question verbatim |
| Session.RunScript | streamlit_chat_app.py:18-99 | a run builds a request exactly when the key is set and accepted, it is not a reset and a question was typed; without a key, or with a key the library rejects, the transcript is unchanged; a reset that gets past the key check leaves the transcript absent; a run that answers keeps every turn of the initialised transcript |
| Session.Transcript.constructor | streamlit_chat_app.py:37 | a new session has no "messages" key |
| Session.Transcript.Reset | streamlit_chat_app.py:32-34 | the reset button drops the transcript, whatever it held |
| Session.Transcript.InitIfAbsent | streamlit_chat_app.py:37-43 | an absent transcript becomes the single assistant greeting; a present one is left unchanged |
| Session.Transcript.Submit | streamlit_chat_app.py:66-99 | an empty input changes nothing and sends nothing; otherwise the user turn with the question verbatim and then the assistant reply are appended, and the request is built from the question alone |
| Session.Transcript.RunOnce | streamlit_chat_app.py:18-99 | one run in script order (key check, configuration, reset, initialisation, input) leaves the transcript and request that `RunScript` gives, and keeps the transcript absent or well-formed |
| Session.ExchangeAppends | streamlit_chat_app.py:66-99 | a run that answers keeps every earlier turn and adds exactly two turns for a question, user then assistant, or none for an empty input |
| Session.ResetThenRerun | streamlit_chat_app.py:32-43 | a reset followed by its rerun leaves exactly the greeting, whatever the transcript held before |
| Session.RequestOnlyForQuestion | streamlit_chat_app.py:18-86 | a request is built if and only if the key is set and accepted, the run is not a reset and a question was typed; it is the instruction plus that question and does not depend on the transcript |
| Session.NoKeyNoChange | streamlit_chat_app.py:18-27 | without an API key, or with one `genai.configure` rejects, no number of runs changes the transcript |
| Session.AppendKeepsWellFormed | streamlit_chat_app.py:66-99 | appending a non-empty question and a reply keeps the shape greeting, then user/assistant pairs |
| Session.RunKeepsWellFormed | streamlit_chat_app.py:32-99 | every run keeps the transcript absent or of the shape greeting, then user/assistant pairs with non-empty questions |
| Session.RunAllKeepsWellFormed | streamlit_chat_app.py:32-99 | the same holds after any sequence of runs, resets included |
| Session.RunAllAppends | streamlit_chat_app.py:37-99 | over runs that answer, the transcript is its start (or the greeting) followed by one user turn and one reply per question, in order |

## Left out

- Rendering: the page configuration, title, sidebar widgets, `chat_message`
  blocks, the "🤔 Berpikir..." placeholder and `display_messages` are display
  effects; the placeholder is never stored in the transcript.
- The remote model: `genai.configure`, `GenerativeModel` and
  `generate_content` are network calls. Whether `configure` accepted the key
  is a boolean input of a run, and the result of the completion call is the
  `Outcome` given to `Submit`.
- The text of an exception (`{e}` at line 93) is an opaque description
  string.
- `st.stop()` and `st.rerun()`: a stop is a return from `RunOnce`; the rerun
  after a reset is the next call of `RunOnce`, and the rerun after a
  question only redraws the page.
- The chat input returns `None` when nothing was submitted; both `None` and
  the empty string are falsy, so both are the empty prompt here.
- A run is modelled as running to its end. The user turn (line 68) and the
  reply (line 99) are appended within one call of `Submit`; a run stopped between
  them, during the blocking remote call or the display calls at lines 71-77
  and 96, would keep the question without its reply, and that state is not
  modelled (`WellFormed` rules it out).
- Sessions are isolated from one another and there is no concurrency inside
  one; the model holds one session.
- Replies.FriendlyWrap: its own contract states only the length; what the
  reply contains is stated by ParseFriendlyWrap.
- Replies.ErrorReply: its own contract states only the length; what the
  apology contains is stated by ParseErrorReply.
- Replies.RequestPrompt: its own contract states only the length; that the
  request is the instruction, one space and the question is stated by
  RequestPromptInjective.
