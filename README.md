# Shellmates chat box, modelled in Dafny

Shellmates is a terminal chat client built on Textual. Its only working logic is the chat box widget
(`src/shellmates/textual/widgets/ChatBox.py`). The widget keeps three things: the pending input line
`chat_input`, the transcript `player_chat` (a list of `{user, message}` records that only grows), and
the prompt `"> " + chat_input` shown under the transcript. The key handler `on_key` edits the input line:
Backspace drops the last character and a printable key appends its character. Enter sends the line,
unless it is empty or whitespace only. The WebSocket session never connects (`ws_connected` is only ever
set to false), so a sent line always takes the offline fallback. That fallback appends
`"[HH:MM:SS] name: text"` to the transcript and clears the input. The display name is the argument after
the first `--name` on the command line, or `"Player X"`. Transcript lines get a colour class: "System",
the local player and everyone else are told apart, and everyone else is bucketed by a hash of the name.

Modules:

- `Wrappers`: `Option`.
- `PyText`: the Python semantics the widget relies on: `str.strip()` with Python's whitespace set,
  the slice `s[:-1]`, `list.index`, and `%` with a positive divisor.
- `Transcript`: the `HH:MM:SS` timestamp, the transcript line and the `{user, message}` record. Each
  formatter has a parser, and the two are proved to be inverse to each other in both directions.
- `Colors`: `_get_user_color_class`, with the string hash passed in as a parameter.
- `ChatBox`: `Prompt`, the name selection, `Step` (the pure state-transition function of `on_key`),
  `Run` (a sequence of key presses), lemmas over runs, and the class `ChatBox`. Its fields are
  `chatInput`, `playerChat`, `playerName`, `wsConnected` and `prompt`. Its method `OnKey` is proved to
  change the state exactly as `Step` says.

Inputs the model takes as parameters:

- `sys.argv` is the argument of the constructor.
- `datetime.now()` is a `Time` argument (hour, minute, second) of `OnKey`.
- Python's `hash()` on `str` is a `string -> int` argument of `UserColorClass`. Python salts it per
  process, so every property is proved for every hash function.

## Model

| member | source | states |
|---|---|---|
| PyText.IsSpace | src/shellmates/textual/widgets/ChatBox.py:81 | the characters `str.isspace()` accepts and `str.strip()` removes: U+0009 to U+000D, U+001C to U+0020, U+0085, U+00A0, U+1680, U+2000 to U+200A, U+2028, U+2029, U+202F, U+205F, U+3000 |
| PyText.Strip | src/shellmates/textual/widgets/ChatBox.py:81 | `s.strip()` is `RStrip(LStrip(s))`; their contracts pin what is removed from each end |
| PyText.IsBlank | src/shellmates/textual/widgets/ChatBox.py:81 | `not s.strip()`; by `StripEmptyIffAllSpace` it holds exactly when every character is whitespace |
| PyText.LStrip | src/shellmates/textual/widgets/ChatBox.py:81 | the result is a suffix of the input, every character it drops is whitespace, and it does not start with whitespace |
| PyText.RStrip | src/shellmates/textual/widgets/ChatBox.py:81 | the result is a prefix of the input, every character it drops is whitespace, and it does not end with whitespace |
| PyText.StripEmptyIffAllSpace | src/shellmates/textual/widgets/ChatBox.py:81 | `not s.strip()` holds exactly when every character of `s` is Python whitespace |
| PyText.DropLast | src/shellmates/textual/widgets/ChatBox.py:77 | `s[:-1]` is `[]` on `[]`; otherwise appending the dropped last element gives back `s` |
| PyText.DropLastAppend | src/shellmates/textual/widgets/ChatBox.py:77 | `s[:-1]` undoes appending one element |
| PyText.IndexOf | src/shellmates/textual/widgets/ChatBox.py:51-52 | `argv.index(x)` is an in-bounds index holding `x`, and no earlier element is `x` |
| PyText.FloorMod | src/shellmates/textual/widgets/ChatBox.py:145 | Python's `a % n` for positive `n` lies in `[0, n)` and equals `a - n * floor(a / n)` with the quotient taken over the reals |
| PyText.FloorOfQuotient | src/shellmates/textual/widgets/ChatBox.py:145 | for a positive divisor, the integer quotient is the floor of the real quotient, Python's `//` |
| Transcript.TwoDigits | src/shellmates/textual/widgets/ChatBox.py:14 | a field of `%H:%M:%S` is two characters that parse back to the number |
| Transcript.TwoDigitsCanonical | src/shellmates/textual/widgets/ChatBox.py:14 | every two-digit string that parses is the zero-padded formatting of its value |
| Transcript.FormatTimestamp | src/shellmates/textual/widgets/ChatBox.py:102-103 | the timestamp is 8 characters wide with `:` at positions 2 and 5 |
| Transcript.TimestampRoundTrip | src/shellmates/textual/widgets/ChatBox.py:102-103 | parsing a formatted timestamp gives back the time |
| Transcript.TimestampCanonical | src/shellmates/textual/widgets/ChatBox.py:102-103 | every string that parses as a timestamp is the formatting of the time it parses to |
| Transcript.FormatMessage | src/shellmates/textual/widgets/ChatBox.py:101-105 | the line starts with `[`, has the timestamp at offset 1 and the name at offset 11, and ends with the text; its length is 13 plus the lengths of name and text |
| Transcript.TranscriptLineRoundTrip | src/shellmates/textual/widgets/ChatBox.py:101-105 | parsing a formatted line for the same name gives back the time and the text |
| Transcript.TranscriptLineCanonical | src/shellmates/textual/widgets/ChatBox.py:101-105 | every line that parses is the formatting of the time and text it parses to |
| Transcript.FormatMessageInjective | src/shellmates/textual/widgets/ChatBox.py:101-105 | for one name, equal lines come only from equal times and equal texts |
| Transcript.NewEntry | src/shellmates/textual/widgets/ChatBox.py:112-114 | the appended record has `user` equal to the player name |
| Transcript.NewEntryReadsBack | src/shellmates/textual/widgets/ChatBox.py:110-114 | the appended record's `message` parses back to the time and the text that were sent |
| Colors.PaletteIndex | src/shellmates/textual/widgets/ChatBox.py:145 | `hash % 4` is a valid palette index for every hash, negative ones included, and equals `hash - 4 * floor(hash / 4)` as in Python |
| Colors.UserColorClass | src/shellmates/textual/widgets/ChatBox.py:135-146 | the class is the default, system or self class, or one of the four player classes |
| Colors.DefaultIffNoUser | src/shellmates/textual/widgets/ChatBox.py:137-138 | `color-default` is returned exactly when the user is `None` |
| Colors.SystemIffSystemUser | src/shellmates/textual/widgets/ChatBox.py:139-140 | `color-system` is returned exactly for "System", whatever the local name is |
| Colors.SelfIffOwnName | src/shellmates/textual/widgets/ChatBox.py:141-142 | `color-self` is returned exactly for the local name, unless that name is "System", which is checked first |
| Colors.OtherUsersGetPaletteColor | src/shellmates/textual/widgets/ChatBox.py:143-146 | any other user gets the palette entry at `hash(user) % 4`, which is one of the player classes |
| Colors.OtherUserColorIgnoresLocalName | src/shellmates/textual/widgets/ChatBox.py:143-146 | another user's class depends on that user's name alone, not on the local name |
| Colors.SameBucketSameColor | src/shellmates/textual/widgets/ChatBox.py:145-146 | two other users whose hashes fall in the same bucket share a class |
| Colors.OwnLineColor | src/shellmates/textual/widgets/ChatBox.py:116 | the player's own lines get `color-self`, or `color-system` if the player chose the name "System" |
| ChatBox.Prompt | src/shellmates/textual/widgets/ChatBox.py:13 | the prompt is `"> "` followed by exactly the input |
| ChatBox.PromptInjective | src/shellmates/textual/widgets/ChatBox.py:129 | different inputs show different prompts |
| ChatBox.SelectPlayerName | src/shellmates/textual/widgets/ChatBox.py:50-54 | the name is `"Player X"` or an argument after the first, so it is never read past the end of argv |
| ChatBox.SelectPlayerNameAfterFirstFlag | src/shellmates/textual/widgets/ChatBox.py:50-54 | with the first `--name` at index i, the name is argv[i+1] if that exists, else `"Player X"` |
| ChatBox.SelectPlayerNameWithoutFlag | src/shellmates/textual/widgets/ChatBox.py:50-54 | without `--name` the name is `"Player X"` |
| ChatBox.InitialState | src/shellmates/textual/widgets/ChatBox.py:46-64 | the first state has empty input, empty transcript and prompt `"> "` |
| ChatBox.Step | src/shellmates/textual/widgets/ChatBox.py:75-99 | on every key, each earlier transcript entry stays in place and at most one entry is added; a prompt that showed the input still does |
| ChatBox.RunAppendOnly | src/shellmates/textual/widgets/ChatBox.py:112-114 | after any sequence of presses, the old transcript is a prefix of the new one, which has at most one entry more per press |
| ChatBox.RunKeepsPromptShowingInput | src/shellmates/textual/widgets/ChatBox.py:99 | after any sequence of presses the prompt still equals `"> "` plus the input |
| ChatBox.SendAppendsOwnLine | src/shellmates/textual/widgets/ChatBox.py:107-114 | appending the record for a non-blank text keeps every entry attributed to the player, well-formed and non-blank |
| ChatBox.StepOnlyAppendsOwnLines | src/shellmates/textual/widgets/ChatBox.py:75-99 | one key press keeps every entry attributed to the player, well-formed and non-blank |
| ChatBox.RunOnlyAppendsOwnLines | src/shellmates/textual/widgets/ChatBox.py:107-114 | offline, every transcript entry is attributed to the player, parses as a transcript line for their name, and has non-blank text |
| ChatBox.TypingAppendsToInput | src/shellmates/textual/widgets/ChatBox.py:92-96 | typing a string appends exactly that string to the input and leaves the transcript unchanged |
| ChatBox.EnterSends | src/shellmates/textual/widgets/ChatBox.py:85-91 | Enter on non-blank input appends that input's entry at the end and clears the input and the prompt |
| ChatBox.TypeAndSend | src/shellmates/textual/widgets/ChatBox.py:78-91 | typing a non-blank message on an empty line and pressing Enter adds exactly one entry, for that message at the time of the Enter, after all earlier ones, and empties the line |
| ChatBox.TypeBlankAndEnter | src/shellmates/textual/widgets/ChatBox.py:80-82 | typing only whitespace and pressing Enter adds no entry, and the whitespace stays in the input |
| ChatBox.BackspaceUndoesChar | src/shellmates/textual/widgets/ChatBox.py:76-77 | Backspace right after a character restores the previous state |
| ChatBox.ChatBox.constructor | src/shellmates/textual/widgets/ChatBox.py:46-56 | empty input and transcript, the name chosen from argv, not connected, prompt `"> "` |
| ChatBox.ChatBox.OnKey | src/shellmates/textual/widgets/ChatBox.py:75-99 | the new state is `Step` of the old one. Backspace drops the last character. A character is appended. A key without a character changes nothing. Enter on blank input changes nothing, the prompt included. Enter otherwise appends one entry and clears the input. The transcript is unchanged except on a send |
| ChatBox.ChatBox.AddMessage | src/shellmates/textual/widgets/ChatBox.py:107-114 | the transcript becomes the old one plus the new record at the end, and nothing else changes |
| ChatBox.ChatBox.UpdateInputPrompt | src/shellmates/textual/widgets/ChatBox.py:124-129 | the prompt becomes `"> "` plus the current input |

## Left out

- The WebSocket connection and send path: `_connect_websocket` is an empty stub, `ChatBox` defines no
  `send_message`, and `ws_connected` is only ever set to `False` (ChatBox.py:56). `Valid()` pins
  `wsConnected` to false. The connected branch
  of `on_key` is therefore unreachable in the model and holds `assert false`.
- Textual plumbing: `compose`, `on_mount`, `query_one`, `mount`, `scroll_end`, `Static` widgets and CSS.
  The prompt widget's text is kept as the field `prompt`. The colour class `_add_message` computes for
  the new line only styles a widget, so it is not stored; `Colors.OwnLineColor` states its value.
- `src/shellmates/textual/app.py` (focusing the chat box on Enter) and `src/shellmates/main.py` (a daemon
  thread running an empty function) are thread and UI setup, and are not part of this model.
- `datetime.now()` and Python's string `hash()` are parameters, as listed above. The date and time zone
  of the clock are not modelled.
- The server, broadcast, sequence numbers, roster, reconnect and backoff do not exist in the source, so
  they are not modelled.
- Key decoding: a key is `Backspace`, `Enter`, `Char(c)` or `NoChar`. Textual's mapping of key names to
  these four is not modelled.
- PyText.FloorMod: models Python's `%` only for a positive divisor, the only kind the widget uses
  (`len(COLOR_PLAYER_CLASSES)` is 4).
- ChatBox.Step: the function assumes the session is offline, as it always is in the source.
