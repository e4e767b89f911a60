# Chat UI logic, modelled in Dafny

A browser chat interface: a list of messages, an input box that sends the
user's text, a timer that appends a canned assistant reply, a message bubble
that renders `**bold**` text, and a code block with copy, download and run
buttons. Almost all of it is markup. This project models the four places
that hold logic, and proves what they promise:

- `MessageBubble` (`message_bubble.dfy`): `formatContent`. It splits the
  message text with `/(\*\*.*?\*\*)/`, keeping the matches, and renders bold
  every piece that starts and ends with `**`. The split follows the `split`
  algorithm of ECMAScript step by step: a match is tried at each position in
  turn, `.*?` is lazy, and `.` refuses the four line terminators. Proved: the
  pieces glue back to the text; there is an odd number of them; the odd ones
  are exactly lazy `**…**` spans on one line; no match starts inside an even
  one (matching is leftmost), so none contains such a span; text without
  `**` is one piece. Rendering is
  decided by the piece's shape, not by whether it was matched, so a lone
  `**` renders as empty bold text (`ShapeNotPosition`).
- `CodeBlock` (`code_block.dfy`): the language-to-extension table with its
  `txt` fallback, the download file name, the "runnable" languages, the
  line-number rule (at least five newlines) and the `copied` flag.
- `ChatInput` (`chat_input.dfy`): the draft, the submit guard (trimmed draft
  non-empty, input enabled), the Enter-without-Shift rule, the send button
  that is enabled by the same rule, and the character counter.
- `ChatArea` (`chat_area.dfy`): the message list and the loading flag. Send
  appends the user's message and sets loading. A pending timer later
  appends one assistant reply and clears loading. Also the reply choice, the
  random token count in [500, 1499], and when statistics show.

`JsString` (`js_string.dfy`) states the JavaScript string built-ins these
rely on: `trim` (ECMAScript white space and line terminators) and `split`
with a one-character separator. `Wrappers` holds `Option`, which stands for a
value that may be `undefined`.

Component state becomes a class per component: `copied` in
`CodeBlock.Component`, the draft in `ChatInput.Component`, and the list and
flag in `ChatArea.Component`. The pure parts are functions and lemmas. Timers
become explicit steps. `CodeBlock.Component.ResetCopied` is the reset timer.
`ChatArea.Component.CompleteReply` is the reply timer. Each component keeps a
record of the timers it has scheduled and not yet run. The two
`Math.random()` draws of a reply are parameters in [0, 1).

## Model

| member | source | states |
|---|---|---|
| `JsString.Trim` | src/components/chat/ChatInput.tsx:24-25 | `trim` returns an infix of the string with only white space around it. The result is empty exactly when the string is all white space; otherwise it neither starts nor ends with white space. |
| `JsString.TrimIdempotent` | src/components/chat/ChatInput.tsx:24-25 | Trimming a trimmed string changes nothing. |
| `JsString.Split` | src/components/chat/CodeBlock.tsx:141 | `split` on one character gives at least one piece, and no piece contains the separator. |
| `JsString.SplitCount` | src/components/chat/CodeBlock.tsx:141 | The split has one piece more than the string has separators. |
| `JsString.JoinSplit` | src/components/chat/CodeBlock.tsx:141 | Joining the pieces with the separator gives back the string. |
| `JsString.SplitJoin` | src/components/chat/CodeBlock.tsx:141 | Splitting a join of separator-free pieces gives back the pieces. |
| `MessageBubble.FindClose` | src/components/chat/MessageBubble.tsx:23 | The lazy `.*?\*\*` finds the nearest `**` with no line terminator before it. It finds nothing exactly when every later `**` has a line terminator before it. |
| `MessageBubble.MatchAt` | src/components/chat/MessageBubble.tsx:23 | A match at a position is a lazy bold span: `**`, then one line with no `**`, then `**`, at least 4 characters. There is no match exactly when no bold span starts there. |
| `MessageBubble.SplitFrom` | src/components/chat/MessageBubble.tsx:23 | The split loop gives an odd number of pieces. They glue back to the rest of the text, and every odd-indexed piece is a lazy bold span. |
| `MessageBubble.NoMatchMeansNoSpan` | src/components/chat/MessageBubble.tsx:23 | Text where no match starts contains no bold span anywhere inside it. |
| `MessageBubble.SplitFromPlainPieces` | src/components/chat/MessageBubble.tsx:23 | Every even-indexed, unmatched piece of the split loop contains no bold span. |
| `MessageBubble.SplitBold` | src/components/chat/MessageBubble.tsx:23 | `content.split(/(\*\*.*?\*\*)/)` gives an odd number of pieces that concatenate to the content. The matched pieces sit at odd indices and are lazy bold spans. |
| `MessageBubble.SplitFromLeftmost` | src/components/chat/MessageBubble.tsx:23 | Matching is leftmost: no match of the pattern starts anywhere inside an unmatched piece of the split loop. |
| `MessageBubble.SplitBoldPartition` | src/components/chat/MessageBubble.tsx:23 | For `content.split(/(\*\*.*?\*\*)/)`: no match starts anywhere inside a plain, even-indexed piece (possibly empty), so none contains a bold span. Together with `SplitBold`'s contract, this pins the split down. |
| `MessageBubble.SplitFromNoMatch` | src/components/chat/MessageBubble.tsx:23 | Once no match can start, the rest of the text is a single piece. |
| `MessageBubble.SplitBoldWithoutMarker` | src/components/chat/MessageBubble.tsx:23 | Content without `**` (the empty string included) splits into exactly `[content]`. |
| `MessageBubble.LooksBold` | src/components/chat/MessageBubble.tsx:24 | `startsWith("**") && endsWith("**")` holds exactly when the piece has `**` at its start and `**` at its end. The two may overlap, as in `**` and `***`. Every bold span passes the test. |
| `MessageBubble.Unwrap` | src/components/chat/MessageBubble.tsx:27 | `part.slice(2, -2)` puts `**` back on both sides to give the piece when it has 4 or more characters and looks bold. It is empty for shorter pieces. |
| `MessageBubble.RenderPiece` | src/components/chat/MessageBubble.tsx:24-31 | A piece renders bold iff it starts and ends with `**`. The bold text wrapped in `**` gives back the piece (empty for `**` and `***`). Any other piece is emitted unchanged. |
| `MessageBubble.FormatContent` | src/components/chat/MessageBubble.tsx:21-33 | One node per piece of the split, in order, each rendered as `RenderPiece` says. |
| `MessageBubble.MatchesRenderBold` | src/components/chat/MessageBubble.tsx:23-28 | Every matched piece renders bold. Its text is the piece without its markers, stays on one line and contains no `**`. |
| `MessageBubble.FormatContentSource` | src/components/chat/MessageBubble.tsx:23-31 | Unless some piece of 2 or 3 characters looks bold, the rendered nodes spell the content exactly. |
| `MessageBubble.ShapeNotPosition` | src/components/chat/MessageBubble.tsx:23-31 | `"**"` is one unmatched piece yet renders as empty bold text. `"**a\nb**"`, refused by the pattern, still renders bold across two lines. |
| `MessageBubble.RenderBubble` | src/components/chat/MessageBubble.tsx:19-66 | A user's bubble sits right with the user avatar, an assistant's left with the bot avatar. While loading only the typing dots show; otherwise the formatted content. |
| `CodeBlock.FileExtension` | src/components/chat/CodeBlock.tsx:48-67 | A listed language gets its table extension, every other language gets `txt`. `txt` marks exactly the unlisted languages. The extension is never empty and has no dot. |
| `CodeBlock.ExtensionTable` | src/components/chat/CodeBlock.tsx:49-65 | The 15 entries of the table. |
| `CodeBlock.ExtensionNotInjective` | src/components/chat/CodeBlock.tsx:62-64 | Two different languages share an extension (`bash` and `shell` give `sh`). |
| `CodeBlock.IsExecutable` | src/components/chat/CodeBlock.tsx:48-69 | A language with a run button is in the extension table, and its download extension is `py`, `js`, `ts` or `sh`, never `txt`. |
| `CodeBlock.DownloadName` | src/components/chat/CodeBlock.tsx:35 | The name is never empty. A non-empty `filename` is used as it is. Otherwise the name is `code.` plus the extension, and it splits at its one dot into `code` and the extension. |
| `CodeBlock.ShowLineNumbers` | src/components/chat/CodeBlock.tsx:141 | Line numbers show iff the code holds at least five newline characters. |
| `CodeBlock.Component.constructor` | src/components/chat/CodeBlock.tsx:17 | `copied` starts false, with no reset pending. |
| `CodeBlock.Component.CopyToClipboard` | src/components/chat/CodeBlock.tsx:19-27 | A successful copy sets `copied`, schedules one reset and reports success. A failed copy changes nothing and reports the error. `copied` never holds without a pending reset. |
| `CodeBlock.Component.ResetCopied` | src/components/chat/CodeBlock.tsx:24 | The reset timer clears `copied` and uses up one pending reset. |
| `CodeBlock.Component.DownloadCode` | src/components/chat/CodeBlock.tsx:30-35 | The downloaded file is plain text holding exactly the code, under `DownloadName`. |
| `ChatInput.SubmitOutcome` | src/components/chat/ChatInput.tsx:24-25 | Something is sent iff the input is enabled and the draft has a character `trim` keeps. What is sent is the trimmed draft, non-empty, with no white space at either end. |
| `ChatInput.SendButtonDisabled` | src/components/chat/ChatInput.tsx:55 | The button is disabled exactly when the input is disabled or the draft is white space only (the empty draft included). |
| `ChatInput.ButtonMatchesGuard` | src/components/chat/ChatInput.tsx:55 | The send button is enabled exactly when submitting would send. |
| `ChatInput.SentTextIsStable` | src/components/chat/ChatInput.tsx:25 | The sent text is already trimmed: submitting it again would send the same text. |
| `ChatInput.Component.constructor` | src/components/chat/ChatInput.tsx:12 | The draft starts empty. |
| `ChatInput.Component.Change` | src/components/chat/ChatInput.tsx:44 | Typing replaces the draft with the textarea's value. |
| `ChatInput.Component.HandleSubmit` | src/components/chat/ChatInput.tsx:22-28 | Sends `SubmitOutcome` of the draft. After a send the draft is empty; when the guard fails nothing is sent and the draft is unchanged. |
| `ChatInput.SubmitsOnKey` | src/components/chat/ChatInput.tsx:31 | Only the Enter key can submit, and never while Shift is held. |
| `ChatInput.Component.HandleKeyDown` | src/components/chat/ChatInput.tsx:30-35 | Enter without Shift submits as `HandleSubmit` does. Every other key, Shift+Enter included, sends nothing and leaves the draft. |
| `ChatInput.Component.CharacterCount` | src/components/chat/ChatInput.tsx:65 | The counter shows the untrimmed draft's length, at least the length of what would be sent. |
| `ChatArea.ReplyContent` | src/components/chat/ChatArea.tsx:160-197 | The reply is the code template iff `options.codeGeneration` is truthy. Otherwise it is `"I understand your request. "` followed by the simulated sentence. |
| `ChatArea.PremiumFlag` | src/components/chat/ChatArea.tsx:206 | `isPremium` of the reply is truthy iff `options.isPremium` or `options.codeGeneration` is. It is undefined when there are no options. |
| `ChatArea.ResponseTime` | src/components/chat/ChatArea.tsx:204 | The response time lies in [0.5, 2.5). |
| `ChatArea.TokenCount` | src/components/chat/ChatArea.tsx:205 | The token count is an integer in [500, 1499]. |
| `ChatArea.TokenCountOnto` | src/components/chat/ChatArea.tsx:205 | Every integer in [500, 1499] is the count of some draw. |
| `ChatArea.UserMessage` | src/components/chat/ChatArea.tsx:148-153 | The user's message carries the content, the user role and no statistics. |
| `ChatArea.Reply` | src/components/chat/ChatArea.tsx:199-207 | The reply is an assistant message with the chosen content and the premium flag above. Its response time is in [0.5, 2.5) and its token count in [500, 1499]. |
| `ChatArea.InputRepliesArePlain` | src/components/chat/ChatInput.tsx:25 | With no options, as the input box sends, the reply is always the plain one and not premium. |
| `ChatArea.ShowStats` | src/components/chat/ChatArea.tsx:214-215 | Statistics show only when the last message is an assistant's and carries both a response time and a token count. |
| `ChatArea.SendHidesStats` | src/components/chat/ChatArea.tsx:215 | Right after a send, statistics are hidden. |
| `ChatArea.CompletionShowsStats` | src/components/chat/ChatArea.tsx:215 | After any completion, statistics show. |
| `ChatArea.SeedShowsStats` | src/components/chat/ChatArea.tsx:19-133 | The initial list ends with an assistant message whose statistics show. |
| `ChatArea.Component.constructor` | src/components/chat/ChatArea.tsx:19-135 | The list starts as the four seed messages, not loading, with no reply pending and an empty draft. |
| `ChatArea.Component.HandleSendMessage` | src/components/chat/ChatArea.tsx:147-156 | Appends exactly the user's message at the end, keeping earlier messages. Sets loading and schedules one reply. |
| `ChatArea.Component.CompleteReply` | src/components/chat/ChatArea.tsx:159-211 | The oldest pending timer appends exactly one reply, chosen by its options, at the end, and clears loading. Reached through the input box, the reply is the plain one. |
| `ChatArea.Component.Submit` | src/components/chat/ChatArea.tsx:252 | Submitting the input sends only while not loading. The text sent is the trimmed draft, with no options. With at most one reply pending, loading holds exactly while one is pending. |
| `ChatArea.Component.KeyDown` | src/components/chat/ChatArea.tsx:252 | Enter without Shift in the input box submits as `Submit` does. Every other key, Shift+Enter included, sends nothing and changes nothing. |
| `ChatArea.Component.View` | src/components/chat/ChatArea.tsx:224-252 | One bubble per message. The typing placeholder shows iff loading. Statistics show iff `ShowStats` holds, with the last message's response time and token count. The input is disabled iff loading. |

## Left out

- Markup, styling, icons, layout classes and the `cn` helper are presentation only.
- The scroll-to-bottom effect and the textarea auto-resize manipulate the DOM.
- Clipboard, `Blob`, object URLs, the anchor click and toast display are browser I/O. Only the `copied` flag, the toast messages of a copy, and the download's name, content and type are modelled. The clipboard's answer is a parameter.
- `executeCode` only shows a fixed toast; nothing about it is modelled.
- The `toast.success('Code downloaded')` after a download is not modelled.
- Timer delays (1500 ms, 2000 ms) are not modelled, only their order: each timer is a separate method, and timers fire in the order they were set.
- Message ids (`Date.now()`) and timestamps (`new Date()`) are not part of `ChatArea.Message`.
- React keys on rendered pieces are not modelled.
- `ChatArea.ResponseTime`: the float arithmetic of `Math.random() * 2 + 0.5` is modelled over real numbers.
- `ChatArea.TokenCount`: `Math.floor(Math.random() * 1000)` is modelled over real numbers, without float rounding.
- The number formatting in the statistics panel (`toFixed`, `toLocaleString`) is not modelled.
- The syntax highlighter is third-party code and is not modelled.
- The header, the sidebar and the layout shell hold only constant tables and a selected-id/open flag bound directly to UI events.
- `CodeBlock.FileExtension` models the table as exactly its 15 own keys. JavaScript would also find inherited keys such as `constructor` on the object's prototype.
- JavaScript strings are UTF-16 code units; here a string is a sequence of Unicode characters. So `message.length` and the regular expression's `.` count an astral character once where JavaScript counts two code units. Trimming and line terminators are unaffected.
- The `disabled` prop of the input is a parameter of its handlers; `ChatArea` passes its loading flag.
- The seed messages' non-ASCII characters are written as they appear in the repository's text, as `\U{…}` escapes.
