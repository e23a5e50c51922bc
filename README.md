# Live chat widget for Dynamics 365 Contact Center: a verified model

The repository is a browser chat widget for the Dynamics 365 Omnichannel live-chat SDK. It has two parts:

- a React page (`src/App.tsx`) that talks to the SDK through a small client class (`src/chatSdk.ts`) and is configured from URL query parameters (`src/config.ts`);
- a browser extension (`browser-extension/content.js`) that puts a chat button on any page and opens the widget in an iframe.

This project models the widget's sequential logic in Dafny and proves what that logic promises. It covers:

- **Inbound messages** (`chat_sdk.dfy`, module `ChatSdk`). The payload callback is one function, `Normalise`, from a loosely shaped JSON payload to one chat message, a skipped system message, or a swallowed failure. The attachment hydration that re-emits a message once its file has been fetched is the function `Hydrate`. The client's lazily created SDK handle is the class `ChatSdkClient`, whose state is `NoSdk`, `Created` or `Initialised`.
- **The transcript and the chat session** (`transcript.dfy`, `app.dfy`, `app_text.dfy`). The transcript is a sequence of messages with upsert-by-id, flip-uploading-by-id and remove-by-id. The page's state lives in the class `ChatApp`: status, auto-connect, closing, queue position and wait, current agent, typing, error and input. It has one method per event handler. The pure helpers are in `AppText`: title case, display-name derivation, adaptive-card submission text, e-mail validation, queue-text parsing, the agent-name filter and label rule, and the file checks.
- **Configuration and colours** (`config.ts`, `colorExtractor.ts`, modelled by `config.dfy`, `hex_color.dfy` and `color_extractor.dfy`). This covers:
  - the query-parameter configuration and its validity check;
  - strict `#rrggbb` normalisation;
  - the integer lighten and darken helpers;
  - domain cleaning for the logo URL and the brand table;
  - `rgbToHex` and `hexToRgbTuple`;
  - the 32-bit string hash behind `hashStringToHue`;
  - the fixed default palette.
- **The extension's widget** (`content_script.dfy`, class `ContentScript.Widget`). Its state is the button, the container, the backdrops in the page and the registered window `message` listeners. Its transitions are init, open, minimise, end and settings updates, plus the message dispatcher with `copyLink` replies.

Shared pieces:

- `js.dfy` holds a JSON-like `JsValue` with JavaScript truthiness, `||`, optional chaining and the TypeError paths the code can hit.
- `text.dfy` holds the string built-ins the code uses: `trim`, ASCII `toLowerCase`, `includes`, `split`, anchored `replace`, decimal numerals and UTF-16 code units.
- `wrappers.dfy` holds `Option`.

Effects outside the page's own logic become parameters:

- The SDK calls (`startChat`, `sendMessage`, upload, `endChat`, `initialize`) succeed or throw, given as a `Status` parameter.
- `JSON.parse` is a partial function parameter.
- Fresh ids, `Date.now()` and object URLs are parameters.
- The clipboard's two copy attempts are two booleans.
- Whether the page is framed is a boolean.
- What `chrome.storage` returned is a `JsValue`.

## Model

| member | source | states |
|---|---|---|
| Js.CallLower | src/chatSdk.ts:132 | `?.toLowerCase()` on a value: throws exactly for a non-nullish non-string, gives undefined for a nullish one and the lower-cased string for a string |
| Js.LowerOrEmpty | src/chatSdk.ts:216-217 | a string is lower-cased; any other value gives `""` |
| Text.Lower | src/App.tsx:21 | same length, each ASCII capital mapped to its lower-case letter and every other character kept |
| Text.Upper | src/App.tsx:21 | same length, each ASCII small letter mapped to its capital and every other character kept |
| Text.Trim | src/App.tsx:683 | the trimmed string is no longer than the input and starts and ends with a non-whitespace character, or is empty |
| Text.TrimIsSlice | src/App.tsx:683 | the trimmed string is the slice of the input between a leading and a trailing run of whitespace |
| Text.TrimIdempotent | src/config.ts:84 | trimming twice is trimming once |
| Text.TrimNoWhitespace | src/config.ts:84 | a string without whitespace is its own trim |
| Text.IndexOf | src/config.ts:59 | the first index at or after `from` where the pattern occurs, and None exactly when it occurs nowhere there |
| Text.IncludesMeans | src/config.ts:59 | `includes` holds exactly when the pattern occurs at some index |
| Text.StripPrefix | src/config.ts:52-53 | an anchored prefix replace removes the prefix when present and changes nothing otherwise |
| Text.StripSuffix | src/config.ts:56 | an anchored suffix replace removes the suffix when present and changes nothing otherwise |
| Text.Split | src/config.ts:54-55 | `split` on one character: at least one piece, no piece holds the separator, and joining the pieces with it gives back the input |
| Text.SplitFirst | src/config.ts:54-55 | the first piece is the longest prefix without the separator |
| Text.SplitFree | src/config.ts:54-55 | a string without the separator splits into itself alone |
| Text.SplitCons | src/chatSdk.ts:213 | a first piece and the separator at the front make the split that piece followed by the split of the rest |
| Text.NatToDecimal | src/App.tsx:1066 | the decimal numeral has no leading zero, and `parseInt` of it gives back the number |
| Text.DigitRun | src/App.tsx:1064 | the maximal run of digits at an index |
| Text.WhitespaceRun | src/App.tsx:1072 | the maximal run of whitespace at an index |
| Text.CodeUnits | src/colorExtractor.ts:336-337 | the UTF-16 code units `charCodeAt` reads, each below 65536, and one per character when every character is in the basic plane |
| HexColor.ToHexRoundTrip | src/config.ts:101 | `toString(16)` writes hex digits with no leading zero, and `parseInt(_, 16)` reads the number back |
| HexColor.Parse6 | src/config.ts:91 | six hex digits are three two-digit groups weighted 65536, 256 and 1, below 2^24 |
| HexColor.ChannelDigits | src/config.ts:91-95 | the shifts and masks on `parseInt` of `#rrggbb` give red, green and blue from the digit pairs, in that order |
| HexColor.ToHexOfTagged | src/config.ts:96-101 | the numeral of `0x1000000 + r*0x10000 + g*0x100 + b` is `1` and three two-digit channels |
| HexColor.TaggedIsCompose | src/config.ts:96-101 | `"#" + (...).toString(16).slice(1)` is the `#` and six lower-case digits of the three channels |
| HexColor.ComposeChannels | src/config.ts:91-101 | reading back a composed colour gives its three channels |
| HexColor.ClampUp | src/config.ts:98-100 | the lighten conditional gives a channel in 0..255 |
| HexColor.Lighten | src/config.ts:90-102 | for any `#rrggbb` input and integer amount, the result is `#` and six lower-case digits whose channels are each input channel plus the amount, clamped to 0..255; `lightenColor` (src/colorExtractor.ts:228-240) is the same code |
| HexColor.Darken | src/config.ts:104-116 | for a non-negative amount, the result is `#` and six lower-case digits whose channels are each input channel minus the amount, never below 0; `darkenColor` (src/colorExtractor.ts:242-254) is the same code |
| ColorExtractor.PadToHex | src/colorExtractor.ts:201-202 | a channel's `toString(16)`, padded to two characters, is its two-digit numeral |
| ColorExtractor.RgbToHex | src/colorExtractor.ts:199-204 | for channels 0..255, `#` and exactly two lower-case digits per channel |
| ColorExtractor.HexToRgbTuple | src/colorExtractor.ts:256-264 | the channels are the three digit pairs' values, each in 0..255 |
| ColorExtractor.RgbHexRoundTrip | src/colorExtractor.ts:199-264 | `hexToRgbTuple(rgbToHex(r, g, b)) == (r, g, b)` for channels 0..255 |
| ColorExtractor.HexRgbRoundTrip | src/colorExtractor.ts:199-264 | `rgbToHex` of the tuple of a lower-case `#rrggbb` is that string |
| ColorExtractor.ToInt32 | src/colorExtractor.ts:338 | `hash \|= 0`: the signed 32-bit value congruent to the input modulo 2^32 |
| ColorExtractor.ToInt32Congruent | src/colorExtractor.ts:338 | inputs congruent modulo 2^32 wrap to the same value |
| ColorExtractor.JsRem360 | src/colorExtractor.ts:340 | JavaScript's `% 360`: the remainder has the dividend's sign and magnitude below 360 |
| ColorExtractor.HashStepIsTimes31 | src/colorExtractor.ts:337-338 | `(hash << 5) - hash + code`, then `\|= 0`, is `31 * hash + code` wrapped to 32 bits |
| ColorExtractor.HashOf | src/colorExtractor.ts:335-339 | the running hash stays in the signed 32-bit range |
| ColorExtractor.HashOfIsPoly31 | src/colorExtractor.ts:335-339 | wrapping after every step equals wrapping the exact polynomial hash once |
| ColorExtractor.HueBucketIsResidue | src/colorExtractor.ts:340 | `((hash % 360) + 360) % 360` is the mathematical residue and lies in [0, 360) |
| ColorExtractor.HashStringToHue | src/colorExtractor.ts:334-341 | the loop computes the folded hash of the seed's code units, and its bucket lies in [0, 360) |
| ColorExtractor.DefaultPalette | src/colorExtractor.ts:308-317 | the fixed palette exactly when the seed is missing or empty; otherwise the seed's hue bucket |
| ColorExtractor.FixedPaletteWellFormed | src/colorExtractor.ts:310-315 | the four fixed colours are lower-case `#rrggbb` |
| Config.QueryGet | src/config.ts:5-16 | `URLSearchParams.get`: None exactly when no pair has the name, otherwise the value of a pair with it |
| Config.OrDefault | src/config.ts:8 | `value \|\| fallback` on an optional string |
| Config.GetOmnichannelConfig | src/config.ts:2-37 | valid exactly when `orgId`, `orgUrl` and `widgetId` are all non-empty; the ids pass through; `channelId` defaults to `lcw` and `pauUrl` to `""`, and a non-empty value of either passes through; the custom colours are `CustomColors` of the four normalised colour parameters, so they exist exactly when the primary colour normalises and the others default from it |
| Config.CustomColors | src/config.ts:18-23 | none without a primary; secondary defaults to primary; light defaults to the primary lightened by 102 and dark to the primary darkened by 51, both as channel-wise clamps |
| Config.NormalizeHex | src/config.ts:82-87 | Some exactly when the trimmed input is six hex digits with an optional leading `#`; the result is `#` and those six digits, case kept |
| Config.NormalizeHexIdempotent | src/config.ts:82-87 | normalising a normalised colour changes nothing |
| Config.HexColorNoWhitespace | src/config.ts:84 | a `#rrggbb` string holds no whitespace, so trimming keeps it |
| Config.StripScheme | src/config.ts:52 | `^https?://` is removed when present and nothing else changes |
| Config.CleanDomain | src/config.ts:51-56 | the cleaned domain holds neither `/` nor `?` |
| Config.CleanDomainOfUrl | src/config.ts:51-56 | a URL made of an optional scheme, an optional `www.`, a host and a path or query cleans to the host |
| Config.CleanDomainOfHost | src/config.ts:51-56 | a bare host cleans to itself |
| Config.GetCompanyLogoUrl | src/config.ts:47-66 | the bundled image for a missing company or a cleaned domain without `.` or shorter than 4, otherwise the logo service URL for the cleaned domain |
| Config.IncludesChar | src/config.ts:59 | `includes` of a one-character string is membership of that character |
| Config.BrandTableWellFormed | src/config.ts:40-45 | every brand colour is `#rrggbb` |
| Config.HexColorsOf | src/config.ts:40-45 | each palette of the table has four `#rrggbb` colours |
| Config.BrandKeysAreHosts | src/config.ts:40-45 | every brand key is a host with a dot, without `/` or `?`, not starting with `www.` |
| Config.GetBrandColorsAsWritten | src/config.ts:68-80 | the bracket lookup as written finds a value exactly when the cleaned domain is a table key or a member inherited from `Object.prototype` |
| Config.InheritedMemberLookup | src/config.ts:79 | a company named after an inherited member, shaped like a bare host, gets that member instead of null |
| Config.BrandLookupReturnsInheritedMember | src/config.ts:79 | the company `constructor` gets the inherited constructor |
| Config.GetBrandColors | src/config.ts:68-80 | the table's own entry for the cleaned domain, null exactly when there is none |
| Config.BrandLookupsAgree | src/config.ts:68-80 | both lookups agree on every company not named after an inherited member |
| Config.BrandOfUrl | src/config.ts:68-80 | a brand's site, with or without scheme, `www.`, path or query, finds that brand's colours |
| ChatSdk.OriginOf | src/chatSdk.ts:132 | the call throws exactly when the role is a non-nullish non-string; the origin is user exactly when the role lower-cases to `user` |
| ChatSdk.FirstTruthy | src/chatSdk.ts:133-137 | the first truthy value, or the fallback when none is truthy |
| ChatSdk.RawText | src/chatSdk.ts:133-137 | the first truthy of `content`, `message.content`, `text` and `messagePayload.text`, in that order, else `""` |
| ChatSdk.CardText | src/chatSdk.ts:165 | `parsed.text` when truthy, else the text of the card body's first element when truthy, else `""` |
| ChatSdk.MapActions | src/chatSdk.ts:151-155 | throws exactly when an action is null or undefined; otherwise maps each action with its `type`, `title` and `value` fallbacks |
| ChatSdk.QuickReplies | src/chatSdk.ts:150-157 | no change without an `actions` array; with one, the mapped actions and `parsed.text \|\| ""` |
| ChatSdk.ParseStructured | src/chatSdk.ts:145-172 | text not starting with `{`, or that does not parse, is kept with no actions and no card; a card only comes from parsed text |
| ChatSdk.FileOf | src/chatSdk.ts:175-201 | `fileMetadata` wins; otherwise the first attachment unless it is an adaptive card |
| ChatSdk.AgentNameOf | src/chatSdk.ts:210-213 | the sender's `displayName`, else its `name`, else `agentName`, the first of them that is truthy; only when all three are falsy, the `agentName:` tag when `tags` is an array and null otherwise |
| ChatSdk.IsBot | src/chatSdk.ts:215-223 | a bot when the sender type or message type lower-cases to `bot`, when the tags include `bot`, or when there is no agent name, and only then |
| ChatSdk.SkipTest | src/chatSdk.ts:203-204 | skipped exactly when there is no text and no file and the message type is a string that lower-cases to `system`; throws exactly when that type is a non-nullish non-string that had to be read |
| ChatSdk.MessageId | src/chatSdk.ts:229 | `messageId`, else `id`, else the fresh id, the first that is truthy; truthy whenever the fresh id is non-empty |
| ChatSdk.AgentTag | src/chatSdk.ts:213 | the piece after the first `:` of the first `agentName:` tag; undefined exactly when every tag is a string without that prefix |
| ChatSdk.Normalise | src/chatSdk.ts:127-289 | an emitted message has the payload's origin, id `messageId \|\| id \|\| fresh`, the given timestamp and no uploading flag |
| ChatSdk.OriginIsUserIff | src/chatSdk.ts:132 | an emitted message is from the user exactly when the role lower-cases to `user`, and from the agent otherwise |
| ChatSdk.BadRoleFails | src/chatSdk.ts:132 | a role that is neither nullish nor a string makes the callback fail without emitting |
| ChatSdk.PlainTextKept | src/chatSdk.ts:133-145 | plain text is the first truthy of the four text fields, else `""`, unchanged |
| ChatSdk.FailedParseKeepsText | src/chatSdk.ts:145-171 | text starting with `{` that does not parse is kept verbatim, without actions or card |
| ChatSdk.ParseFailureHarmless | src/chatSdk.ts:168-171 | a failed parse cannot stop a message that would otherwise be emitted |
| ChatSdk.QuickRepliesApplied | src/chatSdk.ts:150-156 | an `actions` array without null elements maps each action with its fallbacks, and the text becomes `parsed.text \|\| ""` |
| ChatSdk.AdaptiveCardApplied | src/chatSdk.ts:161-166 | a first parsed attachment of the card type gives the card `content` and the text `parsed.text \|\| content.body[0].text \|\| ""` |
| ChatSdk.CardStep | src/chatSdk.ts:161-166 | the structured step on a parsed card, stated on its own |
| ChatSdk.MetadataWins | src/chatSdk.ts:175-185 | `payload.fileMetadata` gives the file, with defaults `file`, `application/octet-stream` and 0 |
| ChatSdk.CardAttachmentIsNoFile | src/chatSdk.ts:188-200 | an adaptive-card attachment gives no file |
| ChatSdk.SkipIff | src/chatSdk.ts:204-207 | skipped exactly when the final text is falsy, there is no file and the message type lower-cases to `system` |
| ChatSdk.AgentTypeRule | src/chatSdk.ts:210-225 | bot exactly when the sender type or the message type is `bot`, the tags hold `bot`, or no agent name was found |
| ChatSdk.DownloadIff | src/chatSdk.ts:232-242 | a download is requested exactly when the file came from `fileMetadata` with a falsy url, and the message is then flagged downloading; the request is carried out only if the handler returns (`App.Deliver`) |
| ChatSdk.FetchHasFile | src/chatSdk.ts:249 | a started download belongs to a message that holds the file |
| ChatSdk.Hydrate | src/chatSdk.ts:256-280 | nothing for a null blob; otherwise the same message with the same id, no longer downloading, the blob's size, its type or the saved one, and the object URL; every other field, `uploading` included, is kept |
| ChatSdk.BlobOf | src/chatSdk.ts:108-115 | a blob exactly when the result, or its `data`, is one |
| ChatSdk.HydrationOnlyWithBlob | src/chatSdk.ts:256-283 | a follow-up message is emitted exactly when the download gave a blob |
| ChatSdk.ChatSdkClient.constructor | src/chatSdk.ts:36-38 | no SDK and no chat config |
| ChatSdk.ChatSdkClient.EnsureSdk | src/chatSdk.ts:40-55 | an existing handle is reused; an invalid config throws and creates nothing; a failed `initialize` throws but keeps the created handle; success initialises it and stores the live-chat config, and a failing `getLiveChatConfig` throws after initialising |
| ChatSdk.ChatSdkClient.EnsureSdkRetrying | src/chatSdk.ts:40-55 | the corrected version: a failed `initialize` leaves no handle, so a later call retries |
| ChatSdk.ChatSdkClient.EndChat | src/chatSdk.ts:63-76 | a no-op without a handle; otherwise it reports the SDK's outcome, and the handle is null afterwards either way |
| ChatSdk.ChatSdkClient.DownloadFileAttachment | src/chatSdk.ts:91-123 | null without a handle or when the call throws; otherwise the blob of the result |
| ChatSdk.ChatSdkClient.Subscribe | src/chatSdk.ts:125-127 | a subscription is made exactly when there is a handle |
| ChatSdk.InitFailureIsNotRetried | src/chatSdk.ts:40-55 | after a failed `initialize`, the next call succeeds without initialising, leaving the handle uninitialised |
| ChatSdk.InitFailureIsRetried | src/chatSdk.ts:40-55 | with the corrected version, the next call initialises and stores the live-chat config |
| ChatSdk.EmailBody | src/chatSdk.ts:299-306 | an object with the address, and `attachmentMessage` only when it is non-empty |
| Transcript.IndexOfId | src/App.tsx:1080 | `findIndex` by id: the first index holding the id, None exactly when no message has it |
| Transcript.FindIndex | src/App.tsx:1080 | the loop returns -1 exactly when no message has the id, else the first such index |
| Transcript.Upserted | src/App.tsx:1078-1091 | an unseen id is appended; a seen one replaces its entry at the same index, all others unchanged |
| Transcript.UpsertedFinds | src/App.tsx:1078-1091 | after an upsert the id is found at its old index, or at the end when it was new |
| Transcript.UpsertIdempotent | src/App.tsx:1078-1091 | upserting the same message twice is upserting it once |
| Transcript.UpsertLength | src/App.tsx:1078-1091 | the length grows by one exactly when the id was unseen |
| Transcript.FlipUploaded | src/App.tsx:929-935 | same length; the messages with the id lose the uploading flag, all others unchanged |
| Transcript.RemoveId | src/App.tsx:942 | no message with the id remains, every other message stays, and nothing is added |
| Transcript.RemoveIdKeepsOrder | src/App.tsx:942 | removing an id commutes with appending messages that lack it |
| Transcript.RemoveNone | src/App.tsx:942 | removing an absent id changes nothing |
| Transcript.FlipOwnId | src/App.tsx:929-935 | flipping a message's own unique id changes that message alone |
| Transcript.FlipNone | src/App.tsx:929-935 | flipping an absent id changes nothing |
| Transcript.RemoveOwnId | src/App.tsx:942 | removing a message's own unique id removes that message alone |
| AppText.Words | src/App.tsx:19-20 | `split(/[\s-_]+/).filter(Boolean)`: the non-empty runs between separators |
| AppText.Capitalize | src/App.tsx:21 | the first character upper-cased and the rest lower-cased, same length |
| AppText.CapitalizeIdempotent | src/App.tsx:21 | capitalising twice is capitalising once |
| AppText.ToTitleCase | src/App.tsx:18-22 | empty exactly when the input has no word |
| AppText.WordsOfJoin | src/App.tsx:19-22 | splitting words joined by spaces gives the words back |
| AppText.TitleCaseWords | src/App.tsx:18-22 | the words of the result are the capitalised words of the input |
| AppText.TitleCaseIdempotent | src/App.tsx:18-22 | title-casing twice is title-casing once |
| AppText.TitleCaseTidy | src/App.tsx:18-22 | on name characters the result holds only ASCII letters, digits and spaces, with no space at either end and never two spaces in a row |
| AppText.RawName | src/App.tsx:26 | the company parameter when it is non-empty, else the page's hostname |
| AppText.HostName | src/App.tsx:27-31 | the cleaned host holds neither `/` nor `?` |
| AppText.Labels | src/App.tsx:33 | the labels are non-empty and dot-free |
| AppText.BaseLabel | src/App.tsx:35-44 | a base label exactly when there are labels, and then one of them |
| AppText.Sanitize | src/App.tsx:45 | characters outside `[a-zA-Z0-9-_ ]` become spaces, the others stay |
| AppText.DeriveDisplayName | src/App.tsx:24-47 | `Copilot` for an empty cleaned host; otherwise a non-empty tidy name when one is found |
| AppText.HostNameOfUrl | src/App.tsx:27-31 | scheme, `www.`, path and query are stripped down to the host |
| AppText.DisplayNameOfUrl | src/App.tsx:24-47 | a URL whose base label is alphanumeric gives that label capitalised |
| AppText.DisplayNameOfCountryDomain | src/App.tsx:35-39 | `x.<generic>.<cc>` gives `x` capitalised |
| AppText.DisplayNameOfDomain | src/App.tsx:40-41 | `x.<tld>` gives `x` capitalised |
| AppText.DisplayNameOfSubdomain | src/App.tsx:40-41 | `a.x.<tld>` with a top level that is not two letters gives `x` capitalised |
| AppText.Dedup | src/App.tsx:331 | object keys: distinct, and the same set as the input |
| AppText.DedupDistinct | src/App.tsx:331 | distinct keys are kept as they are |
| AppText.FallbackText | src/App.tsx:328 | `fallback \|\| "Submitted response"` is never empty |
| AppText.FormatAdaptiveSubmission | src/App.tsx:327-335 | always truthy; falsy data gives the fallback text; a string is returned as is; otherwise `data.text` when truthy, else the joined `key: value` entries when there are any, and the fallback text only when there are none |
| AppText.EntryLinesOfRecord | src/App.tsx:331-333 | a record with distinct keys gives one `k: v` line per property, in order |
| AppText.SubmissionOfRecord | src/App.tsx:331-334 | a non-empty record without truthy `text` gives its `k: v` pairs joined with `, ` |
| AppText.ValidateEmail | src/App.tsx:735 | accepted exactly when the trimmed value is a local part, `@`, a host, `.` and a final part, each non-empty and free of whitespace and `@` |
| AppText.PositionDigitsUnique | src/App.tsx:1064 | `position.*?(\d+)` captures at most one run for a given match start |
| AppText.PositionSearch | src/App.tsx:1064 | the first match start at or after `from`, and None exactly when there is none |
| AppText.PositionIn | src/App.tsx:1064-1066 | a number exactly when the text matches, and then the value of the first match's digits |
| AppText.GreedyWaitMatch | src/App.tsx:1072 | `(\d+)\s*(min\|minute)` at an index takes the maximal digit and whitespace runs |
| AppText.WaitAtMeans | src/App.tsx:1072 | the greedy check at an index holds exactly when the regular expression matches there |
| AppText.WaitMinutesIn | src/App.tsx:1072-1074 | None exactly when nothing matches; otherwise the first match's minutes |
| AppText.LoweredText | src/App.tsx:1058 | `message.text?.toLowerCase() \|\| ''`: throws for a non-nullish non-string, and gives `""` for a nullish text |
| AppText.QueueUpdateOf | src/App.tsx:1060-1076 | a position exactly when `position` and `queue` occur and the pattern matches; a wait exactly when `average` or `wait` occurs and the pattern matches, in seconds (60 times the minutes) |
| AppText.WaitIsWholeMinutes | src/App.tsx:1074 | a parsed wait is a whole number of minutes |
| AppText.NameFilter | src/App.tsx:1098 | falsy names fail; a string passes exactly when it has no `_` and fewer than 50 code units; values whose `includes` call throws give None |
| AppText.ShowAgentName | src/App.tsx:1443-1450 | shown exactly when the message is from a human agent, the name passes the filter and differs from the previous message's; the rule throws exactly when a human agent's name is one the filter cannot read |
| AppText.RepeatedNameHidden | src/App.tsx:1450 | a name equal to the previous message's is never shown |
| AppText.CheckImage | src/App.tsx:858-877 | a camera file is accepted exactly when it is at most 5 MiB and a JPEG or PNG |
| AppText.CheckDocument | src/App.tsx:879-899 | a chosen file is accepted exactly when it is at most 5 MiB and a PDF, JPEG or PNG |
| AppText.ImageChecksAreStricter | src/App.tsx:858-899 | every accepted image is an accepted document; a PDF is rejected by the camera and accepted by the file picker when small enough |
| App.StartError | src/App.tsx:593-594 | the error reads `Connection failed: `, then the reason, or `Could not start chat` when the reason is empty, then the fixed advice |
| App.UserMessage | src/App.tsx:686-691 | a user message with the fresh id, the text and the time, with no file and no flags |
| App.UploadMessage | src/App.tsx:903-918 | a user message flagged uploading, with the file's name, type and size, and the preview URL only for images |
| App.Updated | src/App.tsx:1066 | a new value replaces the old one; no new value keeps it |
| App.AgentTypeOrBot | src/App.tsx:1100 | `agentType \|\| "bot"` |
| App.ChatApp.constructor | src/App.tsx:362-399 | the initial state: idle, auto-connecting, not closing, empty transcript and input, no agent, no queue info |
| App.ChatApp.SetInput | src/App.tsx:363 | only the input changes |
| App.ChatApp.StartBegin | src/App.tsx:571-572 | the error is cleared and the status is connecting |
| App.ChatApp.StartEnd | src/App.tsx:580-597 | success clears the transcript and connects; failure returns to idle, stops auto-connect and records the error |
| App.ChatApp.Start | src/App.tsx:570-598 | both steps of `start` together, nothing else changed |
| App.ChatApp.AutoConnect | src/App.tsx:561-568 | starts exactly when the config is valid, the status is idle, auto-connect is on and the widget is not closing |
| App.ChatApp.RequestEndChat | src/App.tsx:619-622 | only the confirmation dialog opens |
| App.ChatApp.CancelEndChat | src/App.tsx:667-669 | only the confirmation dialog closes |
| App.ChatApp.ConfirmEndChat | src/App.tsx:624-665 | afterwards idle, not typing, the transcript, input and error empty, no agent name, agent type bot, no queue info, no suggestions, closing and ending set, auto-connect off; `endChat` is posted exactly when framed, whatever the SDK did |
| App.ChatApp.ClearSession | src/App.tsx:643-650 | the reset block of `confirmEndChat`, nothing else changed |
| App.ChatApp.Stop | src/App.tsx:671-680 | not typing and idle whatever the SDK did, nothing else changed |
| App.ChatApp.Send | src/App.tsx:682-706 | sends exactly when the trimmed input is non-empty; a send appends exactly one user message with the trimmed text and clears the input; the message stays on failure, typing goes off and the error is set |
| App.ChatApp.AppendUserMessage | src/App.tsx:693-697 | the optimistic append, the cleared input and the typing indicator |
| App.ChatApp.OnSubmit | src/App.tsx:708-713 | sends exactly when connected and the trimmed input is non-empty, then as `Send` |
| App.ChatApp.SubmitAdaptiveCard | src/App.tsx:771-791 | appends the formatted submission, which is always truthy; failure turns typing off and sets the error |
| App.ChatApp.BeginUpload | src/App.tsx:901-922 | appends the optimistic uploading message with the trimmed input as its text, and clears the input |
| App.ChatApp.FinishUpload | src/App.tsx:924-948 | success flips the uploading flag of the id; failure removes the id and shows the upload error |
| App.ChatApp.FileChosen | src/App.tsx:858-899 | a rejected file shows its error and changes neither transcript nor input; an accepted one appends the uploading message and clears the input |
| App.ChatApp.HandleMessage | src/App.tsx:1055-1107 | the queue update from the lowered text, the upsert, typing off, then agent tracking; a text whose lowering throws changes nothing |
| App.ChatApp.ApplyQueueUpdate | src/App.tsx:1063-1076 | a parsed position or wait replaces the old value, a missing one keeps it |
| App.ChatApp.TrackAgent | src/App.tsx:1096-1104 | an agent message clears the queue info; a name passing the filter becomes the current agent with `agentType \|\| "bot"` |
| App.ChatApp.Upsert | src/App.tsx:1078-1091 | the transcript becomes the upsert of the message, nothing else changed |
| App.ChatApp.OnTyping | src/App.tsx:1108-1113 | typing exactly when `typingIndicator.state` is `typing` |
| App.UploadSucceeds | src/App.tsx:901-935 | a successful upload with a fresh id leaves the transcript as before plus its own message, no longer uploading |
| App.UploadFails | src/App.tsx:901-948 | a failed upload with a fresh id leaves the transcript exactly as before and shows the error |
| App.UploadSucceedsAcrossReplies | src/App.tsx:929-935 | agent replies arriving during the upload are appended after it and are untouched by the flip |
| App.ReceiveOne | src/App.tsx:1078-1091 | a message with an id not yet in the transcript, whose text can be read, is appended and the state stays well formed |
| App.ReceiveFresh | src/App.tsx:1078-1091 | messages with ids not yet in the transcript, arriving one after another, are appended in arrival order |
| App.Deliver | src/chatSdk.ts:233-249 | an emitted message goes through `handleMessage`, and the download starts exactly when one was requested and the handler does not throw, since the callback's `catch` at src/chatSdk.ts:284-287 swallows the throw; a skipped or failed payload changes nothing |
| App.ThrowingHandlerLeavesDownloading | src/chatSdk.ts:233-249 | an agent message that still needs its file, with a name the filter cannot read, is appended flagged downloading, and no download starts to clear the flag |
| App.LateHydrationAfterEnd | src/App.tsx:1078-1091 | no guard keeps a late message out after `confirmEndChat`: it becomes the only message of the emptied transcript |
| ContentScript.Utf8 | browser-extension/content.js:71 | one to four bytes, one exactly for ASCII, which is its own byte |
| ContentScript.PercentBytes | browser-extension/content.js:71 | three characters per byte, each `%` or unreserved |
| ContentScript.EncodeUriComponent | browser-extension/content.js:71-72 | every output character is `%` or unreserved |
| ContentScript.EncodeUnreservedIsIdentity | browser-extension/content.js:71-72 | a string of unreserved characters encodes to itself |
| ContentScript.EncodeLength | browser-extension/content.js:71-72 | encoding never shortens, and keeps the length exactly when every character is unreserved |
| ContentScript.EncodedHasNoSeparator | browser-extension/content.js:71-72 | an encoded value holds none of `&`, `=`, `?`, `#`, `/`, `:`, `+` |
| ContentScript.OptionalParam | browser-extension/content.js:74-75 | one pair exactly when the value is truthy |
| ContentScript.WidgetParams | browser-extension/content.js:61-75 | the six fixed pairs in order, with the encoded referrer and page URL, then `pauUrl` and `agentsUrl` when set |
| ContentScript.CompanyDefaultsToHostname | browser-extension/content.js:70 | `company` is the configured one when truthy, else the page's hostname |
| ContentScript.OptionalParamsOnlyWhenSet | browser-extension/content.js:74-75 | a `pauUrl` or `agentsUrl` pair appears only when that setting is truthy |
| ContentScript.CopyText | browser-extension/content.js:132-154 | success when the clipboard works, else what the fallback gives; it never throws |
| ContentScript.CopyTarget | browser-extension/content.js:171 | `data.url` when it is a string, else the page href |
| ContentScript.Widget.constructor | browser-extension/content.js:2-4 | no button, container, backdrop, listener or settings |
| ContentScript.Widget.Init | browser-extension/content.js:7-22 | keeps the stored settings and creates the button exactly when `enabled !== false` and the three ids are truthy |
| ContentScript.Widget.CreateChatButton | browser-extension/content.js:25-39 | removes any existing button, so the page holds exactly one |
| ContentScript.Widget.OpenChat | browser-extension/content.js:42-91 | a hidden container is re-shown with its backdrop and the button hidden; a shown one changes nothing; otherwise one backdrop, one container and one listener are added and the button hidden |
| ContentScript.Widget.CreateChatContainer | browser-extension/content.js:57-91 | the widget URL's parameters, one more backdrop, the container and one more listener |
| ContentScript.Widget.MinimizeChat | browser-extension/content.js:94-116 | hides the first backdrop and the container and shows the button; the container is kept |
| ContentScript.Widget.EndChatSession | browser-extension/content.js:119-129 | removes the first backdrop and the container, nulls the container and shows the button |
| ContentScript.Widget.DispatchOnce | browser-extension/content.js:156-184 | one listener: only object data with action `endChat`, `minimizeChat` or `copyLink` acts, and `copyLink` copies `CopyTarget` of the data and the page href, replying with the copy outcome when the source can receive it |
| ContentScript.Widget.OnWindowMessage | browser-extension/content.js:156-184 | every registered listener handles the message: `copyLink` copies the same text once per listener and is answered once per listener; `endChat` removes one backdrop per listener |
| ContentScript.Widget.OnSettingsUpdated | browser-extension/content.js:188-200 | keeps the new settings, nulls button and container, and re-creates the button only when `enabled` and `orgId` are truthy; throws on missing settings; backdrops are left in the page |
| ContentScript.Widget.ClearWidget | browser-extension/content.js:191-194 | the button and container are removed and nulled |
| ContentScript.Widget.OnSettingsUpdatedTearingDown | browser-extension/content.js:188-200 | the corrected version: as above, and the backdrops are removed as well |
| ContentScript.SettingsMessageFields | browser-extension/content.js:189-190 | the runtime message carries the action and the settings |
| ContentScript.SettingsUpdateLeavesBackdrop | browser-extension/content.js:189-199 | a settings update and a reopen leave two backdrops |
| ContentScript.SettingsUpdateClearsBackdrop | browser-extension/content.js:189-199 | with the corrected handler, the reopened widget has exactly one backdrop |
| ContentScript.OpenEndOpen | browser-extension/content.js:42-91 | opening, ending and reopening the chat leaves two message listeners registered |
| ContentScript.ReopenedChatAnswersTwice | browser-extension/content.js:156-180 | after ending and reopening the chat, one `copyLink` request copies its text twice and is answered twice |
| ContentScript.MinimizeThenReopen | browser-extension/content.js:44-50 | minimising and reopening shows the same container again, with no new container, backdrop or listener |

## Left out

- Floating-point colour maths is not modelled: `rgbToHsl`, `hslToHex`, `punchyHex`, lightness clamping, luminance and contrast, the pixel bucketing of `extractColorsFromImage`, and the division by 360 in `hashStringToHue`. So `DefaultPalette` with a seed returns the hue bucket, not the four HSL colours.
- `Math.round(2.55 * percent)` is not modelled. The lighten and darken amount is an integer parameter, and the two configuration call sites use 102 and 51.
- `HexColor.Lighten`, `HexColor.Darken` and `ColorExtractor.HexToRgbTuple` require a `#rrggbb` argument, because every call site passes one. `parseInt` of other strings is not modelled.
- Canvas, DOM and icon generation are not modelled, nor are CSS theming, JSX rendering, adaptive-card rendering, markdown and sanitising.
- Speech recognition and synthesis are not modelled, nor are online and offline events, or the agents and follow-up `fetch` calls. The suggestions list is only cleared.
- Timers are decisions, not time. An auto-connect is the `AutoConnect` event. The 300 ms grace delay and the toasts are folded into their handlers. A temporary error's later clearing is not modelled.
- Asynchrony is not modelled. Each handler runs to completion. An upload is two events, `BeginUpload` and `FinishUpload`, so that other events can arrive between them.
- The SDK and browser calls are not modelled. They are given outcome parameters. These cover `startChat`, `sendMessage`, the upload, `endChat`, `initialize`, `getLiveChatConfig`, `downloadFileAttachment`, the clipboard and the fallback copy, `JSON.parse`, `createId`, `Date.now()` and `URL.createObjectURL`. `URL.revokeObjectURL` is not modelled.
- The error text of a failed `start` is built from an opaque reason string, not from the thrown object.
- Unsubscribing handlers is not modelled. The model only records whether a subscription was made.
- `ContentScript.Widget.OnWindowMessage` gives every listener the same clipboard outcome.
- `ContentScript.WidgetParams` keeps the query as name/value pairs. `URLSearchParams.toString()` form encoding is not modelled.
- `browser-extension/popup.js` is not modelled. It only handles the settings form and storage.
- Build and bootstrap files are not modelled: `vite.config.ts`, `src/main.tsx`, `src/polyfills.ts`.
- `Text.Lower` and `Text.Upper`: `toLowerCase` and `toUpperCase` map ASCII letters only. `Text.Lower` is exact for every comparison the code makes, because each compares with an ASCII word. `AppText.Capitalize` uses `Text.Upper` and `Text.Lower` for `toUpperCase` and `toLowerCase` in `toTitleCase`. That use is exact only because `AppText.Sanitize` has already reduced the name to ASCII letters, digits, `-`, `_` and spaces.
- `JsValue` numbers are integers. NaN and fractions are not modelled, and equality of values is structural. This matters in `AppText.ShowAgentName`: the source's `!==` compares an array-valued agent name by reference, so two equal arrays from different messages count as different names there but as the same name in the model.
- Object property order in `Object.entries` is the order of the record. The reordering of integer-like keys is not modelled.
- `AppText.QueueUpdateOf` reads numbers with unbounded precision. `parseInt` precision beyond 2^53 is not modelled.
- A message's `downloading` field is an `Option<bool>`. `None` stands for the source's `undefined`. `Some(true)` stands for the truthy `fileMetadata` object the source stores there, since only its truthiness is ever read.

## Findings

| source | as written | input that shows it | evidently intended | confidence | as-written member | corrected member |
|---|---|---|---|---|---|---|
| src/config.ts:79 | `brandColors[baseUrl] \|\| null` indexes a plain object literal, so names inherited from `Object.prototype` are found | company `constructor` (or `toString`, `__proto__`) returns an inherited function or object instead of null | only the table's own keys are found, else null | not executed | Config.BrandLookupReturnsInheritedMember | Config.BrandLookupsAgree |
| src/chatSdk.ts:46-52 | `this.sdk` is assigned before `initialize()`; when that throws, the handle stays, so later calls skip initialisation and never fetch the live-chat config | `initialize()` throws once, then `startChat` is retried | a failed initialisation leaves no handle, so the next call initialises again | not executed | ChatSdk.InitFailureIsNotRetried | ChatSdk.InitFailureIsRetried |
| browser-extension/content.js:189-199 | `settingsUpdated` removes the button and the container but not the backdrop, so reopening adds a second one | open the chat, send `settingsUpdated` with `enabled` and `orgId` set, click the new button | the backdrop is removed with the container | not executed | ContentScript.SettingsUpdateLeavesBackdrop | ContentScript.SettingsUpdateClearsBackdrop |

The model also records, as modelled behaviour rather than a finding, that `openChat` adds a window `message` listener every time it creates a container and none is ever removed. After the chat has been ended and reopened, one `copyLink` request is answered once per listener (`ContentScript.ReopenedChatAnswersTwice`). In the same way, it records that an agent message whose file still has to be fetched is added flagged downloading before the widget's handler can throw on its agent name. The client's `catch` then swallows the throw, so the download never starts and the flag is never cleared (`App.ThrowingHandlerLeavesDownloading`).
