# Unigram navigation, message record and theme: a Dafny model

This project models three pieces of the Unigram Telegram client and proves properties of them.

- **Chat navigation** (`TLNavigationService`), in `navigation.dfy`:
  - `NavigateToChat(Chat, ...)` becomes a pure decision function, `Navigation.Resolve`, over:
    - the chat;
    - the request flags;
    - a snapshot of the client's caches (`TdApi.ClientService`);
    - the "saved messages as chats" setting;
    - the page the frame shows.

    The decision is one of: ignore, open the profile, refuse with a message, refresh the shown chat in place, open a new window, re-target the shown chat page, or navigate.
  - The class `Navigation.NavigationService` applies that decision to the service state. Its `NavigateToChat` method covers:
    - the navigation state bag (`Navigation.NavigationState`);
    - the current page;
    - the forward stack;
    - the pending drag-and-drop packages (`App.DataPackages`);
    - the trace of calls into code outside the model (slice loads, `Navigate`, `GoBackAt(0)`, message boxes, new windows).
  - `NavigateToChat(long, ...)`, `NavigateToUser` and `NavigateToSender` are routing functions into it.
- **Message record** (`MessageViewModel` with its base `MessageWithOwner`), in `messages.dfy`:
  - `Messages.MessageViewModel` is a class. It holds the TDLib message (`Messages.Message`), the display text, the generated content and the four memoised flags, each a nullable cache.
  - `UpdateWith` is a method. It copies the metadata fields one by one, then runs the album caption loop (`Messages.AggregateMediaCaption`).
  - Both are proved against the specification functions `Messages.Merged` and `Messages.MediaAlbumCaption`.
  - The share table (`GetCanBeShared`) and the sender photo table (`GetHasSenderPhoto`) are pure functions. So are equality by (ChatId, Id) and the downloads rules.
- **Theme** (`Theme.cs`), in `theme.dfy`, which uses the .NET text and number semantics in `dotnet_text.dfy`:
  - the custom theme file parser, a loop proved against a fold over the lines, with the ARGB decoding of its 32-bit values;
  - the two outgoing-message palettes and their "XOutgoing" to "XBrush" key mapping (`Themes.ThemeOutgoing`);
  - the chat-theme change tracker;
  - the settings store behind `AddOrUpdateValue`, `GetValueOrDefault` and `MessageFontSize` (`Themes.Theme`).

`wrappers.dfy` holds `Option` and `Result`. `tdapi.dfy` holds the TDLib values the three parts read: chats, users, supergroups, message senders, and the client's caches.

Four behaviours of the code are easy to miss:
- The in-place refresh test (TLNavigationService.cs line 219) does not consult `force`. A forced navigation to the shown chat still refreshes it in place (`Navigation.RefreshIgnoresForce`).
- `UpdateWith` overwrites `ChatId` and `Id` with the incoming message's (MessageViewModel.cs lines 276 and 282). Identity is not excluded from the merge (`Messages.MergedFields`).
- In a media album, a second non-empty caption clears the caption, even when it equals the first. The captions "A", "", "A" give no caption (`Messages.CaptionsRepeatedAroundEmpty`, `Messages.TwoEqualCaptionsClear`).
- `ThemeOutgoing.Update(parent, values)` recolours the dark palette only when the parent is Dark. `ThemeOutgoing.Update(parent)` resets the light palette only when the parent is Light. A custom file's parent number other than 1 or 2 is therefore recoloured in the light palette but reset in the dark one (`Themes.TargetsAgree`).

Some extensions and enumerations that the core calls are not part of this model. Their behaviour is assumed as follows:
- `GetCaption()` is `Messages.Caption`: the text of a text message, the caption of a photo, video, animation, audio, document, voice note or album, and nothing otherwise.
- `IsService()` and `IsSaved(myId)` are the functions a record is created with.
- `TelegramTheme` has Light = 1 and Dark = 2.

## Model

| member | source | states |
|---|---|---|
| TdApi.ClientService.GetUser | Telegram/Common/TLNavigationService.cs:161 | the user is found exactly when it is cached, and it is the cached one; `Navigation.Gate` looks the user up through it |
| TdApi.ClientService.GetSupergroup | Telegram/Common/TLNavigationService.cs:199 | the supergroup is found exactly when it is cached, and it is the cached one; `Navigation.Gate` looks the supergroup up through it |
| TdApi.ClientService.GetChat | Telegram/Common/TLNavigationService.cs:409 | the chat is found exactly when it is cached, and it is the cached one; `Navigation.RouteToChatId` looks the chat up through it |
| Navigation.Gate | Telegram/Common/TLNavigationService.cs:159-216 | the access checks stop the navigation only with ignore, open profile or a refusal; they ignore it exactly when the private chat's user or the supergroup is not cached; a chat that is neither private nor a supergroup passes |
| Navigation.Resolve | Telegram/Common/TLNavigationService.cs:143-405 | a null chat is ignored; a profile opens only for the requested chat; a refresh, new window, re-target, null view model fault or navigation happens only after the access checks let the chat through |
| Navigation.PageDecision | Telegram/Common/TLNavigationService.cs:219-403 | past the access checks the outcome is a refresh, a new window, a re-target, the null view model fault or a navigation; a re-target keeps the chat and needs a view model and `force` off; the fault needs a chat page without a view model and `force` off; with `force` on and the chat not shown, a new window or a navigation follows |
| Navigation.TargetPage | Telegram/Common/TLNavigationService.cs:285-309 | the thread page exactly when a thread is given, else the saved topic page exactly when a topic is given, else the scheduled page exactly when asked, else the chat page; the page parameter carries the chat with the thread or topic, or the chat id alone |
| Navigation.TransitionFor | Telegram/Common/TLNavigationService.cs:351-393 | a slide from the right only for a thread or topic over the same chat's chat page; a slide from the left only for the plain chat over the same chat's profile page; suppression only for a thread or topic |
| Navigation.IgnoredExactly | Telegram/Common/TLNavigationService.cs:154-204 | nothing happens if and only if the chat is null, its private user is unknown or its supergroup is unknown |
| Navigation.SelfChatOpensProfile | Telegram/Common/TLNavigationService.cs:167-175 | the own private chat with no topic, with saved messages viewed as chats, opens the profile, whatever the restriction reason; no other request opens the profile |
| Navigation.RestrictedUserRefused | Telegram/Common/TLNavigationService.cs:177-196 | a user with a restriction reason is refused with that text, before the anti-spam check; the anti-spam notice appears exactly for an unrestricted anti-spam bot |
| Navigation.SupergroupRefusals | Telegram/Common/TLNavigationService.cs:205-216 | a supergroup is refused as private exactly when it was left, is not public and is not accessible; otherwise a restriction reason refuses it with that text |
| Navigation.RefusalNavigatesNowhere | Telegram/Common/TLNavigationService.cs:159-216 | when the access checks stop the navigation, the result is ignore, profile or refusal, and no state bag is written |
| Navigation.RefreshExactly | Telegram/Common/TLNavigationService.cs:219-229 | past the access checks, the chat is refreshed in place if and only if its chat page is shown with a view model and no thread, topic, scheduled view or new window is asked for; the slice is around the message when one is given, else the last slice |
| Navigation.RefreshIgnoresForce | Telegram/Common/TLNavigationService.cs:219 | flipping `force` never changes a refresh decision |
| Navigation.TargetPrecedence | Telegram/Common/TLNavigationService.cs:285-386 | both the new window and the in-frame navigation go to the thread page, else the saved topic page, else the scheduled page, else the chat page |
| Navigation.TransitionRules | Telegram/Common/TLNavigationService.cs:351-393 | a thread or topic slides from the right if and only if the same chat's chat page is shown, and is suppressed otherwise; the scheduled view has no transition; the chat page slides from the left if and only if the same chat's profile is shown |
| Navigation.RetargetExactly | Telegram/Common/TLNavigationService.cs:325-336 | past the access checks, the shown chat page is re-targeted, to the requested chat, if and only if it is not refreshed, a chat page with a view model is shown, no thread, topic, scheduled view or new window is asked for, and `force` is off |
| Navigation.NullViewModelExactly | Telegram/Common/TLNavigationService.cs:325-327 | past the access checks, the null view model of a shown chat page is dereferenced if and only if a chat page without a view model is shown, no thread, topic, scheduled view or new window is asked for, and `force` is off |
| Navigation.DefaultRequestNeverRetargets | Telegram/Common/TLNavigationService.cs:143 | with the default arguments (`force` true) no chat page is re-targeted and no null view model is dereferenced |
| Navigation.NavigationState.constructor | Telegram/Common/TLNavigationService.cs:273 | a new state bag is empty |
| Navigation.NavigationState.Set | Telegram/Common/TLNavigationService.cs:277-282 | the indexer maps the key to the value and keeps every other entry |
| Navigation.NavigationState.PendingPackage | Telegram/Common/TLNavigationService.cs:248 | a package is found exactly when "package" holds a value of the package type, and it is that value |
| Navigation.WithRequestEntries | Telegram/Common/TLNavigationService.cs:273-283 | "message_id" and "access_token" are written exactly when the request has them, with their values; every other entry keeps its key and its value, and no other key is added |
| Navigation.StoreRequest | Telegram/Common/TLNavigationService.cs:273-283 | the caller's bag is the one written, or a fresh one when none was given, and it ends up holding exactly the request entries over what it held before |
| Navigation.NavigationService.Navigate | Telegram/Common/TLNavigationService.cs:395 | records the navigation call; the current page changes to the target only when `Navigate` succeeds |
| Navigation.RefreshCalls | Telegram/Common/TLNavigationService.cs:236-251 | at most two calls; the access token is handed over first exactly when the request has one and the user info is known; a package is handed over last exactly when `App.DataPackages` or the state bag holds one, and `App.DataPackages`' package wins |
| Navigation.NavigationService.RefreshShownChat | Telegram/Common/TLNavigationService.cs:221-254 | always loads the slice; if the view model was replaced meanwhile, nothing else happens; otherwise hands over the access token (when the user info is known) and the pending package, and `App.DataPackages`' package for the chat wins over the state bag's and is removed |
| Navigation.NavigationService.ChangePage | Telegram/Common/TLNavigationService.cs:285-401 | a new window changes no page; a re-target shows the chat and clears the forward stack; the null view model fault changes nothing further; a navigation changes the page only on success; `GoBackAt(0)` follows only when asked, and after `Navigate` only if it succeeded |
| Navigation.NavigationService.NavigateToChat | Telegram/Common/TLNavigationService.cs:143-405 | per decision: the calls made, the page shown, the forward stack and the pending packages afterwards; the state bag (the given one, else a fresh one) gets the request entries exactly when the navigation passes the reuse check, and is otherwise left alone; on the null view model fault the bag is written and no call is made and no page changes |
| Navigation.RouteToChatId | Telegram/Common/TLNavigationService.cs:407-420 | the cached chat, else the fetched one, else nothing; the request is forwarded without `clearBackStack` |
| Navigation.RouteToUser | Telegram/Common/TLNavigationService.cs:422-452 | nothing exactly when there is no private chat and none was created; a bot, or `toChat`, opens the chat with the default request; anyone else opens the profile |
| Navigation.RouteToSender | Telegram/Common/TLNavigationService.cs:131-141 | a chat sender opens its profile; a user sender routes as `NavigateToUser(id, false)` |
| Navigation.UserSenderRouting | Telegram/Common/TLNavigationService.cs:131-141 | a non-bot user sender opens the profile; a bot sender's chat opens with `force` on and so never re-targets the shown page nor dereferences its view model |
| DotNetText.Split | Unigram/Unigram/Common/Theme.cs:129 | `Split(':')`: at least one part, none holds the separator, two or more parts exactly when the line holds one |
| DotNetText.JoinSplit | Unigram/Unigram/Common/Theme.cs:129 | joining the parts of a split with the separator gives the line back |
| DotNetText.SplitJoin | Unigram/Unigram/Common/Theme.cs:129 | splitting a join of separator-free parts gives the parts back |
| DotNetText.TrimBy | Unigram/Unigram/Common/Theme.cs:135-136 | `Trim()`: the result is no longer, has no white space at either end, and is empty exactly when the text is all white space |
| DotNetText.TrimByMiddle | Unigram/Unigram/Common/Theme.cs:135-136 | the trimmed text is a slice of the text with only white space before and after it |
| DotNetText.TrimLeadingWhite | Unigram/Unigram/Common/Theme.cs:135-136 | trimming white space off before a trimmed text gives that text |
| DotNetText.ParseInt32 | Unigram/Unigram/Common/Theme.cs:121 | `int.Parse` succeeds only within the 32-bit signed range |
| DotNetText.ParseFormatInt32 | Unigram/Unigram/Common/Theme.cs:121 | every 32-bit integer written in decimal parses back to itself |
| DotNetText.ParseHex32 | Unigram/Unigram/Common/Theme.cs:138 | `TryParse` with `HexNumber` succeeds only for a value that fits 32 bits |
| DotNetText.Hex8RoundTrip | Unigram/Unigram/Common/Theme.cs:138 | every 32-bit value written as eight hexadecimal digits parses back to itself |
| Themes.Pack | Unigram/Unigram/Common/Theme.cs:140-143 | the packed colour fits 32 bits |
| Themes.Unpack | Unigram/Unigram/Common/Theme.cs:140-143 | the alpha, red, green and blue bytes it takes pack back into the 32-bit value |
| Themes.UnpackPack | Unigram/Unigram/Common/Theme.cs:140-143 | decoding a packed colour gives back the colour |
| Themes.Classify | Unigram/Unigram/Common/Theme.cs:115-133 | a line is a "name: " line exactly when it starts so; a parent line starts with "parent: "; a key and value pair holds ':', and a line with no separator holds none |
| Themes.ColorValue | Unigram/Unigram/Common/Theme.cs:138-145 | a colour exactly when the value starts with '#' and the rest parses as a hexadecimal 32-bit number, and that number is the colour packed |
| Themes.EntryOf | Unigram/Unigram/Common/Theme.cs:129-145 | a line stores a dictionary entry exactly when it is a key and value pair whose value is a colour; the entry is that trimmed key and that colour |
| Themes.StepOutcome | Unigram/Unigram/Common/Theme.cs:115-146 | one line fails exactly when it is a "parent: " line whose argument is not a 32-bit integer, with that line's index; any other line keeps the parent theme |
| Themes.Parsed | Unigram/Unigram/Common/Theme.cs:113-148 | a failing file names a line that lies within it |
| Themes.ParseCustomTheme | Unigram/Unigram/Common/Theme.cs:112-148 | the line loop yields exactly the fold of the per-line step over the file |
| Themes.ReadLine | Unigram/Unigram/Common/Theme.cs:115-146 | one pass of the loop body does what the per-line step says: "name: " and blank lines leave the theme alone, "parent: N" replaces the parent or fails, and a "key: #hex" pair stores its colour |
| Themes.ReadColor | Unigram/Unigram/Common/Theme.cs:138-145 | a value yields a colour exactly when `ColorValue` gives one: `#` followed by a hexadecimal number that fits 32 bits, decoded byte by byte |
| Themes.FailurePersists | Unigram/Unigram/Common/Theme.cs:121 | once a "parent: " argument fails to parse, later lines change nothing: the exception ends the parse |
| Themes.FirstBadParent | Unigram/Unigram/Common/Theme.cs:119-122 | a malformed "parent: " line that is found lies within the file |
| Themes.FirstBadParentIsFirst | Unigram/Unigram/Common/Theme.cs:119-122 | the malformed "parent: " line found has none before it; when none is found, there is none |
| Themes.ParsedFailure | Unigram/Unigram/Common/Theme.cs:119-122 | the file fails if and only if some "parent: " argument is not an `int`, and the error names the first such line |
| Themes.ParsedParent | Unigram/Unigram/Common/Theme.cs:119-122 | the parent of a parsed file is that of the last "parent: " line, else the requested theme |
| Themes.ParsedColor | Unigram/Unigram/Common/Theme.cs:129-145 | a key has a colour exactly when some line stores it, and the last such line's colour wins |
| Themes.SkippedLine | Unigram/Unigram/Common/Theme.cs:114-133 | a "name: " line, "!", "#", a blank line or a line without ':' changes neither the parent nor any colour |
| Themes.PairLine | Unigram/Unigram/Common/Theme.cs:129-136 | a "key: value" line with no other ':' is read as that trimmed key and value |
| Themes.HexColorValue | Unigram/Unigram/Common/Theme.cs:138-143 | "#" followed by the eight hexadecimal digits of a packed colour decodes to that colour |
| Themes.EntryRoundTrip | Unigram/Unigram/Common/Theme.cs:129-145 | the line "key: #AARRGGBB" written for a colour stores exactly that key and colour |
| Themes.BrushOfSourceKey | Unigram/Unigram/Common/Theme.cs:485-489 | key "XOutgoing" names brush "XBrush", and only that key names that brush |
| Themes.PalettesAlike | Unigram/Unigram/Common/Theme.cs:418-452 | the light and dark palettes define the same brushes, each a preset colour |
| Themes.Recolored | Unigram/Unigram/Common/Theme.cs:481-494 | recolouring keeps the set of brushes |
| Themes.RecoloredOnlyNamed | Unigram/Unigram/Common/Theme.cs:483-494 | recolouring keeps the set of brushes and changes only brushes named by some "Outgoing" key |
| Themes.OtherKeysIgnored | Unigram/Unigram/Common/Theme.cs:485 | a key that does not end in "Outgoing" has no effect on the palette |
| Themes.RecolorOne | Unigram/Unigram/Common/Theme.cs:483-494 | one more key recolours only the brush it names, and only if the palette has that brush |
| Themes.Recolor | Unigram/Unigram/Common/Theme.cs:483-494 | the loop over the dictionary, in any key order, yields the recoloured palette |
| Themes.TargetsAgree | Unigram/Unigram/Common/Theme.cs:473-499 | recolouring and resetting address the same palette if and only if the parent is Light or Dark |
| Themes.ThemeOutgoing.constructor | Unigram/Unigram/Common/Theme.cs:414-452 | the light and dark palettes start as the built-in thirteen brushes |
| Themes.ThemeOutgoing.Update | Unigram/Unigram/Common/Theme.cs:473-495 | no dictionary resets a palette; a dictionary recolours the dark palette for Dark and the light one otherwise; the other palette is unchanged and both keep their brush set |
| Themes.ThemeOutgoing.Reset | Unigram/Unigram/Common/Theme.cs:497-531 | Light resets the light palette to the built-in colours, anything else resets the dark one; the other is unchanged |
| Themes.TrackerStep | Unigram/Unigram/Common/Theme.cs:158-198 | an accent is recorded exactly when there is a chat theme, and a background only then; without one, the result is true exactly when a background was recorded, and a palette switch is asked for exactly when an accent was |
| Themes.TrackerUpdatedIff | Unigram/Unigram/Common/Theme.cs:158-197 | `Update(ElementTheme, ChatTheme)` returns true if and only if the recorded background changes, to or from none included |
| Themes.TrackerRecords | Unigram/Unigram/Common/Theme.cs:175-193 | afterwards the accent and background of the chosen settings (light for Light, dark otherwise), or none, are recorded |
| Themes.TrackerChangeIff | Unigram/Unigram/Common/Theme.cs:163-186 | a palette switch is asked for if and only if the recorded accent changes |
| Themes.TrackerRepeat | Unigram/Unigram/Common/Theme.cs:158-198 | applying the same chat theme again reports nothing and switches nothing |
| Themes.Truncate | Unigram/Unigram/Common/Theme.cs:345 | the `(int)` cast truncates toward zero: within one of the double, never further from zero |
| Themes.TruncateWhole | Unigram/Unigram/Common/Theme.cs:345-353 | a size stored as a double casts back to itself |
| Themes.Theme.constructor | Unigram/Unigram/Common/Theme.cs:22-58 | the font size is not cached, no chat theme is recorded and no palette switch is asked for |
| Themes.Theme.AddOrUpdateValue | Unigram/Unigram/Common/Theme.cs:358-393 | returns false exactly when the key already holds that same object; afterwards the store maps the key to the value; only a change reaches the theme's resources |
| Themes.Theme.GetValueOrDefault | Unigram/Unigram/Common/Theme.cs:395-409 | an absent key gives the default; a present one gives its value when it has the default's type, and the cast error otherwise |
| Themes.Theme.MessageFontSize | Unigram/Unigram/Common/Theme.cs:341-349 | a cached size is returned unchanged; otherwise the stored double, or 14, is truncated, cached and returned; a stored value of another type raises the cast error and caches nothing |
| Themes.Theme.SetMessageFontSize | Unigram/Unigram/Common/Theme.cs:350-354 | caches the size and stores it as a fresh boxed double; every other stored key is kept |
| Themes.Theme.ApplyPalette | Unigram/Unigram/Common/Theme.cs:215-220 | records the palette switch and updates the outgoing palettes as `ThemeOutgoing.Update` does |
| Themes.Theme.Update | Unigram/Unigram/Common/Theme.cs:158-198 | result, recorded accent, background and theme as the tracker step says; the switch it asks for is recorded, and a default palette switch resets that palette |
| Themes.Theme.UpdateCustom | Unigram/Unigram/Common/Theme.cs:105-151 | a malformed "parent: " line returns its error and changes nothing; otherwise the parsed colours are applied to the parsed parent's palette |
| Messages.DisplayText | Telegram/ViewModels/MessageViewModel.cs:411-421 | the text is null if and only if the caption is null or empty; otherwise it is built from the caption |
| Messages.MediaAlbumCaption | Telegram/ViewModels/MessageViewModel.cs:315-335 | with no captioned child or several, no caption and no text; with one, the caption and text of a child that has a non-empty caption |
| Messages.AlbumCaption | Telegram/ViewModels/MessageViewModel.cs:315-340 | an empty album has no caption and no text; a non-media album takes its last child's caption and text |
| Messages.FirstCaptioned | Telegram/ViewModels/MessageViewModel.cs:315-321 | the first child with a non-empty caption, and there is none exactly when no child has one |
| Messages.AggregateMediaCaption | Telegram/ViewModels/MessageViewModel.cs:315-335 | the loop with its `break` yields the caption and text of the only captioned child, and none when there are none or several |
| Messages.TwoEqualCaptionsClear | Telegram/ViewModels/MessageViewModel.cs:322-331 | two equal non-empty captions clear the caption and the text |
| Messages.SingleCaptionWins | Telegram/ViewModels/MessageViewModel.cs:315-335 | one captioned child among uncaptioned ones gives the album its caption and text |
| Messages.CaptionedOne | Telegram/ViewModels/MessageViewModel.cs:320 | a child with a non-empty caption makes the captioned count positive |
| Messages.CaptionsRepeatedAroundEmpty | Telegram/ViewModels/MessageViewModel.cs:315-335 | the captions "A", "", "A" give no caption and no text |
| Messages.Merged | Telegram/ViewModels/MessageViewModel.cs:263-306 | the record takes the incoming message's (ChatId, Id) |
| Messages.AlbumRefreshKeeps | Telegram/ViewModels/MessageViewModel.cs:310-344 | the album step changes the content only and keeps its kind; a non-album keeps its content and the text; an album keeps its children and media flag |
| Messages.AlbumRefreshIdempotent | Telegram/ViewModels/MessageViewModel.cs:310-344 | running the album step on its own result changes nothing |
| Messages.MergedIdempotent | Telegram/ViewModels/MessageViewModel.cs:263-344 | applying the same message twice leaves the record as applying it once |
| Messages.MergedFields | Telegram/ViewModels/MessageViewModel.cs:263-306 | every field is the incoming message's, (ChatId, Id) included, except the date, which is kept, and the content, which keeps its kind; a non-album content and the text are kept |
| Messages.EmptyAlbum | Telegram/ViewModels/MessageViewModel.cs:336-343 | an empty album gets an empty caption and a null text |
| Messages.ShareRule | Telegram/ViewModels/MessageViewModel.cs:166-224 | shareable only when not scheduled and saveable; an unsaved sticker is shareable only as a channel post |
| Messages.SenderPhotoRule | Telegram/ViewModels/MessageViewModel.cs:229-250 | a photo only for a message that is neither a service message nor a channel post; when not saved, only for an incoming message in a group or supergroup |
| Messages.ShareOrder | Telegram/ViewModels/MessageViewModel.cs:166-190 | scheduled or unsaveable: false; then saved: true; then sticker or dice: false; then an incoming forward from a channel: true |
| Messages.ChannelPostShareable | Telegram/ViewModels/MessageViewModel.cs:213-221 | a channel post not sent by a user, past the earlier rows, is shareable exactly when it is not a sticker or is saved: the bot and reply test cannot make it false |
| Messages.UserMessageShare | Telegram/ViewModels/MessageViewModel.cs:191-211 | for a user's message: plain text without a web page is never shareable, an outgoing one neither, and an incoming one from a bot always is |
| Messages.SenderPhotoTable | Telegram/ViewModels/MessageViewModel.cs:229-250 | no photo for service messages or channel posts; a photo for a saved message whose forward source is incoming; otherwise none if outgoing, else exactly in groups and supergroups |
| Messages.NoPhotoInPrivateChats | Telegram/ViewModels/MessageViewModel.cs:229-250 | in a private or secret chat, only a saved forward from an incoming source has a sender photo |
| Messages.MessageViewModel.constructor | Telegram/ViewModels/MessageViewModel.cs:27-39 | with `processText` the text follows the content's caption, else it is null; no flag is cached |
| Messages.MessageViewModel.SetText | Telegram/ViewModels/MessageViewModel.cs:411-421 | the text becomes the caption's display text |
| Messages.MessageViewModel.SetContent | Telegram/ViewModels/MessageViewModel.cs:405-409 | replaces the content only, and the text follows the new content's caption |
| Messages.MessageViewModel.SetGeneratedContent | Telegram/ViewModels/MessageViewModel.cs:110-122 | stores the value; a null value leaves the text alone, any other sets it from its caption |
| Messages.MessageViewModel.Replace | Telegram/ViewModels/MessageViewModel.cs:158-161 | swaps the message and clears no cached flag |
| Messages.MessageViewModel.Reset | Telegram/ViewModels/MessageViewModel.cs:100-103 | clears the `IsService` flag and nothing else |
| Messages.MessageViewModel.IsService | Telegram/ViewModels/MessageViewModel.cs:90-91 | a cached value is returned unchanged; otherwise it is computed from the message and cached |
| Messages.MessageViewModel.IsSaved | Telegram/ViewModels/MessageViewModel.cs:93-94 | a cached value is returned unchanged; otherwise it is computed from the message and cached |
| Messages.MessageViewModel.CanBeShared | Telegram/ViewModels/MessageViewModel.cs:163-224 | a cached value is returned unchanged; otherwise the share table decides, reading and caching `IsSaved` only past the scheduling and `CanBeSaved` row |
| Messages.MessageViewModel.HasSenderPhoto | Telegram/ViewModels/MessageViewModel.cs:226-250 | a cached value is returned unchanged; otherwise the sender photo table decides, always caching `IsService` and caching `IsSaved` only past the service and channel post rows |
| Messages.MessageViewModel.UpdateWith | Telegram/ViewModels/MessageViewModel.cs:258-345 | the message and text afterwards are the merge of the old ones with the incoming message; the `IsSaved` flag is cleared and no other |
| Messages.MessageViewModel.Equals | Telegram/ViewModels/MessageViewModel.cs:427-439 | a message or another record is equal if and only if (ChatId, Id) match; any other object is not |
| Messages.MessageViewModel.CanBeAddedToDownloads | Telegram/ViewModels/MessageViewModel.cs:156 | unsaveable: false; saveable with no chat: the null dereference; otherwise true exactly for unprotected audio, documents and videos |
| Messages.MessageViewModel.OwnerCanBeAddedToDownloads | Telegram/ViewModels/MessageViewModel.cs:451-462 | true exactly when the chat is cached, the message can be saved, the chat is unprotected and the content is audio, a document or a video |
| Messages.MessageViewModel.HashCode | Telegram/ViewModels/MessageViewModel.cs:441-444 | the hash is the combining function applied to (ChatId, Id) and reads no other field |
| Messages.EqualRecordsEqualHashes | Telegram/ViewModels/MessageViewModel.cs:427-444 | equal records have equal hash codes, whatever the combining function |
| Messages.EqualsSymmetric | Telegram/ViewModels/MessageViewModel.cs:427-439 | record equality is symmetric, and a record equals its own message |
| Messages.DownloadsAgree | Telegram/ViewModels/MessageViewModel.cs:156 | when the record's chat is the cached chat, the override and the base rule agree |

## Left out

- User interface effects are not modelled: message box texts, the anti-spam info formatting, `OpenAsync`'s window size, focusing the text field, hiding the overlay window, `Deactivate`/`Activate` and the user info refresh. They appear only as entries in the call trace.
- Re-dispatch from a thread without dispatcher access is not modelled; the model runs on the UI thread.
- Asynchrony is not modelled. The awaited slice loads, the `GetChat` and `CreatePrivateChat` requests and `Navigate` are parameters: whether the view model was replaced, the fetched or created chat, and whether navigation succeeded.
- Navigation.NavigationService.NavigateToChat: the back stack is not modelled; `GoBackAt(0)` is recorded as a call.
- Navigation: `Frame.Content` and `CurrentPageType`/`CurrentPageParam` are one current page. The `(long)CurrentPageParam` unboxing casts (TLNavigationService.cs lines 219, 356 and 370) are read as a comparison of the chat id with the page parameter; the cast exception a chat page with a non-`long` parameter would raise is not modelled.
- Navigation: the navigation methods for instant views, invoices, premium, passcode and password are not part of this model.
- Themes.Theme.UpdateCustom: reading the file and the `SettingsService` lookup of the requested theme are outside the model. The method takes the lines and the requested theme as parameters.
- Themes: `StartsWith`, `EndsWith`, `Split` and `Trim` are ordinal. Culture-sensitive comparison of "name: ", "parent: " and "Outgoing" is not modelled.
- DotNetText.ParseInt32 does not accept the trailing NUL characters that `int.Parse` tolerates. Other than that, it follows `NumberStyles.Integer`.
- DotNetText.ParseHex32 does not accept the trailing NUL characters that `int.TryParse` with `NumberStyles.HexNumber` tolerates, so a value such as "#FF112233" followed by a NUL is read as no colour where the code reads a colour. Other than that, it follows `NumberStyles.HexNumber`.
- Themes.Theme.Update: an accent switch (`ThemeAccentInfo.FromAccent`) is recorded as a palette change but does not recolour the outgoing palettes, because `ThemeAccentInfo` is not part of this model. A switch back to a default palette does reset it.
- Themes.Theme.ApplyPalette: the update of the theme's own resource dictionary through `ThemeService.GetLookup` is not modelled, and neither are the exceptions that `Update` swallows.
- Themes.Theme.constructor: the resources it adds (the stored font size, the emoji font family, the stack layout) and its call to `Initialize` are not modelled; the model starts with no resources. The acrylic brushes and `Initialize` are not part of this model.
- Themes: brush objects and the two static per-thread dictionaries are one `ThemeOutgoing` object holding two maps. A `ThemeOutgoing` resource dictionary shares its brushes with those dictionaries, so it sees the same colours.
- Themes.Truncate: casting a double outside the `int` range is not modelled, and neither is any other floating-point behaviour.
- Messages: the playback service, the delegate, the selection callback, `GetSender`, and the animation and translation fields are not modelled.
- Messages: `TextStyleRun.GetText` is not modelled. A styled text is kept as the caption it was built from.
- Messages.Message holds the fields `UpdateWith` copies, plus content and date. TDLib fields it does not copy are left out.
- Messages: text entities of `FormattedText` are not modelled.
- Messages: the message is a value inside the record. Aliasing of the TDLib `Message` object between records is not modelled, so `Replace` and `UpdateWith` on one record never reach another.
- Messages: a null content is not modelled. `SetContent(null)` sets a null text, as the caption of a null content is null.
- Messages.MessageViewModel.HashCode: `HashCode.Combine` is a parameter, so only equal inputs giving equal hashes is stated.
- KeyboardHelper.cs and IChatsDelegate.cs are not part of this model.
