# BotGallery in Dafny

A model of BotGallery, an iOS chat client for PullString bots, covering the logic that sits under its UIKit views:

- **Conversation client** (`conversation.dfy`, over the JSON values and casts of `json.dfy`). `start` and `converse` build a parameter map holding exactly the supplied optional fields, under fixed names. They then build a POST request to the PullString conversation service: the fixed base URL, the endpoint, and three fixed headers, the first of them a bearer credential (section 2.1 of RFC 6750). `say`, `change`, `fire`, `get` and `set` each fill a fixed subset of those fields. A parameter map that is not JSON makes `JSONSerialization.data(withJSONObject:)` raise an Objective-C exception, which the `try?` around it does not catch: the app ends and no request is made. The model returns that outcome as `Raised("NSInvalidArgumentException")` in place of a request. A completion turns the raw answer into an optional dictionary and an optional error.
- **Per-bot session state** (`bot.dfy`). The class `PullStringBot` has a name, a project id, a Web API key, an `active` flag and the current conversation id. `ConfigBot` is the constructor `PullStringBot.ConfigBot`, which fixes the name.
- **Bot gallery** (`gallery.dfy`, over the string operations of `strings.dfy`). It asks the configuration bot for its bot list:
  - it starts a conversation, then says `bots` on the conversation the start opened;
  - it parses each output line `name, project id` into a new bot, splitting on the first commas and trimming whitespace;
  - it lists the bots one per table row.
- **Chat screen** (`chat.dfy`, over the chat bubble of `bubble.dfy`). It covers:
  - processing a response: the conversation id, output lines, image behaviours and the delayed-response timer;
  - the bubble merge rule;
  - sending typed text or a timed empty turn;
  - resuming or restarting a conversation;
  - the Send button rule.

The network is abstract. An operation produces the request it hands to the session: `Conversation.Start` returns it, and the chat screen appends it to its `outbox`. A completion is a separate method taking the optional dictionary and the optional error. Each completion, and each hop to the main queue, runs as one atomic step.

The specification of a request is a predicate over the request:

- `IsStartRequest` / `IsTurnRequest` fix the URL, the method and the headers, and `IsTurnOutcome` says when `converse` raises instead;
- the body's key set must be exactly the supplied fields;
- each field must read back as the argument it came from.

Lemmas show that these predicates determine the request uniquely. The reference functions `StartRequest` and `SayRequest` are the unique requests for the calls the screens make.

The state of the chat screen is the class `Chat.BotViewController`:

- `Transcript()` is the value-level view of its bubbles: each bubble's side, image, texts and arranged views, in order;
- the pure function `Merge` specifies `addBubble`;
- `AfterOutputs` and `ImageLoads` specify `processOutputs`;
- `Valid()` states that the bubbles are distinct, each bubble's layout is valid, `lastChatBubble` is the last bubble, and at most one timer is pending.

Where the code and the service's documented API differ, the model follows the code:

- **`fire`:** the event pair is a Swift tuple boxed as `AnyObject`. That is not a JSON value, so serialising the parameters raises the uncaught exception: `fire` never sends anything and ends the app. The API expects a body with an `event` field.
- **`say`:** besides `text`, it also passes on `language`, `locale` and `restartIfModified`. It is not a single-field wrapper.

## Model

| member | source | states |
|---|---|---|
| Json.StringField | BotGallery/BotViewController.swift:164-166 | `as? String` succeeds exactly when the key is present and holds a string, and yields that string |
| Json.ObjectField | BotGallery/BotViewController.swift:165 | `as? JSONDictionary` succeeds exactly when the key holds a dictionary, and yields it |
| Json.NumberField | BotGallery/BotViewController.swift:142 | `as? Double` succeeds exactly when the key holds a number, and yields it |
| Json.ObjectArrayField | BotGallery/BotViewController.swift:138 | `as? [JSONDictionary]` succeeds exactly when the key holds an array whose every element is a dictionary; the result has the array's length and its elements in order |
| Conversation.DataRequest | BotGallery/PullStringBotConversation.swift:172-190 | parameters that are not JSON raise `NSInvalidArgumentException` and nothing else; otherwise the request has the URL base URL, `/` and the endpoint, the given method, the headers `Authorization: Bearer <key>`, `Content-Type` and `Accept` JSON, and the parameters as its body |
| Conversation.StartParameters | BotGallery/PullStringBotConversation.swift:45-57 | the map's keys are `project` plus exactly the supplied optionals, each field reads back as its argument, and the map always serialises |
| Conversation.Start | BotGallery/PullStringBotConversation.swift:40-60 | a POST to `<base>/conversation` with the three headers, whose body always holds `project` and holds `time_zone_offset`, `participant` and `build_type` exactly when supplied, and no other key |
| Conversation.TurnBodyValues | BotGallery/PullStringBotConversation.swift:93-123 | in a `converse` body each supplied optional is stored under its fixed name as the JSON value the client gives it (a string, the boxed event, a dictionary, an array of strings, a boolean) |
| Conversation.TurnBodySerializable | BotGallery/PullStringBotConversation.swift:185 | a `converse` body serialises exactly when no event is supplied and the entities to set serialise |
| Conversation.ConverseParameters | BotGallery/PullStringBotConversation.swift:91-123 | the map's key set is exactly the set of supplied optionals under `text`, `activity`, `event`, `set_entities`, `get_entities`, `language`, `locale`, `restartIfModified`; it reads back as the arguments (so it is empty when nothing is supplied); it serialises exactly when that case of `TurnBodySerializable` holds |
| Conversation.Converse | BotGallery/PullStringBotConversation.swift:81-126 | raises the exception exactly when the supplied fields are not JSON (an event, or entities to set that are not JSON); otherwise a POST to `<base>/conversation/<uuid>` with the three headers whose body is exactly the supplied fields |
| Conversation.TurnBodyDetermined | BotGallery/PullStringBotConversation.swift:91-123 | two maps with the key set and read-back of the same arguments are equal, so the body specification leaves no freedom |
| Conversation.TurnRequestDetermined | BotGallery/PullStringBotConversation.swift:81-126 | two requests meeting the `converse` specification for the same key, uuid and arguments are equal |
| Conversation.StartRequestDetermined | BotGallery/PullStringBotConversation.swift:40-60 | two requests meeting the `start` specification for the same key and arguments are equal |
| Conversation.Say | BotGallery/PullStringBotConversation.swift:147-149 | a `converse` request carrying only `text`, `language`, `locale` and `restartIfModified`; always with a body; with no text and no options the body is the empty map |
| Conversation.Change | BotGallery/PullStringBotConversation.swift:152-154 | a `converse` request whose body is exactly `{activity}` |
| Conversation.Fire | BotGallery/PullStringBotConversation.swift:157-159 | always raises the exception: the boxed event is not JSON, so no request is made |
| Conversation.Get | BotGallery/PullStringBotConversation.swift:162-164 | a `converse` request whose body has the one key `get_entities`, an array of the entity names as strings, in order |
| Conversation.Set | BotGallery/PullStringBotConversation.swift:167-169 | raises the exception exactly when the entities are not JSON; otherwise a `converse` request whose body is exactly `{set_entities}` |
| Conversation.StartRequestOnly | BotGallery/PullStringBotConversation.swift:45-60 | a request meets the `start` specification for a bare project exactly when it is `StartRequest`: the body holds the project alone |
| Conversation.SayRequestOnly | BotGallery/PullStringBotConversation.swift:147-149 | a request meets the `say` specification with only a text (or none) exactly when it is `SayRequest`: the body holds the text, or is empty |
| Conversation.Completion | BotGallery/PullStringBotConversation.swift:64-74 | the error is passed on unchanged; the json is present exactly when there is data and it decodes to a dictionary, and is then that dictionary |
| Bot.PullStringBot.constructor | BotGallery/PullStringBot.swift:17-28 | name, project id and key are stored as given; the bot starts inactive with no conversation |
| Bot.PullStringBot.ConfigBot | BotGallery/ConfigBot.swift:14-18 | the name is `ConfigBot`; the key and the project id land in their own fields despite the swapped argument order; the bot starts inactive with no conversation |
| Bot.PullStringBot.StartConversation | BotGallery/PullStringBot.swift:31-33 | a `start` request for the bot's own project with no optional field, under its own key, equal to `StartRequest`; nothing about the bot changes |
| Bot.PullStringBot.StartCompleted | BotGallery/PullStringBot.swift:33-40 | afterwards the bot is active exactly when there was no error, whatever the json holds, and the json and the error reach the caller unchanged; only `active` changes |
| Strings.Split | BotGallery/BotGalleryViewController.swift:127 | there is always at least one piece, and no piece holds the separator |
| Strings.JoinSplit | BotGallery/BotGalleryViewController.swift:127 | joining the pieces with the separator gives the string back |
| Strings.SplitJoin | BotGallery/BotGalleryViewController.swift:127 | separator-free pieces joined with the separator split back into the same pieces |
| Strings.SplitHasTwoParts | BotGallery/BotGalleryViewController.swift:127-128 | there are at least two pieces exactly when the separator occurs in the string |
| Strings.SplitFirstTwo | BotGallery/BotGalleryViewController.swift:127-128 | the first two pieces of `a,b` followed by nothing or by a comma and more are `a` and `b` |
| Strings.Trim | BotGallery/BotGalleryViewController.swift:130-131 | the result has no whitespace or newline at either end and is no longer than the input |
| Strings.TrimSlice | BotGallery/BotGalleryViewController.swift:130-131 | the result is a contiguous slice of the input, and everything cut before and after it is whitespace |
| Strings.TrimOf | BotGallery/BotGalleryViewController.swift:130-131 | whitespace, then a core with no whitespace at its ends, then whitespace, trims to exactly that core |
| Strings.TrimIdempotent | BotGallery/BotGalleryViewController.swift:130-131 | trimming twice is trimming once |
| Gallery.ParseLine | BotGallery/BotGalleryViewController.swift:126-131 | a line yields a bot exactly when its `text` is a string holding a comma |
| Gallery.ParseLineOf | BotGallery/BotGalleryViewController.swift:127-131 | for `name,id` followed by nothing or by more comma-separated pieces, the bot is the trimmed name and the trimmed id, and the later pieces are ignored |
| Gallery.ParseFormat | BotGallery/BotGalleryViewController.swift:127-131 | a bot written as `name, id` parses back to the same bot when neither part holds a comma or has whitespace at its ends |
| Gallery.ParseBotsAppend | BotGallery/BotGalleryViewController.swift:124-134 | the bots of two runs of lines are the bots of the first run followed by those of the second, so the output order is kept |
| Gallery.ParseBotsMembers | BotGallery/BotGalleryViewController.swift:124-134 | a bot is listed exactly when some line yields it, and there are never more bots than lines |
| Gallery.BotGalleryViewController.constructor | BotGallery/BotGalleryViewController.swift:15-26 | the gallery has the fixed key and configuration project id, a new `ConfigBot` built from them, and an empty bot list |
| Gallery.BotGalleryViewController.AskConfigBotForListOfBots | BotGallery/BotGalleryViewController.swift:93-95 | the configuration bot sends a `start` request for its own project under its own key |
| Gallery.BotGalleryViewController.ConfigBotStarted | BotGallery/BotGalleryViewController.swift:95-102 | the configuration bot becomes active exactly when the start had no error; `bots` is said exactly when the response holds a string `conversation`, and it is said to that conversation |
| Gallery.BotGalleryViewController.BotListReceived | BotGallery/BotGalleryViewController.swift:102-107 | a missing response or one without an `outputs` array of dictionaries leaves the list unchanged; otherwise the list becomes the parsed bots |
| Gallery.BotGalleryViewController.ProcessBots | BotGallery/BotGalleryViewController.swift:118-138 | without an `outputs` array the list is unchanged; with one, the list holds only new bots, one per line that parses, in output order, each with the parsed name and project id and the gallery's key, inactive and without a conversation |
| Gallery.BotGalleryViewController.NumberOfRows | BotGallery/BotGalleryViewController.swift:144-146 | there is one row per bot |
| Gallery.BotGalleryViewController.CellTitle | BotGallery/BotGalleryViewController.swift:149-153 | row `i` shows the name of bot `i` |
| Gallery.BotGalleryViewController.DidSelectRow | BotGallery/BotGalleryViewController.swift:156-158 | row `i` opens bot `i` |
| Bubble.ChatBubble.constructor | BotGallery/ChatBubble.swift:30-46 | `texts` is `[text]` or empty; nothing is recorded in `paddedLabelViews`; the alignment is leading on the left and trailing on the right; the stack is [label, image, spacer] on the left and [label, spacer, image] on the right, with the label and the image present only when given; the layout is valid |
| Bubble.ChatBubble.Append | BotGallery/ChatBubble.swift:57-63 | the text goes at the end of `texts`, and one label, aligned to the bubble's side, goes at the end of both the recorded labels and the stack; everything earlier is untouched and the layout stays valid |
| Bubble.AppendKeepsLayout | BotGallery/ChatBubble.swift:57-63 | after appending a text with its label, the texts are still the initial text followed by the appended ones, the recorded labels are one label per appended text, and the stack is the initial stack followed by the recorded labels |
| Bubble.ChatBubble.Shown | BotGallery/ChatBubble.swift:81-118 | a valid bubble's stack shows its texts as labels, in order and aligned to its side, holds exactly one spacer, and shows its image once |
| Bubble.LayoutShows | BotGallery/ChatBubble.swift:57-63 | a stack built as the initial stack followed by one label per appended text shows the initial and appended texts in order, aligned to the bubble's side, with one spacer and the image once |
| Bubble.LabelsForCounts | BotGallery/ChatBubble.swift:57-63 | the labels `append(text:)` makes show exactly the appended texts, in order and aligned to the bubble's side, and hold no spacer and no image |
| Bubble.StackOfPieces | BotGallery/ChatBubble.swift:96-118 | the initial stack, in either order, shows the initial text, aligns its label to the bubble's side, and holds exactly one spacer and the image once |
| Chat.MergeProperties | BotGallery/BotViewController.swift:198-208 | adding a bubble grows the transcript by at most one bubble; it leaves every bubble but the last untouched and puts the last bubble on the given side; the texts of the transcript gain exactly the new text, at the end |
| Chat.MergeLaidOut | BotGallery/BotViewController.swift:191-208 | adding a bubble, or a text to the last one, keeps every bubble's stack showing its texts as labels in order, aligned to its side, with one spacer and its image once |
| Chat.BotViewController.TranscriptLaidOut | BotGallery/ChatBubble.swift:81-118 | every bubble on screen has such a stack |
| Chat.LineImage | BotGallery/BotViewController.swift:164-182 | an output line asks for an image exactly when its behaviour is `show_image`, it has parameters, and they hold a string `image` |
| Chat.AfterOutputsTexts | BotGallery/BotViewController.swift:157-176 | every string text of the outputs reaches the transcript, in output order, after the texts already there, and nothing else is added |
| Chat.AfterOutputsKeepsEarlier | BotGallery/BotViewController.swift:157-176 | processing outputs never shortens the transcript and never rewrites a bubble before the last one |
| Chat.Replaced | BotGallery/BotViewController.swift:399 | replacing a range keeps the characters before and after it and puts the replacement in between |
| Chat.SendEnabledAfterEdit | BotGallery/BotViewController.swift:398-400 | the edited text is non-empty exactly when the replacement is non-empty or the range did not cover all of the text |
| Chat.SendCallMeetsSpec | BotGallery/BotViewController.swift:362-380 | a send is a turn exactly when the bot holds a conversation; the turn meets the `say` specification for that conversation, and otherwise the start meets the `start` specification for the bot's project |
| Chat.BotViewController.constructor | BotGallery/BotViewController.swift:30-40 | a new screen has its bot, no bubbles, no timer, an empty text field and a disabled Send button |
| Chat.BotViewController.AddBubble | BotGallery/BotViewController.swift:191-208 | the transcript changes exactly as `Merge` says: the text joins the last bubble, its label at the end of that bubble's stack, when that bubble is on the same side and has no image; otherwise a new bubble is added, with the bot's or the human's colours and the stack a new `ChatBubble` lays out; every other earlier bubble is untouched and added ones are new |
| Chat.BotViewController.AppendToLast | BotGallery/BotViewController.swift:200-202 | only the last bubble changes: it gains the text at the end of its texts and a label aligned to its side at the end of its stack |
| Chat.NewBubble | BotGallery/BotViewController.swift:196-205 | the bubble `addBubble` creates is new and valid, and has the given side, colour, text colour, image and text, with the stack `InitialViews` gives |
| Chat.BotViewController.AddNew | BotGallery/BotViewController.swift:204-207 | a new bubble with the given colours is added at the end of the bubbles and becomes the last one; the transcript gains one bubble with the given side, image and text, and the stack `InitialViews` gives; earlier bubbles are untouched |
| Chat.BotViewController.Push | BotGallery/BotViewController.swift:205-206 | a valid bubble not yet on screen goes at the end of the bubbles and becomes the last one; the transcript gains exactly its state, and the screen stays valid |
| Chat.AppendShown | BotGallery/BotViewController.swift:200-202 | appending a text to a valid bubble keeps it valid and changes its state exactly as `Appended` says: the text at the end of its texts and its label at the end of its stack |
| Chat.BotViewController.Process | BotGallery/BotViewController.swift:134-154 | the conversation id becomes the response's `conversation` string, or none; the transcript and the image loads follow the outputs in order; a timer with the response's interval is scheduled only when the slot was empty; at most one timer is pending |
| Chat.BotViewController.ScheduleDelayedResponse | BotGallery/BotViewController.swift:142-151 | an occupied slot is left alone; an empty one gets a timer exactly when an interval is given; at most one timer is pending |
| Chat.BotViewController.ProcessOutputs | BotGallery/BotViewController.swift:157-176 | the transcript becomes `AfterOutputs` of the lines, and the outbox gains `ImageLoads` of the lines, in order |
| Chat.BotViewController.ProcessLine | BotGallery/BotViewController.swift:164-174 | one line's behaviour is handled before its text: an image load when it asks for one, then a bot bubble for a string text |
| Chat.BotViewController.ProcessBehavior | BotGallery/BotViewController.swift:179-188 | only `show_image` with a string `image` parameter starts an image load, of that address; anything else sends nothing |
| Chat.BotViewController.ImageLoaded | BotGallery/BotViewController.swift:183-185 | a loaded image becomes a new bot bubble of its own, whose stack is the image view and then the spacer |
| Chat.BotViewController.StopDelayedResponseTimer | BotGallery/BotViewController.swift:383-386 | the slot is emptied and no timer is pending |
| Chat.BotViewController.DelayedResponseTimerFired | BotGallery/BotViewController.swift:144-147 | when the timer fires, first the slot is emptied, then an empty turn is sent (or a start when there is no conversation) |
| Chat.BotViewController.Send | BotGallery/BotViewController.swift:362-380 | exactly one call is sent: `say` of the text to the current conversation when there is one, and otherwise a `start` for the bot's project |
| Chat.BotViewController.SayTo | BotGallery/BotViewController.swift:363-364 | exactly one call is sent: a turn to that conversation carrying only the text |
| Chat.BotViewController.SendInput | BotGallery/BotViewController.swift:347-359 | an empty or absent text changes nothing; otherwise the timer is stopped, exactly one right-side bubble text is added, the text is sent, and the field is cleared |
| Chat.BotViewController.SendText | BotGallery/BotViewController.swift:350-358 | stops the timer, adds the text as the human's bubble, sends it as `Send` does, and clears the field |
| Chat.BotViewController.ShowInput | BotGallery/BotViewController.swift:350-354 | the slot is emptied with no timer pending, and the text is added on the right as `Merge` says |
| Chat.BotViewController.TextFieldShouldReturn | BotGallery/BotViewController.swift:406-410 | Return has the effect of `SendInput`: an empty or absent text changes nothing; otherwise the timer is stopped, the text is added on the right, sent, and the field cleared; the Send button is left as it was; it answers true |
| Chat.BotViewController.ShouldChangeCharacters | BotGallery/BotViewController.swift:397-403 | the Send button is enabled exactly when the edited text is non-empty; the edit is allowed, so the field then holds the edited text |
| Chat.BotViewController.ResumeIfNecessary | BotGallery/BotViewController.swift:74-94 | an active bot whose user resumes continues the conversation; an inactive bot, or a user who starts over, gets a new `start` and no bubble |
| Chat.BotViewController.StartConversation | BotGallery/BotViewController.swift:97-99 | exactly one call is sent: a `start` for the bot's project |
| Chat.BotViewController.ContinueConversation | BotGallery/BotViewController.swift:110-128 | with a stored conversation, a "Resuming conversation.." bot bubble is added and an empty turn goes to that conversation; without one, a new conversation is started and no bubble is added |
| Chat.BotViewController.StartCompleted | BotGallery/BotViewController.swift:99-105 | the bot is active exactly when there was no error; a response is processed as `Process` says, down to the timer: an occupied slot is kept and an empty one gets a timer exactly when the response gives an interval; a missing response changes nothing else |
| Chat.BotViewController.TurnCompleted | BotGallery/BotViewController.swift:120-126 | a response is processed as `Process` says, down to the timer: an occupied slot is kept and an empty one gets a timer exactly when the response gives an interval; a missing response changes nothing |

## Left out

- Networking: `URLSession` tasks, `task.resume()` and the response metadata. Each call is the value appended to `outbox`, and its completion is a separate method run as one step.
- `JSONSerialization`. Encoding is the predicate `Json.Serializable`. Decoding is the function parameter `decode` of `Conversation.Completion`.
- `DispatchQueue.main.async` and `[weak self]`. Each callback runs at once, as one step, on a screen that is still alive. The order in which completions arrive is whatever order the caller invokes them in.
- `Timer` and `RunLoop`. A scheduled timer is a value holding its interval. Its firing is the method `DelayedResponseTimerFired`, which applies only while the timer is in the slot, because an invalidated timer never fires.
- `loadImage`'s download and `UIImage(data:)`. `ImageLoaded` is the completion for data that decodes to an image. A failed load has no effect, just as the source never calls back.
- `URL(string:)`: every string is taken to form a URL. The forced unwrap in `dataRequest` and the `URL(string:)` check in `processBehavior` are not modelled.
- The "Resume bot?" alert and its localised texts. The user's answer is the `ResumeChoice` parameter.
- Colours, fonts, padding, layout constraints, image sizing, scrolling, keyboard handling, navigation, localisation and `print` logging. Only the bubble colours are kept, as constants.
- The end of the app after the uncaught serialisation exception: `Conversation.Raised` is the last thing the model says about that call.
- Gallery.ParseLine: the source calls `components(separatedBy:)` on `line["text"]` without a cast. The model reads only a string `text`; a line whose `text` is of another type yields no bot.
- Chat.BotViewController.ShouldChangeCharacters: the text field's range is in UTF-16 code units. The model counts characters.
- Json.NumberField: the bridging subtleties of `as? Double` (booleans as numbers, integer overflow) are not modelled. Any JSON number is taken as the interval.
- Chat.BotViewController.SendInput: the source clears the text field programmatically, which does not call the delegate. The Send button therefore stays as it was, and the model keeps it unchanged.
