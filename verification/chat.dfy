/**
  The chat screen of one bot: the transcript of bubbles, the delayed-response
  timer slot, the text field and its Send button, and the requests and image
  loads the screen hands to the session.

  Network calls are recorded in `outbox` in the order they are made; their
  completions are the methods `StartCompleted`, `TurnCompleted` and
  `ImageLoaded`, each run as one step. `addBubble`'s hop to the main queue is
  taken to run at once.
 */
module Chat {
  import opened Json
  import opened Conversation
  import opened Bot
  import opened Bubble

  /** A call handed to the session: a start (`startConversation`), a turn
      (`say`), or an image load (`loadImage`). */
  datatype Call =
    | StartCall(request: Request)
    | TurnCall(request: Request)
    | ImageCall(url: string)

  /** The user's answer to the "Resume bot?" alert. */
  datatype ResumeChoice = Resume | StartNew

  /** A scheduled, non-repeating timer and its interval in seconds. */
  datatype Timer = Timer(interval: real)

  const BotColor: Color := Color(0.90, 0.90, 0.92, 1.00)
  const BotTextColor: Color := Color(0.0, 0.0, 0.0, 1.0)
  const HumanColor: Color := Color(0.08, 0.49, 0.98, 1.00)
  const HumanTextColor: Color := Color(1.0, 1.0, 1.0, 1.0)

  const ResumingText: string := "Resuming conversation.."
  const ShowImage: string := "show_image"

  /** Bot bubbles sit on the left, the human's on the right. */
  function DirectionOf(asBot: bool): Direction
  {
    if asBot then Left else Right
  }

  // ---------------------------------------------------------------------
  // The transcript as values

  /** A bubble as the transcript shows it: its side, its image, its texts
      and the views arranged in its stack, in order. */
  datatype BubbleState = BubbleState(direction: Direction, image: Option<Image>, texts: seq<string>, views: seq<Subview>)

  /** `addBubble`'s rule: a text joins the last bubble when that bubble is on
      the same side and holds no image, and its label goes at the end of that
      bubble's stack; otherwise a new bubble is added, its stack laid out as
      a new `ChatBubble` lays it out. */
  function Merge(t: seq<BubbleState>, text: Option<string>, image: Option<Image>, direction: Direction): seq<BubbleState>
  {
    if text.Some? && |t| > 0 && t[|t| - 1].direction == direction && t[|t| - 1].image.None?
    then t[..|t| - 1] + [Appended(t[|t| - 1], text.value)]
    else t + [NewState(direction, image, text)]
  }

  /** A bubble with one more text, its label at the end of the stack and
      aligned to the bubble's side. */
  function Appended(b: BubbleState, text: string): BubbleState
  {
    b.(texts := b.texts + [text], views := b.views + [Label(text, LabelAlignment(b.direction))])
  }

  /** A new bubble as the transcript shows it: its text, if any, and the
      stack a new `ChatBubble` lays out. */
  function NewState(direction: Direction, image: Option<Image>, text: Option<string>): BubbleState
  {
    BubbleState(direction, image, InitialTexts(text), InitialViews(direction, image, text))
  }

  /** A bubble's stack shows its texts as labels, in order and aligned to its
      side, holds exactly one spacer, and shows its image once. */
  predicate LaidOut(b: BubbleState)
  {
    Shows(b.views, b.texts, b.image, b.direction)
  }

  /** Adding a bubble keeps every bubble of the transcript laid out. */
  lemma MergeLaidOut(t: seq<BubbleState>, text: Option<string>, image: Option<Image>, direction: Direction)
    requires forall i | 0 <= i < |t| :: LaidOut(t[i])
    ensures forall i | 0 <= i < |Merge(t, text, image, direction)| :: LaidOut(Merge(t, text, image, direction)[i])
  {
    if text.Some? && |t| > 0 && t[|t| - 1].direction == direction && t[|t| - 1].image.None? {
      var last := t[|t| - 1];
      SnocCounts(last.views, Label(text.value, LabelAlignment(direction)), LabelAlignment(direction));
      LaidOutSnoc(t[..|t| - 1], Appended(last, text.value));
    } else {
      StackOfPieces(direction, image, text);
      LaidOutSnoc(t, NewState(direction, image, text));
    }
  }

  lemma LaidOutSnoc(t: seq<BubbleState>, b: BubbleState)
    requires forall i | 0 <= i < |t| :: LaidOut(t[i])
    requires LaidOut(b)
    ensures forall i | 0 <= i < |t + [b]| :: LaidOut((t + [b])[i])
  {
    forall i | 0 <= i < |t + [b]|
      ensures LaidOut((t + [b])[i])
    {
      if i < |t| {
        assert (t + [b])[i] == t[i];
      }
    }
  }

  /** Every text of the transcript, bubble after bubble. */
  function AllTexts(t: seq<BubbleState>): seq<string>
  {
    if |t| == 0 then [] else AllTexts(t[..|t| - 1]) + t[|t| - 1].texts
  }

  lemma AllTextsSnoc(t: seq<BubbleState>, b: BubbleState)
    ensures AllTexts(t + [b]) == AllTexts(t) + b.texts
  {
    assert (t + [b])[..|t|] == t;
  }

  /** Adding a bubble never rewrites an earlier one, leaves the new text
      last in the transcript, and puts the last bubble on the given side. */
  lemma MergeProperties(t: seq<BubbleState>, text: Option<string>, image: Option<Image>, direction: Direction)
    ensures var m := Merge(t, text, image, direction);
            && (|m| == |t| || |m| == |t| + 1)
            && |m| > 0 && m[|m| - 1].direction == direction
            && (|t| > 0 ==> m[..|t| - 1] == t[..|t| - 1])
            && AllTexts(m) == AllTexts(t) + (if text.Some? then [text.value] else [])
  {
    var m := Merge(t, text, image, direction);
    if text.Some? && |t| > 0 && t[|t| - 1].direction == direction && t[|t| - 1].image.None? {
      var init := t[..|t| - 1];
      assert t == init + [t[|t| - 1]];
      AllTextsSnoc(init, t[|t| - 1]);
      AllTextsSnoc(init, m[|m| - 1]);
      assert m[..|t| - 1] == init;
    } else {
      AllTextsSnoc(t, m[|m| - 1]);
      if |t| > 0 {
        assert m[..|t| - 1] == t[..|t| - 1];
      }
    }
  }

  /** The text of an output line, when it is a string. */
  function LineText(line: JsonObject): Option<string>
  {
    StringField(line, "text")
  }

  /** The image an output line asks for: a `show_image` behaviour with
      parameters holding a string `image`. */
  function LineImage(line: JsonObject): (r: Option<string>)
    ensures r.Some? <==> && StringField(line, "behavior") == Some(ShowImage)
                         && ObjectField(line, "parameters").Some?
                         && StringField(ObjectField(line, "parameters").value, "image").Some?
  {
    match (StringField(line, "behavior"), ObjectField(line, "parameters"))
    case (Some(behavior), Some(parameters)) =>
      if behavior == ShowImage then StringField(parameters, "image") else None
    case _ => None
  }

  /** The transcript after one output line: a string text is added as a
      bot bubble. */
  function AfterLine(t: seq<BubbleState>, line: JsonObject): seq<BubbleState>
  {
    if LineText(line).Some? then Merge(t, LineText(line), None, Left) else t
  }

  /** The image load one output line starts, if any. */
  function LineLoads(line: JsonObject): seq<Call>
  {
    if LineImage(line).Some? then [ImageCall(LineImage(line).value)] else []
  }

  /** The transcript after the output lines, in order. */
  function AfterOutputs(t: seq<BubbleState>, outputs: seq<JsonObject>): seq<BubbleState>
  {
    if |outputs| == 0 then t
    else AfterLine(AfterOutputs(t, outputs[..|outputs| - 1]), outputs[|outputs| - 1])
  }

  /** The image loads the output lines start, in order. */
  function ImageLoads(outputs: seq<JsonObject>): seq<Call>
  {
    if |outputs| == 0 then []
    else ImageLoads(outputs[..|outputs| - 1]) + LineLoads(outputs[|outputs| - 1])
  }

  /** Processing one more output line. */
  lemma OutputsSnoc(t: seq<BubbleState>, outputs: seq<JsonObject>, i: nat)
    requires i < |outputs|
    ensures AfterOutputs(t, outputs[..i + 1]) == AfterLine(AfterOutputs(t, outputs[..i]), outputs[i])
    ensures ImageLoads(outputs[..i + 1]) == ImageLoads(outputs[..i]) + LineLoads(outputs[i])
  {
    assert outputs[..i + 1][..i] == outputs[..i];
  }

  /** The string texts of the output lines, in order. */
  function OutputTexts(outputs: seq<JsonObject>): seq<string>
  {
    if |outputs| == 0 then []
    else
      var text := LineText(outputs[|outputs| - 1]);
      OutputTexts(outputs[..|outputs| - 1]) + (if text.Some? then [text.value] else [])
  }

  /** Every string text of the outputs reaches the transcript, in order,
      after what it already held, and nothing else is added. */
  lemma {:induction false} AfterOutputsTexts(t: seq<BubbleState>, outputs: seq<JsonObject>)
    ensures AllTexts(AfterOutputs(t, outputs)) == AllTexts(t) + OutputTexts(outputs)
    decreases |outputs|
  {
    if |outputs| > 0 {
      var init := outputs[..|outputs| - 1];
      AfterOutputsTexts(t, init);
      var text := LineText(outputs[|outputs| - 1]);
      if text.Some? {
        MergeProperties(AfterOutputs(t, init), text, None, Left);
      }
    }
  }

  /** Processing outputs never removes or rewrites a bubble other than the
      last one. */
  lemma {:induction false} AfterOutputsKeepsEarlier(t: seq<BubbleState>, outputs: seq<JsonObject>)
    ensures |AfterOutputs(t, outputs)| >= |t|
    ensures |t| > 0 ==> AfterOutputs(t, outputs)[..|t| - 1] == t[..|t| - 1]
    decreases |outputs|
  {
    if |outputs| > 0 {
      var init := outputs[..|outputs| - 1];
      AfterOutputsKeepsEarlier(t, init);
      var before := AfterOutputs(t, init);
      var text := LineText(outputs[|outputs| - 1]);
      if text.Some? {
        MergeProperties(before, text, None, Left);
        if |t| > 0 {
          var m := Merge(before, text, None, Left);
          assert m[..|t| - 1] == m[..|before| - 1][..|t| - 1];
          assert before[..|before| - 1][..|t| - 1] == before[..|t| - 1];
        }
      }
    }
  }

  /** `NSString.replacingCharacters(in:with:)`: the characters in the range
      are replaced, those before and after are kept. */
  function Replaced(current: string, location: nat, length: nat, replacement: string): (r: string)
    requires location + length <= |current|
    ensures |r| == |current| - length + |replacement|
    ensures r[..location] == current[..location]
    ensures r[location..location + |replacement|] == replacement
    ensures r[location + |replacement|..] == current[location + length..]
  {
    current[..location] + replacement + current[location + length..]
  }

  /** The Send button after an edit is enabled exactly when the edit leaves
      some text: the replacement is not empty, or not all of the text was
      replaced. */
  lemma SendEnabledAfterEdit(current: string, location: nat, length: nat, replacement: string)
    requires location + length <= |current|
    ensures |Replaced(current, location, length, replacement)| > 0 <==> |replacement| > 0 || length < |current|
  {
  }

  // ---------------------------------------------------------------------
  // The screen

  function State(b: ChatBubble): BubbleState
    reads b`image, b`texts, b`arrangedSubviews
  {
    BubbleState(b.direction, b.image, b.texts, b.arrangedSubviews)
  }

  ghost function States(bs: seq<ChatBubble>): (r: seq<BubbleState>)
    reads bs
    ensures |r| == |bs|
  {
    if |bs| == 0 then [] else States(bs[..|bs| - 1]) + [State(bs[|bs| - 1])]
  }

  /** The call `send(text:)` makes: a turn with the text in the bot's
      conversation, or a new start when the bot has no conversation. */
  function SendCall(webAPIKey: string, projectID: string, conversation: Option<string>, text: Option<string>): Call
  {
    if conversation.Some? then TurnCall(SayRequest(webAPIKey, conversation.value, text))
    else StartCall(StartRequest(webAPIKey, projectID))
  }

  /** The call `send` makes is the request `say` or `start` specifies. */
  lemma SendCallMeetsSpec(webAPIKey: string, projectID: string, conversation: Option<string>, text: Option<string>)
    ensures var c := SendCall(webAPIKey, projectID, conversation, text);
            && (conversation.Some? <==> c.TurnCall?)
            && (conversation.Some? ==> IsTurnRequest(c.request, webAPIKey, conversation.value, SayArgs(text, None, None, None)))
            && (conversation.None? ==> c.StartCall? && IsStartRequest(c.request, webAPIKey, StartArgs(projectID, None, None, None)))
  {
    var c := SendCall(webAPIKey, projectID, conversation, text);
    if conversation.Some? {
      SayRequestOnly(c.request, webAPIKey, conversation.value, text);
    } else {
      StartRequestOnly(c.request, webAPIKey, projectID);
    }
  }

  /** The `outputs` of a response when they are an array of objects, and
      none otherwise. */
  function OutputsOf(json: JsonObject): seq<JsonObject>
  {
    match ObjectArrayField(json, "outputs")
    case Some(outputs) => outputs
    case None => []
  }

  /** `textField.text ?? ""`. */
  function FieldText(text: Option<string>): string
  {
    if text.Some? then text.value else ""
  }

  class BotViewController {
    const bot: PullStringBot
    /** The chat bubbles arranged in the stack view, top to bottom. */
    var bubbles: seq<ChatBubble>
    var lastChatBubble: ChatBubble?
    var delayedResponseTimer: Option<Timer>
    /** Timers scheduled on the run loop that have neither fired nor been
        invalidated. */
    ghost var pendingTimers: nat
    var textFieldText: Option<string>
    var sendButtonEnabled: bool
    var outbox: seq<Call>

    /** The bubbles are distinct and each well formed; `lastChatBubble` is
        the last of them; every pending timer is the one in the slot. */
    ghost predicate Valid()
      reads this`bubbles, this`lastChatBubble, this`delayedResponseTimer, this`pendingTimers, bubbles
    {
      && Distinct(bubbles)
      && (forall b | b in bubbles :: b.Valid())
      && (if |bubbles| == 0 then lastChatBubble == null else lastChatBubble == bubbles[|bubbles| - 1])
      && pendingTimers == (if delayedResponseTimer.Some? then 1 else 0)
    }

    ghost function Transcript(): seq<BubbleState>
      reads this`bubbles, bubbles
    {
      States(bubbles)
    }

    /** Every bubble on screen is laid out as its texts and image say. */
    lemma TranscriptLaidOut()
      requires Valid()
      ensures forall i | 0 <= i < |Transcript()| :: LaidOut(Transcript()[i])
    {
      forall i | 0 <= i < |Transcript()|
        ensures LaidOut(Transcript()[i])
      {
        StatesAt(bubbles, i);
        assert bubbles[i] in bubbles;
        bubbles[i].Shown();
      }
    }

    constructor (bot: PullStringBot)
      ensures Valid()
      ensures this.bot == bot
      ensures bubbles == [] && lastChatBubble == null
      ensures delayedResponseTimer == None && pendingTimers == 0
      ensures textFieldText == None && !sendButtonEnabled
      ensures outbox == []
    {
      this.bot := bot;
      bubbles := [];
      lastChatBubble := null;
      delayedResponseTimer := None;
      pendingTimers := 0;
      textFieldText := None;
      sendButtonEnabled := false;
      outbox := [];
    }

    /** `addBubble(withText:orImage:asBot:)`: the transcript changes by
        `Merge`; a text joining the last bubble is appended to that bubble in
        place, otherwise a new bubble is created and becomes the last one. */
    method AddBubble(text: Option<string>, image: Option<Image>, asBot: bool)
      requires Valid()
      modifies this`bubbles, this`lastChatBubble, bubbles`texts, bubbles`appendedTexts, bubbles`paddedLabelViews, bubbles`arrangedSubviews
      ensures Valid()
      ensures Transcript() == Merge(old(Transcript()), text, image, DirectionOf(asBot))
      ensures old(bubbles) <= bubbles && forall k | |old(bubbles)| <= k < |bubbles| :: fresh(bubbles[k])
      ensures forall b | b in old(bubbles) && b != old(lastChatBubble) :: unchanged(b)
      ensures |bubbles| > old(|bubbles|) ==>
                && bubbles[|bubbles| - 1].color == (if asBot then BotColor else HumanColor)
                && bubbles[|bubbles| - 1].textColor == Some(if asBot then BotTextColor else HumanTextColor)
    {
      var direction := DirectionOf(asBot);
      if text.Some? && lastChatBubble != null && lastChatBubble.direction == direction && lastChatBubble.image.None? {
        AppendToLast(text.value);
      } else {
        var color := if asBot then BotColor else HumanColor;
        var textColor := if asBot then BotTextColor else HumanTextColor;
        var added := AddNew(direction, color, image, text, textColor);
      }
    }

    /** `process(json:)`: the bot takes the response's conversation id (or
        none), the outputs are shown, and a delayed response is scheduled
        when the response asks for one and none is already scheduled, so at
        most one timer is ever pending. */
    method Process(json: JsonObject)
      requires Valid()
      modifies this`bubbles, this`lastChatBubble, this`outbox, this`delayedResponseTimer, this`pendingTimers, bubbles`texts, bubbles`appendedTexts, bubbles`paddedLabelViews, bubbles`arrangedSubviews, bot`conversation
      ensures Valid() && pendingTimers <= 1
      ensures bot.conversation == StringField(json, "conversation")
      ensures Transcript() == AfterOutputs(old(Transcript()), OutputsOf(json))
      ensures outbox == old(outbox) + ImageLoads(OutputsOf(json))
      ensures old(delayedResponseTimer).Some? ==> delayedResponseTimer == old(delayedResponseTimer)
      ensures old(delayedResponseTimer).None? ==>
                delayedResponseTimer == (if NumberField(json, "timed_response_interval").Some?
                                         then Some(Timer(NumberField(json, "timed_response_interval").value))
                                         else None)
    {
      bot.conversation := StringField(json, "conversation");
      ProcessOutputs(OutputsOf(json));
      ScheduleDelayedResponse(NumberField(json, "timed_response_interval"));
    }

    /** The timer part of `process(json:)`: a timer with the response's
        interval is scheduled only when the slot is empty. */
    method ScheduleDelayedResponse(interval: Option<real>)
      requires Valid()
      modifies this`delayedResponseTimer, this`pendingTimers
      ensures Valid() && pendingTimers <= 1
      ensures old(delayedResponseTimer).Some? ==> delayedResponseTimer == old(delayedResponseTimer)
      ensures old(delayedResponseTimer).None? ==>
                delayedResponseTimer == (if interval.Some? then Some(Timer(interval.value)) else None)
    {
      if interval.Some? && delayedResponseTimer.None? {
        delayedResponseTimer := Some(Timer(interval.value));
        pendingTimers := pendingTimers + 1;
      }
    }

    /** `processOutputs(outputs:)`: line by line, a behaviour with parameters
        is handed to `ProcessBehavior`, then a string text is added as a bot
        bubble. */
    method ProcessOutputs(outputs: seq<JsonObject>)
      requires Valid()
      modifies this`bubbles, this`lastChatBubble, this`outbox, bubbles`texts, bubbles`appendedTexts, bubbles`paddedLabelViews, bubbles`arrangedSubviews
      ensures Valid()
      ensures Transcript() == AfterOutputs(old(Transcript()), outputs)
      ensures outbox == old(outbox) + ImageLoads(outputs)
      ensures old(bubbles) <= bubbles && forall k | |old(bubbles)| <= k < |bubbles| :: fresh(bubbles[k])
    {
      for i := 0 to |outputs|
        invariant Valid()
        invariant Transcript() == AfterOutputs(old(Transcript()), outputs[..i])
        invariant outbox == old(outbox) + ImageLoads(outputs[..i])
        invariant old(bubbles) <= bubbles && forall k | |old(bubbles)| <= k < |bubbles| :: fresh(bubbles[k])
      {
        OutputsSnoc(old(Transcript()), outputs, i);
        ProcessLine(outputs[i]);
      }
      assert outputs[..|outputs|] == outputs;
    }

    /** One pass of `processOutputs`' loop. */
    method ProcessLine(line: JsonObject)
      requires Valid()
      modifies this`bubbles, this`lastChatBubble, this`outbox, bubbles`texts, bubbles`appendedTexts, bubbles`paddedLabelViews, bubbles`arrangedSubviews
      ensures Valid()
      ensures Transcript() == AfterLine(old(Transcript()), line)
      ensures outbox == old(outbox) + LineLoads(line)
      ensures old(bubbles) <= bubbles && forall k | |old(bubbles)| <= k < |bubbles| :: fresh(bubbles[k])
    {
      var behavior := StringField(line, "behavior");
      var parameters := ObjectField(line, "parameters");
      var text := StringField(line, "text");
      ghost var shown := Transcript();
      if behavior.Some? && parameters.Some? {
        ProcessBehavior(behavior.value, parameters.value);
      }
      assert Transcript() == shown;
      ghost var sent := outbox;
      assert sent == old(outbox) + LineLoads(line);
      if text.Some? {
        AddBubble(text, None, true);
      }
      assert outbox == sent;
    }

    /** `processBehavior(behavior:parameters:)`: a `show_image` behaviour
        whose parameters hold a string `image` starts loading that image;
        any other behaviour does nothing. */
    method ProcessBehavior(behavior: string, parameters: JsonObject)
      modifies this`outbox
      ensures outbox == old(outbox) + (if behavior == ShowImage && StringField(parameters, "image").Some?
                                       then [ImageCall(parameters["image"].s)] else [])
    {
      if behavior == ShowImage {
        var image := StringField(parameters, "image");
        if image.Some? {
          outbox := outbox + [ImageCall(image.value)];
        }
      }
    }

    /** The completion of `loadImage(url:completion:)` when the data decoded
        to an image: the image is added as a bot bubble of its own. */
    method ImageLoaded(url: string)
      requires Valid()
      modifies this`bubbles, this`lastChatBubble, bubbles`texts, bubbles`appendedTexts, bubbles`paddedLabelViews, bubbles`arrangedSubviews
      ensures Valid()
      ensures Transcript() == old(Transcript()) + [BubbleState(Left, Some(Image(url)), [], [ImageView(Image(url)), Spacer])]
    {
      AddBubble(None, Some(Image(url)), true);
      assert InitialViews(Left, Some(Image(url)), None) == [ImageView(Image(url)), Spacer];
    }

    /** `stopDelayedResponseTimer()`: the scheduled timer, if any, is
        invalidated and the slot emptied; no timer is left pending. */
    method StopDelayedResponseTimer()
      requires Valid()
      modifies this`delayedResponseTimer, this`pendingTimers
      ensures Valid()
      ensures delayedResponseTimer == None && pendingTimers == 0
    {
      if delayedResponseTimer.Some? {
        pendingTimers := pendingTimers - 1;
      }
      delayedResponseTimer := None;
    }

    /** The delayed response timer fires: the timer is stopped and an empty
        turn is sent, so the bot may speak again on its own. */
    method DelayedResponseTimerFired()
      requires Valid() && delayedResponseTimer.Some?
      modifies this`delayedResponseTimer, this`pendingTimers, this`outbox
      ensures Valid()
      ensures delayedResponseTimer == None && pendingTimers == 0
      ensures outbox == old(outbox) + [SendCall(bot.webAPIKey, bot.projectID, bot.conversation, None)]
    {
      StopDelayedResponseTimer();
      Send(None);
    }

    /** `send(text:)`: a turn with the text when the bot has a conversation,
        otherwise a new conversation is started (and the text is not sent). */
    method Send(text: Option<string>)
      modifies this`outbox
      ensures outbox == old(outbox) + [SendCall(bot.webAPIKey, bot.projectID, bot.conversation, text)]
    {
      if bot.conversation.Some? {
        SayTo(bot.conversation.value, text);
      } else {
        StartConversation();
      }
    }

    /** `bot.say(text:uuid:)`: a turn with the text, and nothing else, in
        the conversation `uuid`. */
    method SayTo(uuid: string, text: Option<string>)
      modifies this`outbox
      ensures outbox == old(outbox) + [TurnCall(SayRequest(bot.webAPIKey, uuid, text))]
    {
      var request := Say(bot.webAPIKey, text, uuid, None, None, None);
      SayRequestOnly(request, bot.webAPIKey, uuid, text);
      outbox := outbox + [TurnCall(request)];
    }

    /** `sendInput()`: a non-empty text field is sent; the pending timer is
        stopped, the text is added as the human's bubble, sent, and the field
        cleared. An empty or absent text changes nothing. */
    method SendInput()
      requires Valid()
      modifies this`bubbles, this`lastChatBubble, this`outbox, this`delayedResponseTimer, this`pendingTimers, this`textFieldText, bubbles`texts, bubbles`appendedTexts, bubbles`paddedLabelViews, bubbles`arrangedSubviews
      ensures Valid()
      ensures old(textFieldText).None? || |old(textFieldText).value| == 0 ==>
                && Transcript() == old(Transcript()) && outbox == old(outbox) && textFieldText == old(textFieldText)
                && delayedResponseTimer == old(delayedResponseTimer) && pendingTimers == old(pendingTimers)
      ensures old(textFieldText).Some? && |old(textFieldText).value| > 0 ==>
                && delayedResponseTimer == None && pendingTimers == 0
                && Transcript() == Merge(old(Transcript()), old(textFieldText), None, Right)
                && outbox == old(outbox) + [SendCall(bot.webAPIKey, bot.projectID, bot.conversation, old(textFieldText))]
                && textFieldText == None
      ensures sendButtonEnabled == old(sendButtonEnabled)
    {
      if textFieldText.None? || |textFieldText.value| == 0 {
        return;
      }
      SendText(textFieldText.value);
    }

    /** `sendInput()` past its guard. */
    method SendText(text: string)
      requires Valid()
      modifies this`bubbles, this`lastChatBubble, this`outbox, this`delayedResponseTimer, this`pendingTimers, this`textFieldText, bubbles`texts, bubbles`appendedTexts, bubbles`paddedLabelViews, bubbles`arrangedSubviews
      ensures Valid()
      ensures delayedResponseTimer == None && pendingTimers == 0
      ensures Transcript() == Merge(old(Transcript()), Some(text), None, Right)
      ensures outbox == old(outbox) + [SendCall(bot.webAPIKey, bot.projectID, bot.conversation, Some(text))]
      ensures textFieldText == None
    {
      ShowInput(text);
      ghost var shown := Transcript();
      Send(Some(text));
      textFieldText := None;
      assert Transcript() == shown;
    }

    /** The first two steps of `sendInput()` past its guard: the pending
        timer is stopped and the text is added as the human's bubble. */
    method ShowInput(text: string)
      requires Valid()
      modifies this`bubbles, this`lastChatBubble, this`delayedResponseTimer, this`pendingTimers, bubbles`texts, bubbles`appendedTexts, bubbles`paddedLabelViews, bubbles`arrangedSubviews
      ensures Valid()
      ensures delayedResponseTimer == None && pendingTimers == 0
      ensures Transcript() == Merge(old(Transcript()), Some(text), None, Right)
    {
      StopDelayedResponseTimer();
      AddBubble(Some(text), None, false);
    }

    /** `textFieldShouldReturn(_:)`: Return sends the input as the Send
        button does. */
    method TextFieldShouldReturn() returns (r: bool)
      requires Valid()
      modifies this`bubbles, this`lastChatBubble, this`outbox, this`delayedResponseTimer, this`pendingTimers, this`textFieldText, bubbles`texts, bubbles`appendedTexts, bubbles`paddedLabelViews, bubbles`arrangedSubviews
      ensures r && Valid()
      ensures old(textFieldText).None? || |old(textFieldText).value| == 0 ==>
                && Transcript() == old(Transcript()) && outbox == old(outbox) && textFieldText == old(textFieldText)
                && delayedResponseTimer == old(delayedResponseTimer) && pendingTimers == old(pendingTimers)
      ensures old(textFieldText).Some? && |old(textFieldText).value| > 0 ==>
                && delayedResponseTimer == None && pendingTimers == 0
                && Transcript() == Merge(old(Transcript()), old(textFieldText), None, Right)
                && outbox == old(outbox) + [SendCall(bot.webAPIKey, bot.projectID, bot.conversation, old(textFieldText))]
                && textFieldText == None
      ensures sendButtonEnabled == old(sendButtonEnabled)
    {
      SendInput();
      r := true;
    }

    /** `textField(_:shouldChangeCharactersIn:replacementString:)`: the Send
        button is enabled exactly when the edited text is not empty, and the
        edit is allowed, so the field then holds the edited text. */
    method ShouldChangeCharacters(location: nat, length: nat, replacement: string) returns (allowed: bool)
      requires location + length <= |FieldText(textFieldText)|
      modifies this`sendButtonEnabled, this`textFieldText
      ensures allowed
      ensures sendButtonEnabled <==> |replacement| > 0 || length < |FieldText(old(textFieldText))|
      ensures textFieldText == Some(Replaced(FieldText(old(textFieldText)), location, length, replacement))
    {
      var current := FieldText(textFieldText);
      var final := Replaced(current, location, length, replacement);
      SendEnabledAfterEdit(current, location, length, replacement);
      sendButtonEnabled := |final| > 0;
      allowed := true;
      textFieldText := Some(final);
    }

    /** `resumeIfNecessary(bot:)`: an active bot asks the user, who either
        resumes (`ContinueConversation`) or starts over; an inactive bot
        starts a new conversation. */
    method ResumeIfNecessary(choice: ResumeChoice)
      requires Valid()
      modifies this`bubbles, this`lastChatBubble, this`outbox, bubbles`texts, bubbles`appendedTexts, bubbles`paddedLabelViews, bubbles`arrangedSubviews
      ensures Valid()
      ensures bot.active && choice == Resume && bot.conversation.Some? ==>
                && Transcript() == Merge(old(Transcript()), Some(ResumingText), None, Left)
                && outbox == old(outbox) + [TurnCall(SayRequest(bot.webAPIKey, bot.conversation.value, None))]
      ensures !(bot.active && choice == Resume && bot.conversation.Some?) ==>
                && Transcript() == old(Transcript())
                && outbox == old(outbox) + [StartCall(StartRequest(bot.webAPIKey, bot.projectID))]
    {
      if bot.active && choice == Resume {
        ContinueConversation();
      } else {
        StartConversation();
      }
    }

    /** `startConversation(withBot:)`: a start request for the bot's
        project. */
    method StartConversation()
      modifies this`outbox
      ensures outbox == old(outbox) + [StartCall(StartRequest(bot.webAPIKey, bot.projectID))]
    {
      var request := bot.StartConversation();
      outbox := outbox + [StartCall(request)];
    }

    /** `continueConversation(withBot:)`: with a known conversation, a
        "Resuming conversation.." bot bubble and an empty turn; without one,
        a new conversation is started instead. */
    method ContinueConversation()
      requires Valid()
      modifies this`bubbles, this`lastChatBubble, this`outbox, bubbles`texts, bubbles`appendedTexts, bubbles`paddedLabelViews, bubbles`arrangedSubviews
      ensures Valid()
      ensures bot.conversation.Some? ==>
                && Transcript() == Merge(old(Transcript()), Some(ResumingText), None, Left)
                && outbox == old(outbox) + [TurnCall(SayRequest(bot.webAPIKey, bot.conversation.value, None))]
      ensures bot.conversation.None? ==>
                && Transcript() == old(Transcript())
                && outbox == old(outbox) + [StartCall(StartRequest(bot.webAPIKey, bot.projectID))]
    {
      if bot.conversation.None? {
        StartConversation();
        return;
      }
      var uuid := bot.conversation.value;
      AddBubble(Some(ResumingText), None, true);
      ghost var shown := Transcript();
      SayTo(uuid, None);
      assert Transcript() == shown;
    }

    /** The completion of a start request: the bot is active exactly when
        there was no error, and a response, when there is one, is
        processed. */
    method StartCompleted(json: Option<JsonObject>, error: Option<Error>)
      requires Valid()
      modifies this`bubbles, this`lastChatBubble, this`outbox, this`delayedResponseTimer, this`pendingTimers, bubbles`texts, bubbles`appendedTexts, bubbles`paddedLabelViews, bubbles`arrangedSubviews, bot`active, bot`conversation
      ensures Valid()
      ensures bot.active <==> error.None?
      ensures json.None? ==> && bot.conversation == old(bot.conversation) && Transcript() == old(Transcript())
                             && outbox == old(outbox) && delayedResponseTimer == old(delayedResponseTimer)
      ensures json.Some? ==> && bot.conversation == StringField(json.value, "conversation")
                             && Transcript() == AfterOutputs(old(Transcript()), OutputsOf(json.value))
                             && outbox == old(outbox) + ImageLoads(OutputsOf(json.value))
                             && (old(delayedResponseTimer).Some? ==> delayedResponseTimer == old(delayedResponseTimer))
                             && (old(delayedResponseTimer).None? ==>
                                   delayedResponseTimer == (if NumberField(json.value, "timed_response_interval").Some?
                                                            then Some(Timer(NumberField(json.value, "timed_response_interval").value))
                                                            else None))
    {
      var response, err := bot.StartCompleted(json, error);
      if response.Some? {
        Process(response.value);
      }
    }

    /** The completion of a turn: a response, when there is one, is
        processed; an error alone changes nothing. */
    method TurnCompleted(json: Option<JsonObject>, error: Option<Error>)
      requires Valid()
      modifies this`bubbles, this`lastChatBubble, this`outbox, this`delayedResponseTimer, this`pendingTimers, bubbles`texts, bubbles`appendedTexts, bubbles`paddedLabelViews, bubbles`arrangedSubviews, bot`conversation
      ensures Valid()
      ensures json.None? ==> && bot.conversation == old(bot.conversation) && Transcript() == old(Transcript())
                             && outbox == old(outbox) && delayedResponseTimer == old(delayedResponseTimer)
      ensures json.Some? ==> && bot.conversation == StringField(json.value, "conversation")
                             && Transcript() == AfterOutputs(old(Transcript()), OutputsOf(json.value))
                             && outbox == old(outbox) + ImageLoads(OutputsOf(json.value))
                             && (old(delayedResponseTimer).Some? ==> delayedResponseTimer == old(delayedResponseTimer))
                             && (old(delayedResponseTimer).None? ==>
                                   delayedResponseTimer == (if NumberField(json.value, "timed_response_interval").Some?
                                                            then Some(Timer(NumberField(json.value, "timed_response_interval").value))
                                                            else None))
    {
      if json.Some? {
        Process(json.value);
      }
    }

    /** The merge branch: the text is appended to the last bubble in place. */
    method AppendToLast(text: string)
      requires Valid() && lastChatBubble != null
      modifies lastChatBubble`texts, lastChatBubble`appendedTexts, lastChatBubble`paddedLabelViews, lastChatBubble`arrangedSubviews
      ensures Valid()
      ensures Transcript() == old(Transcript()[..|bubbles| - 1]) + [Appended(old(State(lastChatBubble)), text)]
    {
      var last := lastChatBubble;
      ghost var init := bubbles[..|bubbles| - 1];
      SplitLast(bubbles);
      StatesPrefix(init, last);
      ghost var before := States(init);
      AppendShown(last, text);
      assert States(init) == before;
      StatesSnoc(init, last);
      assert forall b | b in init :: b.Valid();
    }

    /** The other branch: a new bubble is created and becomes the last one. */
    method AddNew(direction: Direction, color: Color, image: Option<Image>, text: Option<string>, textColor: Color)
      returns (chatBubble: ChatBubble)
      requires Valid()
      modifies this`bubbles, this`lastChatBubble
      ensures Valid()
      ensures fresh(chatBubble) && bubbles == old(bubbles) + [chatBubble]
      ensures chatBubble.color == color && chatBubble.textColor == Some(textColor)
      ensures Transcript() == old(Transcript()) + [NewState(direction, image, text)]
    {
      chatBubble := NewBubble(direction, color, image, text, textColor);
      Push(chatBubble);
    }

    /** A valid bubble not yet on screen goes at the end and becomes the
        last one. */
    method Push(chatBubble: ChatBubble)
      requires Valid() && chatBubble.Valid() && chatBubble !in bubbles
      modifies this`bubbles, this`lastChatBubble
      ensures Valid()
      ensures bubbles == old(bubbles) + [chatBubble]
      ensures Transcript() == old(Transcript()) + [State(chatBubble)]
    {
      DistinctSnoc(bubbles, chatBubble);
      StatesSnoc(bubbles, chatBubble);
      bubbles := bubbles + [chatBubble];
      lastChatBubble := chatBubble;
    }
  }

  /** `append(text:)` as `addBubble` calls it: the bubble shows the text as
      one more label at the end. */
  method AppendShown(b: ChatBubble, text: string)
    requires b.Valid()
    modifies b`texts, b`appendedTexts, b`paddedLabelViews, b`arrangedSubviews
    ensures b.Valid()
    ensures State(b) == Appended(old(State(b)), text)
  {
    b.Append(text);
  }

  /** `ChatBubble(direction:color:image:text:textColor:)` as `addBubble`
      calls it: a new, valid bubble showing the image and the text. */
  method NewBubble(direction: Direction, color: Color, image: Option<Image>, text: Option<string>, textColor: Color)
    returns (b: ChatBubble)
    ensures fresh(b) && b.Valid()
    ensures b.direction == direction && b.color == color && b.textColor == Some(textColor)
    ensures State(b) == NewState(direction, image, text)
  {
    b := new ChatBubble(direction, color, image, text, Some(textColor));
  }

  /** No bubble is on screen twice: each is new to the ones before it. */
  ghost predicate Distinct(bs: seq<ChatBubble>)
  {
    |bs| == 0 || (Distinct(bs[..|bs| - 1]) && bs[|bs| - 1] !in bs[..|bs| - 1])
  }

  lemma DistinctSnoc(bs: seq<ChatBubble>, b: ChatBubble)
    requires Distinct(bs) && b !in bs
    ensures Distinct(bs + [b])
  {
    assert (bs + [b])[..|bs|] == bs;
  }

  lemma StatesSnoc(bs: seq<ChatBubble>, b: ChatBubble)
    ensures States(bs + [b]) == States(bs) + [State(b)]
  {
    assert (bs + [b])[..|bs|] == bs;
  }

  lemma {:induction false} StatesAt(bs: seq<ChatBubble>, i: nat)
    requires i < |bs|
    ensures States(bs)[i] == State(bs[i])
    decreases |bs|
  {
    if i < |bs| - 1 {
      StatesAt(bs[..|bs| - 1], i);
    }
  }

  /** A list of distinct bubbles is the ones before its last and the last,
      which is not among them. */
  lemma SplitLast(bs: seq<ChatBubble>)
    requires |bs| > 0 && Distinct(bs)
    ensures bs == bs[..|bs| - 1] + [bs[|bs| - 1]]
    ensures bs[|bs| - 1] !in bs[..|bs| - 1]
  {
  }

  lemma StatesPrefix(bs: seq<ChatBubble>, b: ChatBubble)
    ensures States(bs + [b])[..|bs|] == States(bs)
  {
    StatesSnoc(bs, b);
  }
}
