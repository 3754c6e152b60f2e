/**
  The bot gallery: it asks the configuration bot for the list of bots (a
  start, then the text "bots" on the conversation the start opened), turns
  each output line of the answer, "name, project id", into a bot, and lists
  the bots one per table row.
 */
module Gallery {
  import opened Json
  import opened Conversation
  import opened Strings
  import opened Bot

  const GalleryWebAPIKey: string := "WEB_API_KEY"
  const ConfigBotProjectID: string := "CONFIG_BOT_PROJECT_ID"

  /** The text the configuration bot answers with its bot list. */
  const BotsRequestText: string := "bots"

  const Separator: char := ','

  /** What one output line contributes to the gallery. */
  datatype BotEntry = BotEntry(name: string, projectID: string)

  /** An output line yields a bot when its text holds at least one comma; the
      name is the trimmed piece before the first comma and the project id the
      trimmed piece after it, up to the next comma if any. */
  function ParseLine(line: JsonObject): (r: Option<BotEntry>)
    ensures r.Some? <==> StringField(line, "text").Some? && Separator in line["text"].s
  {
    match StringField(line, "text")
    case None => None
    case Some(text) =>
      var components := Split(text, Separator);
      SplitHasTwoParts(text, Separator);
      if |components| >= 2 then Some(BotEntry(Trim(components[0]), Trim(components[1]))) else None
  }

  /** The line a bot list is written in: name, comma, space, project id. */
  function Format(e: BotEntry): string
  {
    e.name + [Separator] + " " + e.projectID
  }

  /** Whatever follows the name and the project id (nothing, or more
      comma-separated pieces) is ignored. */
  lemma ParseLineOf(line: JsonObject, name: string, projectID: string, rest: string)
    requires Separator !in name && Separator !in projectID
    requires rest == "" || rest[0] == Separator
    requires "text" in line && line["text"] == Str(name + [Separator] + projectID + rest)
    ensures ParseLine(line) == Some(BotEntry(Trim(name), Trim(projectID)))
  {
    SplitFirstTwo(name, projectID, rest, Separator);
  }

  /** A bot written as a line parses back to the same bot, provided its name
      and project id hold no comma and have no whitespace at either end. */
  lemma ParseFormat(line: JsonObject, e: BotEntry)
    requires Separator !in e.name && Separator !in e.projectID
    requires Trimmed(e.name) && Trimmed(e.projectID)
    requires "text" in line && line["text"] == Str(Format(e))
    ensures ParseLine(line) == Some(e)
  {
    var id := " " + e.projectID;
    assert Format(e) == e.name + [Separator] + id + "";
    ParseLineOf(line, e.name, id, "");
    TrimTrimmed(e.name);
    TrimTrimmed(e.projectID);
  }

  /** `f` applied to each element in turn, keeping the present results, in
      order. */
  function FilterMap<T, U>(xs: seq<T>, f: T -> Option<U>): seq<U>
  {
    if |xs| == 0 then []
    else FilterMap(xs[..|xs| - 1], f) + (match f(xs[|xs| - 1]) case Some(y) => [y] case None => [])
  }

  /** Filtering two runs is filtering each run and concatenating. */
  lemma {:induction false} FilterMapAppend<T, U>(a: seq<T>, b: seq<T>, f: T -> Option<U>)
    ensures FilterMap(a + b, f) == FilterMap(a, f) + FilterMap(b, f)
    decreases |b|
  {
    if |b| == 0 {
      assert a + b == a;
    } else {
      var b' := b[..|b| - 1];
      assert (a + b)[..|a + b| - 1] == a + b';
      assert (a + b)[|a + b| - 1] == b[|b| - 1];
      FilterMapAppend(a, b', f);
    }
  }

  /** A value is kept exactly when some element yields it, and nothing is
      added: there are never more results than elements. */
  lemma {:induction false} FilterMapMembers<T, U>(xs: seq<T>, f: T -> Option<U>, y: U)
    ensures |FilterMap(xs, f)| <= |xs|
    ensures y in FilterMap(xs, f) <==> exists i | 0 <= i < |xs| :: f(xs[i]) == Some(y)
    decreases |xs|
  {
    if |xs| > 0 {
      var init := xs[..|xs| - 1];
      FilterMapMembers(init, f, y);
      if y in FilterMap(xs, f) {
        if y in FilterMap(init, f) {
          var i :| 0 <= i < |init| && f(init[i]) == Some(y);
          assert xs[i] == init[i];
        } else {
          assert f(xs[|xs| - 1]) == Some(y);
        }
      }
      if exists i | 0 <= i < |xs| :: f(xs[i]) == Some(y) {
        var i :| 0 <= i < |xs| && f(xs[i]) == Some(y);
        if i < |init| {
          assert init[i] == xs[i];
        }
      }
    }
  }

  /** The bots a list of output lines yields, in output order. */
  function ParseBots(outputs: seq<JsonObject>): seq<BotEntry>
  {
    FilterMap(outputs, ParseLine)
  }

  /** Parsing two runs of lines is parsing each run and concatenating. */
  lemma ParseBotsAppend(a: seq<JsonObject>, b: seq<JsonObject>)
    ensures ParseBots(a + b) == ParseBots(a) + ParseBots(b)
  {
    FilterMapAppend(a, b, ParseLine);
  }

  /** A bot is in the parsed list exactly when some output line yields it,
      and there are never more bots than lines. */
  lemma ParseBotsMembers(outputs: seq<JsonObject>, e: BotEntry)
    ensures |ParseBots(outputs)| <= |outputs|
    ensures e in ParseBots(outputs) <==> exists i | 0 <= i < |outputs| :: ParseLine(outputs[i]) == Some(e)
  {
    FilterMapMembers(outputs, ParseLine, e);
  }

  /** `bots` are new, inactive bots without a conversation, one per entry of
      `entries` and in the same order, each under `webAPIKey`. */
  ghost predicate BotsFor(bots: seq<PullStringBot>, entries: seq<BotEntry>, webAPIKey: string)
    reads bots
  {
    && |bots| == |entries|
    && (forall i | 0 <= i < |bots| ::
          && bots[i].name == entries[i].name
          && bots[i].projectID == entries[i].projectID
          && bots[i].webAPIKey == webAPIKey
          && !bots[i].active
          && bots[i].conversation == None)
    && (forall i, j | 0 <= i < j < |bots| :: bots[i] != bots[j])
  }

  lemma BotsForSnoc(bots: seq<PullStringBot>, entries: seq<BotEntry>, webAPIKey: string, bot: PullStringBot, e: BotEntry)
    requires BotsFor(bots, entries, webAPIKey)
    requires bot !in bots
    requires bot.name == e.name && bot.projectID == e.projectID && bot.webAPIKey == webAPIKey
    requires !bot.active && bot.conversation == None
    ensures BotsFor(bots + [bot], entries + [e], webAPIKey)
  {
  }

  class BotGalleryViewController {
    const webAPIKey: string
    const configBotProjectID: string
    const configBot: PullStringBot
    var botList: seq<PullStringBot>

    constructor ()
      ensures webAPIKey == GalleryWebAPIKey && configBotProjectID == ConfigBotProjectID
      ensures fresh(configBot)
      ensures configBot.name == ConfigBotName
      ensures configBot.projectID == configBotProjectID && configBot.webAPIKey == webAPIKey
      ensures !configBot.active && configBot.conversation == None
      ensures botList == []
    {
      webAPIKey := GalleryWebAPIKey;
      configBotProjectID := ConfigBotProjectID;
      configBot := new PullStringBot.ConfigBot(GalleryWebAPIKey, ConfigBotProjectID);
      botList := [];
    }

    /** The first step of `askConfigBotForListOfBots`: the configuration bot
        starts a conversation with its own project. */
    method AskConfigBotForListOfBots() returns (request: Request)
      ensures IsStartRequest(request, configBot.webAPIKey, StartArgs(configBot.projectID, None, None, None))
      ensures request == StartRequest(configBot.webAPIKey, configBot.projectID)
    {
      request := configBot.StartConversation();
    }

    /** The start completes: the configuration bot records whether it is
        active, and "bots" is said to the conversation the response names,
        when it names one as a string; otherwise nothing more is sent. */
    method ConfigBotStarted(response: Option<JsonObject>, error: Option<Error>) returns (next: Option<Request>)
      modifies configBot`active
      ensures configBot.active <==> error.None?
      ensures next.Some? <==> response.Some? && StringField(response.value, "conversation").Some?
      ensures next.Some? ==>
                && IsTurnRequest(next.value, configBot.webAPIKey, response.value["conversation"].s,
                                 SayArgs(Some(BotsRequestText), None, None, None))
                && next.value == SayRequest(configBot.webAPIKey, response.value["conversation"].s, Some(BotsRequestText))
    {
      var json, _ := configBot.StartCompleted(response, error);
      next := None;
      if json.Some? {
        var uuid := StringField(json.value, "conversation");
        if uuid.Some? {
          var request := Say(configBot.webAPIKey, Some(BotsRequestText), uuid.value, None, None, None);
          SayRequestOnly(request, configBot.webAPIKey, uuid.value, Some(BotsRequestText));
          next := Some(request);
        }
      }
    }

    /** The answer to "bots" arrives: a response is processed, a missing one
        changes nothing. */
    method BotListReceived(response: Option<JsonObject>, error: Option<Error>)
      modifies this`botList
      ensures response.None? || ObjectArrayField(response.value, "outputs").None? ==> botList == old(botList)
      ensures response.Some? && ObjectArrayField(response.value, "outputs").Some? ==>
                && BotsFor(botList, ParseBots(ObjectArrayField(response.value, "outputs").value), webAPIKey)
                && forall i | 0 <= i < |botList| :: fresh(botList[i])
    {
      if response.Some? {
        ProcessBots(response.value);
      }
    }

    /** `processBots`: with an `outputs` array of dictionaries the list is
        rebuilt from scratch, one new bot per line that parses, in order;
        without one the list is left as it was. */
    method ProcessBots(json: JsonObject)
      modifies this`botList
      ensures ObjectArrayField(json, "outputs").None? ==> botList == old(botList)
      ensures ObjectArrayField(json, "outputs").Some? ==>
                && BotsFor(botList, ParseBots(ObjectArrayField(json, "outputs").value), webAPIKey)
                && forall i | 0 <= i < |botList| :: fresh(botList[i])
    {
      var outputs := ObjectArrayField(json, "outputs");
      if outputs.Some? {
        var lines := outputs.value;
        botList := [];
        var i := 0;
        while i < |lines|
          invariant 0 <= i <= |lines|
          invariant BotsFor(botList, ParseBots(lines[..i]), webAPIKey)
          invariant forall k | 0 <= k < |botList| :: fresh(botList[k])
        {
          assert lines[..i + 1] == lines[..i] + [lines[i]];
          ParseBotsAppend(lines[..i], [lines[i]]);
          var entry := ParseLine(lines[i]);
          if entry.Some? {
            var bot := new PullStringBot(entry.value.name, entry.value.projectID, webAPIKey);
            BotsForSnoc(botList, ParseBots(lines[..i]), webAPIKey, bot, entry.value);
            botList := botList + [bot];
          }
          i := i + 1;
        }
        assert lines[..i] == lines;
      }
    }

    /** `numberOfRowsInSection`: one row per bot. */
    method NumberOfRows() returns (rows: nat)
      ensures rows == |botList|
    {
      rows := |botList|;
    }

    /** `cellForRowAt`: row `row` shows the name of the bot at that position. */
    method CellTitle(row: nat) returns (title: string)
      requires row < |botList|
      ensures title == botList[row].name
    {
      title := botList[row].name;
    }

    /** `didSelectRowAt`: row `row` opens the bot at that position. */
    method DidSelectRow(row: nat) returns (bot: PullStringBot)
      requires row < |botList|
      ensures bot == botList[row]
    {
      bot := botList[row];
    }
  }
}
