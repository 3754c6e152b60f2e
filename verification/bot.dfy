/**
  A PullString bot as the app holds it: its display name, the project it talks
  to, the Web API key it authenticates with, whether its last start succeeded,
  and the id of the conversation the chat screen last heard about.

  `ConfigBot` adds no state or behaviour of its own; it is the named
  constructor `PullStringBot.ConfigBot`, which fixes the name.
 */
module Bot {
  import opened Json
  import opened Conversation

  const ConfigBotName: string := "ConfigBot"

  class PullStringBot {
    var active: bool
    var name: string
    const projectID: string
    var webAPIKey: string
    var conversation: Option<string>

    constructor (name: string, projectID: string, webAPIKey: string)
      ensures this.name == name && this.projectID == projectID && this.webAPIKey == webAPIKey
      ensures !active && conversation == None
    {
      this.active := false;
      this.name := name;
      this.projectID := projectID;
      this.webAPIKey := webAPIKey;
      this.conversation := None;
    }

    /** The configuration bot: the fixed name, and the key and project id in
        their own fields whatever the order they are passed in. */
    constructor ConfigBot(webAPIKey: string, projectID: string)
      ensures name == ConfigBotName
      ensures this.projectID == projectID && this.webAPIKey == webAPIKey
      ensures !active && conversation == None
    {
      this.active := false;
      this.name := ConfigBotName;
      this.projectID := projectID;
      this.webAPIKey := webAPIKey;
      this.conversation := None;
    }

    /** `startConversation`: a start request for the bot's own project, with
        none of the optional fields, under the bot's own key. Nothing about
        the bot changes until the completion arrives. */
    method StartConversation() returns (request: Request)
      ensures IsStartRequest(request, webAPIKey, StartArgs(projectID, None, None, None))
      ensures request == StartRequest(webAPIKey, projectID)
    {
      request := Start(webAPIKey, projectID, None, None, None);
      StartRequestOnly(request, webAPIKey, projectID);
    }

    /** The completion of `startConversation`: the bot is active exactly when
        there was no transport error, whatever the json holds, and the caller
        receives the json and the error as they came. */
    method StartCompleted(json: Option<JsonObject>, error: Option<Error>)
      returns (response: Option<JsonObject>, err: Option<Error>)
      modifies this`active
      ensures active <==> error.None?
      ensures response == json && err == error
    {
      active := error.None?;
      response := json;
      err := error;
    }
  }
}
