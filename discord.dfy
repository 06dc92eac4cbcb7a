/** The Discord integration screen: webhook URL entry and save, and the collapsible setup steps. */
module Discord {
  import opened Wrappers
  import opened Text
  import opened Types
  import opened Auth

  const WebhookPrefix := "https://discord.com/api/webhooks/"
  const InvalidUrlMessage := "Please enter a valid Discord Webhook URL"
  const ProfileUpdatedMessage := "Profile updated successfully!"
  const WebhookSavedMessage := "Webhook saved successfully!"

  /** The body of the save request: the webhook field and nothing else. */
  datatype WebhookPatch = WebhookPatch(discordWebhook: string)

  /** `user.discord_webhook || false`: whether the profile has a webhook string at all. */
  predicate HasWebhook(u: User) {
    u.discordWebhook != ""
  }

  class DiscordIntegration {
    const auth: AuthProvider
    var webhookUrl: string
    var error: string
    var success: bool
    /** The expanded setup step, `None` when all are collapsed. */
    var activeStep: Option<int>
    var isSubmitting: bool
    var webhookEnabled: bool

    constructor (auth: AuthProvider)
      ensures this.auth == auth
      ensures webhookUrl == "" && error == "" && !success && activeStep == None && !isSubmitting
      ensures webhookEnabled == (auth.user.Some? && HasWebhook(auth.user.value))
    {
      this.auth := auth;
      webhookUrl := "";
      error := "";
      success := false;
      activeStep := None;
      isSubmitting := false;
      webhookEnabled := auth.user.Some? && HasWebhook(auth.user.value);
    }

    /** The effect run whenever the context's user changes. */
    method OnUserChanged()
      modifies this`webhookEnabled
      ensures auth.user.Some? ==> webhookEnabled == HasWebhook(auth.user.value)
      ensures auth.user.None? ==> webhookEnabled == old(webhookEnabled)
    {
      if auth.user.Some? {
        webhookEnabled := HasWebhook(auth.user.value);
      }
    }

    method SetWebhookUrl(url: string)
      modifies this`webhookUrl
      ensures webhookUrl == url
    {
      webhookUrl := url;
    }

    /** The clear button inside the input: empties the URL and its error. */
    method ClearInput()
      modifies this`webhookUrl, this`error
      ensures webhookUrl == "" && error == ""
    {
      webhookUrl := "";
      error := "";
    }

    /** A click on setup step `index` expands it, or collapses it when it was the one expanded. */
    method ToggleStep(index: int)
      modifies this`activeStep
      ensures old(activeStep) == Some(index) ==> activeStep == None
      ensures old(activeStep) != Some(index) ==> activeStep == Some(index)
    {
      activeStep := if activeStep == Some(index) then None else Some(index);
    }

    /**
     * `handleSave`. A URL without the webhook prefix is refused with no request. Otherwise only
     * the webhook field is sent and `response` is how the PATCH ends; after either ending the
     * error is cleared and success is set, so a failure's message does not stay on screen.
     */
    method HandleSave(response: AxiosResult<User>) returns (request: Option<WebhookPatch>, notices: seq<Notice>)
      modifies this, auth`user
      ensures webhookUrl == old(webhookUrl) && activeStep == old(activeStep)
      ensures !StartsWith(old(webhookUrl), WebhookPrefix) ==>
        request == None && error == InvalidUrlMessage && !success &&
        notices == [ErrorToast(InvalidUrlMessage)] && auth.user == old(auth.user) &&
        webhookEnabled == old(webhookEnabled) && isSubmitting == old(isSubmitting)
      ensures StartsWith(old(webhookUrl), WebhookPrefix) ==>
        request == Some(WebhookPatch(old(webhookUrl))) && !isSubmitting && error == "" && success
      ensures StartsWith(old(webhookUrl), WebhookPrefix) && response.Resolved? ==>
        auth.user == Some(response.data) && webhookEnabled &&
        notices == [SuccessToast(ProfileUpdatedMessage), SuccessToast(WebhookSavedMessage)]
      ensures StartsWith(old(webhookUrl), WebhookPrefix) && response.Rejected? ==>
        auth.user == old(auth.user) && !webhookEnabled &&
        notices == [ErrorToast(RejectionText(response.serverMessage, response.message)),
                    SuccessToast(WebhookSavedMessage)]
    {
      if !StartsWith(webhookUrl, WebhookPrefix) {
        error := InvalidUrlMessage;
        notices := [ErrorToast(InvalidUrlMessage)];
        success := false;
        request := None;
        return;
      }
      isSubmitting := true;
      request := Some(WebhookPatch(webhookUrl));
      match response {
        case Resolved(data) =>
          auth.SetUser(Some(data));
          webhookEnabled := true;
          notices := [SuccessToast(ProfileUpdatedMessage)];
        case Rejected(serverMessage, message) =>
          var msg := RejectionText(serverMessage, message);
          webhookEnabled := false;
          error := msg;
          notices := [ErrorToast(msg)];
      }
      isSubmitting := false;
      error := "";
      success := true;
      notices := notices + [SuccessToast(WebhookSavedMessage)];
    }
  }

  /**
   * A successful save followed by the user-change effect leaves the flag as the returned
   * profile says: set exactly when the backend echoes a webhook back.
   */
  method SaveThenSync(screen: DiscordIntegration, response: AxiosResult<User>)
    returns (request: Option<WebhookPatch>)
    requires response.Resolved?
    modifies screen, screen.auth`user
    ensures request.Some? ==>
      screen.auth.user == Some(response.data) && screen.webhookEnabled == HasWebhook(response.data)
    ensures request.None? ==> screen.auth.user == old(screen.auth.user)
  {
    var notices;
    request, notices := screen.HandleSave(response);
    if request.Some? {
      screen.OnUserChanged();
    }
  }
}
