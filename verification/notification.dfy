/** The Discord webhook message a review sends. Only the message is
    modelled: which of the two configured webhooks it goes to, the bot
    name and avatar, and the embed. Posting it is best-effort I/O whose
    failure never changes the review's reply, and the locale text of the
    review date is supplied by the caller. */
module Notification {
  import opened Schema

  datatype Channel = AcceptedWebhook | DeniedWebhook

  datatype Field = Field(name: string, value: string, inline: bool)

  datatype Embed = Embed(title: string, description: string, color: nat, fields: seq<Field>)

  datatype WebhookMessage = WebhookMessage(channel: Channel, username: string, avatarUrl: string, embed: Embed)

  const AcceptedColor: nat := 0x10B981
  const DeniedColor: nat := 0xEF4444
  const AcceptedBotName: string := "Accepted Applications Bot"
  const DeniedBotName: string := "Denied Applications Bot"
  const AcceptedAvatarUrl: string := "https://placehold.co/128x128/10B981/FFFFFF?text=✓"
  const DeniedAvatarUrl: string := "https://placehold.co/128x128/EF4444/FFFFFF?text=✗"

  /** `toUpperCase` on one character, for the ASCII letters. */
  function UpperChar(c: char): (u: char)
    ensures 'a' <= c <= 'z' ==> 'A' <= u <= 'Z' && u as int == c as int - 32
    ensures !('a' <= c <= 'z') ==> u == c
  {
    if 'a' <= c <= 'z' then (c as int - 32) as char else c
  }

  /** `s.charAt(0).toUpperCase() + s.slice(1)`. */
  function Capitalize(s: string): (r: string)
    ensures |r| == |s|
    ensures |s| > 0 ==> r[0] == UpperChar(s[0]) && r[1..] == s[1..]
  {
    if s == [] then [] else [UpperChar(s[0])] + s[1..]
  }

  /** The capitalised status text of a decision. */
  lemma CapitalizedDecision(decision: AppStatus)
    requires decision != Pending
    ensures Capitalize(StatusName(decision)) == if decision == Accepted then "Accepted" else "Rejected"
  {
    var s := StatusName(decision);
    assert UpperChar(s[0]) == if decision == Accepted then 'A' else 'R';
    assert s[1..] == if decision == Accepted then "ccepted" else "ejected";
  }

  /** A reviewer field of the document interpolated into a template string:
      a field never set on the document (None here) prints as "undefined". */
  function Text(o: Option<string>): string {
    if o.Some? then o.value else "undefined"
  }

  /** The embed fields: who applied, which document, who reviewed and
      when, and a "Reason" field last only when the stored reason is truthy. */
  function ReviewFields(app: Application, idText: string, dateText: string): (fs: seq<Field>)
    ensures |fs| == (if Truthy(app.reviewReason) then 5 else 4)
    ensures fs[0] == Field("Discord ID", app.discordId, true)
    ensures fs[1] == Field("Application ID", idText, true)
    ensures fs[2] == Field("Reviewed By", Text(app.reviewedByUsername) + " (" + Text(app.reviewedByDiscordId) + ")", true)
    ensures fs[3] == Field("Review Date", if app.reviewTimestamp.Some? then dateText else "N/A", true)
    ensures Truthy(app.reviewReason) ==> fs[4] == Field("Reason", app.reviewReason.value, false)
  {
    var base := [
      Field("Discord ID", app.discordId, true),
      Field("Application ID", idText, true),
      Field("Reviewed By", Text(app.reviewedByUsername) + " (" + Text(app.reviewedByDiscordId) + ")", true),
      Field("Review Date", if app.reviewTimestamp.Some? then dateText else "N/A", true)
    ];
    if Truthy(app.reviewReason) then base + [Field("Reason", app.reviewReason.value, false)] else base
  }

  /** The embed title, from the capitalised decision. */
  function Title(decision: AppStatus): (title: string)
    requires decision != Pending
    ensures title == if decision == Accepted then "Application Accepted!" else "Application Rejected!"
  {
    CapitalizedDecision(decision);
    "Application " + Capitalize(StatusName(decision)) + "!"
  }

  /** The webhook message for a reviewed application `app` (the document as
      updated) and the decision; `idText` is the printed document id and
      `dateText` the printed review date. */
  function ReviewNotification(app: Application, decision: AppStatus, idText: string, dateText: string)
    : (m: WebhookMessage)
    requires decision != Pending
    ensures m.channel == (if decision == Accepted then AcceptedWebhook else DeniedWebhook)
    ensures m.embed.color == (if decision == Accepted then AcceptedColor else DeniedColor)
    ensures m.embed.title == (if decision == Accepted then "Application Accepted!" else "Application Rejected!")
    ensures m.username == (if decision == Accepted then AcceptedBotName else DeniedBotName)
    ensures m.avatarUrl == (if decision == Accepted then AcceptedAvatarUrl else DeniedAvatarUrl)
    ensures m.embed.description ==
              "**Applicant:** " + app.username + "\n**Application Type:** " + Capitalize(app.applicationType) +
              "\n**Status:** " + (if decision == Accepted then "Accepted" else "Rejected")
    ensures m.embed.fields == ReviewFields(app, idText, dateText)
  {
    CapitalizedDecision(decision);
    var status := Capitalize(StatusName(decision));
    var accepted := decision == Accepted;
    WebhookMessage(
      if accepted then AcceptedWebhook else DeniedWebhook,
      if accepted then AcceptedBotName else DeniedBotName,
      if accepted then AcceptedAvatarUrl else DeniedAvatarUrl,
      Embed(
        Title(decision),
        "**Applicant:** " + app.username + "\n**Application Type:** " + Capitalize(app.applicationType) +
        "\n**Status:** " + status,
        if accepted then AcceptedColor else DeniedColor,
        ReviewFields(app, idText, dateText)))
  }
}
